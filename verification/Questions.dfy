/** Asking for permission: an accepted output asks each pending target exactly once, each question under the
    control version the one before it left behind. */
module Questions {
  import opened Prelude

  const MAX_INTENTS: nat := 64

  datatype Target = Target(owner: string, constraint: string, version: nat)
  datatype Intent = Malformed | Intent(target: Target, adjustment: nat)
  datatype Question = Question(target: Target, adjustment: nat, under: nat)

  // ----- identities

  function Digit(d: nat): char
    requires d < 10
  {
    "0123456789"[d]
  }

  function Decimal(n: nat): (r: string)
    ensures |r| > 0
  {
    if n < 10 then [Digit(n)] else Decimal(n / 10) + [Digit(n % 10)]
  }

  function Identity(t: Target): string {
    t.owner + "/" + t.constraint + "/" + Decimal(t.version)
  }

  lemma {:induction false} DecimalInjective(a: nat, b: nat)
    requires Decimal(a) == Decimal(b)
    ensures a == b
    decreases a
  {
    assert Decimal(a)[|Decimal(a)| - 1] == Digit(a % 10);
    assert Decimal(b)[|Decimal(b)| - 1] == Digit(b % 10);
    DigitInjective(a % 10, b % 10);
    if a >= 10 && b >= 10 {
      assert Decimal(a / 10) == Decimal(a)[..|Decimal(a)| - 1];
      assert Decimal(b / 10) == Decimal(b)[..|Decimal(b)| - 1];
      DecimalInjective(a / 10, b / 10);
    }
  }

  lemma DigitInjective(x: nat, y: nat)
    requires x < 10 && y < 10 && Digit(x) == Digit(y)
    ensures x == y
  {
    assert forall p, q :: 0 <= p < q < 10 ==> "0123456789"[p] != "0123456789"[q];
  }

  /** The part before the first slash is determined, and so is the rest. */
  lemma SplitAtSlash(a: string, b: string, c: string, d: string)
    requires '/' !in a && '/' !in c && a + "/" + b == c + "/" + d
    ensures a == c && b == d
  {
    var left, right := a + "/" + b, c + "/" + d;
    assert left[|a|] == '/' && right[|c|] == '/';
    assert |a| == |c| by {
      assert forall k :: 0 <= k < |c| ==> right[k] == c[k];
      assert forall k :: 0 <= k < |a| ==> left[k] == a[k];
    }
    assert a == left[..|a|] && c == right[..|c|];
    assert b == left[|a| + 1..] && d == right[|c| + 1..];
  }

  predicate PlainIds(t: Target) { '/' !in t.owner && '/' !in t.constraint }

  lemma IdentityInjective(t: Target, u: Target)
    requires PlainIds(t) && PlainIds(u) && Identity(t) == Identity(u)
    ensures t == u
  {
    var x, y := t.constraint + "/" + Decimal(t.version), u.constraint + "/" + Decimal(u.version);
    assert Identity(t) == t.owner + "/" + x && Identity(u) == u.owner + "/" + y;
    SplitAtSlash(t.owner, x, u.owner, y);
    SplitAtSlash(t.constraint, Decimal(t.version), u.constraint, Decimal(u.version));
    DecimalInjective(t.version, u.version);
  }

  // ----- the loop

  /** The transient state the questions are committed to. */
  class Sandbox {
    var control: nat
    var questions: seq<Question>

    constructor (control: nat)
      ensures this.control == control && questions == []
    {
      this.control, questions := control, [];
    }

    /** A question is committed only under the exact control version it expects, and uses that version up. */
    method Ask(target: Target, adjustment: nat, expected: nat) returns (ok: bool)
      modifies this
      ensures ok <==> old(control) == expected
      ensures ok ==> control == expected + 1 && questions == old(questions) + [Question(target, adjustment, expected)]
      ensures !ok ==> control == old(control) && questions == old(questions)
    {
      if control != expected { return false; }
      questions := questions + [Question(target, adjustment, expected)];
      control := control + 1;
      return true;
    }
  }

  ghost predicate AskedInOrder(intents: seq<Intent>, questions: seq<Question>, base: nat) {
    && |questions| == |intents|
    && forall k :: 0 <= k < |intents| ==>
         intents[k].Intent? && questions[k] == Question(intents[k].target, intents[k].adjustment, base + 1 + k)
  }

  ghost predicate Fitting(targets: seq<Target>, intents: seq<Intent>, k: nat, valid: Intent -> bool)
    requires k < |intents|
  {
    intents[k].Intent? && intents[k].target in targets && valid(intents[k])
  }

  /** Nothing asked twice, as far as the identity strings tell. */
  ghost predicate NoIdentityTwice(intents: seq<Intent>) {
    forall i, j :: 0 <= i < j < |intents| && intents[i].Intent? && intents[j].Intent? ==>
      Identity(intents[i].target) != Identity(intents[j].target)
  }

  ghost predicate Acceptable(targets: seq<Target>, intents: seq<Intent>, valid: Intent -> bool) {
    && 0 < |targets| == |intents| <= MAX_INTENTS
    && (forall k :: 0 <= k < |intents| ==> Fitting(targets, intents, k, valid))
    && NoIdentityTwice(intents)
  }

  /** Questions are asked one by one; the first one that does not fit ends the whole output. */
  method AskAll(sandbox: Sandbox, targets: seq<Target>, intents: seq<Intent>, base: nat, valid: Intent -> bool)
    returns (ok: bool)
    requires sandbox.control == base + 1 && sandbox.questions == []
    modifies sandbox
    ensures ok <==> Acceptable(targets, intents, valid)
    ensures ok ==> AskedInOrder(intents, sandbox.questions, base) && sandbox.control == base + 1 + |targets|
  {
    if |targets| == 0 || |intents| > MAX_INTENTS { return false; }
    var version := base + 1;
    var seen: set<string> := {};
    for k := 0 to |intents|
      invariant version == base + 1 + k && sandbox.control == version
      invariant AskedInOrder(intents[..k], sandbox.questions, base)
      invariant forall j :: 0 <= j < k ==> Fitting(targets, intents, j, valid) && Identity(intents[j].target) in seen
      invariant forall x :: x in seen ==>
                  exists j :: 0 <= j < k && intents[j].Intent? && Identity(intents[j].target) == x
      invariant NoIdentityTwice(intents[..k])
    {
      var intent := intents[k];
      if intent.Malformed? || intent.target !in targets {
        assert !Fitting(targets, intents, k, valid);
        return false;
      }
      var identity := Identity(intent.target);
      if identity in seen { return false; }
      seen := seen + {identity};
      if !valid(intent) {
        assert !Fitting(targets, intents, k, valid);
        return false;
      }
      var asked := sandbox.Ask(intent.target, intent.adjustment, version);
      assert asked;
      version := version + 1;
      assert intents[..k + 1] == intents[..k] + [intent];
    }
    assert intents[..|intents|] == intents;
    return |intents| == |targets|;
  }

  // ----- what acceptance means

  function TargetsOf(intents: seq<Intent>): (r: seq<Target>)
    requires forall k :: 0 <= k < |intents| ==> intents[k].Intent?
    ensures |r| == |intents| && forall k :: 0 <= k < |r| ==> r[k] == intents[k].target
  {
    seq(|intents|, k requires 0 <= k < |intents| => intents[k].target)
  }

  /** As many distinct items, all taken from a list without repeats, are that list in some order. */
  lemma DistinctSameItems(a: seq<Target>, b: seq<Target>)
    requires Distinct(a) && Distinct(b) && |a| == |b| && forall x :: x in a ==> x in b
    ensures multiset(a) == multiset(b)
  {
    SameElements(a, b);
    forall x ensures multiset(a)[x] == multiset(b)[x] {
      DistinctCount(a, x);
      DistinctCount(b, x);
      assert x in Elements(a) <==> x in Elements(b);
    }
  }

  lemma {:induction false} DistinctCount(items: seq<Target>, x: Target)
    requires Distinct(items)
    ensures multiset(items)[x] == if x in items then 1 else 0
  {
    if items != [] {
      DistinctCount(items[1..], x);
      assert items == [items[0]] + items[1..];
      assert items[0] !in items[1..];
    }
  }

  /** An output is accepted exactly when its intents are the pending targets in some order, each with a valid
      adjustment: none missing, none twice, none foreign. */
  lemma AcceptedExactly(targets: seq<Target>, intents: seq<Intent>, valid: Intent -> bool)
    requires Distinct(targets) && 0 < |targets| <= MAX_INTENTS && forall t :: t in targets ==> PlainIds(t)
    ensures Acceptable(targets, intents, valid) <==>
              && (forall k :: 0 <= k < |intents| ==> intents[k].Intent? && valid(intents[k]))
              && multiset(TargetsOf(intents)) == multiset(targets)
  {
    if Acceptable(targets, intents, valid) {
      AcceptedIsPermutation(targets, intents, valid);
    }
    if (forall k :: 0 <= k < |intents| ==> intents[k].Intent? && valid(intents[k]))
       && multiset(TargetsOf(intents)) == multiset(targets) {
      PermutationIsAccepted(targets, intents, valid);
    }
  }

  lemma AcceptedIsPermutation(targets: seq<Target>, intents: seq<Intent>, valid: Intent -> bool)
    requires Distinct(targets) && Acceptable(targets, intents, valid)
    ensures forall k :: 0 <= k < |intents| ==> intents[k].Intent? && valid(intents[k])
    ensures multiset(TargetsOf(intents)) == multiset(targets)
  {
    forall k | 0 <= k < |intents| ensures intents[k].Intent? && valid(intents[k]) {
      assert Fitting(targets, intents, k, valid);
    }
    var asked := TargetsOf(intents);
    assert forall k :: 0 <= k < |asked| ==> Fitting(targets, intents, k, valid) ==> asked[k] in targets;
    DistinctSameItems(asked, targets);
  }

  lemma PermutationIsAccepted(targets: seq<Target>, intents: seq<Intent>, valid: Intent -> bool)
    requires Distinct(targets) && 0 < |targets| <= MAX_INTENTS && forall t :: t in targets ==> PlainIds(t)
    requires forall k :: 0 <= k < |intents| ==> intents[k].Intent? && valid(intents[k])
    requires multiset(TargetsOf(intents)) == multiset(targets)
    ensures Acceptable(targets, intents, valid)
  {
    var asked := TargetsOf(intents);
    assert |asked| == |multiset(asked)| && |targets| == |multiset(targets)|;
    forall k | 0 <= k < |intents| ensures Fitting(targets, intents, k, valid) {
      assert asked[k] in multiset(asked);
    }
    forall i, j | 0 <= i < j < |intents| ensures Identity(intents[i].target) != Identity(intents[j].target) {
      assert Fitting(targets, intents, i, valid) && Fitting(targets, intents, j, valid);
      CountedTwice(asked, i, j);
      DistinctCount(targets, asked[i]);
      if Identity(asked[i]) == Identity(asked[j]) { IdentityInjective(asked[i], asked[j]); }
    }
  }

  lemma CountedTwice(items: seq<Target>, i: nat, j: nat)
    requires i < j < |items|
    ensures items[i] == items[j] ==> multiset(items)[items[i]] >= 2
  {
    assert items == items[..i] + [items[i]] + items[i + 1..j] + [items[j]] + items[j + 1..];
  }
}
