/** Exhaustive evaluation of a small public frame: every combination of its options, each exactly once. */
module EnumCatalog {
  import opened Prelude

  type Id = nat

  const LIMIT: nat := 16

  /** The options are present exactly for an enumeration. */
  datatype Variable = Variable(id: Id, shown: bool, options: Option<seq<Id>>)
  datatype Assignment = Assignment(variable: Id, option: Id)

  type Enumeration = v: Variable | v.options.Some? witness Variable(0, true, Some([]))

  datatype Status = Valid | Invalid | NeedsPermission | NeedsClarification | Unrecognised
  datatype Counts = Counts(tested: nat, valid: nat, invalid: nat, needsPermission: nat, needsClarification: nat)

  // ----- the combinations

  function Choices(v: Enumeration): seq<Id> { v.options.value }

  function Product(vars: seq<Enumeration>): nat {
    if vars == [] then 1 else Product(vars[..|vars| - 1]) * |Choices(vars[|vars| - 1])|
  }

  /** One partial combination continued with every option of the next variable. */
  function AppendEach(prefix: seq<Assignment>, v: Enumeration): (r: seq<seq<Assignment>>)
    ensures |r| == |Choices(v)| && forall k :: 0 <= k < |r| ==> r[k] == prefix + [Assignment(v.id, Choices(v)[k])]
  {
    seq(|Choices(v)|, k requires 0 <= k < |Choices(v)| => prefix + [Assignment(v.id, Choices(v)[k])])
  }

  function Extend(variants: seq<seq<Assignment>>, v: Enumeration): seq<seq<Assignment>> {
    if variants == [] then []
    else Extend(variants[..|variants| - 1], v) + AppendEach(variants[|variants| - 1], v)
  }

  function Variants(vars: seq<Enumeration>): seq<seq<Assignment>> {
    if vars == [] then [[]] else Extend(Variants(vars[..|vars| - 1]), vars[|vars| - 1])
  }

  /** A full assignment gives every variable, in order, one of its own options. */
  ghost predicate Full(a: seq<Assignment>, vars: seq<Enumeration>) {
    |a| == |vars| && forall k :: 0 <= k < |a| ==> a[k].variable == vars[k].id && a[k].option in Choices(vars[k])
  }

  ghost predicate Continues(a: seq<Assignment>, variants: seq<seq<Assignment>>, v: Enumeration) {
    |a| > 0 && a[..|a| - 1] in variants && a[|a| - 1].variable == v.id && a[|a| - 1].option in Choices(v)
  }

  lemma {:induction false} ExtendSize(variants: seq<seq<Assignment>>, v: Enumeration)
    ensures |Extend(variants, v)| == |variants| * |Choices(v)|
  {
    if variants != [] { ExtendSize(variants[..|variants| - 1], v); }
  }

  lemma AppendEachExactly(prefix: seq<Assignment>, v: Enumeration, a: seq<Assignment>)
    ensures a in AppendEach(prefix, v) <==>
              |a| > 0 && a[..|a| - 1] == prefix && a[|a| - 1].variable == v.id && a[|a| - 1].option in Choices(v)
  {
    var all := AppendEach(prefix, v);
    if a in all {
      var k :| 0 <= k < |all| && all[k] == a;
      assert a[..|a| - 1] == prefix;
    }
    if |a| > 0 && a[..|a| - 1] == prefix && a[|a| - 1].variable == v.id && a[|a| - 1].option in Choices(v) {
      var k :| 0 <= k < |Choices(v)| && Choices(v)[k] == a[|a| - 1].option;
      assert a == prefix + [Assignment(v.id, Choices(v)[k])] == all[k];
    }
  }

  lemma {:induction false} ExtendExactly(variants: seq<seq<Assignment>>, v: Enumeration, a: seq<Assignment>)
    ensures a in Extend(variants, v) <==> Continues(a, variants, v)
  {
    if variants != [] {
      var n := |variants| - 1;
      ExtendExactly(variants[..n], v, a);
      AppendEachExactly(variants[n], v, a);
      assert variants == variants[..n] + [variants[n]];
      assert a in Extend(variants, v) <==> a in Extend(variants[..n], v) || a in AppendEach(variants[n], v);
    }
  }

  lemma {:induction false} ExtendDistinct(variants: seq<seq<Assignment>>, v: Enumeration)
    requires Distinct(variants) && Distinct(Choices(v))
    ensures Distinct(Extend(variants, v))
  {
    if variants != [] {
      var n := |variants| - 1;
      ExtendDistinct(variants[..n], v);
      var before, added := Extend(variants[..n], v), AppendEach(variants[n], v);
      assert variants[n] !in variants[..n];
      forall a | a in before ensures a !in added {
        ExtendExactly(variants[..n], v, a);
        AppendEachExactly(variants[n], v, a);
      }
      forall i, j | 0 <= i < j < |added| ensures added[i] != added[j] {
        assert added[i][|variants[n]|] == Assignment(v.id, Choices(v)[i]);
        assert added[j][|variants[n]|] == Assignment(v.id, Choices(v)[j]);
      }
      DistinctConcat(before, added);
    }
  }

  lemma DistinctConcat<T(!new)>(a: seq<T>, b: seq<T>)
    requires Distinct(a) && Distinct(b) && forall x :: x in a ==> x !in b
    ensures Distinct(a + b)
  {
    forall i, j | 0 <= i < j < |a + b| ensures (a + b)[i] != (a + b)[j] {
      if i < |a| <= j { assert a[i] in a && b[j - |a|] in b; }
    }
  }

  lemma {:induction false} VariantsSize(vars: seq<Enumeration>)
    ensures |Variants(vars)| == Product(vars)
  {
    if vars != [] {
      VariantsSize(vars[..|vars| - 1]);
      ExtendSize(Variants(vars[..|vars| - 1]), vars[|vars| - 1]);
    }
  }

  lemma FullByLast(a: seq<Assignment>, vars: seq<Enumeration>)
    requires |a| > 0 && vars != []
    ensures var n := |vars| - 1;
            Full(a, vars) <==> Full(a[..|a| - 1], vars[..n]) && a[|a| - 1].variable == vars[n].id
                               && a[|a| - 1].option in Choices(vars[n])
  {
    var n, shorter := |vars| - 1, a[..|a| - 1];
    if Full(shorter, vars[..n]) {
      assert forall k :: 0 <= k < n ==> a[k] == shorter[k] && vars[..n][k] == vars[k];
    }
  }

  lemma {:induction false} VariantsExactly(vars: seq<Enumeration>, a: seq<Assignment>)
    ensures a in Variants(vars) <==> Full(a, vars)
  {
    if vars != [] {
      var n := |vars| - 1;
      ExtendExactly(Variants(vars[..n]), vars[n], a);
      if |a| > 0 {
        VariantsExactly(vars[..n], a[..|a| - 1]);
        FullByLast(a, vars);
      }
    }
  }

  lemma {:induction false} VariantsDistinct(vars: seq<Enumeration>)
    requires forall k :: 0 <= k < |vars| ==> Distinct(Choices(vars[k]))
    ensures Distinct(Variants(vars))
  {
    if vars != [] {
      VariantsDistinct(vars[..|vars| - 1]);
      ExtendDistinct(Variants(vars[..|vars| - 1]), vars[|vars| - 1]);
    }
  }

  /** Once a partial product is over the limit, the whole product is over it, or nothing. */
  lemma {:induction false} OverLimit(vars: seq<Enumeration>, k: nat)
    requires k <= |vars| && Product(vars[..k]) > LIMIT
    ensures Product(vars) == 0 || Product(vars) > LIMIT
    decreases |vars|
  {
    if k == |vars| {
      assert vars[..k] == vars;
    } else {
      var n := |vars| - 1;
      assert vars[..n][..k] == vars[..k];
      OverLimit(vars[..n], k);
      Multiplied(Product(vars[..n]), |Choices(vars[n])|);
    }
  }

  lemma Multiplied(p: nat, c: nat)
    requires p == 0 || p > LIMIT
    ensures p * c == 0 || p * c > LIMIT
  {
    if c > 0 { assert p * c >= p; }
  }

  // ----- the evaluation

  /** How many of the variants get this status. */
  function Tally(variants: seq<seq<Assignment>>, hidden: seq<Assignment>, evaluate: seq<Assignment> -> Status,
                 status: Status): nat {
    if variants == [] then 0
    else Tally(variants[..|variants| - 1], hidden, evaluate, status)
         + (if evaluate(hidden + variants[|variants| - 1]) == status then 1 else 0)
  }

  lemma TallyStep(variants: seq<seq<Assignment>>, k: nat, hidden: seq<Assignment>,
                  evaluate: seq<Assignment> -> Status, status: Status)
    requires k < |variants|
    ensures Tally(variants[..k + 1], hidden, evaluate, status) ==
              Tally(variants[..k], hidden, evaluate, status)
              + (if evaluate(hidden + variants[k]) == status then 1 else 0)
  {
    assert variants[..k + 1][..k] == variants[..k];
  }

  function Shown(variables: seq<Variable>): seq<Variable> {
    Filter(variables, (v: Variable) => v.shown)
  }

  predicate AllEnumerations(variables: seq<Variable>) {
    forall k :: 0 <= k < |variables| ==> variables[k].options.Some?
  }

  function AsEnumerations(variables: seq<Variable>): (r: seq<Enumeration>)
    requires AllEnumerations(variables)
    ensures |r| == |variables| && forall k :: 0 <= k < |r| ==> r[k] == variables[k]
  {
    seq(|variables|, k requires 0 <= k < |variables| => variables[k])
  }

  /** The last check of the counts before they are shown. */
  predicate Safe(c: Counts) {
    && c.tested <= LIMIT && c.valid <= LIMIT && c.invalid <= LIMIT && c.needsPermission <= LIMIT
    && c.needsClarification <= LIMIT
    && c.tested >= 1 && c.valid + c.invalid + c.needsPermission + c.needsClarification == c.tested
  }

  /** The candidate's own assignments of variables that are not shown. */
  function Hidden(candidate: seq<Assignment>, variables: seq<Variable>): seq<Assignment> {
    Filter(candidate, (a: Assignment) =>
      exists k :: 0 <= k < |variables| && variables[k].id == a.variable && !variables[k].shown)
  }

  /** Only what the candidate says of variables that are there and not shown stays fixed; every enumeration that is
      shown is varied. */
  lemma HiddenExactly(candidate: seq<Assignment>, variables: seq<Variable>, a: Assignment, v: Variable)
    ensures a in Hidden(candidate, variables) <==>
              a in candidate && exists w :: w in variables && w.id == a.variable && !w.shown
    ensures v in Shown(variables) <==> v in variables && v.shown
  {
    if w :| w in variables && w.id == a.variable && !w.shown {
      var k :| 0 <= k < |variables| && variables[k] == w;
    }
  }

  ghost predicate Evaluable(variables: seq<Variable>, hidden: seq<Assignment>, evaluate: seq<Assignment> -> Status) {
    && Shown(variables) != [] && AllEnumerations(Shown(variables))
    && 1 <= Product(AsEnumerations(Shown(variables))) <= LIMIT
    && forall a :: Full(a, AsEnumerations(Shown(variables))) ==> evaluate(hidden + a) != Unrecognised
  }

  /** The product of the option counts, given up as soon as it passes the limit. */
  method CountVariants(vars: seq<Enumeration>) returns (count: Option<nat>)
    ensures count.Some? <==> forall k :: 0 <= k <= |vars| ==> Product(vars[..k]) <= LIMIT
    ensures count.Some? ==> count.value == Product(vars)
    ensures count.None? ==> Product(vars) == 0 || Product(vars) > LIMIT
  {
    var n := 1;
    for k := 0 to |vars|
      invariant n == Product(vars[..k])
      invariant forall j :: 0 <= j <= k ==> Product(vars[..j]) <= LIMIT
    {
      assert vars[..k + 1][..k] == vars[..k];
      n := n * |Choices(vars[k])|;
      if n > LIMIT {
        OverLimit(vars, k + 1);
        return None;
      }
    }
    assert vars[..|vars|] == vars;
    return Some(n);
  }

  method BuildVariants(vars: seq<Enumeration>) returns (variants: seq<seq<Assignment>>)
    ensures variants == Variants(vars)
  {
    variants := [[]];
    for k := 0 to |vars|
      invariant variants == Variants(vars[..k])
    {
      assert vars[..k + 1][..k] == vars[..k];
      variants := Extend(variants, vars[k]);
    }
    assert vars[..|vars|] == vars;
  }

  ghost predicate Tallied(c: Counts, variants: seq<seq<Assignment>>, hidden: seq<Assignment>,
                          evaluate: seq<Assignment> -> Status) {
    && c.valid == Tally(variants, hidden, evaluate, Valid)
    && c.invalid == Tally(variants, hidden, evaluate, Invalid)
    && c.needsPermission == Tally(variants, hidden, evaluate, NeedsPermission)
    && c.needsClarification == Tally(variants, hidden, evaluate, NeedsClarification)
    && c.valid + c.invalid + c.needsPermission + c.needsClarification == |variants|
  }

  function Counted(c: Counts, status: Status): Counts {
    match status
    case Valid => c.(valid := c.valid + 1)
    case Invalid => c.(invalid := c.invalid + 1)
    case NeedsPermission => c.(needsPermission := c.needsPermission + 1)
    case NeedsClarification => c.(needsClarification := c.needsClarification + 1)
    case Unrecognised => c
  }

  lemma TalliedStep(c: Counts, variants: seq<seq<Assignment>>, k: nat, hidden: seq<Assignment>,
                    evaluate: seq<Assignment> -> Status)
    requires k < |variants| && Tallied(c, variants[..k], hidden, evaluate)
             && evaluate(hidden + variants[k]) != Unrecognised
    ensures Tallied(Counted(c, evaluate(hidden + variants[k])), variants[..k + 1], hidden, evaluate)
  {
    TallyStep(variants, k, hidden, evaluate, Valid);
    TallyStep(variants, k, hidden, evaluate, Invalid);
    TallyStep(variants, k, hidden, evaluate, NeedsPermission);
    TallyStep(variants, k, hidden, evaluate, NeedsClarification);
  }

  method TryAll(variants: seq<seq<Assignment>>, tested: nat, hidden: seq<Assignment>,
                evaluate: seq<Assignment> -> Status)
    returns (r: Option<Counts>)
    ensures r.Some? <==> forall k :: 0 <= k < |variants| ==> evaluate(hidden + variants[k]) != Unrecognised
    ensures r.Some? ==> r.value.tested == tested && Tallied(r.value, variants, hidden, evaluate)
  {
    var c := Counts(tested, 0, 0, 0, 0);
    for k := 0 to |variants|
      invariant c.tested == tested && Tallied(c, variants[..k], hidden, evaluate)
      invariant forall j :: 0 <= j < k ==> evaluate(hidden + variants[j]) != Unrecognised
    {
      if evaluate(hidden + variants[k]) == Unrecognised { return None; }
      TalliedStep(c, variants, k, hidden, evaluate);
      c := Counted(c, evaluate(hidden + variants[k]));
    }
    assert variants[..|variants|] == variants;
    return Some(c);
  }

  lemma RecognisedAll(vars: seq<Enumeration>, hidden: seq<Assignment>, evaluate: seq<Assignment> -> Status)
    ensures (forall k :: 0 <= k < |Variants(vars)| ==> evaluate(hidden + Variants(vars)[k]) != Unrecognised) <==>
            (forall a :: Full(a, vars) ==> evaluate(hidden + a) != Unrecognised)
  {
    var variants := Variants(vars);
    if forall k :: 0 <= k < |variants| ==> evaluate(hidden + variants[k]) != Unrecognised {
      forall a | Full(a, vars) ensures evaluate(hidden + a) != Unrecognised { VariantsExactly(vars, a); }
    }
    if forall a :: Full(a, vars) ==> evaluate(hidden + a) != Unrecognised {
      forall k | 0 <= k < |variants| ensures evaluate(hidden + variants[k]) != Unrecognised {
        VariantsExactly(vars, variants[k]);
      }
    }
  }

  /** The hidden assignments stay as they are; every combination of the shown options is tried with them. */
  method Evaluate(variables: seq<Variable>, candidate: seq<Assignment>, evaluate: seq<Assignment> -> Status)
    returns (r: Option<Counts>)
    ensures r.Some? <==> Evaluable(variables, Hidden(candidate, variables), evaluate)
    ensures r.Some? ==> r.value.tested == Product(AsEnumerations(Shown(variables)))
                        && r.value.tested == |Variants(AsEnumerations(Shown(variables)))|
                        && Tallied(r.value, Variants(AsEnumerations(Shown(variables))), Hidden(candidate, variables),
                                   evaluate)
  {
    var shown := Shown(variables);
    if shown == [] || !AllEnumerations(shown) { return None; }
    var vars := AsEnumerations(shown);
    var count := CountVariants(vars);
    if count.None? { return None; }
    var variants := BuildVariants(vars);
    VariantsSize(vars);
    var hidden := Hidden(candidate, variables);
    RecognisedAll(vars, hidden, evaluate);
    r := TryAll(variants, count.value, hidden, evaluate);
    if r.Some? && !Safe(r.value) { r := None; }
  }

  /** The combinations tried are every full assignment exactly once. */
  lemma EveryAssignmentOnce(vars: seq<Enumeration>, a: seq<Assignment>)
    requires forall k :: 0 <= k < |vars| ==> Distinct(Choices(vars[k]))
    ensures Full(a, vars) <==> exists k :: 0 <= k < |Variants(vars)| && Variants(vars)[k] == a
    ensures Distinct(Variants(vars))
    ensures |Variants(vars)| == Product(vars)
  {
    VariantsExactly(vars, a);
    VariantsDistinct(vars);
    VariantsSize(vars);
  }
}
