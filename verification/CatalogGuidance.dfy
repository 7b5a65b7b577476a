/** Checking a catalogue of candidates in batches, and choosing what the model is shown. */
module CatalogGuidance {
  import opened Prelude

  const BATCH: nat := 16
  const MAX_CATALOG: nat := 64

  datatype Status = Valid | NeedsPermission | Invalid | NeedsClarification

  type Assignment = nat
  type Target = nat

  /** A candidate as it is previewed: its position in the whole catalogue, which is part of its identifier, and its
      values. */
  datatype Candidate = Candidate(index: nat, values: seq<Assignment>)

  /** The kernel's verdict on one candidate; a batch is previewed candidate by candidate. */
  datatype Verdict = Verdict(status: Status, targets: seq<Target>)

  datatype Guidance = Guidance(values: seq<seq<Assignment>>, statuses: seq<Status>, targets: seq<seq<Target>>,
                               exhausted: bool)

  datatype Complete = Incomplete | Complete(candidates: seq<seq<Assignment>>)

  function PreviewBatch(preview: Candidate -> Verdict, batch: seq<Candidate>): (r: seq<Verdict>)
    ensures |r| == |batch| && forall k :: 0 <= k < |r| ==> r[k] == preview(batch[k])
  {
    seq(|batch|, k requires 0 <= k < |batch| => preview(batch[k]))
  }

  function Batch(values: seq<seq<Assignment>>, offset: nat): (r: seq<Candidate>)
    requires offset <= |values|
    ensures |r| == if offset + BATCH <= |values| then BATCH else |values| - offset
    ensures forall k :: 0 <= k < |r| ==> r[k] == Candidate(offset + k, values[offset + k])
  {
    var end := if offset + BATCH <= |values| then offset + BATCH else |values|;
    seq(end - offset, k requires 0 <= k < end - offset => Candidate(offset + k, values[offset + k]))
  }

  predicate AllPublic(values: seq<seq<Assignment>>, isPublic: Assignment -> bool) {
    forall k :: 0 <= k < |values| ==> forall a :: a in values[k] ==> isPublic(a)
  }

  /** Every candidate is checked on its own, whichever batch it is in. */
  ghost predicate Pointwise(preview: Candidate -> Verdict, g: Guidance) {
    && |g.statuses| == |g.values| && |g.targets| == |g.values|
    && forall k :: 0 <= k < |g.values| ==>
         && g.statuses[k] == preview(Candidate(k, g.values[k])).status
         && g.targets[k] == preview(Candidate(k, g.values[k])).targets
  }

  /** The verdicts on the first candidates, each on its own. */
  ghost predicate Checked(preview: Candidate -> Verdict, catalog: seq<seq<Assignment>>, verdicts: seq<Verdict>) {
    |verdicts| <= |catalog| && forall k :: 0 <= k < |verdicts| ==> verdicts[k] == preview(Candidate(k, catalog[k]))
  }

  lemma NextBatch(preview: Candidate -> Verdict, catalog: seq<seq<Assignment>>, verdicts: seq<Verdict>)
    requires Checked(preview, catalog, verdicts)
    ensures Checked(preview, catalog, verdicts + PreviewBatch(preview, Batch(catalog, |verdicts|)))
  {
    var batch := Batch(catalog, |verdicts|);
    var next := verdicts + PreviewBatch(preview, batch);
    forall k | 0 <= k < |next| ensures next[k] == preview(Candidate(k, catalog[k])) {
      if k >= |verdicts| { assert batch[k - |verdicts|] == Candidate(k, catalog[k]); }
    }
  }

  function Statuses(verdicts: seq<Verdict>): (r: seq<Status>)
    ensures |r| == |verdicts| && forall k :: 0 <= k < |r| ==> r[k] == verdicts[k].status
  {
    seq(|verdicts|, k requires 0 <= k < |verdicts| => verdicts[k].status)
  }

  function Targets(verdicts: seq<Verdict>): (r: seq<seq<Target>>)
    ensures |r| == |verdicts| && forall k :: 0 <= k < |r| ==> r[k] == verdicts[k].targets
  {
    seq(|verdicts|, k requires 0 <= k < |verdicts| => verdicts[k].targets)
  }

  lemma AppendVerdicts(a: seq<Verdict>, b: seq<Verdict>)
    ensures Statuses(a + b) == Statuses(a) + Statuses(b) && Targets(a + b) == Targets(a) + Targets(b)
  {
  }

  predicate Acceptable(catalog: seq<seq<Assignment>>, fits: bool, isPublic: Assignment -> bool) {
    1 <= |catalog| <= MAX_CATALOG && fits && AllPublic(catalog, isPublic)
  }

  /** The catalogue is previewed sixteen candidates at a time. */
  method PreviewAll(catalog: seq<seq<Assignment>>, preview: Candidate -> Verdict)
    returns (statuses: seq<Status>, targets: seq<seq<Target>>, ghost verdicts: seq<Verdict>)
    ensures Checked(preview, catalog, verdicts) && |verdicts| == |catalog|
    ensures statuses == Statuses(verdicts) && targets == Targets(verdicts)
    ensures Pointwise(preview, Guidance(catalog, statuses, targets, false))
  {
    statuses, targets, verdicts := [], [], [];
    var offset := 0;
    while offset < |catalog|
      invariant 0 <= offset && |verdicts| == if offset < |catalog| then offset else |catalog|
      invariant Checked(preview, catalog, verdicts) && statuses == Statuses(verdicts) && targets == Targets(verdicts)
      decreases |catalog| - offset
    {
      var batch := PreviewBatch(preview, Batch(catalog, offset));
      NextBatch(preview, catalog, verdicts);
      AppendVerdicts(verdicts, batch);
      statuses := statuses + Statuses(batch);
      targets := targets + Targets(batch);
      verdicts := verdicts + batch;
      offset := offset + BATCH;
    }
  }

  predicate EveryInvalid(statuses: seq<Status>) {
    forall k :: 0 <= k < |statuses| ==> statuses[k] == Invalid
  }

  /** Every candidate of the catalogue is invalid on its own. */
  ghost predicate Hopeless(preview: Candidate -> Verdict, catalog: seq<seq<Assignment>>) {
    forall k :: 0 <= k < |catalog| ==> preview(Candidate(k, catalog[k])).status == Invalid
  }

  lemma AllInvalid(preview: Candidate -> Verdict, catalog: seq<seq<Assignment>>, verdicts: seq<Verdict>)
    requires Checked(preview, catalog, verdicts) && |verdicts| == |catalog|
    ensures EveryInvalid(Statuses(verdicts)) <==> Hopeless(preview, catalog)
  {
    if EveryInvalid(Statuses(verdicts)) {
      forall k | 0 <= k < |catalog| ensures preview(Candidate(k, catalog[k])).status == Invalid {
        assert Statuses(verdicts)[k] == Invalid;
      }
    }
    if Hopeless(preview, catalog) {
      forall k | 0 <= k < |catalog| ensures Statuses(verdicts)[k] == Invalid {}
    }
  }

  lemma PublicThroughout(catalog: seq<seq<Assignment>>, isPublic: Assignment -> bool)
    ensures AllPublic(catalog, isPublic) <==> forall values, a :: values in catalog && a in values ==> isPublic(a)
  {
    if AllPublic(catalog, isPublic) {
      forall values, a | values in catalog && a in values ensures isPublic(a) {
        var k :| 0 <= k < |catalog| && catalog[k] == values;
      }
    }
  }

  /** The catalogue is refused exactly when it is empty, too long, does not fit or holds something that is not public;
      it is exhausted exactly when it is known to be complete and nothing in it can be saved. */
  method Guide(catalog: seq<seq<Assignment>>, fits: bool, isPublic: Assignment -> bool, complete: Complete,
               preview: Candidate -> Verdict) returns (r: Option<Guidance>)
    ensures r.Some? <==> 1 <= |catalog| <= MAX_CATALOG && fits
                         && forall values, a :: values in catalog && a in values ==> isPublic(a)
    ensures r.Some? ==> r.value.values == catalog && Pointwise(preview, r.value)
    ensures r.Some? ==> (r.value.exhausted <==> complete == Complete(catalog) && Hopeless(preview, catalog))
  {
    PublicThroughout(catalog, isPublic);
    if !Acceptable(catalog, fits, isPublic) { return None; }
    var statuses, targets, verdicts := PreviewAll(catalog, preview);
    AllInvalid(preview, catalog, verdicts);
    var exhausted := complete == Complete(catalog) && |statuses| > 0 && EveryInvalid(statuses);
    return Some(Guidance(catalog, statuses, targets, exhausted));
  }

  // ----- what the model is shown

  predicate Selectable(status: Status) { status == Valid || status == NeedsPermission }

  /** A candidate is worth choosing if it is valid as it is or only lacks a permission. */
  ghost predicate Picks(statuses: seq<Status>, k: nat) {
    k < |statuses| && statuses[k] in {Valid, NeedsPermission}
  }

  /** Positions of the candidates worth choosing, from a position on. */
  function SelectableFrom(statuses: seq<Status>, from: nat): (r: seq<nat>)
    requires from <= |statuses|
    decreases |statuses| - from
  {
    if from == |statuses| then []
    else (if Selectable(statuses[from]) then [from] else []) + SelectableFrom(statuses, from + 1)
  }

  ghost predicate Increasing(indices: seq<nat>) {
    forall i, j :: 0 <= i < j < |indices| ==> indices[i] < indices[j]
  }

  lemma {:induction false} SelectableAt(statuses: seq<Status>, from: nat, k: nat)
    requires from <= |statuses|
    ensures k in SelectableFrom(statuses, from) <==> from <= k && Picks(statuses, k)
    decreases |statuses| - from
  {
    if from < |statuses| { SelectableAt(statuses, from + 1, k); }
  }

  lemma {:induction false} SelectableIncreasing(statuses: seq<Status>, from: nat)
    requires from <= |statuses|
    ensures Increasing(SelectableFrom(statuses, from))
    decreases |statuses| - from
  {
    if from < |statuses| {
      SelectableIncreasing(statuses, from + 1);
      var rest := SelectableFrom(statuses, from + 1);
      forall i | 0 <= i < |rest| ensures rest[i] > from {
        assert rest[i] in rest;
        SelectableAt(statuses, from + 1, rest[i]);
      }
    }
  }

  datatype Shown = Shown(candidates: seq<seq<Assignment>>, statuses: seq<Status>, targets: seq<seq<Target>>)
  datatype Invocation = Skipped(values: seq<Assignment>) | Asked(shown: Shown) | Refused

  function AllPositions(n: nat): (r: seq<nat>)
    ensures |r| == n && forall k :: 0 <= k < n ==> r[k] == k
  {
    seq(n, k requires 0 <= k < n => k)
  }

  /** Which positions are shown: those worth choosing, or all of them when there are none. */
  ghost predicate Chosen(g: Guidance, indices: seq<nat>)
    requires |g.statuses| == |g.values|
  {
    && Increasing(indices)
    && (forall k :: k in indices ==> k < |g.values|)
    && if exists k :: Picks(g.statuses, k) then forall k :: k in indices <==> Picks(g.statuses, k)
       else indices == AllPositions(|g.values|)
  }

  /** The three lists the model receives are cut from the catalogue by the same positions, in order. */
  ghost predicate Aligned(g: Guidance, indices: seq<nat>, shown: Shown)
    requires |g.statuses| == |g.values| && |g.targets| == |g.values|
  {
    && |shown.candidates| == |shown.statuses| == |shown.targets| == |indices|
    && forall k :: 0 <= k < |indices| ==>
         && indices[k] < |g.values|
         && shown.candidates[k] == g.values[indices[k]] && shown.statuses[k] == g.statuses[indices[k]]
         && shown.targets[k] == g.targets[indices[k]]
  }

  /** The choice of positions is forced: any two that fit are the same. */
  lemma ChosenIsUnique(g: Guidance, a: seq<nat>, b: seq<nat>)
    requires |g.statuses| == |g.values| && Chosen(g, a) && Chosen(g, b)
    ensures a == b
  {
    SameIncreasing(a, b);
  }

  lemma {:induction false} SameIncreasing(a: seq<nat>, b: seq<nat>)
    requires Increasing(a) && Increasing(b) && forall k :: k in a <==> k in b
    ensures a == b
    decreases |a|
  {
    assert |b| > 0 ==> b[0] in b;
    if a != [] {
      assert a[0] in a && a[0] in b;
      assert b[0] in b && b[0] in a;
      forall k ensures k in a[1..] <==> k in b[1..] {
        assert k in a[1..] <==> k in a && k != a[0];
        assert k in b[1..] <==> k in b && k != b[0];
      }
      SameIncreasing(a[1..], b[1..]);
      assert a == [a[0]] + a[1..] && b == [b[0]] + b[1..];
    }
  }

  lemma ChoiceFits(g: Guidance, eligible: seq<nat>, at: seq<nat>)
    requires |g.statuses| == |g.values|
    requires Increasing(eligible) && forall k :: k in eligible <==> Picks(g.statuses, k)
    requires at == if |eligible| > 0 then eligible else AllPositions(|g.values|)
    ensures Chosen(g, at)
  {
    if |eligible| > 0 {
      assert eligible[0] in eligible;
    } else {
      assert forall k :: k !in eligible;
    }
  }

  predicate InRange(at: seq<nat>, n: nat) {
    forall k :: 0 <= k < |at| ==> at[k] < n
  }

  function Cut<T>(items: seq<T>, at: seq<nat>): (r: seq<T>)
    requires InRange(at, |items|)
    ensures |r| == |at| && forall k :: 0 <= k < |r| ==> r[k] == items[at[k]]
  {
    seq(|at|, k requires 0 <= k < |at| => items[at[k]])
  }

  lemma SelectionFits(g: Guidance, at: seq<nat>)
    requires |g.statuses| == |g.values| && |g.values| > 0
    requires at == if |SelectableFrom(g.statuses, 0)| > 0 then SelectableFrom(g.statuses, 0)
             else AllPositions(|g.values|)
    ensures Chosen(g, at) && InRange(at, |g.values|) && |at| > 0
  {
    SelectableIncreasing(g.statuses, 0);
    forall k ensures k in SelectableFrom(g.statuses, 0) <==> Picks(g.statuses, k) { SelectableAt(g.statuses, 0, k); }
    ChoiceFits(g, SelectableFrom(g.statuses, 0), at);
    forall k | 0 <= k < |at| ensures at[k] < |g.values| {
      assert at[k] in at;
    }
  }

  method Select(g: Guidance) returns (shown: Shown, ghost indices: seq<nat>)
    requires |g.statuses| == |g.values| && |g.targets| == |g.values| && |g.values| > 0
    ensures Chosen(g, indices) && Aligned(g, indices, shown) && |indices| > 0
  {
    var eligible := SelectableFrom(g.statuses, 0);
    var at := if |eligible| > 0 then eligible else AllPositions(|g.values|);
    SelectionFits(g, at);
    shown := Shown(Cut(g.values, at), Cut(g.statuses, at), Cut(g.targets, at));
    indices := at;
  }

  /** A complete catalogue that is invalid throughout is finished without the model; otherwise the model is asked
      once, about the candidates worth choosing. */
  method Invoke(catalog: seq<seq<Assignment>>, fits: bool, isPublic: Assignment -> bool, complete: Complete,
                preview: Candidate -> Verdict) returns (r: Invocation, ghost g: Guidance, ghost indices: seq<nat>)
    ensures !r.Refused? <==> 1 <= |catalog| <= MAX_CATALOG && fits
                             && forall values, a :: values in catalog && a in values ==> isPublic(a)
    ensures !r.Refused? ==> g.values == catalog && Pointwise(preview, g)
    ensures r.Skipped? <==> !r.Refused? && complete == Complete(catalog) && Hopeless(preview, catalog)
    ensures r.Skipped? ==> r.values == catalog[0]
    ensures r.Asked? ==> Chosen(g, indices) && Aligned(g, indices, r.shown) && |indices| > 0
  {
    var guidance := Guide(catalog, fits, isPublic, complete, preview);
    if guidance.None? { return Refused, Guidance([], [], [], false), []; }
    g := guidance.value;
    if guidance.value.exhausted { return Skipped(guidance.value.values[0]), g, []; }
    var shown, at := Select(guidance.value);
    return Asked(shown), g, at;
  }
}
