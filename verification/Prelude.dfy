/** Sequence searching and filtering shared by the models. */
module Prelude {

  datatype Option<+T> = None | Some(value: T)

  /** Position of the first item that passes the test. */
  function IndexOf<T>(items: seq<T>, test: T -> bool): (r: Option<nat>)
    ensures r.Some? ==> r.value < |items| && test(items[r.value])
    ensures r.Some? ==> forall k :: 0 <= k < r.value ==> !test(items[k])
    ensures r.None? ==> forall k :: 0 <= k < |items| ==> !test(items[k])
  {
    if items == [] then None
    else if test(items[0]) then Some(0)
    else match IndexOf(items[1..], test)
      case None => None
      case Some(i) => Some(i + 1)
  }

  /** The items that pass the test, in their original order. */
  function Filter<T>(items: seq<T>, keep: T -> bool): (r: seq<T>)
    ensures |r| <= |items|
    ensures forall x :: x in r ==> x in items && keep(x)
    ensures forall x :: x in items && keep(x) ==> x in r
  {
    if items == [] then []
    else (if keep(items[0]) then [items[0]] else []) + Filter(items[1..], keep)
  }

  /** Every earlier item is related to every later one. */
  ghost predicate Pairwise<T(!new)>(items: seq<T>, related: (T, T) -> bool) {
    forall i, j :: 0 <= i < j < |items| ==> related(items[i], items[j])
  }

  /** Filtering keeps the order, so it keeps every pairwise relation. */
  lemma {:induction false} FilterPairwise<T(!new)>(items: seq<T>, keep: T -> bool, related: (T, T) -> bool)
    requires Pairwise(items, related)
    ensures Pairwise(Filter(items, keep), related)
  {
    if items != [] {
      FilterPairwise(items[1..], keep, related);
      var rest := Filter(items[1..], keep);
      assert forall x :: x in rest ==> related(items[0], x) by {
        forall x | x in rest ensures related(items[0], x) {
          var k :| 0 <= k < |items[1..]| && items[1..][k] == x;
          assert items[k + 1] == x;
        }
      }
    }
  }

  /** No item occurs twice. */
  predicate Distinct<T(==)>(items: seq<T>) {
    forall i, j :: 0 <= i < j < |items| ==> items[i] != items[j]
  }

  lemma {:induction false} FilterDistinct<T(!new)>(items: seq<T>, keep: T -> bool)
    requires Distinct(items)
    ensures Distinct(Filter(items, keep))
  {
    if items != [] {
      FilterDistinct(items[1..], keep);
      var rest := Filter(items[1..], keep);
      assert items[0] !in items[1..];
    }
  }

  function Elements<T>(items: seq<T>): set<T> {
    set x | x in items
  }

  /** A sequence holds at least as many items as its set, and as many exactly when it has no repeats. */
  lemma {:induction false} RepeatShrinks<T(!new)>(items: seq<T>)
    ensures |Elements(items)| <= |items|
    ensures |Elements(items)| == |items| <==> Distinct(items)
  {
    if items != [] {
      var rest := items[1..];
      RepeatShrinks(rest);
      assert Elements(items) == Elements(rest) + {items[0]};
      assert Distinct(items) <==> Distinct(rest) && items[0] !in rest by {
        if Distinct(items) {
          assert forall i, j :: 0 <= i < j < |rest| ==> rest[i] == items[i + 1] && rest[j] == items[j + 1];
        }
      }
      if items[0] in rest { assert Elements(items) == Elements(rest); }
    }
  }

  /** As many items as there are different ones among them: the second sequence is a rearrangement of the first. */
  lemma SameElements<T(!new)>(items: seq<T>, all: seq<T>)
    requires Distinct(items) && |items| == |all| && forall x :: x in items ==> x in all
    ensures Distinct(all) && Elements(items) == Elements(all)
  {
    RepeatShrinks(items);
    RepeatShrinks(all);
    SubsetSize(Elements(items), Elements(all));
    SubsetOfSameSize(Elements(items), Elements(all));
  }

  /** A set contained in another of the same size is that set. */
  lemma SubsetOfSameSize<T>(a: set<T>, b: set<T>)
    requires a <= b && |a| == |b|
    ensures a == b
  {
    if x :| x in b && x !in a {
      assert a <= b - {x};
      SubsetSize(a, b - {x});
    }
  }

  lemma SubsetSize<T>(a: set<T>, b: set<T>)
    requires a <= b
    ensures |a| <= |b|
  {
    assert b == a + (b - a);
  }
}
