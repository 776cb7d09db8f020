/** Stands for the language's `sort.Slice`: an unstable library sort, so callers may only rely on
    getting some sorted permutation. */
module Sorting {

  ghost predicate StrictWeakOrder<T(!new)>(less: (T, T) -> bool) {
    && (forall a :: !less(a, a))
    && (forall a, b, c :: less(a, b) && less(b, c) ==> less(a, c))
    && (forall a, b, c :: !less(a, b) && !less(b, c) ==> !less(a, c))
  }

  /** No later element belongs strictly before an earlier one. */
  ghost predicate Sorted<T(!new)>(list: seq<T>, less: (T, T) -> bool) {
    forall i, j :: 0 <= i < j < |list| ==> !less(list[j], list[i])
  }

  lemma InsertedIsSorted<T(!new)>(sorted: seq<T>, x: T, i: nat, less: (T, T) -> bool)
    requires StrictWeakOrder(less) && Sorted(sorted, less) && i <= |sorted|
    requires forall k :: 0 <= k < i ==> !less(x, sorted[k])
    requires i < |sorted| ==> less(x, sorted[i])
    ensures Sorted(sorted[..i] + [x] + sorted[i..], less)
  {
    var r := sorted[..i] + [x] + sorted[i..];
    forall a, b | 0 <= a < b < |r| ensures !less(r[b], r[a]) {
      var lo := if a < i then sorted[a] else if a == i then x else sorted[a - 1];
      var hi := if b < i then sorted[b] else if b == i then x else sorted[b - 1];
      assert r[a] == lo && r[b] == hi;
      if a == i {
        assert b - 1 == i || !less(sorted[b - 1], sorted[i]);
        assert !less(sorted[i], x);
      }
    }
  }

  /** Inserts `x` before the first element it precedes. */
  method Insert<T(!new)>(sorted: seq<T>, x: T, less: (T, T) -> bool) returns (r: seq<T>)
    requires StrictWeakOrder(less) && Sorted(sorted, less)
    ensures Sorted(r, less)
    ensures multiset(r) == multiset(sorted) + multiset{x}
  {
    var i := 0;
    while i < |sorted| && !less(x, sorted[i])
      invariant 0 <= i <= |sorted|
      invariant forall k :: 0 <= k < i ==> !less(x, sorted[k])
    {
      i := i + 1;
    }
    InsertedIsSorted(sorted, x, i, less);
    r := sorted[..i] + [x] + sorted[i..];
    assert sorted == sorted[..i] + sorted[i..];
  }

  method SortSlice<T(!new)>(list: seq<T>, less: (T, T) -> bool) returns (sorted: seq<T>)
    requires StrictWeakOrder(less)
    ensures Sorted(sorted, less)
    ensures multiset(sorted) == multiset(list)
  {
    sorted := [];
    var i := 0;
    while i < |list|
      invariant 0 <= i <= |list|
      invariant Sorted(sorted, less)
      invariant multiset(sorted) == multiset(list[..i])
    {
      sorted := Insert(sorted, list[i], less);
      assert list[..i + 1] == list[..i] + [list[i]];
      i := i + 1;
    }
    assert list[..i] == list;
  }

  /** A permutation has the same length and the same members. */
  lemma SameMembers<T(!new)>(a: seq<T>, b: seq<T>)
    requires multiset(a) == multiset(b)
    ensures |a| == |b|
    ensures forall x :: x in a <==> x in b
  {
    assert |multiset(a)| == |a| && |multiset(b)| == |b|;
    forall x ensures x in a <==> x in b {
      assert x in multiset(a) <==> x in a;
      assert x in multiset(b) <==> x in b;
    }
  }
}
