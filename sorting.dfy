/** Python's in-place `list.sort()` and `list.sort(reverse=True)` on a list of
    integers, as an insertion sort over an array. */
module Sorting {

  /** `x` may stand before `y`: ascending, or descending for `reverse=True`. */
  predicate InOrder(x: int, y: int, descending: bool)
  {
    if descending then x >= y else x <= y
  }

  /** Every pair of positions is in order. */
  predicate SortedBy(s: seq<int>, descending: bool)
  {
    forall i, j :: 0 <= i < j < |s| ==> InOrder(s[i], s[j], descending)
  }

  /** Sorts `a` in place: the result is ordered and a permutation of the input. */
  method SortInPlace(a: array<int>, descending: bool)
    modifies a
    ensures SortedBy(a[..], descending)
    ensures multiset(a[..]) == multiset(old(a[..]))
  {
    var i := 0;
    while i < a.Length
      invariant 0 <= i <= a.Length
      invariant SortedBy(a[..i], descending)
      invariant multiset(a[..]) == multiset(old(a[..]))
    {
      Insert(a, i, descending);
      i := i + 1;
    }
    assert a[..a.Length] == a[..];
  }

  /** Moves `a[i]` down into the ordered prefix `a[..i]`. */
  method Insert(a: array<int>, i: nat, descending: bool)
    requires i < a.Length && SortedBy(a[..i], descending)
    modifies a
    ensures SortedBy(a[..i + 1], descending)
    ensures multiset(a[..]) == multiset(old(a[..]))
  {
    var j := i;
    while j > 0 && !InOrder(a[j - 1], a[j], descending)
      invariant 0 <= j <= i
      invariant forall p, q :: 0 <= p < q <= i && p != j && q != j ==> InOrder(a[p], a[q], descending)
      invariant forall q :: j < q <= i ==> InOrder(a[j], a[q], descending)
      invariant multiset(a[..]) == multiset(old(a[..]))
    {
      SwapAdjacent(a, j);
      j := j - 1;
    }
  }

  /** Exchanges `a[j - 1]` and `a[j]`. */
  method SwapAdjacent(a: array<int>, j: nat)
    requires 0 < j < a.Length
    modifies a
    ensures a[..] == old(a[..])[j - 1 := old(a[j])][j := old(a[j - 1])]
    ensures multiset(a[..]) == multiset(old(a[..]))
  {
    a[j - 1], a[j] := a[j], a[j - 1];
  }

  /** The sorted copy of `s`, as a fresh list. */
  method Sorted(s: seq<int>, descending: bool) returns (r: seq<int>)
    ensures SortedBy(r, descending)
    ensures multiset(r) == multiset(s)
  {
    var a := new int[|s|](k requires 0 <= k < |s| => s[k]);
    assert a[..] == s;
    SortInPlace(a, descending);
    r := a[..];
  }
}
