/** Sequence helpers: the "append if not already in the list" idiom the
    components use to de-duplicate while keeping order. */
module Sequences {

  /** No element occurs twice. */
  predicate NoDuplicates<T(==)>(s: seq<T>)
  {
    forall i, j :: 0 <= i < j < |s| ==> s[i] != s[j]
  }

  /** The elements of `s`, each kept once, at its first occurrence. Defined
      from the end, as a loop that appends unseen elements builds it. */
  function Dedup<T(==)>(s: seq<T>): (r: seq<T>)
    ensures NoDuplicates(r)
    ensures forall i :: 0 <= i < |r| ==> r[i] in s
    ensures forall i :: 0 <= i < |s| ==> s[i] in r
    ensures |r| <= |s|
  {
    if |s| == 0 then []
    else
      var d := Dedup(s[..|s| - 1]);
      assert s == s[..|s| - 1] + [s[|s| - 1]];
      if s[|s| - 1] in d then d else d + [s[|s| - 1]]
  }

  /** Index of the first occurrence of `x` in `s`. */
  function FirstIndex<T(==)>(s: seq<T>, x: T): (k: nat)
    requires x in s
    ensures k < |s| && s[k] == x
    ensures forall j :: 0 <= j < k ==> s[j] != x
  {
    if s[0] == x then 0 else 1 + FirstIndex(s[1..], x)
  }

  /** Appending one element: it is kept exactly when it is new. */
  lemma DedupSnoc<T>(s: seq<T>, x: T)
    ensures Dedup(s + [x]) == if x in s then Dedup(s) else Dedup(s) + [x]
  {
    assert (s + [x])[..|s + [x]| - 1] == s;
  }

  /** A sequence without duplicates is its own de-duplication. */
  lemma {:induction false} DedupOfDistinct<T>(s: seq<T>)
    requires NoDuplicates(s)
    ensures Dedup(s) == s
  {
    if |s| > 0 {
      var p := s[..|s| - 1];
      assert NoDuplicates(p);
      DedupOfDistinct(p);
      assert s[|s| - 1] !in p by {
        forall j | 0 <= j < |p| ensures p[j] != s[|s| - 1] {
          assert p[j] == s[j];
        }
      }
    }
  }

  /** The de-duplicated elements appear in the order of their first occurrences. */
  lemma {:induction false} DedupKeepsFirstOccurrenceOrder<T>(s: seq<T>, i: nat, j: nat)
    requires i < j < |Dedup(s)|
    ensures FirstIndex(s, Dedup(s)[i]) < FirstIndex(s, Dedup(s)[j])
  {
    var p := s[..|s| - 1];
    var d := Dedup(p);
    assert s == p + [s[|s| - 1]];
    FirstIndexOfPrefix(p, s[|s| - 1], Dedup(s)[i]);
    if j < |d| {
      DedupKeepsFirstOccurrenceOrder(p, i, j);
      FirstIndexOfPrefix(p, s[|s| - 1], Dedup(s)[j]);
    } else {
      assert Dedup(s)[j] == s[|s| - 1] && s[|s| - 1] !in p;
    }
  }

  /** An element of the prefix has its first occurrence in the prefix. */
  lemma FirstIndexOfPrefix<T>(p: seq<T>, y: T, x: T)
    requires x in p
    ensures FirstIndex(p + [y], x) == FirstIndex(p, x)
  {
    var k := FirstIndex(p, x);
    assert (p + [y])[k] == x;
  }

  /** Extending a prefix of `xs`, behind a fixed `before`, by one element. */
  lemma PrefixSnoc<T>(before: seq<T>, xs: seq<T>, j: nat)
    requires j < |xs|
    ensures before + xs[..j + 1] == (before + xs[..j]) + [xs[j]]
  {
    assert xs[..j + 1] == xs[..j] + [xs[j]];
  }

  /** The empty prefix and the whole sequence. */
  lemma PrefixEnds<T>(before: seq<T>, xs: seq<T>)
    ensures before + xs[..0] == before
    ensures before + xs[..|xs|] == before + xs
  {
    assert xs[..0] == [];
    assert xs[..|xs|] == xs;
  }

  /** In a list without duplicates every element occurs once. */
  lemma {:induction false} DistinctMultiplicity<T>(s: seq<T>, x: T)
    requires NoDuplicates(s)
    ensures multiset(s)[x] <= 1
  {
    if |s| > 0 {
      var p := s[..|s| - 1];
      assert s == p + [s[|s| - 1]];
      DistinctMultiplicity(p, x);
    }
  }

  /** A permutation of a list without duplicates has none either. */
  lemma PermutationKeepsDistinct<T>(a: seq<T>, b: seq<T>)
    requires multiset(a) == multiset(b) && NoDuplicates(b)
    ensures NoDuplicates(a)
  {
    forall i, j | 0 <= i < j < |a|
      ensures a[i] != a[j]
    {
      if a[i] == a[j] {
        assert a == a[..j] + [a[j]] + a[j + 1..];
        assert a[i] in a[..j];
        assert multiset(a)[a[i]] >= 2;
        DistinctMultiplicity(b, a[i]);
      }
    }
  }
}
