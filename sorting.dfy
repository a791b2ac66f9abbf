/** `Collections.sort` with a `Comparator`, as a value: an insertion sort.
    A comparator returns a negative number, zero or a positive number. */
module Sorting {

  /** What `Comparator` asks of an implementation: swapping the arguments
      negates the answer, and "not greater" is transitive. */
  ghost predicate IsComparator<X(!new)>(cmp: (X, X) -> int) {
    && (forall a, b :: cmp(a, b) == -cmp(b, a))
    && (forall a, b, c :: cmp(a, b) <= 0 && cmp(b, c) <= 0 ==> cmp(a, c) <= 0)
  }

  /** No element is greater than a later one. */
  predicate SortedBy<X>(s: seq<X>, cmp: (X, X) -> int) {
    forall i, j | 0 <= i < j < |s| :: cmp(s[i], s[j]) <= 0
  }

  /** x goes in front of the first element it is smaller than. */
  function Insert<X>(x: X, s: seq<X>, cmp: (X, X) -> int): (r: seq<X>)
    ensures multiset(r) == multiset(s) + multiset{x}
    ensures |r| == |s| + 1
  {
    if |s| == 0 then [x]
    else if cmp(x, s[0]) < 0 then [x] + s
    else
      assert s == [s[0]] + s[1..];
      [s[0]] + Insert(x, s[1..], cmp)
  }

  /** Sorts s: each element is inserted after the earlier ones it is not
      smaller than. */
  function SortBy<X>(s: seq<X>, cmp: (X, X) -> int): (r: seq<X>)
    ensures multiset(r) == multiset(s)
    ensures |r| == |s|
  {
    if |s| == 0 then []
    else
      assert s == s[..|s| - 1] + [s[|s| - 1]];
      Insert(s[|s| - 1], SortBy(s[..|s| - 1], cmp), cmp)
  }

  /** An element not greater than x and than every element of s is not
      greater than any element after x is inserted. */
  lemma {:induction false} InsertBounded<X>(y: X, x: X, s: seq<X>, cmp: (X, X) -> int)
    requires cmp(y, x) <= 0
    requires forall k | 0 <= k < |s| :: cmp(y, s[k]) <= 0
    ensures forall k | 0 <= k < |s| + 1 :: cmp(y, Insert(x, s, cmp)[k]) <= 0
  {
    if |s| != 0 && cmp(x, s[0]) >= 0 {
      InsertBounded(y, x, s[1..], cmp);
      var t := Insert(x, s[1..], cmp);
      assert Insert(x, s, cmp) == [s[0]] + t;
    }
  }

  /** An element not greater than any element of a sorted sequence can go in front of it. */
  lemma ConsSorted<X>(y: X, t: seq<X>, cmp: (X, X) -> int)
    requires SortedBy(t, cmp)
    requires forall k | 0 <= k < |t| :: cmp(y, t[k]) <= 0
    ensures SortedBy([y] + t, cmp)
  {
    var r := [y] + t;
    forall i, j | 0 <= i < j < |r|
      ensures cmp(r[i], r[j]) <= 0
    {
      if i == 0 {
        assert r[j] == t[j - 1];
      } else {
        assert r[i] == t[i - 1] && r[j] == t[j - 1];
      }
    }
  }

  /** Inserting into a sorted sequence keeps it sorted. */
  lemma {:induction false} InsertSorted<X(!new)>(x: X, s: seq<X>, cmp: (X, X) -> int)
    requires IsComparator(cmp) && SortedBy(s, cmp)
    ensures SortedBy(Insert(x, s, cmp), cmp)
  {
    if |s| == 0 {
    } else if cmp(x, s[0]) < 0 {
      forall k | 0 <= k < |s|
        ensures cmp(x, s[k]) <= 0
      {
        if k != 0 {
          assert cmp(s[0], s[k]) <= 0;
        }
      }
      ConsSorted(x, s, cmp);
    } else {
      InsertSorted(x, s[1..], cmp);
      assert cmp(s[0], x) <= 0;
      forall k | 0 <= k < |s[1..]|
        ensures cmp(s[0], s[1..][k]) <= 0
      {
        assert s[1..][k] == s[k + 1];
      }
      InsertBounded(s[0], x, s[1..], cmp);
      ConsSorted(s[0], Insert(x, s[1..], cmp), cmp);
    }
  }

  /** The sort's result is sorted by the comparator and is a permutation of its input. */
  lemma {:induction false} SortBySorted<X(!new)>(s: seq<X>, cmp: (X, X) -> int)
    requires IsComparator(cmp)
    ensures SortedBy(SortBy(s, cmp), cmp)
    ensures multiset(SortBy(s, cmp)) == multiset(s)
  {
    if |s| != 0 {
      SortBySorted(s[..|s| - 1], cmp);
      InsertSorted(s[|s| - 1], SortBy(s[..|s| - 1], cmp), cmp);
    }
  }

  /** Under a comparator, the first element of a sorted non-empty sequence is
      not greater than any element. */
  lemma FirstIsLeast<X(!new)>(s: seq<X>, cmp: (X, X) -> int)
    requires SortedBy(s, cmp) && |s| != 0
    requires IsComparator(cmp)
    ensures forall e | e in s :: cmp(s[0], e) <= 0
  {
    forall e | e in s
      ensures cmp(s[0], e) <= 0
    {
      var j :| 0 <= j < |s| && s[j] == e;
      if j != 0 {
        assert cmp(s[0], s[j]) <= 0;
      }
    }
  }
}
