/** Newest-first ordering by a timestamp, as produced by sorting with a
    descending timestamp comparator. JavaScript's sort is stable, so records
    with equal timestamps keep their input order. */
module Ordering {

  predicate NewestFirst<T>(s: seq<T>, stamp: T -> int) {
    forall i, j :: 0 <= i < j < |s| ==> stamp(s[i]) >= stamp(s[j])
  }

  /** No element of `s` is newer than `bound`. */
  predicate AtMost<T>(s: seq<T>, bound: int, stamp: T -> int) {
    forall k :: 0 <= k < |s| ==> stamp(s[k]) <= bound
  }

  /** Prepending an element no older than the rest keeps the order. */
  lemma PrependNewest<T>(h: T, s: seq<T>, stamp: T -> int)
    requires NewestFirst(s, stamp) && AtMost(s, stamp(h), stamp)
    ensures NewestFirst([h] + s, stamp)
  {
    forall i, j | 0 <= i < j < |[h] + s|
      ensures stamp(([h] + s)[i]) >= stamp(([h] + s)[j])
    {
      if i > 0 {
        assert ([h] + s)[i] == s[i - 1];
      }
      assert ([h] + s)[j] == s[j - 1];
    }
  }

  /** Prepending keeps an upper bound that the new element respects. */
  lemma PrependAtMost<T>(h: T, s: seq<T>, bound: int, stamp: T -> int)
    requires AtMost(s, bound, stamp) && stamp(h) <= bound
    ensures AtMost([h] + s, bound, stamp)
  {
    forall k | 0 <= k < |[h] + s|
      ensures stamp(([h] + s)[k]) <= bound
    {
      if k > 0 {
        assert ([h] + s)[k] == s[k - 1];
      }
    }
  }

  /** Places `x` after every element at least as new as it. */
  function InsertNewestFirst<T>(s: seq<T>, x: T, stamp: T -> int): (r: seq<T>)
    requires NewestFirst(s, stamp)
    ensures NewestFirst(r, stamp)
    ensures multiset(r) == multiset(s) + multiset{x}
    ensures forall bound :: AtMost(s, bound, stamp) && stamp(x) <= bound ==> AtMost(r, bound, stamp)
  {
    if s == [] || stamp(s[0]) < stamp(x) then
      assert AtMost(s, stamp(x), stamp);
      PrependNewest(x, s, stamp);
      forall bound | AtMost(s, bound, stamp) && stamp(x) <= bound
        ensures AtMost([x] + s, bound, stamp)
      {
        PrependAtMost(x, s, bound, stamp);
      }
      [x] + s
    else
      var tail := s[1..];
      var rest := InsertNewestFirst(tail, x, stamp);
      assert s == [s[0]] + tail;
      assert AtMost(tail, stamp(s[0]), stamp);
      PrependNewest(s[0], rest, stamp);
      forall bound | AtMost(s, bound, stamp) && stamp(x) <= bound
        ensures AtMost([s[0]] + rest, bound, stamp)
      {
        assert AtMost(tail, bound, stamp);
        PrependAtMost(s[0], rest, bound, stamp);
      }
      [s[0]] + rest
  }

  /** A stable newest-first sort: each element is inserted in input order. */
  function SortNewestFirst<T>(s: seq<T>, stamp: T -> int): (r: seq<T>)
    ensures NewestFirst(r, stamp)
    ensures multiset(r) == multiset(s)
  {
    if s == [] then []
    else
      assert s == s[..|s| - 1] + [s[|s| - 1]];
      InsertNewestFirst(SortNewestFirst(s[..|s| - 1], stamp), s[|s| - 1], stamp)
  }

  /** An element no newer than any already placed goes to the end. */
  lemma {:induction false} InsertOldestAtEnd<T>(s: seq<T>, x: T, stamp: T -> int)
    requires NewestFirst(s, stamp)
    requires forall k :: 0 <= k < |s| ==> stamp(s[k]) >= stamp(x)
    ensures InsertNewestFirst(s, x, stamp) == s + [x]
  {
    if s != [] {
      InsertOldestAtEnd(s[1..], x, stamp);
      assert [s[0]] + (s[1..] + [x]) == s + [x];
    }
  }

  /** Sorting an already newest-first sequence leaves it as it is, equal
      timestamps included: the sort is stable, and sorting twice is sorting
      once. */
  lemma {:induction false} SortKeepsSorted<T>(s: seq<T>, stamp: T -> int)
    requires NewestFirst(s, stamp)
    ensures SortNewestFirst(s, stamp) == s
  {
    if s != [] {
      var init, last := s[..|s| - 1], s[|s| - 1];
      assert s == init + [last];
      InitOfNewestFirst(init, last, stamp);
      SortKeepsSorted(init, stamp);
      InsertOldestAtEnd(init, last, stamp);
    }
  }

  /** Dropping the last element keeps the order, and that element is the
      oldest. */
  lemma InitOfNewestFirst<T>(init: seq<T>, last: T, stamp: T -> int)
    requires NewestFirst(init + [last], stamp)
    ensures NewestFirst(init, stamp)
    ensures forall k :: 0 <= k < |init| ==> stamp(init[k]) >= stamp(last)
  {
    assert forall k :: 0 <= k < |init| ==> (init + [last])[k] == init[k];
    assert (init + [last])[|init|] == last;
  }

  lemma SortIdempotent<T>(s: seq<T>, stamp: T -> int)
    ensures SortNewestFirst(SortNewestFirst(s, stamp), stamp) == SortNewestFirst(s, stamp)
  {
    SortKeepsSorted(SortNewestFirst(s, stamp), stamp);
  }

  predicate DistinctStamps<T>(s: seq<T>, stamp: T -> int) {
    forall i, j :: 0 <= i < j < |s| ==> stamp(s[i]) != stamp(s[j])
  }

  lemma TailsAgree<T>(a: seq<T>, b: seq<T>)
    requires a != [] && b != [] && a[0] == b[0]
    requires multiset(a) == multiset(b)
    ensures multiset(a[1..]) == multiset(b[1..])
  {
    assert a == [a[0]] + a[1..];
    assert b == [b[0]] + b[1..];
    calc {
      multiset(a[1..]);
      multiset(a) - multiset{a[0]};
      multiset(b) - multiset{b[0]};
      multiset(b[1..]);
    }
  }

  /** Two newest-first orderings of the same elements agree when no two
      elements share a timestamp. */
  lemma {:induction false} NewestFirstUnique<T>(a: seq<T>, b: seq<T>, stamp: T -> int)
    requires NewestFirst(a, stamp) && NewestFirst(b, stamp)
    requires DistinctStamps(a, stamp)
    requires multiset(a) == multiset(b)
    ensures a == b
    decreases |a|
  {
    assert |a| == |multiset(a)| == |multiset(b)| == |b|;
    if a != [] {
      assert a[0] in multiset(b);
      var i :| 0 <= i < |b| && b[i] == a[0];
      assert b[0] in multiset(a);
      var j :| 0 <= j < |a| && a[j] == b[0];
      assert j == 0;
      TailsAgree(a, b);
      assert DistinctStamps(a[1..], stamp);
      NewestFirstUnique(a[1..], b[1..], stamp);
    }
  }
}
