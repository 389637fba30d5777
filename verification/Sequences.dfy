/** Sequences without repetition, filtering and counting. */
module Sequences {

  predicate Distinct<T(==)>(s: seq<T>) {
    forall i, j :: 0 <= i < j < |s| ==> s[i] != s[j]
  }

  function ToSet<T>(s: seq<T>): set<T> {
    set x | x in s
  }

  function Filter<T>(s: seq<T>, p: T -> bool): seq<T> {
    if s == [] then []
    else
      var before, last := Filter(s[..|s| - 1], p), s[|s| - 1];
      if p(last) then before + [last] else before
  }

  function Map<T, U>(s: seq<T>, f: T -> U): (mapped: seq<U>)
    ensures |mapped| == |s| && forall i :: 0 <= i < |s| ==> mapped[i] == f(s[i])
  {
    seq(|s|, i requires 0 <= i < |s| => f(s[i]))
  }

  /** The elements in the order in which they first occur, each once. */
  function FirstSeen<T(==)>(s: seq<T>): seq<T> {
    if s == [] then []
    else
      var before, last := FirstSeen(s[..|s| - 1]), s[|s| - 1];
      if last in before then before else before + [last]
  }

  function Sum(s: seq<int>): int {
    if s == [] then 0 else Sum(s[..|s| - 1]) + s[|s| - 1]
  }

  /** Same size and contained means equal. */
  lemma ContainedOfSameSize<T>(small: set<T>, large: set<T>)
    requires small <= large
    ensures |small| <= |large|
    ensures small == large <==> |small| == |large|
  {
    assert large == small + (large - small);
    assert |large| == |small| + |large - small|;
  }

  lemma ToSetOneMore<T>(s: seq<T>, x: T)
    ensures ToSet(s + [x]) == ToSet(s) + {x}
  {
  }

  lemma ToSetAppend<T>(left: seq<T>, right: seq<T>)
    ensures ToSet(left + right) == ToSet(left) + ToSet(right)
  {
  }

  lemma {:induction false} DistinctByMultiplicity<T>(s: seq<T>)
    ensures Distinct(s) <==> forall x :: multiset(s)[x] <= 1
  {
    if s != [] {
      var earlier, last := s[..|s| - 1], s[|s| - 1];
      DistinctByMultiplicity(earlier);
      assert s == earlier + [last];
      assert multiset(s) == multiset(earlier)[last := multiset(earlier)[last] + 1];
      assert forall x :: multiset(s)[x] >= multiset(earlier)[x];
      if last in earlier {
        assert multiset(s)[last] > 1;
        var i :| 0 <= i < |earlier| && earlier[i] == last;
        assert s[i] == s[|s| - 1];
      } else {
        assert multiset(s)[last] == 1;
        assert Distinct(earlier) <==> Distinct(s);
        assert forall x :: x != last ==> multiset(s)[x] == multiset(earlier)[x];
      }
    }
  }

  /** A sequence has as many elements as positions exactly when none repeats. */
  lemma {:induction false} DistinctBySize<T>(s: seq<T>)
    ensures |ToSet(s)| <= |s|
    ensures |ToSet(s)| == |s| <==> Distinct(s)
  {
    if s != [] {
      var earlier, last := s[..|s| - 1], s[|s| - 1];
      DistinctBySize(earlier);
      assert s == earlier + [last];
      if last in earlier {
        assert ToSet(s) == ToSet(earlier);
        var i :| 0 <= i < |earlier| && earlier[i] == last;
        assert s[i] == s[|s| - 1];
      } else {
        assert ToSet(s) == ToSet(earlier) + {last};
        assert Distinct(earlier) <==> Distinct(s);
      }
    }
  }

  lemma {:induction false} FirstSeenListsEachOnce<T>(s: seq<T>)
    ensures Distinct(FirstSeen(s)) && forall x :: x in FirstSeen(s) <==> x in s
  {
    if s != [] {
      FirstSeenListsEachOnce(s[..|s| - 1]);
      assert s == s[..|s| - 1] + [s[|s| - 1]];
    }
  }

  lemma {:induction false} FilterKeeps<T>(s: seq<T>, p: T -> bool)
    ensures |Filter(s, p)| <= |s|
    ensures forall x :: x in Filter(s, p) <==> x in s && p(x)
  {
    if s != [] {
      FilterKeeps(s[..|s| - 1], p);
      assert s == s[..|s| - 1] + [s[|s| - 1]];
    }
  }

  lemma {:induction false} FilterKeepsDistinct<T>(s: seq<T>, p: T -> bool)
    requires Distinct(s)
    ensures Distinct(Filter(s, p))
  {
    if s != [] {
      var earlier := s[..|s| - 1];
      FilterKeepsDistinct(earlier, p);
      FilterKeeps(earlier, p);
    }
  }

  lemma {:induction false} FilterAppend<T>(left: seq<T>, right: seq<T>, p: T -> bool)
    ensures Filter(left + right, p) == Filter(left, p) + Filter(right, p)
  {
    if right == [] {
      assert left + right == left;
    } else {
      FilterAppend(left, right[..|right| - 1], p);
      assert (left + right)[..|left + right| - 1] == left + right[..|right| - 1];
    }
  }

  /** Filtering by a condition and by its negation splits a sequence. */
  lemma {:induction false} FilterSplits<T>(s: seq<T>, p: T -> bool, q: T -> bool)
    requires forall x <- s :: p(x) <==> !q(x)
    ensures |Filter(s, p)| + |Filter(s, q)| == |s|
  {
    if s != [] {
      FilterSplits(s[..|s| - 1], p, q);
      assert s[|s| - 1] in s;
    }
  }

  /** Counting the elements whose key is k is counting k among the keys. */
  lemma {:induction false} FilterCountsKey<T, K>(s: seq<T>, key: T -> K, k: K, p: T -> bool)
    requires forall x <- s :: p(x) <==> key(x) == k
    ensures |Filter(s, p)| == multiset(Map(s, key))[k]
  {
    if s != [] {
      var earlier, last := s[..|s| - 1], s[|s| - 1];
      FilterCountsKey(earlier, key, k, p);
      assert Map(s, key) == Map(earlier, key) + [key(last)];
      assert last in s;
    }
  }
}
