// Sequence operations the models share, in the form the Swift standard
// library gives them: `firstIndex(where:)`, `filter` and `sorted(by:)`.
module Seqs {
  import opened Wrappers

  /** `firstIndex(where: p)`. */
  function FirstIndexWhere<T>(s: seq<T>, p: T -> bool): (r: Option<nat>)
    ensures r.Some? ==> r.value < |s| && p(s[r.value]) && forall j :: 0 <= j < r.value ==> !p(s[j])
    ensures r.None? ==> forall j :: 0 <= j < |s| ==> !p(s[j])
    decreases |s|
  {
    if s == [] then None
    else if p(s[0]) then Some(0)
    else
      match FirstIndexWhere(s[1..], p)
      case None => None
      case Some(k) => Some(k + 1)
  }

  /** `filter(p)`. */
  function Filter<T(!new)>(s: seq<T>, p: T -> bool): (r: seq<T>)
    ensures |r| <= |s|
    ensures forall x :: x in r <==> x in s && p(x)
    decreases |s|
  {
    if s == [] then []
    else if p(s[0]) then [s[0]] + Filter(s[1..], p)
    else Filter(s[1..], p)
  }

  /** Filtering works piecewise, so the kept elements stay in order. */
  lemma {:induction false} FilterOfConcat<T(!new)>(xs: seq<T>, ys: seq<T>, p: T -> bool)
    ensures Filter(xs + ys, p) == Filter(xs, p) + Filter(ys, p)
    decreases |xs|
  {
    if xs == [] {
      assert xs + ys == ys;
    } else {
      assert (xs + ys)[1..] == xs[1..] + ys;
      FilterOfConcat(xs[1..], ys, p);
    }
  }

  /** Filtering by a condition every element meets changes nothing. */
  lemma {:induction false} FilterKeepsAll<T(!new)>(s: seq<T>, p: T -> bool)
    requires forall i :: 0 <= i < |s| ==> p(s[i])
    ensures Filter(s, p) == s
    decreases |s|
  {
    if s != [] {
      FilterKeepsAll(s[1..], p);
      assert s == [s[0]] + s[1..];
    }
  }

  predicate NonIncreasing<T>(s: seq<T>, key: T -> int)
  {
    forall i, j :: 0 <= i < j < |s| ==> key(s[i]) >= key(s[j])
  }

  predicate AtMost<T>(s: seq<T>, key: T -> int, bound: int)
  {
    forall i :: 0 <= i < |s| ==> key(s[i]) <= bound
  }

  function InsertByKey<T>(x: T, s: seq<T>, key: T -> int): (r: seq<T>)
    ensures multiset(r) == multiset(s) + multiset{x}
    decreases |s|
  {
    if s == [] then [x]
    else if key(x) >= key(s[0]) then [x] + s
    else
      assert s == [s[0]] + s[1..];
      [s[0]] + InsertByKey(x, s[1..], key)
  }

  lemma {:induction false} InsertStaysAtMost<T>(x: T, s: seq<T>, key: T -> int, bound: int)
    requires AtMost(s, key, bound) && key(x) <= bound
    ensures AtMost(InsertByKey(x, s, key), key, bound)
    decreases |s|
  {
    if s != [] && key(x) < key(s[0]) {
      InsertStaysAtMost(x, s[1..], key, bound);
    }
  }

  lemma NonIncreasingCons<T>(x: T, rest: seq<T>, key: T -> int)
    requires NonIncreasing(rest, key) && AtMost(rest, key, key(x))
    ensures NonIncreasing([x] + rest, key)
  {
    var r := [x] + rest;
    forall i, j | 0 <= i < j < |r|
      ensures key(r[i]) >= key(r[j])
    {
      assert r[j] == rest[j - 1];
      if i > 0 {
        assert r[i] == rest[i - 1];
      }
    }
  }

  lemma {:induction false} InsertKeepsNonIncreasing<T>(x: T, s: seq<T>, key: T -> int)
    requires NonIncreasing(s, key)
    ensures NonIncreasing(InsertByKey(x, s, key), key)
    decreases |s|
  {
    if s == [] {
    } else if key(x) >= key(s[0]) {
      NonIncreasingCons(x, s, key);
    } else {
      var tail := s[1..];
      assert NonIncreasing(tail, key) by {
        forall i, j | 0 <= i < j < |tail|
          ensures key(tail[i]) >= key(tail[j])
        {
          assert tail[i] == s[i + 1] && tail[j] == s[j + 1];
        }
      }
      assert AtMost(tail, key, key(s[0])) by {
        forall i | 0 <= i < |tail|
          ensures key(tail[i]) <= key(s[0])
        {
          assert tail[i] == s[i + 1];
        }
      }
      InsertKeepsNonIncreasing(x, tail, key);
      InsertStaysAtMost(x, tail, key, key(s[0]));
      NonIncreasingCons(s[0], InsertByKey(x, tail, key), key);
    }
  }

  /** `sorted { key($0) > key($1) }`: largest key first, and the same
    * elements. */
  function SortByKey<T>(s: seq<T>, key: T -> int): (r: seq<T>)
    ensures NonIncreasing(r, key)
    ensures multiset(r) == multiset(s)
    decreases |s|
  {
    if s == [] then []
    else
      assert s == [s[0]] + s[1..];
      var rest := SortByKey(s[1..], key);
      InsertKeepsNonIncreasing(s[0], rest, key);
      InsertByKey(s[0], rest, key)
  }

  /** Sorting keeps the length. */
  lemma SortKeepsLength<T>(s: seq<T>, key: T -> int)
    ensures |SortByKey(s, key)| == |s|
  {
    var r := SortByKey(s, key);
    assert |r| == |multiset(r)|;
  }
}
