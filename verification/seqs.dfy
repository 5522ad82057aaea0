/** Sequence helpers: `Array.prototype.filter` and the stable descending
    `Array.prototype.sort` the plugin uses with comparators of the form
    `(a, b) => key(b) - key(a)`. */
module Seqs {

  /** `s.filter(p)`: the elements satisfying `p`, in their original order. */
  function Filter<T(!new)>(s: seq<T>, p: T -> bool): (r: seq<T>)
    ensures |r| <= |s|
    ensures forall i :: 0 <= i < |r| ==> p(r[i])
    ensures forall x :: multiset(r)[x] == (if p(x) then multiset(s)[x] else 0)
  {
    if |s| == 0 then []
    else
      assert s == [s[0]] + s[1..];
      if p(s[0]) then [s[0]] + Filter(s[1..], p) else Filter(s[1..], p)
  }

  /** Filtering keeps exactly the members that satisfy the test. */
  lemma FilterMembers<T(!new)>(s: seq<T>, p: T -> bool, x: T)
    ensures x in Filter(s, p) <==> x in s && p(x)
  {
    assert x in Filter(s, p) <==> multiset(Filter(s, p))[x] > 0;
    assert x in s <==> multiset(s)[x] > 0;
  }

  /** Filtering with a test every element passes changes nothing. */
  lemma {:induction false} FilterAll<T(!new)>(s: seq<T>, p: T -> bool)
    requires forall i :: 0 <= i < |s| ==> p(s[i])
    ensures Filter(s, p) == s
  {
    if |s| > 0 {
      FilterAll(s[1..], p);
    }
  }

  /** Filtering a concatenation filters each half. */
  lemma {:induction false} FilterConcat<T(!new)>(a: seq<T>, b: seq<T>, p: T -> bool)
    ensures Filter(a + b, p) == Filter(a, p) + Filter(b, p)
  {
    if |a| > 0 {
      assert (a + b)[1..] == a[1..] + b;
      FilterConcat(a[1..], b, p);
    } else {
      assert a + b == b;
    }
  }

  /** Non-increasing order of `key` along the sequence. */
  predicate SortedDesc<T>(s: seq<T>, key: T -> real)
  {
    forall i, j :: 0 <= i < j < |s| ==> key(s[i]) >= key(s[j])
  }

  /** Prepending an element whose key bounds every key keeps the order. */
  lemma SortedCons<T>(h: T, t: seq<T>, key: T -> real)
    requires SortedDesc(t, key)
    requires forall k :: 0 <= k < |t| ==> key(h) >= key(t[k])
    ensures SortedDesc([h] + t, key)
  {
  }

  /** A bound on the keys of a multiset's elements holds along any sequence
      with that multiset. */
  lemma KeysBounded<T>(t: seq<T>, m: multiset<T>, bound: real, key: T -> real)
    requires multiset(t) == m
    requires forall y :: y in m ==> key(y) <= bound
    ensures forall k :: 0 <= k < |t| ==> key(t[k]) <= bound
  {
    forall k | 0 <= k < |t|
      ensures key(t[k]) <= bound
    {
      assert t[k] in multiset(t);
    }
  }

  /** Places `x` in front of the first element whose key is not above its
      own, so that equal keys keep their relative order. */
  function InsertDesc<T>(x: T, s: seq<T>, key: T -> real): (r: seq<T>)
    requires SortedDesc(s, key)
    ensures SortedDesc(r, key)
    ensures multiset(r) == multiset(s) + multiset{x}
  {
    if |s| == 0 then [x]
    else if key(x) >= key(s[0]) then
      SortedCons(x, s, key);
      [x] + s
    else
      var tail := InsertDesc(x, s[1..], key);
      assert s == [s[0]] + s[1..];
      assert forall y :: y in multiset(s[1..]) ==> y in s[1..];
      KeysBounded(tail, multiset(s[1..]) + multiset{x}, key(s[0]), key);
      SortedCons(s[0], tail, key);
      [s[0]] + tail
  }

  /** Stable insertion sort, largest key first. */
  function SortDesc<T>(s: seq<T>, key: T -> real): (r: seq<T>)
    ensures SortedDesc(r, key)
    ensures multiset(r) == multiset(s)
  {
    if |s| == 0 then []
    else
      assert s == [s[0]] + s[1..];
      InsertDesc(s[0], SortDesc(s[1..], key), key)
  }

  /** The head of a sorted permutation carries a largest key of the input. */
  lemma SortDescHead<T>(s: seq<T>, key: T -> real)
    requires |s| > 0
    ensures |SortDesc(s, key)| == |s|
    ensures SortDesc(s, key)[0] in s
    ensures forall j :: 0 <= j < |s| ==> key(s[j]) <= key(SortDesc(s, key)[0])
  {
    var r := SortDesc(s, key);
    assert |r| == |multiset(r)| == |multiset(s)| == |s|;
    assert r[0] in multiset(s);
    forall j | 0 <= j < |s|
      ensures key(s[j]) <= key(r[0])
    {
      assert s[j] in multiset(r);
      var k :| 0 <= k < |r| && r[k] == s[j];
    }
  }
}
