/**
 * The ordering tools the fingering engine relies on: JavaScript's
 * `Array.prototype.sort`, which is stable, with a comparator `a.k - b.k`,
 * and `Math.min`/`Math.max` over non-empty lists.
 */
module Sorting {

  predicate SortedBy<T>(s: seq<T>, key: T -> int)
  {
    forall i, j :: 0 <= i < j < |s| ==> key(s[i]) <= key(s[j])
  }

  /** The elements of `s` whose key is `v`, in their order in `s`. */
  function KeyRun<T>(s: seq<T>, key: T -> int, v: int): (r: seq<T>)
    ensures |r| <= |s|
    ensures forall i :: 0 <= i < |r| ==> key(r[i]) == v
  {
    if s == [] then []
    else (if key(s[0]) == v then [s[0]] else []) + KeyRun(s[1..], key, v)
  }

  /** Puts `x` in front of the first element whose key is not smaller than its own. */
  function InsertBy<T>(x: T, s: seq<T>, key: T -> int): (r: seq<T>)
    ensures |r| == |s| + 1
    ensures multiset(r) == multiset(s) + multiset{x}
  {
    if s == [] || key(x) <= key(s[0]) then [x] + s
    else
      var rest := InsertBy(x, s[1..], key);
      assert s == [s[0]] + s[1..];
      [s[0]] + rest
  }

  /**
   * A stable sort by ascending key: elements with equal keys keep their
   * relative order, as the ECMAScript specification requires of `sort`.
   */
  function SortBy<T>(s: seq<T>, key: T -> int): (r: seq<T>)
    ensures |r| == |s|
    ensures multiset(r) == multiset(s)
  {
    if s == [] then []
    else
      assert s == [s[0]] + s[1..];
      InsertBy(s[0], SortBy(s[1..], key), key)
  }

  lemma {:induction false} InsertBySorted<T>(x: T, s: seq<T>, key: T -> int)
    requires SortedBy(s, key)
    ensures SortedBy(InsertBy(x, s, key), key)
  {
    if s != [] && key(x) > key(s[0]) {
      InsertBySorted(x, s[1..], key);
      var rest := InsertBy(x, s[1..], key);
      assert multiset(rest) == multiset(s[1..]) + multiset{x};
      forall e | e in rest
        ensures key(s[0]) <= key(e)
      {
        assert e in multiset(rest);
        if e != x {
          assert e in multiset(s[1..]);
          var k :| 0 <= k < |s[1..]| && s[1..][k] == e;
          assert s[k + 1] == e;
        }
      }
      assert forall j :: 0 <= j < |rest| ==> rest[j] in rest;
    }
  }

  /** The result of the sort is in ascending key order. */
  lemma {:induction false} SortBySorted<T>(s: seq<T>, key: T -> int)
    ensures SortedBy(SortBy(s, key), key)
  {
    if s != [] {
      SortBySorted(s[1..], key);
      InsertBySorted(s[0], SortBy(s[1..], key), key);
    }
  }

  lemma {:induction false} KeyRunConcat<T>(a: seq<T>, b: seq<T>, key: T -> int, v: int)
    ensures KeyRun(a + b, key, v) == KeyRun(a, key, v) + KeyRun(b, key, v)
  {
    if a != [] {
      assert (a + b)[1..] == a[1..] + b;
      KeyRunConcat(a[1..], b, key, v);
    } else {
      assert a + b == b;
    }
  }

  /** Inserting `x` puts it in front of every element of `s` with the same key. */
  lemma {:induction false} InsertByKeyRun<T>(x: T, s: seq<T>, key: T -> int, v: int)
    ensures KeyRun(InsertBy(x, s, key), key, v) == (if key(x) == v then [x] else []) + KeyRun(s, key, v)
  {
    if s == [] || key(x) <= key(s[0]) {
      KeyRunConcat([x], s, key, v);
    } else {
      InsertByKeyRun(x, s[1..], key, v);
      KeyRunConcat([s[0]], InsertBy(x, s[1..], key), key, v);
    }
  }

  /**
   * Stability: for every key value, the elements carrying it come out of the
   * sort in the order they had in the input.
   */
  lemma {:induction false} SortByStable<T>(s: seq<T>, key: T -> int, v: int)
    ensures KeyRun(SortBy(s, key), key, v) == KeyRun(s, key, v)
  {
    if s != [] {
      SortByStable(s[1..], key, v);
      InsertByKeyRun(s[0], SortBy(s[1..], key), key, v);
    }
  }

  ghost predicate Distinct<T>(s: seq<T>)
  {
    forall i, j :: 0 <= i < j < |s| ==> s[i] != s[j]
  }

  lemma {:induction false} InsertByDistinct<T>(x: T, s: seq<T>, key: T -> int)
    requires Distinct(s) && x !in s
    ensures Distinct(InsertBy(x, s, key))
  {
    if s != [] && key(x) > key(s[0]) {
      InsertByDistinct(x, s[1..], key);
      var rest := InsertBy(x, s[1..], key);
      assert s[0] !in s[1..];
      assert s[0] !in multiset(rest);
      assert forall j :: 0 <= j < |rest| ==> rest[j] in multiset(rest);
    }
  }

  /** Sorting a list without repetitions gives a list without repetitions. */
  lemma {:induction false} SortByDistinct<T>(s: seq<T>, key: T -> int)
    requires Distinct(s)
    ensures Distinct(SortBy(s, key))
  {
    if s != [] {
      SortByDistinct(s[1..], key);
      assert s[0] !in s[1..];
      assert s[0] !in multiset(SortBy(s[1..], key));
      InsertByDistinct(s[0], SortBy(s[1..], key), key);
    }
  }

  /** Every element of the sorted list comes from the input. */
  lemma SortByMembers<T>(s: seq<T>, key: T -> int, k: int)
    requires 0 <= k < |SortBy(s, key)|
    ensures SortBy(s, key)[k] in s
  {
    assert SortBy(s, key)[k] in multiset(SortBy(s, key));
  }

  /** A prefix `p` of the sorted list comes from the input and is in ascending key order. */
  lemma SortByPrefix<T>(s: seq<T>, key: T -> int, p: seq<T>)
    requires |p| <= |s| && p == SortBy(s, key)[..|p|]
    ensures forall k :: 0 <= k < |p| ==> p[k] in s
    ensures forall i, j :: 0 <= i < j < |p| ==> key(p[i]) <= key(p[j])
  {
    var r := SortBy(s, key);
    SortBySorted(s, key);
    forall k | 0 <= k < |p|
      ensures p[k] == r[k] && p[k] in s
    {
      SortByMembers(s, key, k);
    }
  }

  /** An element of `r` missing from a prefix of `r` sits after that prefix. */
  lemma AfterPrefix<T>(r: seq<T>, p: seq<T>, x: T) returns (m: int)
    requires |p| <= |r| && p == r[..|p|] && x in r && x !in p
    ensures |p| <= m < |r| && r[m] == x
  {
    m :| 0 <= m < |r| && r[m] == x;
    assert forall k :: 0 <= k < |p| ==> r[k] in p;
  }

  /** No input element outside a prefix `p` of the sorted list has a smaller key than an element of `p`. */
  lemma SortByPrefixLeast<T>(s: seq<T>, key: T -> int, p: seq<T>)
    requires |p| <= |s| && p == SortBy(s, key)[..|p|]
    ensures forall x :: x in s && x !in p ==> forall k :: 0 <= k < |p| ==> key(p[k]) <= key(x)
  {
    SortBySorted(s, key);
    SortedPrefixLeast(s, SortBy(s, key), key, p);
  }

  lemma SortedPrefixLeast<T>(s: seq<T>, r: seq<T>, key: T -> int, p: seq<T>)
    requires SortedBy(r, key) && multiset(r) == multiset(s)
    requires |p| <= |r| && p == r[..|p|]
    ensures forall x :: x in s && x !in p ==> forall k :: 0 <= k < |p| ==> key(p[k]) <= key(x)
  {
    forall x | x in s && x !in p
      ensures forall k :: 0 <= k < |p| ==> key(p[k]) <= key(x)
    {
      assert x in multiset(r);
      var m := AfterPrefix(r, p, x);
      forall k | 0 <= k < |p|
        ensures key(p[k]) <= key(x)
      {
        assert p[k] == r[k];
      }
    }
  }

  /** `Math.min` of a non-empty list. */
  function MinOf(s: seq<int>): (m: int)
    requires s != []
    ensures m in s
    ensures forall i :: 0 <= i < |s| ==> m <= s[i]
  {
    if |s| == 1 then s[0]
    else
      var rest := MinOf(s[1..]);
      assert rest in s;
      if s[0] <= rest then s[0] else rest
  }

  /** `Math.max` of a non-empty list. */
  function MaxOf(s: seq<int>): (m: int)
    requires s != []
    ensures m in s
    ensures forall i :: 0 <= i < |s| ==> s[i] <= m
  {
    if |s| == 1 then s[0]
    else
      var rest := MaxOf(s[1..]);
      assert rest in s;
      if s[0] >= rest then s[0] else rest
  }
}
