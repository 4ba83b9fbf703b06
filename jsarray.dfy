/**
 * The JavaScript array built-ins the catalog and the keypair registry rely
 * on: `find` (the first element satisfying a test) and `filter` (every
 * element satisfying it, in order).
 */
module JsArray {
  import opened Wrappers

  /** `s.find(p)`: the first element satisfying `p`, or None (JavaScript's `undefined`). */
  function Find<T>(s: seq<T>, p: T -> bool): (r: Option<T>)
    ensures r.None? <==> forall k :: 0 <= k < |s| ==> !p(s[k])
    ensures r.Some? ==>
      exists k :: 0 <= k < |s| && s[k] == r.value && p(s[k]) && (forall j :: 0 <= j < k ==> !p(s[j]))
  {
    if |s| == 0 then None
    else if p(s[0]) then Some(s[0])
    else
      var r := Find(s[1..], p);
      assert forall k :: 1 <= k < |s| ==> s[k] == s[1..][k - 1];
      r
  }

  /** What `find` returns is the element at the first index whose element satisfies `p`. */
  lemma FindFirst<T>(s: seq<T>, p: T -> bool, k: nat)
    requires k < |s| && p(s[k])
    requires forall j :: 0 <= j < k ==> !p(s[j])
    ensures Find(s, p) == Some(s[k])
  {
    var r := Find(s, p);
    var i :| 0 <= i < |s| && s[i] == r.value && p(s[i]) && forall j :: 0 <= j < i ==> !p(s[j]);
    assert i == k;
  }

  /** Searching a concatenation searches the second part only when the first has no match. */
  lemma {:induction false} FindConcat<T>(a: seq<T>, b: seq<T>, p: T -> bool)
    ensures Find(a + b, p) == if Find(a, p).Some? then Find(a, p) else Find(b, p)
  {
    if |a| == 0 {
      assert a + b == b;
    } else {
      assert (a + b)[0] == a[0];
      assert (a + b)[1..] == a[1..] + b;
      FindConcat(a[1..], b, p);
    }
  }

  /** `s.filter(p)`: the elements satisfying `p`, in order. */
  function Filter<T>(s: seq<T>, p: T -> bool): (r: seq<T>)
    ensures |r| <= |s|
    ensures forall k :: 0 <= k < |r| ==> r[k] in s && p(r[k])
    ensures forall k :: 0 <= k < |s| && p(s[k]) ==> s[k] in r
  {
    if |s| == 0 then []
    else (if p(s[0]) then [s[0]] else []) + Filter(s[1..], p)
  }

  /** Filtering a concatenation filters each part, keeping their order. */
  lemma {:induction false} FilterConcat<T>(a: seq<T>, b: seq<T>, p: T -> bool)
    ensures Filter(a + b, p) == Filter(a, p) + Filter(b, p)
  {
    if |a| == 0 {
      assert a + b == b;
    } else {
      assert (a + b)[0] == a[0];
      assert (a + b)[1..] == a[1..] + b;
      FilterConcat(a[1..], b, p);
    }
  }

  /** When every element satisfies `p`, `filter` keeps the sequence whole. */
  lemma {:induction false} FilterAll<T>(s: seq<T>, p: T -> bool)
    requires forall k :: 0 <= k < |s| ==> p(s[k])
    ensures Filter(s, p) == s
  {
    if |s| > 0 {
      assert p(s[0]);
      FilterAll(s[1..], p);
    }
  }

  /** `filter` keeps nothing exactly when no element passes. */
  lemma FilterEmptyIff<T>(s: seq<T>, p: T -> bool)
    ensures Filter(s, p) == [] <==> forall k :: 0 <= k < |s| ==> !p(s[k])
  {
    if Filter(s, p) != [] {
      assert p(Filter(s, p)[0]);
    }
  }

  /** `key` strictly increases along `s`. */
  predicate IncreasingBy<T>(s: seq<T>, key: T -> int) {
    forall i, j :: 0 <= i < j < |s| ==> key(s[i]) < key(s[j])
  }

  /** Whatever `filter` keeps of the tail of an increasing sequence lies above its head. */
  lemma FilterTailAbove<T>(s: seq<T>, p: T -> bool, key: T -> int)
    requires |s| > 0 && IncreasingBy(s, key)
    ensures forall m :: 0 <= m < |Filter(s[1..], p)| ==> key(s[0]) < key(Filter(s[1..], p)[m])
  {
    var t := s[1..];
    var rest := Filter(t, p);
    forall m | 0 <= m < |rest| ensures key(s[0]) < key(rest[m]) {
      assert rest[m] in t;
      var k :| 0 <= k < |t| && t[k] == rest[m];
      assert t[k] == s[k + 1];
    }
  }

  /** The tail of an increasing sequence is increasing. */
  lemma IncreasingTail<T>(s: seq<T>, key: T -> int)
    requires |s| > 0 && IncreasingBy(s, key)
    ensures IncreasingBy(s[1..], key)
  {
    var t := s[1..];
    forall i, j | 0 <= i < j < |t| ensures key(t[i]) < key(t[j]) {
      assert t[i] == s[i + 1] && t[j] == s[j + 1];
    }
  }

  /** An element below everything in an increasing sequence can be put in front of it. */
  lemma IncreasingCons<T>(x: T, r: seq<T>, key: T -> int)
    requires IncreasingBy(r, key)
    requires forall m :: 0 <= m < |r| ==> key(x) < key(r[m])
    ensures IncreasingBy([x] + r, key)
  {
    var xr := [x] + r;
    forall i, j | 0 <= i < j < |xr| ensures key(xr[i]) < key(xr[j]) {
      assert xr[j] == r[j - 1];
      if i > 0 {
        assert xr[i] == r[i - 1];
      }
    }
  }

  /** A sequence whose `key` strictly increases along it keeps that order under `filter`. */
  lemma {:induction false} FilterKeepsOrder<T>(s: seq<T>, p: T -> bool, key: T -> int)
    requires IncreasingBy(s, key)
    ensures IncreasingBy(Filter(s, p), key)
  {
    if |s| > 0 {
      IncreasingTail(s, key);
      FilterKeepsOrder(s[1..], p, key);
      FilterTailAbove(s, p, key);
      if p(s[0]) {
        assert Filter(s, p) == [s[0]] + Filter(s[1..], p);
        IncreasingCons(s[0], Filter(s[1..], p), key);
      } else {
        assert Filter(s, p) == Filter(s[1..], p);
      }
    }
  }
}
