/** Array helpers the source uses through JavaScript's `filter`, `find`, `some` and the
    leftmost-match rule of regular expressions. */
module Seqs {
  import opened Wrappers

  /** `r` can be obtained from `s` by deleting elements: order is preserved. */
  predicate IsSubsequence<T(==)>(r: seq<T>, s: seq<T>)
    decreases |s|
  {
    if r == [] then true
    else if s == [] then false
    else if r[0] == s[0] then IsSubsequence(r[1..], s[1..])
    else IsSubsequence(r, s[1..])
  }

  /** `s.filter(p)`: exactly the elements that satisfy `p`, in their original order. */
  function Filter<T(==)>(s: seq<T>, p: T -> bool): (r: seq<T>)
    ensures |r| <= |s|
    ensures forall i :: 0 <= i < |r| ==> r[i] in s && p(r[i])
    ensures forall i :: 0 <= i < |s| && p(s[i]) ==> s[i] in r
    ensures IsSubsequence(r, s)
  {
    if s == [] then []
    else if p(s[0]) then [s[0]] + Filter(s[1..], p)
    else Filter(s[1..], p)
  }

  /** Membership in a filtered sequence. */
  lemma FilterIn<T>(s: seq<T>, p: T -> bool)
    ensures forall x :: x in Filter(s, p) <==> x in s && p(x)
  {
    var r := Filter(s, p);
    forall x | x in s && p(x) ensures x in r {
      var i :| 0 <= i < |s| && s[i] == x;
    }
  }

  /** When exactly the first `n` elements qualify, the filter keeps that prefix. */
  lemma FilterPrefix<T>(s: seq<T>, p: T -> bool, n: nat)
    requires n <= |s|
    requires forall k :: 0 <= k < |s| ==> (p(s[k]) <==> k < n)
    ensures Filter(s, p) == s[..n]
  {
    forall x | x in s[..n] ensures p(x) {
      var k :| 0 <= k < n && s[..n][k] == x;
      assert s[k] == x;
    }
    forall x | x in s[n..] ensures !p(x) {
      var k :| 0 <= k < |s| - n && s[n..][k] == x;
      assert s[n + k] == x;
    }
    FilterAll(s[..n], p);
    FilterNone(s[n..], p);
    FilterConcat(s[..n], s[n..], p);
    assert s[..n] + s[n..] == s;
  }

  /** Filters that agree on the elements of `s` select the same elements. */
  lemma {:induction false} FilterExt<T>(s: seq<T>, p: T -> bool, q: T -> bool)
    requires forall x :: x in s ==> p(x) == q(x)
    ensures Filter(s, p) == Filter(s, q)
  {
    if s != [] {
      FilterExt(s[1..], p, q);
    }
  }

  /** Filtering twice is filtering once by the conjunction. */
  lemma {:induction false} FilterTwice<T>(s: seq<T>, p: T -> bool, q: T -> bool, pq: T -> bool)
    requires forall x :: pq(x) == (p(x) && q(x))
    ensures Filter(Filter(s, p), q) == Filter(s, pq)
  {
    if s != [] {
      FilterTwice(s[1..], p, q, pq);
      if p(s[0]) {
        var t := Filter(s, p);
        assert t[0] == s[0] && t[1..] == Filter(s[1..], p);
      }
    }
  }

  /** A filter that keeps every element is the identity. */
  lemma {:induction false} FilterAll<T>(s: seq<T>, p: T -> bool)
    requires forall x :: x in s ==> p(x)
    ensures Filter(s, p) == s
  {
    if s != [] {
      FilterAll(s[1..], p);
    }
  }

  /** A filter that keeps no element gives the empty sequence. */
  lemma {:induction false} FilterNone<T>(s: seq<T>, p: T -> bool)
    requires forall x :: x in s ==> !p(x)
    ensures Filter(s, p) == []
  {
    if s != [] {
      FilterNone(s[1..], p);
    }
  }

  /** Filtering commutes with appending one element. */
  lemma {:induction false} FilterCons<T>(x: T, s: seq<T>, p: T -> bool)
    ensures Filter([x] + s, p) == (if p(x) then [x] else []) + Filter(s, p)
  {
    assert ([x] + s)[0] == x && ([x] + s)[1..] == s;
  }

  /** Filtering commutes with appending one element at the end, as a loop that pushes the
      elements it keeps does. */
  lemma {:induction false} FilterSnoc<T>(s: seq<T>, x: T, p: T -> bool)
    ensures Filter(s + [x], p) == Filter(s, p) + (if p(x) then [x] else [])
  {
    if s == [] {
      assert s + [x] == [x];
    } else {
      assert (s + [x])[0] == s[0] && (s + [x])[1..] == s[1..] + [x];
      FilterSnoc(s[1..], x, p);
    }
  }

  /** Filtering distributes over concatenation. */
  lemma {:induction false} FilterConcat<T>(a: seq<T>, b: seq<T>, p: T -> bool)
    ensures Filter(a + b, p) == Filter(a, p) + Filter(b, p)
  {
    if a == [] {
      assert a + b == b;
    } else {
      assert (a + b)[0] == a[0] && (a + b)[1..] == a[1..] + b;
      FilterConcat(a[1..], b, p);
    }
  }

  /** `s.find(p)`: the first element that satisfies `p`. */
  function Find<T>(s: seq<T>, p: T -> bool): (r: Option<T>)
    ensures r.Some? ==> exists i :: 0 <= i < |s| && s[i] == r.value && p(s[i]) && forall j :: 0 <= j < i ==> !p(s[j])
    ensures r.None? <==> (forall i :: 0 <= i < |s| ==> !p(s[i]))
  {
    if s == [] then None
    else if p(s[0]) then Some(s[0])
    else
      var r := Find(s[1..], p);
      assert r.Some? ==> exists i :: 0 <= i < |s| && s[i] == r.value && p(s[i]) && forall j :: 0 <= j < i ==> !p(s[j]) by {
        if r.Some? {
          var i :| 0 <= i < |s[1..]| && s[1..][i] == r.value && p(s[1..][i]) && forall j :: 0 <= j < i ==> !p(s[1..][j]);
          assert s[i + 1] == r.value && forall j :: 0 <= j < i + 1 ==> !p(s[j]);
        }
      }
      r
  }

  /** `s.some(p)`. */
  function Any<T>(s: seq<T>, p: T -> bool): (r: bool)
    ensures r <==> exists i :: 0 <= i < |s| && p(s[i])
  {
    Find(s, p).Some?
  }

  /** The least index `k` in `[lo, hi)` with `p(k)`: where a regular expression finds its
      leftmost match. */
  function FirstIndex(p: nat -> bool, lo: nat, hi: nat): (r: Option<nat>)
    ensures r.Some? ==> lo <= r.value < hi && p(r.value) && forall k :: lo <= k < r.value ==> !p(k)
    ensures r.None? <==> (forall k :: lo <= k < hi ==> !p(k))
    decreases hi - lo
  {
    if lo >= hi then None
    else if p(lo) then Some(lo)
    else FirstIndex(p, lo + 1, hi)
  }

  /** An index that satisfies `p` with none before it is the one `FirstIndex` finds. */
  lemma FirstIndexIs(p: nat -> bool, lo: nat, hi: nat, k: nat)
    requires lo <= k < hi && p(k)
    requires forall j :: lo <= j < k ==> !p(j)
    ensures FirstIndex(p, lo, hi) == Some(k)
  {
  }
}
