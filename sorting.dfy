/** `Array.prototype.sort` with a comparator, as the search services call it. The language
    requires the sort to be stable, so its result is determined by the comparator: elements
    come out ordered, and elements the comparator calls equal keep their relative order.
    `le(a, b)` stands for `compare(a, b) <= 0`: a stable sort may leave `a` in front of `b`. */
module Sorting {
  import opened Seqs

  /** `le` is total and transitive on the elements of `u`. */
  ghost predicate TotalPreorderOn<T>(u: set<T>, le: (T, T) -> bool) {
    && (forall a, b :: a in u && b in u ==> le(a, b) || le(b, a))
    && (forall a, b, c :: a in u && b in u && c in u && le(a, b) && le(b, c) ==> le(a, c))
  }

  predicate SortedBy<T>(s: seq<T>, le: (T, T) -> bool) {
    forall i, j :: 0 <= i < j < |s| ==> le(s[i], s[j])
  }

  /** The elements that the comparator ranks equal to `e`. */
  function EquivalentTo<T>(le: (T, T) -> bool, e: T): T -> bool {
    y => le(y, e) && le(e, y)
  }

  /** Puts `x` in front of the first element it may precede. */
  function Insert<T>(x: T, s: seq<T>, le: (T, T) -> bool): (r: seq<T>)
    ensures multiset(r) == multiset(s) + multiset{x}
  {
    if s == [] || le(x, s[0]) then [x] + s
    else
      var r := [s[0]] + Insert(x, s[1..], le);
      assert s == [s[0]] + s[1..];
      r
  }

  /** Stable insertion sort: every element goes in front of the already sorted later ones
      that it may precede. */
  function SortBy<T>(s: seq<T>, le: (T, T) -> bool): (r: seq<T>)
    ensures multiset(r) == multiset(s)
  {
    if s == [] then []
    else
      var r := Insert(s[0], SortBy(s[1..], le), le);
      assert s == [s[0]] + s[1..];
      r
  }

  lemma {:induction false} InsertSorted<T>(x: T, s: seq<T>, le: (T, T) -> bool, u: set<T>)
    requires TotalPreorderOn(u, le)
    requires x in u && forall y :: y in s ==> y in u
    requires SortedBy(s, le)
    ensures SortedBy(Insert(x, s, le), le)
  {
    if s == [] || le(x, s[0]) {
      var r := [x] + s;
      forall i, j | 0 <= i < j < |r| ensures le(r[i], r[j]) {
        if i == 0 && j > 1 {
          assert s[0] in u && s[j - 1] in u;
        }
      }
    } else {
      assert s[0] in u;
      InsertSorted(x, s[1..], le, u);
      var tail := Insert(x, s[1..], le);
      var r := [s[0]] + tail;
      forall i, j | 0 <= i < j < |r| ensures le(r[i], r[j]) {
        if i == 0 {
          var y := r[j];
          assert y in multiset(tail);
          assert y in multiset(s[1..]) + multiset{x};
          if y != x {
            assert y in s[1..];
            var k :| 0 <= k < |s[1..]| && s[1..][k] == y;
            assert s[k + 1] == y;
          }
        }
      }
    }
  }

  /** The result of `SortBy` is ordered by `le` whenever `le` is a total preorder. */
  lemma {:induction false} SortBySorted<T>(s: seq<T>, le: (T, T) -> bool, u: set<T>)
    requires TotalPreorderOn(u, le)
    requires forall y :: y in s ==> y in u
    ensures SortedBy(SortBy(s, le), le)
  {
    if s != [] {
      SortBySorted(s[1..], le, u);
      var t := SortBy(s[1..], le);
      SortByInU(s[1..], le, u);
      InsertSorted(s[0], t, le, u);
    }
  }

  /** Sorting draws its elements from the input, so they stay within `u`. */
  lemma SortByInU<T>(s: seq<T>, le: (T, T) -> bool, u: set<T>)
    requires forall y :: y in s ==> y in u
    ensures forall y :: y in SortBy(s, le) ==> y in u
  {
    var t := SortBy(s, le);
    forall y | y in t ensures y in u {
      assert y in multiset(t);
      assert y in s;
    }
  }

  lemma {:induction false} InsertFiltered<T>(x: T, s: seq<T>, le: (T, T) -> bool, e: T, u: set<T>)
    requires TotalPreorderOn(u, le)
    requires x in u && e in u && forall y :: y in s ==> y in u
    ensures Filter(Insert(x, s, le), EquivalentTo(le, e))
         == (if EquivalentTo(le, e)(x) then [x] else []) + Filter(s, EquivalentTo(le, e))
  {
    var p := EquivalentTo(le, e);
    if s == [] || le(x, s[0]) {
      FilterCons(x, s, p);
    } else {
      var s0 := s[0];
      assert s0 in u;
      var ins := Insert(x, s[1..], le);
      assert Insert(x, s, le) == [s0] + ins;
      assert s == [s0] + s[1..];
      InsertFiltered(x, s[1..], le, e, u);
      FilterCons(s0, ins, p);
      FilterCons(s0, s[1..], p);
      var rest := Filter(s[1..], p);
      if p(s0) {
        // x is not allowed in front of s0, so x is not equivalent to e
        assert le(e, s0);
        assert !(le(x, e) && le(e, s0));
        assert Filter(ins, p) == rest;
      } else {
        assert Filter(s, p) == rest;
      }
    }
  }

  /** Stability: among elements the comparator ranks equal, the sorted result keeps their
      original order. */
  lemma {:induction false} SortByStable<T>(s: seq<T>, le: (T, T) -> bool, e: T, u: set<T>)
    requires TotalPreorderOn(u, le)
    requires e in u && forall y :: y in s ==> y in u
    ensures Filter(SortBy(s, le), EquivalentTo(le, e)) == Filter(s, EquivalentTo(le, e))
  {
    if s != [] {
      var t := SortBy(s[1..], le);
      SortByStable(s[1..], le, e, u);
      SortByInU(s[1..], le, u);
      InsertFiltered(s[0], t, le, e, u);
      assert s == [s[0]] + s[1..];
      FilterCons(s[0], s[1..], EquivalentTo(le, e));
    }
  }

  /** Sorting keeps the elements, orders them, and keeps ties in their order. */
  lemma SortByProperties<T>(s: seq<T>, le: (T, T) -> bool, u: set<T>)
    requires TotalPreorderOn(u, le)
    requires forall y :: y in s ==> y in u
    ensures forall x :: x in SortBy(s, le) <==> x in s
    ensures SortedBy(SortBy(s, le), le)
    ensures forall e :: e in SortBy(s, le) ==> Filter(SortBy(s, le), EquivalentTo(le, e)) == Filter(s, EquivalentTo(le, e))
  {
    var r := SortBy(s, le);
    assert forall x :: x in r <==> x in multiset(r);
    SortBySorted(s, le, u);
    forall e | e in r ensures Filter(r, EquivalentTo(le, e)) == Filter(s, EquivalentTo(le, e)) {
      assert e in multiset(s);
      SortByStable(s, le, e, u);
    }
  }
}
