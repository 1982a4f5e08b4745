/** ORDER BY a number, ascending. */
module Ordered {

  lemma Pick<T>(s: set<T>) returns (x: T)
    requires s != {}
    ensures x in s
  {
    x :| x in s;
  }

  predicate IsMin(s: set<int>, m: int) { m in s && forall x :: x in s ==> m <= x }

  lemma {:induction false} MinExists(s: set<int>)
    requires s != {}
    ensures exists m :: IsMin(s, m)
  {
    var e := Pick(s);
    var rest := s - {e};
    assert forall x :: x in s ==> x == e || x in rest;
    if rest == {} {
      assert IsMin(s, e);
    } else {
      MinExists(rest);
      var m :| IsMin(rest, m);
      assert IsMin(s, if m <= e then m else e);
    }
  }

  function Min(s: set<int>): (m: int)
    requires s != {}
    ensures IsMin(s, m)
  {
    MinExists(s);
    var m :| IsMin(s, m);
    m
  }

  function Sorted(s: set<int>): (r: seq<int>)
    ensures forall x :: x in r <==> x in s
  {
    if s == {} then [] else [Min(s)] + Sorted(s - {Min(s)})
  }

  predicate Ascending(r: seq<int>) { forall i, j :: 0 <= i < j < |r| ==> r[i] < r[j] }

  /** Each element once, in order. */
  lemma {:induction false} SortedIsAscending(s: set<int>)
    ensures Ascending(Sorted(s)) && |Sorted(s)| == |s|
  {
    if s != {} {
      var m, rest := Min(s), Sorted(s - {Min(s)});
      SortedIsAscending(s - {m});
      forall x | x in rest ensures m < x {
        assert x in s - {m};
      }
      assert Sorted(s) == [m] + rest;
    }
  }

  function Range(lo: int, hi: int): (r: set<int>)
    ensures forall x :: x in r <==> lo <= x < hi
    decreases hi - lo
  {
    if lo >= hi then {} else {lo} + Range(lo + 1, hi)
  }

  lemma MinOfRange(lo: int, hi: int)
    requires lo < hi
    ensures Range(lo, hi) != {} && Min(Range(lo, hi)) == lo && Range(lo, hi) - {lo} == Range(lo + 1, hi)
  {
    assert lo in Range(lo, hi);
  }

  lemma SortedRangeFirst(lo: int, hi: int)
    requires lo < hi
    ensures Sorted(Range(lo, hi)) == [lo] + Sorted(Range(lo + 1, hi))
  {
    MinOfRange(lo, hi);
  }

  /** Consecutive numbers, sorted, are counted up. */
  lemma {:induction false} SortedRange(lo: int, hi: int)
    requires lo <= hi
    ensures |Sorted(Range(lo, hi))| == hi - lo
    ensures forall k :: 0 <= k < hi - lo ==> Sorted(Range(lo, hi))[k] == lo + k
    decreases hi - lo
  {
    if lo < hi {
      var rest := Sorted(Range(lo + 1, hi));
      SortedRangeFirst(lo, hi);
      SortedRange(lo + 1, hi);
      forall k | 0 <= k < hi - lo ensures ([lo] + rest)[k] == lo + k {
        assert k >= 1 ==> ([lo] + rest)[k] == rest[k - 1];
      }
    } else {
      assert Range(lo, hi) == {};
    }
  }
}
