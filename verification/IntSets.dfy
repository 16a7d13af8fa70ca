/** Sets of integers and Python's `sorted` on them. */
module IntSets {
  lemma HasMember(s: set<int>)
    requires s != {}
    ensures exists y :: y in s
  {
    if forall y :: y !in s {
      assert false;
    }
  }

  lemma NoMembers(s: set<int>)
    requires forall y :: y !in s
    ensures s == {}
  {
    if s != {} {
      HasMember(s);
    }
  }

  predicate IsMin(s: set<int>, m: int) {
    m in s && forall x :: x in s ==> m <= x
  }

  lemma {:induction false} HasMin(s: set<int>)
    requires s != {}
    ensures exists m :: IsMin(s, m)
  {
    HasMember(s);
    var y :| y in s;
    if s - {y} == {} {
      MinOfOne(s, y);
    } else {
      hide IsMin;
      HasMin(s - {y});
      var m :| IsMin(s - {y}, m);
      MinWith(s, y, m);
    }
  }

  lemma MinOfOne(s: set<int>, y: int)
    requires y in s && s - {y} == {}
    ensures IsMin(s, y)
  {
    assert s == (s - {y}) + {y};
  }

  lemma MinWith(s: set<int>, y: int, m: int)
    requires y in s && IsMin(s - {y}, m)
    ensures IsMin(s, if m < y then m else y)
  {
    forall x | x in s
      ensures (if m < y then m else y) <= x
    {
      if x != y {
        assert x in s - {y};
      }
    }
  }

  function Min(s: set<int>): (m: int)
    requires s != {}
    ensures m in s && forall x :: x in s ==> m <= x
  {
    HasMin(s);
    var m :| IsMin(s, m);
    m
  }

  /** `sorted(s)` */
  function Sorted(s: set<int>): (r: seq<int>)
    ensures |r| == |s| && forall x :: x in r <==> x in s
    decreases |s|
  {
    if s == {} then [] else [Min(s)] + Sorted(s - {Min(s)})
  }

  lemma SortedFirst(s: set<int>, m: int)
    requires m in s && forall x :: x in s ==> m <= x
    ensures Sorted(s) == [m] + Sorted(s - {m})
  {
    hide Min;
    assert Min(s) == m;
  }

  function Range(lo: nat, hi: nat): (r: seq<int>)
    requires lo <= hi
    ensures |r| == hi - lo
    decreases hi - lo
  {
    if lo == hi then [] else [lo] + Range(lo + 1, hi)
  }

  lemma {:induction false} SortedRange(s: set<int>, lo: nat, hi: nat)
    requires lo <= hi && forall x :: x in s <==> lo <= x < hi
    ensures Sorted(s) == Range(lo, hi)
    decreases hi - lo
  {
    hide Sorted;
    if lo < hi {
      SortedFirst(s, lo);
      SortedRange(s - {lo}, lo + 1, hi);
    } else {
      NoMembers(s);
      assert |Sorted(s)| == 0;
    }
  }
}
