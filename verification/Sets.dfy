/** Finite-set facts that several modules need. */
module Sets {
  lemma EmptyIff<T>(s: set<T>)
    ensures s == {} <==> forall x :: x !in s
  {
    assert (forall x :: x !in s) ==> s == {};
  }

  lemma Inhabited<T(!new)>(s: set<T>)
    requires s != {}
    ensures exists x :: x in s
  {
    var x := Pick(s);
    assert x in s;
  }

  ghost function Pick<T>(s: set<T>): (x: T)
    requires s != {}
    ensures x in s
  {
    EmptyIff(s);
    var x :| x in s;
    x
  }

  method Choose<T(!new,==)>(s: set<T>) returns (x: T)
    requires s != {}
    ensures x in s
  {
    Inhabited(s);
    x :| x in s;
  }

  /** Moving one element out of `todo` moves it into the visited part of `all`, if it belongs there. */
  lemma Visit<T>(all: set<T>, todo: set<T>, x: T)
    requires x in todo
    ensures all - (todo - {x}) == if x in all then (all - todo) + {x} else all - todo
    ensures |all - (todo - {x})| == |all - todo| + if x in all then 1 else 0
  {
    assert all - (todo - {x}) == if x in all then (all - todo) + {x} else all - todo;
  }

  lemma VisitedAll<T>(all: set<T>, todo: set<T>)
    ensures todo == {} ==> all - todo == all
    ensures all <= todo ==> all - todo == {}
  {
  }

  /** A set all of whose elements are equal has at most one. */
  lemma AtMostOne<T>(s: set<T>)
    requires forall x, y :: x in s && y in s ==> x == y
    ensures |s| <= 1
  {
    if s != {} {
      var x := Pick(s);
      assert s == {x};
    }
  }

  lemma {:induction false} SubsetCardinality<T>(a: set<T>, b: set<T>)
    requires a <= b
    ensures |a| <= |b|
  {
    if a != {} {
      var x := Pick(a);
      SubsetCardinality(a - {x}, b - {x});
    }
  }

  function Interval(lo: int, hi: int): (s: set<int>)
    requires lo <= hi
    ensures forall i :: i in s <==> lo <= i < hi
    ensures |s| == hi - lo
    decreases hi - lo
  {
    if lo == hi then {} else Interval(lo, hi - 1) + {hi - 1}
  }
}
