/** Maxima, sizes and sums over finite sets. */
module Sets {

  /** Some member of a set. */
  ghost function Pick<T>(s: set<T>): (x: T)
    requires |s| > 0
    ensures x in s
  {
    var x :| x in s;
    x
  }

  lemma {:induction false} HasMax(s: set<int>)
    requires |s| > 0
    ensures exists m :: m in s && forall x :: x in s ==> x <= m
  {
    var x := Pick(s);
    var rest := s - {x};
    assert forall y :: y in s ==> y == x || y in rest;
    if |rest| > 0 {
      HasMax(rest);
      var m :| m in rest && forall y :: y in rest ==> y <= m;
      var top := if x > m then x else m;
      assert top in s;
      forall y | y in s
        ensures y <= top
      {
        assert y == x || y in rest;
      }
    }
  }

  /** The highest of the numbers, 0 when there is none. */
  function Max(s: set<int>): (m: int)
    ensures |s| == 0 ==> m == 0
    ensures |s| > 0 ==> m in s
    ensures forall x :: x in s ==> x <= m
  {
    if |s| == 0 then 0
    else
      HasMax(s);
      var m :| m in s && forall x :: x in s ==> x <= m;
      m
  }

  /** A set of whole numbers inside an interval is no larger than the interval. */
  lemma {:induction false} Interval(s: set<int>, low: int, high: int)
    requires forall x :: x in s ==> low <= x <= high
    ensures |s| <= if low <= high + 1 then high - low + 1 else 0
    decreases if high >= low then high - low + 1 else 0
  {
    if high < low {
      if |s| > 0 {
        var x := Pick(s);
        assert false;
      }
    } else {
      var rest := s - {high};
      Interval(rest, low, high - 1);
      assert s <= rest + {high};
      SubsetSize(s, rest + {high});
    }
  }

  lemma {:induction false} SubsetSize<T>(a: set<T>, b: set<T>)
    requires a <= b
    ensures |a| <= |b|
  {
    if |a| > 0 {
      var x := Pick(a);
      SubsetSize(a - {x}, b - {x});
    }
  }

  ghost function Sum<T(!new)>(s: set<T>, f: T -> int): int {
    if |s| == 0 then 0 else var x := Pick(s); f(x) + Sum(s - {x}, f)
  }

  /** The sum does not depend on the order in which members are taken. */
  lemma {:induction false} SumSplit<T(!new)>(s: set<T>, f: T -> int, x: T)
    requires x in s
    ensures Sum(s, f) == f(x) + Sum(s - {x}, f)
  {
    var y := Pick(s);
    if y != x {
      SumSplit(s - {y}, f, x);
      SumSplit(s - {x}, f, y);
      assert s - {y} - {x} == s - {x} - {y};
    }
  }

  lemma {:induction false} SumSame<T(!new)>(s: set<T>, f: T -> int, g: T -> int)
    requires forall x :: x in s ==> f(x) == g(x)
    ensures Sum(s, f) == Sum(s, g)
  {
    if |s| > 0 {
      SumSame(s - {Pick(s)}, f, g);
    }
  }
}
