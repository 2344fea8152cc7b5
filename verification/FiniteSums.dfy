/** Sums and cardinalities over finite sets, as the counting arguments of the other modules need them. */
module FiniteSums {

  ghost function Sum<T(!new)>(s: set<T>, w: T -> int): int {
    if s == {} then 0 else
      var x :| x in s;
      w(x) + Sum(s - {x}, w)
  }

  lemma {:induction false} SumTake<T(!new)>(s: set<T>, w: T -> int, x: T)
    requires x in s
    ensures Sum(s, w) == w(x) + Sum(s - {x}, w)
    decreases s
  {
    var y :| y in s && Sum(s, w) == w(y) + Sum(s - {y}, w);
    if y != x {
      SumTake(s - {y}, w, x);
      SumTake(s - {x}, w, y);
      assert s - {y} - {x} == s - {x} - {y};
    }
  }

  lemma {:induction false} SumPut<T(!new)>(s: set<T>, w: T -> int, x: T)
    requires x !in s
    ensures Sum(s + {x}, w) == w(x) + Sum(s, w)
  {
    SumTake(s + {x}, w, x);
    assert s + {x} - {x} == s;
  }

  lemma {:induction false} SumSame<T(!new)>(s: set<T>, v: T -> int, w: T -> int)
    requires forall x :: x in s ==> v(x) == w(x)
    ensures Sum(s, v) == Sum(s, w)
    decreases s
  {
    if s != {} {
      var x :| x in s;
      SumTake(s, v, x);
      SumTake(s, w, x);
      SumSame(s - {x}, v, w);
    }
  }

  /** Changing the weight of one member changes the sum by that member's difference. */
  lemma {:induction false} SumBump<T(!new)>(s: set<T>, v: T -> int, w: T -> int, x: T)
    requires x in s && forall y :: y in s && y != x ==> v(y) == w(y)
    ensures Sum(s, w) == Sum(s, v) - v(x) + w(x)
  {
    SumTake(s, v, x);
    SumTake(s, w, x);
    SumSame(s - {x}, v, w);
  }

  lemma {:induction false} SumNonNegative<T(!new)>(s: set<T>, w: T -> int)
    requires forall x :: x in s ==> 0 <= w(x)
    ensures 0 <= Sum(s, w)
    decreases s
  {
    if s != {} {
      var x :| x in s;
      SumTake(s, w, x);
      SumNonNegative(s - {x}, w);
    }
  }

  ghost function Fiber<S(!new), T(!new)>(s: set<S>, f: S -> T, y: T): set<S> { set x | x in s && f(x) == y }

  ghost function FiberSizes<S(!new), T(!new)>(s: set<S>, f: S -> T): T -> int { y => |Fiber(s, f, y)| }

  /** Counting a set by the value f gives its members, group by group, counts the whole set. */
  lemma {:induction false} SumOfFibers<S(!new), T(!new)>(s: set<S>, f: S -> T, groups: set<T>)
    requires forall x :: x in s ==> f(x) in groups
    ensures Sum(groups, FiberSizes(s, f)) == |s|
    decreases s
  {
    if s == {} {
      SumOfZeros(groups, FiberSizes(s, f));
    } else {
      var x :| x in s;
      var rest := s - {x};
      SumOfFibers(rest, f, groups);
      forall y | y in groups
        ensures FiberSizes(s, f)(y) == FiberSizes(rest, f)(y) + if y == f(x) then 1 else 0
      {
        assert Fiber(s, f, y) == if y == f(x) then Fiber(rest, f, y) + {x} else Fiber(rest, f, y);
      }
      SumBump(groups, FiberSizes(rest, f), FiberSizes(s, f), f(x));
    }
  }

  lemma {:induction false} CountByFiber<S(!new), T(!new)>(s: set<S>, f: S -> T, groups: set<T>, w: T -> int)
    requires forall x :: x in s ==> f(x) in groups
    requires forall y :: y in groups ==> w(y) == |Fiber(s, f, y)|
    ensures Sum(groups, w) == |s|
  {
    SumOfFibers(s, f, groups);
    SumSame(groups, w, FiberSizes(s, f));
  }

  lemma {:induction false} CountByTwoFibers<S(!new), T(!new)>(
      s: set<S>, f: S -> T, g: S -> T, groups: set<T>, w: T -> int)
    requires forall x :: x in s ==> f(x) in groups && g(x) in groups
    requires forall y :: y in groups ==> w(y) == |Fiber(s, f, y)| + |Fiber(s, g, y)|
    ensures Sum(groups, w) == 2 * |s|
  {
    SumOfFibers(s, f, groups);
    SumOfFibers(s, g, groups);
    SumAdd(groups, FiberSizes(s, f), FiberSizes(s, g), w);
  }

  lemma {:induction false} SumOfZeros<T(!new)>(s: set<T>, w: T -> int)
    requires forall x :: x in s ==> w(x) == 0
    ensures Sum(s, w) == 0
    decreases s
  {
    if s != {} {
      var x :| x in s;
      SumTake(s, w, x);
      SumOfZeros(s - {x}, w);
    }
  }

  /** A sequence without repetitions has as many members as places. */
  lemma {:induction false} DistinctSize<T>(s: seq<T>)
    requires forall i, j :: 0 <= i < j < |s| ==> s[i] != s[j]
    ensures |set x | x in s| == |s|
    decreases |s|
  {
    if s != [] {
      var prior, last := s[..|s| - 1], s[|s| - 1];
      DistinctSize(prior);
      assert s == prior + [last];
      assert (set x | x in s) == (set x | x in prior) + {last};
      assert last !in prior;
    }
  }

  ghost function Image<S(!new), T(!new)>(s: set<S>, f: S -> T): set<T> { set x | x in s :: f(x) }

  /** An injective image has as many members as its domain. */
  lemma {:induction false} ImageSize<S(!new), T(!new)>(s: set<S>, f: S -> T)
    requires forall x, y :: x in s && y in s && f(x) == f(y) ==> x == y
    ensures |Image(s, f)| == |s|
    decreases s
  {
    if s != {} {
      var x :| x in s;
      ImageSize(s - {x}, f);
      assert Image(s, f) == Image(s - {x}, f) + {f(x)};
    }
  }

  lemma {:induction false} SumAdd<T(!new)>(s: set<T>, v: T -> int, w: T -> int, both: T -> int)
    requires forall x :: x in s ==> both(x) == v(x) + w(x)
    ensures Sum(s, both) == Sum(s, v) + Sum(s, w)
    decreases s
  {
    if s != {} {
      var x :| x in s;
      SumTake(s, v, x);
      SumTake(s, w, x);
      SumTake(s, both, x);
      SumAdd(s - {x}, v, w, both);
    }
  }
}
