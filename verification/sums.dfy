/** Finite sums over sets of integers.

    The source accumulates `double` totals while iterating a hash set, in an
    unspecified order.  Over `real` the order does not matter, so the sum here
    always takes the least remaining element first; that keeps it
    deterministic and usable from compiled code.
 */
module Sums {

  lemma HasElement(s: set<int>)
    requires s != {}
    ensures exists x :: x in s
  {
    if forall x :: x !in s {
      assert false;
    }
  }

  /** `m` is the least element of `s`. */
  predicate IsLeast(s: set<int>, m: int)
  {
    m in s && forall x :: x in s ==> m <= x
  }

  /** Every non-empty set has a least element: set one element aside, take
      the least of the rest, and keep the smaller of the two. */
  lemma {:induction false} HasLeast(s: set<int>)
    requires s != {}
    ensures exists m :: IsLeast(s, m)
    decreases s
  {
    HasElement(s);
    var y :| y in s;
    var rest := s - {y};
    if rest == {} {
      assert IsLeast(s, y) by {
        forall x | x in s
          ensures y <= x
        {
          assert x !in rest;
        }
      }
    } else {
      HasLeast(rest);
      var m :| IsLeast(rest, m);
      var least := if y < m then y else m;
      assert IsLeast(s, least) by {
        forall x | x in s
          ensures least <= x
        {
          if x != y {
            assert x in rest;
          }
        }
      }
    }
  }

  /** The least element of a non-empty set. */
  function Least(s: set<int>): (m: int)
    requires s != {}
    ensures m in s && forall x :: x in s ==> m <= x
  {
    HasLeast(s);
    var m :| IsLeast(s, m); m
  }

  /** The sum of `f` over `s`. */
  function Sum(s: set<int>, f: int -> real): real
    decreases s
  {
    if s == {} then 0.0 else var m := Least(s); f(m) + Sum(s - {m}, f)
  }

  /** The integers 0 .. n-1. */
  function Range(n: nat): (r: set<int>)
    ensures forall i :: i in r <==> 0 <= i < n
  {
    if n == 0 then {} else Range(n - 1) + {n - 1}
  }

  /** Any element may be taken out of a sum first, not only the least. */
  lemma {:induction false} SumRemove(s: set<int>, x: int, f: int -> real)
    requires x in s
    ensures Sum(s, f) == f(x) + Sum(s - {x}, f)
    decreases s
  {
    var m := Least(s);
    if x != m {
      SumRemove(s - {m}, x, f);
      assert s - {m} - {x} == s - {x} - {m};
      var m' := Least(s - {x});
      assert m in s - {x};
      assert m <= m' && m' <= m;
    }
  }

  /** A sum over three distinct elements is the sum of the three values. */
  lemma SumOfThree(a: int, b: int, c: int, f: int -> real)
    requires a != b && b != c && a != c
    ensures Sum({a, b, c}, f) == f(a) + f(b) + f(c)
  {
    SumRemove({a, b, c}, a, f);
    assert {a, b, c} - {a} == {b, c};
    SumRemove({b, c}, b, f);
    assert {b, c} - {b} == {c};
    SumRemove({c}, c, f);
    assert {c} - {c} == {};
  }

  /** Functions that agree on `s` have the same sum over `s`. */
  lemma {:induction false} SumCongruent(s: set<int>, f: int -> real, g: int -> real)
    requires forall x :: x in s ==> f(x) == g(x)
    ensures Sum(s, f) == Sum(s, g)
    decreases s
  {
    if s != {} {
      SumCongruent(s - {Least(s)}, f, g);
    }
  }

  /** A function that is zero on `s` sums to zero. */
  lemma {:induction false} SumZero(s: set<int>, f: int -> real)
    requires forall x :: x in s ==> f(x) == 0.0
    ensures Sum(s, f) == 0.0
    decreases s
  {
    if s != {} {
      SumZero(s - {Least(s)}, f);
    }
  }

  /** Summing is monotone. */
  lemma {:induction false} SumMono(s: set<int>, f: int -> real, g: int -> real)
    requires forall x :: x in s ==> f(x) <= g(x)
    ensures Sum(s, f) <= Sum(s, g)
    decreases s
  {
    if s != {} {
      SumMono(s - {Least(s)}, f, g);
    }
  }

  /** A non-negative function sums to a non-negative value, and to zero
      exactly when it is zero everywhere on `s`. */
  lemma {:induction false} SumNonNegative(s: set<int>, f: int -> real)
    requires forall x :: x in s ==> f(x) >= 0.0
    ensures Sum(s, f) >= 0.0
    ensures Sum(s, f) == 0.0 <==> forall x :: x in s ==> f(x) == 0.0
    decreases s
  {
    if s != {} {
      var m := Least(s);
      SumNonNegative(s - {m}, f);
      assert forall x :: x in s ==> x == m || x in s - {m};
    }
  }

  /** A positive function sums to a positive value on a non-empty set. */
  lemma SumPositive(s: set<int>, f: int -> real)
    requires forall x :: x in s ==> f(x) > 0.0
    ensures s != {} ==> Sum(s, f) > 0.0
  {
    SumNonNegative(s, f);
    if s != {} {
      var m := Least(s);
      assert f(m) != 0.0;
    }
  }

  /** `w` scaled pointwise by `c`. */
  function Scaled(c: real, w: int -> real): int -> real
  {
    x => c * w(x)
  }

  /** A constant factor can be taken out of a sum. */
  lemma {:induction false} SumScale(s: set<int>, c: real, w: int -> real)
    ensures Sum(s, Scaled(c, w)) == c * Sum(s, w)
    decreases s
  {
    if s != {} {
      var m := Least(s);
      SumScale(s - {m}, c, w);
      ScaleStep(c, w(m), Sum(s - {m}, w), Sum(s, w), Scaled(c, w)(m), Sum(s - {m}, Scaled(c, w)), Sum(s, Scaled(c, w)));
    }
  }

  lemma ScaleStep(c: real, a: real, b: real, ab: real, ca: real, cb: real, cab: real)
    requires ab == a + b && ca == c * a && cb == c * b && cab == ca + cb
    ensures cab == c * ab
  {
  }

  /** The constant function `c`. */
  function Constant(c: real): int -> real
  {
    _ => c
  }

  /** A constant sums to itself times the number of elements. */
  lemma {:induction false} SumConstant(s: set<int>, c: real)
    ensures Sum(s, Constant(c)) == c * |s| as real
    decreases s
  {
    if s != {} {
      var m := Least(s);
      SumConstant(s - {m}, c);
      var n := |s - {m}|;
      assert |s| == n + 1;
      var k := |s| as real;
      ScaleStep(c, n as real, 1.0, k, Sum(s - {m}, Constant(c)), c, Sum(s, Constant(c)));
      assert c * k == c * |s| as real;
    }
  }

  /** Pointwise bounds `lo <= f <= hi` bound the sum by `lo·|s|` and `hi·|s|`. */
  lemma SumBounds(s: set<int>, f: int -> real, lo: real, hi: real)
    requires forall x :: x in s ==> lo <= f(x) <= hi
    ensures lo * |s| as real <= Sum(s, f) <= hi * |s| as real
  {
    SumMono(s, Constant(lo), f);
    SumMono(s, f, Constant(hi));
    SumConstant(s, lo);
    SumConstant(s, hi);
  }

  lemma SumAbove(s: set<int>, f: int -> real, w: int -> real, c: real)
    requires forall x :: x in s ==> c * w(x) <= f(x)
    ensures c * Sum(s, w) <= Sum(s, f)
  {
    SumMono(s, Scaled(c, w), f);
    SumScale(s, c, w);
  }

  lemma SumBelow(s: set<int>, f: int -> real, w: int -> real, c: real)
    requires forall x :: x in s ==> f(x) <= c * w(x)
    ensures Sum(s, f) <= c * Sum(s, w)
  {
    SumMono(s, f, Scaled(c, w));
    SumScale(s, c, w);
  }

  /** Every term `f(x)` lies between 0 and `c·w(x)`. */
  predicate BoundedBy(s: set<int>, f: int -> real, w: int -> real, c: real)
  {
    forall x :: x in s ==> 0.0 <= f(x) && f(x) <= c * w(x)
  }

  lemma SumBoundedBy(s: set<int>, f: int -> real, w: int -> real, c: real)
    requires BoundedBy(s, f, w, c)
    ensures 0.0 <= Sum(s, f) <= c * Sum(s, w)
  {
    SumNonNegative(s, f);
    SumBelow(s, f, w, c);
  }

  /** A sum of 0/1 indicators counts the elements where the indicator is 1. */
  lemma {:induction false} SumCounts(s: set<int>, f: int -> real)
    requires forall x :: x in s ==> f(x) == 0.0 || f(x) == 1.0
    ensures Sum(s, f) == |set x | x in s && f(x) == 1.0| as real
    decreases s
  {
    if s != {} {
      var m := Least(s);
      SumCounts(s - {m}, f);
      var all := set x | x in s && f(x) == 1.0;
      var rest := set x | x in s - {m} && f(x) == 1.0;
      if f(m) == 1.0 {
        assert all == rest + {m};
      } else {
        assert all == rest;
      }
    }
  }
}
