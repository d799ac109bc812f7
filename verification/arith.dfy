/** Facts about real arithmetic used by both similarity metrics: absolute
    value, the square root the correlation metric divides by, and the
    Cauchy–Schwarz inequality that bounds a correlation by one. */
module RealArith {
  import opened Sums

  function Abs(x: real): (r: real)
    ensures r >= 0.0 && (r == x || r == -x)
  {
    if x < 0.0 then -x else x
  }

  /** What the model assumes of `Math.sqrt`: on non-negative arguments it
      returns the non-negative root.  The library call itself is a parameter
      of the correlation metric. */
  ghost predicate IsSqrt(sqrt: real -> real)
  {
    forall x :: 0.0 <= x ==> 0.0 <= sqrt(x) && sqrt(x) * sqrt(x) == x
  }

  lemma PositiveProduct(u: real, v: real)
    requires 0.0 < u && 0.0 < v
    ensures 0.0 < u * v
  {
  }

  lemma SquareOfPositive(r: real, x: real)
    requires x == r * r && 0.0 < r
    ensures 0.0 < x
  {
    assert x / r == r;
  }

  lemma SquareOrder(x: real, y: real)
    requires 0.0 <= x && y * y <= x * x
    ensures y <= x
  {
    if y > x {
      PositiveProduct(y - x, y + x);
    }
  }

  /** The root of a square is the non-negative base. */
  lemma SqrtOfSquare(sqrt: real -> real, y: real)
    requires IsSqrt(sqrt) && 0.0 <= y
    ensures sqrt(y * y) == y
  {
    var r := sqrt(y * y);
    assert 0.0 <= r && r * r == y * y;
    SquareOrder(y, r);
    SquareOrder(r, y);
  }

  /** The root is positive exactly for positive arguments. */
  lemma SqrtPositive(sqrt: real -> real, x: real)
    requires IsSqrt(sqrt) && 0.0 <= x
    ensures sqrt(x) > 0.0 <==> x > 0.0
  {
    var r := sqrt(x);
    assert 0.0 <= r && r * r == x;
    if r != 0.0 {
      SquareOfPositive(r, x);
    }
  }

  /** The root of a product of non-negative values is positive exactly when
      both are. */
  lemma RootOfProduct(sqrt: real -> real, x: real, y: real)
    requires IsSqrt(sqrt) && 0.0 <= x && 0.0 <= y
    ensures sqrt(x * y) > 0.0 <==> x > 0.0 && y > 0.0
  {
    if x > 0.0 && y > 0.0 {
      PositiveProduct(x, y);
    }
    SqrtPositive(sqrt, x * y);
  }

  lemma MulMono(a: real, b: real, c: real, d: real)
    requires 0.0 <= a <= b && 0.0 <= c <= d
    ensures a * c <= b * d
  {
    assert a * c <= b * c;
    assert b * c <= b * d;
  }

  /** `2·T·t <= A·q + p·B` when `T² <= A·B` and `t² <= p·q`: the cross term
      of one Cauchy–Schwarz step, by comparing squares. */
  lemma CrossTerm(T: real, A: real, B: real, t: real, p: real, q: real)
    requires 0.0 <= A && 0.0 <= B && 0.0 <= p && 0.0 <= q
    requires T * T <= A * B && t * t <= p * q
    ensures 2.0 * T * t <= A * q + p * B
  {
    var x := A * q + p * B;
    var d := A * q - p * B;
    var y := 2.0 * T * t;
    assert 0.0 <= A * q && 0.0 <= p * B;
    assert x * x == d * d + 4.0 * ((A * q) * (p * B));
    assert (A * q) * (p * B) == (A * B) * (p * q);
    assert 0.0 <= T * T && 0.0 <= t * t;
    MulMono(T * T, A * B, t * t, p * q);
    assert (T * T) * (t * t) == (T * t) * (T * t);
    assert y * y == 4.0 * ((T * t) * (T * t));
    assert d * d >= 0.0;
    SquareOrder(x, y);
  }

  /** `t² <= p·q`: the shape of the Cauchy–Schwarz inequality. */
  predicate Dominated(t: real, p: real, q: real)
  {
    0.0 <= p && 0.0 <= q && t * t <= p * q
  }

  /** The pointwise product of two real-valued functions. */
  function Products(f: int -> real, g: int -> real): int -> real
  {
    x => f(x) * g(x)
  }

  /** Pointwise, `f·g` is dominated by `f²` and `g²`. */
  lemma ProductsDominated(s: set<int>, f: int -> real, g: int -> real)
    ensures forall x :: x in s ==> Dominated(Products(f, g)(x), Products(f, f)(x), Products(g, g)(x))
  {
    forall x | x in s
      ensures Dominated(Products(f, g)(x), Products(f, f)(x), Products(g, g)(x))
    {
      var u, v := f(x), g(x);
      assert (u * v) * (u * v) == (u * u) * (v * v);
    }
  }

  /** One step of Cauchy–Schwarz: adding a term pair keeps `T² <= A·B`. */
  lemma CauchyStep(T: real, A: real, B: real, t: real, p: real, q: real,
                   T': real, A': real, B': real)
    requires Dominated(T, A, B) && Dominated(t, p, q)
    requires T' == T + t && A' == A + p && B' == B + q
    ensures Dominated(T', A', B')
  {
    CrossTerm(T, A, B, t, p, q);
    assert T' * T' == T * T + 2.0 * T * t + t * t;
    assert A' * B' == A * B + (A * q + p * B) + p * q;
  }

  /** Cauchy–Schwarz for sums over a set: if every term satisfies
      `t(x)² <= p(x)·q(x)` with `p, q >= 0`, the totals do as well. */
  lemma {:induction false} SumCauchySchwarz(s: set<int>, t: int -> real, p: int -> real, q: int -> real)
    requires forall x :: x in s ==> Dominated(t(x), p(x), q(x))
    ensures Dominated(Sum(s, t), Sum(s, p), Sum(s, q))
    decreases s
  {
    if s != {} {
      var m := Least(s);
      var rest := s - {m};
      SumCauchySchwarz(rest, t, p, q);
      CauchyStep(Sum(rest, t), Sum(rest, p), Sum(rest, q), t(m), p(m), q(m),
                 Sum(s, t), Sum(s, p), Sum(s, q));
    }
  }

  /** A value no larger in magnitude than a positive divisor gives a
      quotient in [-1, 1]. */
  lemma QuotientBounded(top: real, bottom: real)
    requires 0.0 < bottom && top * top <= bottom * bottom
    ensures -1.0 <= top / bottom <= 1.0
  {
    SquareOrder(bottom, top);
    SquareOrder(bottom, -top);
    assert top / bottom * bottom == top;
  }

  /** A total between `lo·n` and `hi·n` has its `n`-th part between `lo`
      and `hi`. */
  lemma DivideBounds(total: real, n: real, lo: real, hi: real)
    requires 0.0 < n && lo * n <= total <= hi * n
    ensures lo <= total / n <= hi
  {
    assert total / n - lo == (total - lo * n) / n;
    assert hi - total / n == (hi * n - total) / n;
  }

  /** The mean of values in [lo, hi] lies in [lo, hi]. */
  lemma MeanBounds(s: set<int>, f: int -> real, lo: real, hi: real)
    requires s != {}
    requires forall x :: x in s ==> lo <= f(x) <= hi
    ensures lo <= Sum(s, f) / |s| as real <= hi
  {
    var n, total := |s|, Sum(s, f);
    TotalBounds(s, f, lo, hi, n, total);
    MeanStep(total, n, lo, hi);
  }

  /** The summing step of `MeanBounds`, over a named count and total, so
      that the division step below never sees `Sum`. */
  lemma TotalBounds(s: set<int>, f: int -> real, lo: real, hi: real, n: nat, total: real)
    requires n == |s| && total == Sum(s, f) && s != {}
    requires forall x :: x in s ==> lo <= f(x) <= hi
    ensures lo * n as real <= total <= hi * n as real
  {
    SumBounds(s, f, lo, hi);
  }

  /** The division step of `MeanBounds`: `DivideBounds` for a count of
      elements. */
  lemma MeanStep(total: real, n: nat, lo: real, hi: real)
    requires 0 < n && lo * n as real <= total <= hi * n as real
    ensures lo <= total / n as real <= hi
  {
    DivideBounds(total, n as real, lo, hi);
  }

  /** `f` is a value between `lo` and `hi` weighted by the positive `w`. */
  predicate WeightedWithin(f: real, w: real, lo: real, hi: real)
  {
    0.0 < w && lo * w <= f <= hi * w
  }

  predicate AllWeightedWithin(s: set<int>, f: int -> real, w: int -> real, lo: real, hi: real)
  {
    forall x :: x in s ==> WeightedWithin(f(x), w(x), lo, hi)
  }

  /** Summing keeps the relation: the total of weighted values in [lo, hi]
      is the total weight times a value in [lo, hi]. */
  lemma WeightedSums(s: set<int>, f: int -> real, w: int -> real, lo: real, hi: real)
    requires s != {}
    requires AllWeightedWithin(s, f, w, lo, hi)
    ensures WeightedWithin(Sum(s, f), Sum(s, w), lo, hi)
  {
    SumPositive(s, w);
    SumAbove(s, f, w, lo);
    SumBelow(s, f, w, hi);
  }

  /** Dividing out the weight leaves a value in [lo, hi]. */
  lemma WithinQuotient(f: real, w: real, lo: real, hi: real)
    requires WeightedWithin(f, w, lo, hi)
    ensures lo <= f / w <= hi
  {
    DivideBounds(f, w, lo, hi);
  }

  /** A weighted average of values in [lo, hi] with positive weights lies in
      [lo, hi]: `f(x)` is the weighted value and `w(x)` its weight. */
  lemma WeightedMeanBounds(s: set<int>, f: int -> real, w: int -> real, lo: real, hi: real)
    requires s != {}
    requires AllWeightedWithin(s, f, w, lo, hi)
    ensures Sum(s, w) > 0.0
    ensures lo <= Sum(s, f) / Sum(s, w) <= hi
  {
    WeightedSums(s, f, w, lo, hi);
    WithinQuotient(Sum(s, f), Sum(s, w), lo, hi);
  }
}
