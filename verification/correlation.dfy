/** The correlation coefficient as a function of its three sums, apart from
    the profiles they come from. */
module Correlations {
  import opened Scale
  import opened RealArith

  /** The correlation `top / sqrt(x·y)` discounted for `n` co-rated movies,
      or zero when the root is not positive.  `sqrt` stands for the library
      square root. */
  function Correlation(sqrt: real -> real, n: nat, top: real, x: real, y: real): real
  {
    var bottom := sqrt(x * y);
    if bottom > 0.0 then Discount(n, top / bottom) else 0.0
  }

  /** A correlation whose numerator obeys Cauchy–Schwarz lies in [-1, 1]. */
  lemma CorrelationInRange(sqrt: real -> real, n: nat, top: real, x: real, y: real)
    requires IsSqrt(sqrt) && Dominated(top, x, y)
    ensures -1.0 <= Correlation(sqrt, n, top, x, y) <= 1.0
  {
    var bottom := sqrt(x * y);
    if bottom > 0.0 {
      assert 0.0 <= x * y;
      assert bottom * bottom == x * y;
      QuotientBounded(top, bottom);
    }
  }

  /** The root is positive exactly when both variations are; otherwise the
      correlation is zero. */
  lemma CorrelationDegenerate(sqrt: real -> real, n: nat, top: real, x: real, y: real)
    requires IsSqrt(sqrt) && 0.0 <= x && 0.0 <= y
    ensures sqrt(x * y) > 0.0 <==> x > 0.0 && y > 0.0
    ensures x == 0.0 || y == 0.0 ==> Correlation(sqrt, n, top, x, y) == 0.0
  {
    RootOfProduct(sqrt, x, y);
    if x == 0.0 || y == 0.0 {
      assert !(sqrt(x * y) > 0.0);
    }
  }

  /** A series correlated with itself gives one, before the discount. */
  lemma SelfCorrelation(sqrt: real -> real, n: nat, x: real)
    requires IsSqrt(sqrt) && x > 0.0
    ensures Correlation(sqrt, n, x, x, x) == DiscountFactor(n)
  {
    SqrtOfSquare(sqrt, x);
    assert x / x == 1.0;
    assert Discount(n, 1.0) == DiscountFactor(n);
  }
}
