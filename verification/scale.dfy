/** The rating scale and the adjustments both similarity metrics share:
    the clamp applied to a prediction and the significance discount applied
    to a similarity computed from few co-rated movies. */
module Scale {

  const MinRating: real := 1.0
  const MaxRating: real := 5.0

  /** The largest distance between two ratings on the scale. */
  const Width: real := MaxRating - MinRating

  /** What a prediction returns when it has no basis. */
  const NoPrediction: real := -1.0

  /** Similarities from fewer co-rated movies than this are discounted. */
  const SignificanceCount: nat := 50

  predicate InScale(x: real)
  {
    MinRating <= x <= MaxRating
  }

  /** The two-step clamp at the end of both predictions: first raise to
      the minimum, then lower to the maximum. */
  function Clamp(x: real): (r: real)
    ensures InScale(r)
    ensures InScale(x) ==> r == x
    ensures r == x || r == MinRating || r == MaxRating
    ensures x <= MinRating ==> r == MinRating
    ensures MaxRating <= x ==> r == MaxRating
  {
    var raised := if x < MinRating then MinRating else x;
    if raised > MaxRating then MaxRating else raised
  }

  /** The discount factor: min(n, 50) / 50. */
  function DiscountFactor(n: nat): (f: real)
  {
    (if n < SignificanceCount then n else SignificanceCount) as real / SignificanceCount as real
  }

  /** `r` lies between zero and `x`, on whichever side `x` falls. */
  predicate TowardZero(x: real, r: real)
  {
    (0.0 <= x ==> 0.0 <= r <= x) && (x <= 0.0 ==> x <= r <= 0.0)
  }

  lemma Shrinks(f: real, x: real, r: real)
    requires 0.0 <= f <= 1.0 && r == f * x
    ensures TowardZero(x, r)
  {
    if 0.0 <= x {
      assert f * x <= 1.0 * x;
    } else {
      assert 1.0 * x <= f * x;
    }
  }

  /** A similarity `sim` computed from `n` co-rated movies, discounted by
      n/50 when n is below 50. */
  function Discount(n: nat, sim: real): (r: real)
    ensures r == DiscountFactor(n) * sim
    ensures n >= SignificanceCount ==> r == sim
    ensures n == 0 ==> r == 0.0
    ensures TowardZero(sim, r)
  {
    if n < SignificanceCount then
      var factor := n as real / SignificanceCount as real;
      Shrinks(factor, sim, factor * sim);
      factor * sim
    else
      sim
  }
}
