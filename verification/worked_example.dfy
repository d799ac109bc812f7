/** A worked pair of profiles that both similarity metrics are evaluated
    on.  A rates movies 1, 2 and 3 as 5, 3 and 4; B rates them 4, 3
    and 5.  They share three movies, both means are 4, and the discount
    factor is 3/50.  Each lemma below does one step of the hand
    calculation. */
module WorkedExample {
  import opened Sums
  import opened Scale
  import opened RealArith
  import opened Profiles
  import Correlations
  import MSD = MeanSquaredDifference
  import PC = Pearson

  /** `p` rated exactly movies 1, 2 and 3, as `x`, `y` and `z`. */
  predicate Rates(p: Profile, x: real, y: real, z: real)
  {
    p.ratings.Keys == {1, 2, 3} && RatingFor(p, 1) == x && RatingFor(p, 2) == y && RatingFor(p, 3) == z
  }

  lemma Shared(a: Profile, b: Profile)
    requires a.ratings.Keys == {1, 2, 3} && b.ratings.Keys == {1, 2, 3}
    ensures CommonMovies(a, b) == {1, 2, 3} && |CommonMovies(a, b)| == 3
  {
  }

  lemma Mean(p: Profile, x: real, y: real, z: real)
    requires Rates(p, x, y, z)
    ensures MeanRating(p) == (x + y + z) / 3.0
  {
    SumOfThree(1, 2, 3, RatingsOf(p));
    assert |{1, 2, 3}| == 3;
  }

  /** The squared differences are 1, 0 and 1. */
  lemma SquaredSum(a: Profile, b: Profile)
    requires Rates(a, 5.0, 3.0, 4.0) && Rates(b, 4.0, 3.0, 5.0)
    ensures Sum(CommonMovies(a, b), MSD.SquaredDifferences(a, b)) == 2.0
  {
    Shared(a, b);
    var f := MSD.SquaredDifferences(a, b);
    SumOfThree(1, 2, 3, f);
    assert f(1) == 1.0 && f(2) == 0.0 && f(3) == 1.0;
  }

  /** A mean squared difference of 2/3, normalised by 16, is 23/24;
      discounted by 3/50 it is 0.0575. */
  lemma SimilarityFrom(a: Profile, b: Profile)
    requires |CommonMovies(a, b)| == 3
    requires Sum(CommonMovies(a, b), MSD.SquaredDifferences(a, b)) == 2.0
    ensures MSD.Similarity(a, b) == 0.0575
  {
    assert MSD.Similarity(a, b) == Discount(3, 1.0 - (2.0 / 3.0) / MSD.Spread);
  }

  /** The mean-squared-difference similarity of the pair is 0.0575. */
  lemma MeanSquaredExample(a: Profile, b: Profile)
    requires Rates(a, 5.0, 3.0, 4.0) && Rates(b, 4.0, 3.0, 5.0)
    ensures MSD.Similarity(a, b) == 0.0575
  {
    Shared(a, b);
    SquaredSum(a, b);
    SimilarityFrom(a, b);
  }

  /** `p`'s ratings of movies 1, 2 and 3 lie `x`, `y` and `z` from its
      mean. */
  predicate Deviates(p: Profile, x: real, y: real, z: real)
  {
    PC.Deviation(p, 1) == x && PC.Deviation(p, 2) == y && PC.Deviation(p, 3) == z
  }

  /** Centred on their mean of 4, A's ratings are (1, -1, 0). */
  lemma CentredA(a: Profile)
    requires Rates(a, 5.0, 3.0, 4.0)
    ensures Deviates(a, 1.0, -1.0, 0.0)
  {
    Mean(a, 5.0, 3.0, 4.0);
  }

  /** Centred on their mean of 4, B's ratings are (0, -1, 1). */
  lemma CentredB(b: Profile)
    requires Rates(b, 4.0, 3.0, 5.0)
    ensures Deviates(b, 0.0, -1.0, 1.0)
  {
    Mean(b, 4.0, 3.0, 5.0);
  }

  /** The sum of `f·g` over {1, 2, 3} from the three values of each. */
  lemma ProductSum(s: set<int>, f: int -> real, g: int -> real, x: real, y: real, z: real, u: real, v: real, w: real)
    requires s == {1, 2, 3}
    requires f(1) == x && f(2) == y && f(3) == z
    requires g(1) == u && g(2) == v && g(3) == w
    ensures Sum(s, Products(f, g)) == x * u + y * v + z * w
  {
    SumOfThree(1, 2, 3, Products(f, g));
  }

  lemma DeviationValues(p: Profile, x: real, y: real, z: real)
    requires Deviates(p, x, y, z)
    ensures PC.Deviations(p)(1) == x && PC.Deviations(p)(2) == y && PC.Deviations(p)(3) == z
  {
  }

  lemma CovariationOf(a: Profile, b: Profile)
    requires CommonMovies(a, b) == {1, 2, 3}
    requires Deviates(a, 1.0, -1.0, 0.0) && Deviates(b, 0.0, -1.0, 1.0)
    ensures PC.Covariation(a, b) == 1.0
  {
    DeviationValues(a, 1.0, -1.0, 0.0);
    DeviationValues(b, 0.0, -1.0, 1.0);
    ProductSum(CommonMovies(a, b), PC.Deviations(a), PC.Deviations(b), 1.0, -1.0, 0.0, 0.0, -1.0, 1.0);
  }

  lemma VariationOf(a: Profile, b: Profile, x: real, y: real, z: real, total: real)
    requires CommonMovies(a, b) == {1, 2, 3} && Deviates(a, x, y, z)
    requires total == x * x + y * y + z * z
    ensures PC.Variation(a, b) == total
  {
    DeviationValues(a, x, y, z);
    ProductSum(CommonMovies(a, b), PC.Deviations(a), PC.Deviations(a), x, y, z, x, y, z);
  }

  /** Both profiles' squared deviations sum to 2 over the shared movies. */
  lemma VariationsOf(a: Profile, b: Profile)
    requires CommonMovies(a, b) == {1, 2, 3}
    requires Deviates(a, 1.0, -1.0, 0.0) && Deviates(b, 0.0, -1.0, 1.0)
    ensures PC.Variation(a, b) == 2.0 && PC.Variation(b, a) == 2.0
  {
    VariationOf(a, b, 1.0, -1.0, 0.0, 2.0);
    CommonMoviesSymmetric(a, b);
    VariationOf(b, a, 0.0, -1.0, 1.0, 2.0);
  }

  /** A covariation of 1 over variations of 2 and 2 is 1/2; discounted by
      3/50 it is 0.03. */
  lemma CorrelationValue(sqrt: real -> real)
    requires IsSqrt(sqrt)
    ensures Correlations.Correlation(sqrt, 3, 1.0, 2.0, 2.0) == 0.03
  {
    SqrtOfSquare(sqrt, 2.0);
    assert sqrt(2.0 * 2.0) == 2.0;
  }

  lemma SimilarityIsCorrelation(sqrt: real -> real, a: Profile, b: Profile, n: nat, c: real, x: real, y: real)
    requires |CommonMovies(a, b)| == n
    requires PC.Covariation(a, b) == c && PC.Variation(a, b) == x && PC.Variation(b, a) == y
    ensures PC.Similarity(sqrt, a, b) == Correlations.Correlation(sqrt, n, c, x, y)
  {
  }

  /** The Pearson similarity of the pair is 0.03. */
  lemma PearsonExample(sqrt: real -> real, a: Profile, b: Profile)
    requires IsSqrt(sqrt) && Rates(a, 5.0, 3.0, 4.0) && Rates(b, 4.0, 3.0, 5.0)
    ensures PC.Similarity(sqrt, a, b) == 0.03
  {
    Shared(a, b);
    CentredA(a);
    CentredB(b);
    CovariationOf(a, b);
    VariationsOf(a, b);
    SimilarityIsCorrelation(sqrt, a, b, 3, 1.0, 2.0, 2.0);
    CorrelationValue(sqrt);
  }
}
