/** The Pearson metric: similarity is the correlation of the two profiles'
    ratings over their co-rated movies, each rating centred on its profile's
    mean over all its ratings, with the same significance discount as the
    other metric; a prediction is the profile's own mean plus the
    correlation-weighted average deviation of the neighbours. */
module Pearson {
  import opened Options
  import opened Sums
  import opened Scale
  import opened RealArith
  import opened Profiles
  import opened Cache
  import opened Correlations

  /** How far `p`'s rating of `movie` lies from `p`'s overall mean rating. */
  function Deviation(p: Profile, movie: MovieId): real
  {
    RatingFor(p, movie) - MeanRating(p)
  }

  /** `Deviation` as a function of the movie, for use in sums. */
  function Deviations(p: Profile): int -> real
  {
    m => Deviation(p, m)
  }

  /** The products of the two profiles' deviations, movie by movie. */
  function CoDeviations(a: Profile, b: Profile): int -> real
  {
    Products(Deviations(a), Deviations(b))
  }

  function SquaredDeviations(a: Profile): int -> real
  {
    Products(Deviations(a), Deviations(a))
  }

  /** The numerator of the correlation. */
  function Covariation(a: Profile, b: Profile): real
  {
    Sum(CommonMovies(a, b), CoDeviations(a, b))
  }

  /** `a`'s squared deviations summed over the movies it shares with `b`. */
  function Variation(a: Profile, b: Profile): real
  {
    Sum(CommonMovies(a, b), SquaredDeviations(a))
  }

  /** The Pearson correlation of the two profiles over their co-rated
      movies, discounted when few movies are co-rated; zero when they share
      no movie. */
  function Similarity(sqrt: real -> real, a: Profile, b: Profile): (r: real)
    ensures CommonMovies(a, b) == {} ==> r == 0.0
  {
    Correlation(sqrt, |CommonMovies(a, b)|, Covariation(a, b), Variation(a, b), Variation(b, a))
  }

  lemma SimilaritySymmetric(sqrt: real -> real, a: Profile, b: Profile)
    ensures Similarity(sqrt, a, b) == Similarity(sqrt, b, a)
  {
    CommonMoviesSymmetric(a, b);
    SumCongruent(CommonMovies(a, b), CoDeviations(a, b), CoDeviations(b, a));
  }

  lemma NonNegativeSquares(a: Profile, b: Profile)
    ensures Variation(a, b) >= 0.0
  {
    SumNonNegative(CommonMovies(a, b), SquaredDeviations(a));
  }

  /** The correlation's denominator is positive exactly when both profiles
      vary over the shared movies. */
  lemma DefinedIff(sqrt: real -> real, a: Profile, b: Profile)
    requires IsSqrt(sqrt)
    ensures sqrt(Variation(a, b) * Variation(b, a)) > 0.0 <==> Variation(a, b) > 0.0 && Variation(b, a) > 0.0
  {
    NonNegativeSquares(a, b);
    NonNegativeSquares(b, a);
    RootOfProduct(sqrt, Variation(a, b), Variation(b, a));
  }

  /** When either profile is constant over the shared movies the similarity
      is zero. */
  lemma NoVariationNoSimilarity(sqrt: real -> real, a: Profile, b: Profile)
    requires IsSqrt(sqrt)
    requires Variation(a, b) == 0.0 || Variation(b, a) == 0.0
    ensures Similarity(sqrt, a, b) == 0.0
  {
    var x, y := Variation(a, b), Variation(b, a);
    NonNegativeSquares(a, b);
    NonNegativeSquares(b, a);
    CorrelationDegenerate(sqrt, |CommonMovies(a, b)|, Covariation(a, b), x, y);
  }

  /** By Cauchy–Schwarz the squared covariation never exceeds the product of
      the variations. */
  lemma CovariationDominated(a: Profile, b: Profile)
    ensures Dominated(Covariation(a, b), Variation(a, b), Variation(b, a))
  {
    var common := CommonMovies(a, b);
    ProductsDominated(common, Deviations(a), Deviations(b));
    SumCauchySchwarz(common, CoDeviations(a, b), SquaredDeviations(a), SquaredDeviations(b));
    CommonMoviesSymmetric(a, b);
  }

  /** The similarity is a correlation, discounted towards zero: it lies in
      [-1, 1]. */
  lemma SimilarityInRange(sqrt: real -> real, a: Profile, b: Profile)
    requires IsSqrt(sqrt)
    ensures -1.0 <= Similarity(sqrt, a, b) <= 1.0
  {
    CovariationDominated(a, b);
    CorrelationInRange(sqrt, |CommonMovies(a, b)|, Covariation(a, b), Variation(a, b), Variation(b, a));
  }

  /** A profile that varies is perfectly correlated with itself, up to the
      discount. */
  lemma SelfSimilarity(sqrt: real -> real, a: Profile)
    requires IsSqrt(sqrt) && Variation(a, a) > 0.0
    ensures Similarity(sqrt, a, a) == DiscountFactor(Size(a))
  {
    CommonMoviesSelf(a);
    SumCongruent(CommonMovies(a, a), CoDeviations(a, a), SquaredDeviations(a));
    SelfCorrelation(sqrt, Size(a), Variation(a, a));
  }

  /** The neighbour's deviation on `movie`, weighted by its cached
      similarity. */
  function WeightedDeviations(t: Table, p: Profile, movie: MovieId): int -> real
    requires Shaped(t) && Indexed(t, p)
  {
    j => if 0 <= j < |t.profiles| then Cached(t, p, t.profiles[j]) * Deviation(t.profiles[j], movie) else 0.0
  }

  /** The magnitude of each cached similarity. */
  function AbsoluteWeights(t: Table, p: Profile): int -> real
    requires Shaped(t) && Indexed(t, p)
  {
    j => Abs(CachedAt(t, p)(j))
  }

  function Top(t: Table, p: Profile, movie: MovieId, threshold: real): real
    requires Shaped(t) && Indexed(t, p)
  {
    Sum(Contributors(t, p, movie, threshold), WeightedDeviations(t, p, movie))
  }

  function Bottom(t: Table, p: Profile, movie: MovieId, threshold: real): real
    requires Shaped(t) && Indexed(t, p)
  {
    Sum(Contributors(t, p, movie, threshold), AbsoluteWeights(t, p))
  }

  /** The profile's mean shifted by the weighted average deviation and
      clamped, or no prediction when the weights sum to nothing. */
  function Predicted(mean: real, top: real, bottom: real): (r: real)
    ensures r == NoPrediction || InScale(r)
    ensures r == NoPrediction <==> bottom <= 0.0
  {
    if bottom > 0.0 then Clamp(mean + top / bottom) else NoPrediction
  }

  function Prediction(t: Table, p: Profile, movie: MovieId, threshold: real): (r: real)
    requires Shaped(t) && Indexed(t, p)
    ensures r == NoPrediction || InScale(r)
    ensures r == NoPrediction <==> Bottom(t, p, movie, threshold) <= 0.0
  {
    Predicted(MeanRating(p), Top(t, p, movie, threshold), Bottom(t, p, movie, threshold))
  }

  lemma NoContributorsNoPrediction(t: Table, p: Profile, movie: MovieId, threshold: real)
    requires Shaped(t) && Indexed(t, p)
    requires Contributors(t, p, movie, threshold) == {}
    ensures Prediction(t, p, movie, threshold) == NoPrediction
  {
  }

  lemma WeightsPositive(t: Table, p: Profile, movie: MovieId, threshold: real)
    requires Shaped(t) && Indexed(t, p) && 0.0 <= threshold
    ensures forall j :: j in Contributors(t, p, movie, threshold) ==> AbsoluteWeights(t, p)(j) > 0.0
  {
    forall j | j in Contributors(t, p, movie, threshold)
      ensures AbsoluteWeights(t, p)(j) > 0.0
    {
      assert IsNeighbour(t, p, threshold, j);
      assert CachedAt(t, p)(j) > threshold;
    }
  }

  /** With a non-negative threshold a prediction fails exactly when no
      neighbour rated the movie. */
  lemma PredictionDefinedIff(t: Table, p: Profile, movie: MovieId, threshold: real)
    requires Shaped(t) && Indexed(t, p) && 0.0 <= threshold
    ensures Prediction(t, p, movie, threshold) == NoPrediction <==> Contributors(t, p, movie, threshold) == {}
  {
    WeightsPositive(t, p, movie, threshold);
    SumPositive(Contributors(t, p, movie, threshold), AbsoluteWeights(t, p));
  }

  /** Neighbours who rated at their own mean add nothing to the numerator. */
  lemma TopVanishesAtMean(t: Table, p: Profile, movie: MovieId, threshold: real)
    requires Shaped(t) && Indexed(t, p)
    requires forall j :: j in Contributors(t, p, movie, threshold) ==> Deviation(t.profiles[j], movie) == 0.0
    ensures Top(t, p, movie, threshold) == 0.0
  {
    var c, f := Contributors(t, p, movie, threshold), WeightedDeviations(t, p, movie);
    forall j | j in c
      ensures f(j) == 0.0
    {
      assert Deviation(t.profiles[j], movie) == 0.0;
    }
    SumZero(c, f);
  }

  lemma ZeroTopPrediction(t: Table, p: Profile, movie: MovieId, threshold: real)
    requires Shaped(t) && Indexed(t, p)
    requires Top(t, p, movie, threshold) == 0.0
    ensures Prediction(t, p, movie, threshold) == NoPrediction || Prediction(t, p, movie, threshold) == Clamp(MeanRating(p))
  {
  }

  /** When every contributing neighbour rated the movie exactly at its own
      mean, the prediction is the profile's own mean, clamped. */
  lemma NeighboursAtMean(t: Table, p: Profile, movie: MovieId, threshold: real)
    requires Shaped(t) && Indexed(t, p)
    requires forall j :: j in Contributors(t, p, movie, threshold) ==> Deviation(t.profiles[j], movie) == 0.0
    ensures Prediction(t, p, movie, threshold) == NoPrediction || Prediction(t, p, movie, threshold) == Clamp(MeanRating(p))
  {
    TopVanishesAtMean(t, p, movie, threshold);
    ZeroTopPrediction(t, p, movie, threshold);
  }

  lemma WeightedDeviationBound(w: real, d: real, bound: real, wd: real, aw: real)
    requires w != 0.0 && -bound <= d <= bound && wd == w * d && aw == Abs(w)
    ensures WeightedWithin(wd, aw, -bound, bound)
  {
    if w < 0.0 {
      assert wd == (-w) * (-d);
    }
  }

  lemma DeviationTerm(t: Table, p: Profile, movie: MovieId, threshold: real, bound: real, j: int)
    requires Shaped(t) && Indexed(t, p) && 0.0 <= threshold
    requires j in Contributors(t, p, movie, threshold)
    requires -bound <= Deviation(t.profiles[j], movie) <= bound
    ensures WeightedWithin(WeightedDeviations(t, p, movie)(j), AbsoluteWeights(t, p)(j), -bound, bound)
  {
    assert IsNeighbour(t, p, threshold, j);
    var sim, d := Cached(t, p, t.profiles[j]), Deviation(t.profiles[j], movie);
    assert sim > 0.0;
    assert WeightedDeviations(t, p, movie)(j) == sim * d;
    assert CachedAt(t, p)(j) == sim;
    assert AbsoluteWeights(t, p)(j) == Abs(sim);
    WeightedDeviationBound(sim, d, bound, WeightedDeviations(t, p, movie)(j), AbsoluteWeights(t, p)(j));
  }

  lemma DeviationTerms(t: Table, p: Profile, movie: MovieId, threshold: real, bound: real)
    requires Shaped(t) && Indexed(t, p) && 0.0 <= threshold
    requires forall j :: j in Contributors(t, p, movie, threshold) ==> -bound <= Deviation(t.profiles[j], movie) <= bound
    ensures AllWeightedWithin(Contributors(t, p, movie, threshold), WeightedDeviations(t, p, movie), AbsoluteWeights(t, p), -bound, bound)
  {
    forall j | j in Contributors(t, p, movie, threshold)
      ensures WeightedWithin(WeightedDeviations(t, p, movie)(j), AbsoluteWeights(t, p)(j), -bound, bound)
    {
      DeviationTerm(t, p, movie, threshold, bound, j);
    }
  }

  lemma BoundedFromTerms(t: Table, p: Profile, movie: MovieId, threshold: real, bound: real)
    requires Shaped(t) && Indexed(t, p)
    requires Contributors(t, p, movie, threshold) != {}
    requires AllWeightedWithin(Contributors(t, p, movie, threshold), WeightedDeviations(t, p, movie), AbsoluteWeights(t, p), -bound, bound)
    ensures Bottom(t, p, movie, threshold) > 0.0
    ensures -bound <= Top(t, p, movie, threshold) / Bottom(t, p, movie, threshold) <= bound
  {
    WeightedMeanBounds(Contributors(t, p, movie, threshold), WeightedDeviations(t, p, movie), AbsoluteWeights(t, p), -bound, bound);
  }

  /** With a non-negative threshold the prediction departs from the
      profile's own mean by no more than the contributing neighbours depart
      from theirs. */
  lemma DeviationBounded(t: Table, p: Profile, movie: MovieId, threshold: real, bound: real)
    requires Shaped(t) && Indexed(t, p) && 0.0 <= threshold
    requires Contributors(t, p, movie, threshold) != {}
    requires forall j :: j in Contributors(t, p, movie, threshold) ==> -bound <= Deviation(t.profiles[j], movie) <= bound
    ensures Bottom(t, p, movie, threshold) > 0.0
    ensures -bound <= Top(t, p, movie, threshold) / Bottom(t, p, movie, threshold) <= bound
  {
    DeviationTerms(t, p, movie, threshold, bound);
    BoundedFromTerms(t, p, movie, threshold, bound);
  }

  /** The average of `p`'s ratings over the given movies; `None` for an
      empty set, where the division has no value. */
  function AverageRating(p: Profile, movies: set<MovieId>): (r: Option<real>)
    ensures r.None? <==> movies == {}
  {
    if |movies| == 0 then None else Some(Sum(movies, RatingsOf(p)) / |movies| as real)
  }

  /** Over all its rated movies the average is the profile's mean rating. */
  lemma AverageOfAllIsMean(p: Profile)
    requires Size(p) > 0
    ensures AverageRating(p, p.ratings.Keys) == Some(MeanRating(p))
  {
  }

  /** Over rated movies whose ratings are on the scale the average is on the
      scale. */
  lemma AverageInScale(p: Profile, movies: set<MovieId>)
    requires movies != {} && movies <= p.ratings.Keys && RatingsInScale(p)
    ensures AverageRating(p, movies).Some? && InScale(AverageRating(p, movies).value)
  {
    forall m | m in movies
      ensures MinRating <= RatingsOf(p)(m) <= MaxRating
    {
    }
    MeanBounds(movies, RatingsOf(p), MinRating, MaxRating);
  }
}
