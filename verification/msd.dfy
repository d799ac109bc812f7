/** The mean-squared-difference metric: similarity is one minus the mean
    squared rating difference over the co-rated movies, normalised by the
    largest possible squared difference and discounted when few movies are
    co-rated; a prediction is the similarity-weighted average of the
    neighbours' ratings. */
module MeanSquaredDifference {
  import opened Sums
  import opened Scale
  import opened RealArith
  import opened Profiles
  import opened Cache

  /** The largest squared difference two ratings on the scale can have. */
  const Spread: real := Width * Width

  /** The squared rating difference of `a` and `b` on each movie. */
  function SquaredDifferences(a: Profile, b: Profile): int -> real
  {
    m => (RatingFor(a, m) - RatingFor(b, m)) * (RatingFor(a, m) - RatingFor(b, m))
  }

  function Similarity(a: Profile, b: Profile): (r: real)
    ensures CommonMovies(a, b) == {} ==> r == 0.0
  {
    var common := CommonMovies(a, b);
    if |common| > 0 then
      var meanSquared := Sum(common, SquaredDifferences(a, b)) / |common| as real;
      Discount(|common|, 1.0 - meanSquared / Spread)
    else
      0.0
  }

  lemma SquareOfNegation(d: real)
    ensures d * d == (-d) * (-d)
  {
  }

  lemma SimilaritySymmetric(a: Profile, b: Profile)
    ensures Similarity(a, b) == Similarity(b, a)
  {
    CommonMoviesSymmetric(a, b);
    var common := CommonMovies(a, b);
    forall m | m in common
      ensures SquaredDifferences(a, b)(m) == SquaredDifferences(b, a)(m)
    {
      SquareOfNegation(RatingFor(a, m) - RatingFor(b, m));
    }
    SumCongruent(common, SquaredDifferences(a, b), SquaredDifferences(b, a));
  }

  lemma SquareAtMost(d: real, bound: real)
    requires 0.0 <= bound && -bound <= d <= bound
    ensures 0.0 <= d * d <= bound * bound
  {
    if 0.0 <= d {
      MulMono(d, bound, d, bound);
    } else {
      MulMono(-d, bound, -d, bound);
    }
  }

  /** One minus a value in [0, 1] is in [0, 1]. */
  lemma ComplementInUnit(meanSquared: real)
    requires 0.0 <= meanSquared <= Spread
    ensures 0.0 <= 1.0 - meanSquared / Spread <= 1.0
  {
  }

  /** With every rating on the scale, the similarity lies in [0, 1]. */
  lemma SimilarityInUnit(a: Profile, b: Profile)
    requires RatingsInScale(a) && RatingsInScale(b)
    ensures 0.0 <= Similarity(a, b) <= 1.0
  {
    var common := CommonMovies(a, b);
    if |common| > 0 {
      var f := SquaredDifferences(a, b);
      forall m | m in common
        ensures 0.0 <= f(m) <= Spread
      {
        SquareAtMost(RatingFor(a, m) - RatingFor(b, m), Width);
      }
      MeanBounds(common, f, 0.0, Spread);
      ComplementInUnit(Sum(common, f) / |common| as real);
    }
  }

  /** A profile agrees with itself on every movie it rated, so its
      self-similarity is the discount factor alone. */
  lemma SelfSimilarity(a: Profile)
    requires Size(a) > 0
    ensures Similarity(a, a) == DiscountFactor(Size(a))
  {
    CommonMoviesSelf(a);
    SumZero(a.ratings.Keys, SquaredDifferences(a, a));
  }

  /** The neighbour's rating of `movie`, weighted by its cached similarity. */
  function WeightedRatings(t: Table, p: Profile, movie: MovieId): int -> real
    requires Shaped(t) && Indexed(t, p)
  {
    j => if 0 <= j < |t.profiles| then Cached(t, p, t.profiles[j]) * RatingFor(t.profiles[j], movie) else 0.0
  }

  /** The numerator of a prediction: the weighted ratings of the neighbours
      who rated the movie. */
  function Top(t: Table, p: Profile, movie: MovieId, threshold: real): real
    requires Shaped(t) && Indexed(t, p)
  {
    Sum(Contributors(t, p, movie, threshold), WeightedRatings(t, p, movie))
  }

  /** The denominator of a prediction: the similarities of the neighbours
      who rated the movie. */
  function Bottom(t: Table, p: Profile, movie: MovieId, threshold: real): real
    requires Shaped(t) && Indexed(t, p)
  {
    Sum(Contributors(t, p, movie, threshold), CachedAt(t, p))
  }

  function Prediction(t: Table, p: Profile, movie: MovieId, threshold: real): (r: real)
    requires Shaped(t) && Indexed(t, p)
    ensures r == NoPrediction || InScale(r)
    ensures r == NoPrediction <==> Bottom(t, p, movie, threshold) <= 0.0
  {
    var bottom := Bottom(t, p, movie, threshold);
    if bottom > 0.0 then Clamp(Top(t, p, movie, threshold) / bottom) else NoPrediction
  }

  /** When no neighbour rated the movie there is no prediction. */
  lemma NoContributorsNoPrediction(t: Table, p: Profile, movie: MovieId, threshold: real)
    requires Shaped(t) && Indexed(t, p)
    requires Contributors(t, p, movie, threshold) == {}
    ensures Prediction(t, p, movie, threshold) == NoPrediction
  {
  }

  /** With a non-negative threshold every contributing weight is positive. */
  lemma WeightsPositive(t: Table, p: Profile, movie: MovieId, threshold: real)
    requires Shaped(t) && Indexed(t, p) && 0.0 <= threshold
    ensures forall j :: j in Contributors(t, p, movie, threshold) ==> CachedAt(t, p)(j) > 0.0
  {
  }

  /** With a non-negative threshold a prediction fails exactly when no
      neighbour rated the movie. */
  lemma PredictionDefinedIff(t: Table, p: Profile, movie: MovieId, threshold: real)
    requires Shaped(t) && Indexed(t, p) && 0.0 <= threshold
    ensures Prediction(t, p, movie, threshold) == NoPrediction <==> Contributors(t, p, movie, threshold) == {}
  {
    WeightsPositive(t, p, movie, threshold);
    SumPositive(Contributors(t, p, movie, threshold), CachedAt(t, p));
  }

  lemma WeightedBound(w: real, x: real, lo: real, hi: real, wx: real)
    requires 0.0 < w && lo <= x <= hi && wx == w * x
    ensures WeightedWithin(wx, w, lo, hi)
  {
  }

  /** With a non-negative threshold the unclamped prediction is a convex
      combination of the contributing ratings: it lies between their least
      and greatest. */
  lemma ConvexCombination(t: Table, p: Profile, movie: MovieId, threshold: real, lo: real, hi: real)
    requires Shaped(t) && Indexed(t, p) && 0.0 <= threshold
    requires Contributors(t, p, movie, threshold) != {}
    requires forall j :: j in Contributors(t, p, movie, threshold) ==> lo <= RatingFor(t.profiles[j], movie) <= hi
    ensures Bottom(t, p, movie, threshold) > 0.0
    ensures lo <= Top(t, p, movie, threshold) / Bottom(t, p, movie, threshold) <= hi
  {
    var c := Contributors(t, p, movie, threshold);
    var w, f := CachedAt(t, p), WeightedRatings(t, p, movie);
    WeightsPositive(t, p, movie, threshold);
    forall j | j in c
      ensures WeightedWithin(f(j), w(j), lo, hi)
    {
      WeightedBound(w(j), RatingFor(t.profiles[j], movie), lo, hi, f(j));
    }
    WeightedMeanBounds(c, f, w, lo, hi);
  }

  /** When the contributing ratings are on the scale the clamp never fires:
      the prediction is the weighted average itself. */
  lemma PredictionUnclamped(t: Table, p: Profile, movie: MovieId, threshold: real)
    requires Shaped(t) && Indexed(t, p) && 0.0 <= threshold
    requires Contributors(t, p, movie, threshold) != {}
    requires forall j :: j in Contributors(t, p, movie, threshold) ==> RatingsInScale(t.profiles[j])
    ensures Bottom(t, p, movie, threshold) > 0.0
    ensures Prediction(t, p, movie, threshold) == Top(t, p, movie, threshold) / Bottom(t, p, movie, threshold)
  {
    ConvexCombination(t, p, movie, threshold, MinRating, MaxRating);
  }
}
