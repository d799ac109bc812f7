/** The accuracy measure: for every profile of a metric and every movie held
    out of that profile, predict the held-out rating; the mean absolute
    error is the average distance between prediction and held-out rating
    over the pairs the metric could predict.

    The measure only uses the metric through its profile collection and its
    prediction, so it is stated over any predictor and then instantiated
    with a set-up metric. */
module Evaluation {
  import opened Options
  import opened Sums
  import opened Scale
  import opened RealArith
  import opened Profiles
  import opened Cache
  import opened Metric

  /** The prediction for the held-out `movie` of the profile at position
      `i`. */
  type Predictor = (int, MovieId) -> real

  /** Every answer is either `NoPrediction` or a rating on the scale, as
      both metrics guarantee. */
  ghost predicate Sound(predict: Predictor)
  {
    forall i, movie :: predict(i, movie) == NoPrediction || InScale(predict(i, movie))
  }

  /** 1 when a prediction was made (and so is counted), 0 otherwise. */
  function Hit(prediction: real): (h: real)
    ensures h == 0.0 || h == 1.0
    ensures h == 1.0 <==> prediction != NoPrediction
  {
    if prediction != NoPrediction then 1.0 else 0.0
  }

  /** The absolute error of a prediction that was made; 0 otherwise. */
  function Error(prediction: real, target: real): real
  {
    if prediction != NoPrediction then Abs(prediction - target) else 0.0
  }

  /** A prediction on the scale is off by at most the width of the scale
      from a held-out rating on the scale. */
  lemma ErrorBound(prediction: real, target: real)
    requires prediction == NoPrediction || InScale(prediction)
    requires InScale(target)
    ensures 0.0 <= Error(prediction, target) <= Width * Hit(prediction)
  {
  }

  function Hits(predict: Predictor, i: int): int -> real
  {
    movie => Hit(predict(i, movie))
  }

  /** Every hit is 0 or 1, and 1 exactly for a movie that is predicted. */
  lemma HitsIndicate(predict: Predictor, i: int)
    ensures forall movie :: Hits(predict, i)(movie) == 0.0 || Hits(predict, i)(movie) == 1.0
    ensures forall movie :: Hits(predict, i)(movie) == 1.0 <==> predict(i, movie) != NoPrediction
  {
    forall movie
      ensures Hits(predict, i)(movie) == 0.0 || Hits(predict, i)(movie) == 1.0
      ensures Hits(predict, i)(movie) == 1.0 <==> predict(i, movie) != NoPrediction
    {
      assert Hits(predict, i)(movie) == Hit(predict(i, movie));
    }
  }

  function Errors(ps: seq<Profile>, predict: Predictor, i: int): int -> real
    requires 0 <= i < |ps|
  {
    movie => Error(predict(i, movie), TargetRating(ps[i], movie))
  }

  /** Per profile: the number of predicted held-out movies. */
  function ProfileHits(ps: seq<Profile>, predict: Predictor): int -> real
  {
    i => if 0 <= i < |ps| then Sum(TargetMovies(ps[i]), Hits(predict, i)) else 0.0
  }

  /** Per profile: the summed error over its predicted held-out movies. */
  function ProfileErrors(ps: seq<Profile>, predict: Predictor): int -> real
  {
    i => if 0 <= i < |ps| then Sum(TargetMovies(ps[i]), Errors(ps, predict, i)) else 0.0
  }

  function TotalHits(ps: seq<Profile>, predict: Predictor): real
  {
    Sum(Range(|ps|), ProfileHits(ps, predict))
  }

  function TotalError(ps: seq<Profile>, predict: Predictor): real
  {
    Sum(Range(|ps|), ProfileErrors(ps, predict))
  }

  /** The mean absolute error, or `None` when no pair could be predicted
      and the quotient has no value. */
  function MeanAbsoluteError(ps: seq<Profile>, predict: Predictor): (r: Option<real>)
    ensures r.None? <==> TotalHits(ps, predict) == 0.0
  {
    var hits := TotalHits(ps, predict);
    if hits != 0.0 then Some(TotalError(ps, predict) / hits) else None
  }

  /** The held-out movie `movie` of the profile at position `i` is
      predicted. */
  predicate HasPrediction(ps: seq<Profile>, predict: Predictor, i: int, movie: MovieId)
  {
    0 <= i < |ps| && movie in ps[i].targets && predict(i, movie) != NoPrediction
  }

  /** A profile's hit count is the number of its held-out movies that are
      predicted. */
  lemma ProfileHitsCount(ps: seq<Profile>, predict: Predictor, i: int)
    requires 0 <= i < |ps|
    ensures ProfileHits(ps, predict)(i)
         == |set movie | movie in TargetMovies(ps[i]) && HasPrediction(ps, predict, i, movie)| as real
  {
    var ms, h := TargetMovies(ps[i]), Hits(predict, i);
    HitsIndicate(predict, i);
    SumCounts(ms, h);
    assert (set movie | movie in ms && h(movie) == 1.0)
        == (set movie | movie in ms && HasPrediction(ps, predict, i, movie));
  }

  lemma ProfileHitsNonNegative(ps: seq<Profile>, predict: Predictor)
    ensures forall i :: ProfileHits(ps, predict)(i) >= 0.0
  {
    forall i
      ensures ProfileHits(ps, predict)(i) >= 0.0
    {
      if 0 <= i < |ps| {
        HitsIndicate(predict, i);
        SumNonNegative(TargetMovies(ps[i]), Hits(predict, i));
      }
    }
  }

  lemma TotalHitsNonNegative(ps: seq<Profile>, predict: Predictor)
    ensures TotalHits(ps, predict) >= 0.0
  {
    ProfileHitsNonNegative(ps, predict);
    SumNonNegative(Range(|ps|), ProfileHits(ps, predict));
  }

  /** None of the held-out movies of the profile at position `i` is
      predicted. */
  predicate NothingPredictedFor(ps: seq<Profile>, predict: Predictor, i: int)
    requires 0 <= i < |ps|
  {
    forall movie :: movie in ps[i].targets ==> predict(i, movie) == NoPrediction
  }

  /** None of the held-out movies of any profile is predicted. */
  predicate NothingPredicted(ps: seq<Profile>, predict: Predictor)
  {
    forall i :: 0 <= i < |ps| ==> NothingPredictedFor(ps, predict, i)
  }

  /** A profile contributes no hit exactly when none of its held-out movies
      is predicted. */
  lemma ProfileNoHits(ps: seq<Profile>, predict: Predictor, i: int)
    requires 0 <= i < |ps|
    ensures ProfileHits(ps, predict)(i) == 0.0 <==> NothingPredictedFor(ps, predict, i)
  {
    HitsIndicate(predict, i);
    SumNonNegative(TargetMovies(ps[i]), Hits(predict, i));
  }

  /** The hit total is zero exactly when every profile's hit count is. */
  lemma TotalHitsZero(ps: seq<Profile>, predict: Predictor)
    ensures TotalHits(ps, predict) == 0.0 <==>
      forall i :: 0 <= i < |ps| ==> ProfileHits(ps, predict)(i) == 0.0
  {
    ProfileHitsNonNegative(ps, predict);
    SumNonNegative(Range(|ps|), ProfileHits(ps, predict));
  }

  lemma ProfilesNoHits(ps: seq<Profile>, predict: Predictor)
    ensures (forall i :: 0 <= i < |ps| ==> ProfileHits(ps, predict)(i) == 0.0)
        <==> NothingPredicted(ps, predict)
  {
    forall i | 0 <= i < |ps|
      ensures ProfileHits(ps, predict)(i) == 0.0 <==> NothingPredictedFor(ps, predict, i)
    {
      ProfileNoHits(ps, predict, i);
    }
  }

  /** There is no error to report exactly when none of the held-out ratings
      is predicted. */
  lemma NoneIffNothingPredicted(ps: seq<Profile>, predict: Predictor)
    ensures MeanAbsoluteError(ps, predict).None? <==> NothingPredicted(ps, predict)
  {
    TotalHitsZero(ps, predict);
    ProfilesNoHits(ps, predict);
  }

  lemma ProfileErrorsNonNegative(ps: seq<Profile>, predict: Predictor)
    ensures forall i :: ProfileErrors(ps, predict)(i) >= 0.0
  {
    forall i
      ensures ProfileErrors(ps, predict)(i) >= 0.0
    {
      if 0 <= i < |ps| {
        forall movie
          ensures Errors(ps, predict, i)(movie) >= 0.0
        {
          assert Errors(ps, predict, i)(movie) == Error(predict(i, movie), TargetRating(ps[i], movie));
        }
        SumNonNegative(TargetMovies(ps[i]), Errors(ps, predict, i));
      }
    }
  }

  lemma TotalErrorNonNegative(ps: seq<Profile>, predict: Predictor)
    ensures TotalError(ps, predict) >= 0.0
  {
    ProfileErrorsNonNegative(ps, predict);
    SumNonNegative(Range(|ps|), ProfileErrors(ps, predict));
  }

  /** Whatever the predictions and held-out ratings, a defined mean
      absolute error is non-negative. */
  lemma MeanAbsoluteErrorNonNegative(ps: seq<Profile>, predict: Predictor)
    ensures MeanAbsoluteError(ps, predict).Some? ==> MeanAbsoluteError(ps, predict).value >= 0.0
  {
    TotalHitsNonNegative(ps, predict);
    TotalErrorNonNegative(ps, predict);
    if MeanAbsoluteError(ps, predict).Some? {
      DivideBounds(TotalError(ps, predict), TotalHits(ps, predict), 0.0, TotalError(ps, predict) / TotalHits(ps, predict));
    }
  }

  /** The held-out ratings of every profile are on the scale. */
  predicate AllTargetsInScale(ps: seq<Profile>)
  {
    forall i :: 0 <= i < |ps| ==> TargetsInScale(ps[i])
  }

  lemma ErrorTerms(ps: seq<Profile>, predict: Predictor, i: int)
    requires Sound(predict) && 0 <= i < |ps| && TargetsInScale(ps[i])
    ensures BoundedBy(TargetMovies(ps[i]), Errors(ps, predict, i), Hits(predict, i), Width)
  {
    forall movie | movie in TargetMovies(ps[i])
      ensures 0.0 <= Errors(ps, predict, i)(movie) && Errors(ps, predict, i)(movie) <= Width * Hits(predict, i)(movie)
    {
      ErrorBound(predict(i, movie), TargetRating(ps[i], movie));
    }
  }

  /** A profile's summed error is at most the width of the scale per hit. */
  lemma ProfileErrorBound(ps: seq<Profile>, predict: Predictor, i: int)
    requires Sound(predict) && 0 <= i < |ps| && TargetsInScale(ps[i])
    ensures 0.0 <= ProfileErrors(ps, predict)(i) <= Width * ProfileHits(ps, predict)(i)
  {
    ErrorTerms(ps, predict, i);
    SumBoundedBy(TargetMovies(ps[i]), Errors(ps, predict, i), Hits(predict, i), Width);
  }

  lemma ProfileTerms(ps: seq<Profile>, predict: Predictor)
    requires Sound(predict) && AllTargetsInScale(ps)
    ensures BoundedBy(Range(|ps|), ProfileErrors(ps, predict), ProfileHits(ps, predict), Width)
  {
    forall i | i in Range(|ps|)
      ensures 0.0 <= ProfileErrors(ps, predict)(i) && ProfileErrors(ps, predict)(i) <= Width * ProfileHits(ps, predict)(i)
    {
      ProfileErrorBound(ps, predict, i);
    }
  }

  /** The total error is at most the width of the scale per hit. */
  lemma TotalErrorBound(ps: seq<Profile>, predict: Predictor)
    requires BoundedBy(Range(|ps|), ProfileErrors(ps, predict), ProfileHits(ps, predict), Width)
    ensures 0.0 <= TotalError(ps, predict) <= Width * TotalHits(ps, predict)
  {
    SumBoundedBy(Range(|ps|), ProfileErrors(ps, predict), ProfileHits(ps, predict), Width);
  }

  /** With sound predictions and the held-out ratings on the scale, a
      defined mean absolute error lies between 0 and the width of the
      scale. */
  lemma MeanAbsoluteErrorBounded(ps: seq<Profile>, predict: Predictor)
    requires Sound(predict) && AllTargetsInScale(ps)
    ensures MeanAbsoluteError(ps, predict).Some? ==> 0.0 <= MeanAbsoluteError(ps, predict).value <= Width
  {
    if MeanAbsoluteError(ps, predict).Some? {
      TotalHitsNonNegative(ps, predict);
      ProfileTerms(ps, predict);
      TotalErrorBound(ps, predict);
      DivideBounds(TotalError(ps, predict), TotalHits(ps, predict), 0.0, Width);
    }
  }

  /** A set-up metric's predictions for its own profiles, at the given
      threshold. */
  function MetricPredictor(mt: Metric, threshold: real): Predictor
    requires Shaped(mt.table)
  {
    (i, movie) =>
      if 0 <= i < |ProfileSet(mt)| then Predict(mt, ProfileSet(mt)[i], movie, threshold) else NoPrediction
  }

  /** Both metrics predict soundly. */
  lemma MetricPredictorSound(mt: Metric, threshold: real)
    requires Shaped(mt.table)
    ensures Sound(MetricPredictor(mt, threshold))
  {
  }

  /** The mean absolute error of a set-up metric over its own profiles. */
  function MetricMeanAbsoluteError(mt: Metric, threshold: real): Option<real>
    requires Shaped(mt.table)
  {
    MeanAbsoluteError(ProfileSet(mt), MetricPredictor(mt, threshold))
  }

  /** A set-up metric has no error to report exactly when it predicts none
      of the held-out ratings of its profiles. */
  lemma MetricNoneIffNothingPredicted(mt: Metric, threshold: real)
    requires Shaped(mt.table)
    ensures MetricMeanAbsoluteError(mt, threshold).None?
        <==> NothingPredicted(ProfileSet(mt), MetricPredictor(mt, threshold))
  {
    NoneIffNothingPredicted(ProfileSet(mt), MetricPredictor(mt, threshold));
  }

  /** With the held-out ratings on the scale, a set-up metric's defined
      mean absolute error lies between 0 and the width of the scale. */
  lemma MetricMeanAbsoluteErrorBounded(mt: Metric, threshold: real)
    requires Shaped(mt.table) && AllTargetsInScale(ProfileSet(mt))
    ensures MetricMeanAbsoluteError(mt, threshold).Some? ==>
      0.0 <= MetricMeanAbsoluteError(mt, threshold).value <= Width
  {
    MetricPredictorSound(mt, threshold);
    MeanAbsoluteErrorBounded(ProfileSet(mt), MetricPredictor(mt, threshold));
  }

  /** No profile of the metric has a neighbour who rated any of its
      held-out movies. */
  predicate NoContributors(mt: Metric, threshold: real)
    requires Shaped(mt.table)
  {
    forall i, movie :: 0 <= i < |ProfileSet(mt)| && movie in ProfileSet(mt)[i].targets ==>
      Contributors(mt.table, ProfileSet(mt)[i], movie, threshold) == {}
  }

  lemma ProfileNoContributors(mt: Metric, threshold: real, i: int)
    requires Shaped(mt.table) && 0.0 <= threshold && 0 <= i < |ProfileSet(mt)|
    ensures NothingPredictedFor(ProfileSet(mt), MetricPredictor(mt, threshold), i) <==>
      forall movie :: movie in ProfileSet(mt)[i].targets ==>
        Contributors(mt.table, ProfileSet(mt)[i], movie, threshold) == {}
  {
    var ps := ProfileSet(mt);
    forall movie | movie in ps[i].targets
      ensures MetricPredictor(mt, threshold)(i, movie) == NoPrediction
          <==> Contributors(mt.table, ps[i], movie, threshold) == {}
    {
      PredictDefinedIff(mt, ps[i], movie, threshold);
    }
  }

  lemma NothingPredictedIffNoContributors(mt: Metric, threshold: real)
    requires Shaped(mt.table) && 0.0 <= threshold
    ensures NothingPredicted(ProfileSet(mt), MetricPredictor(mt, threshold)) <==> NoContributors(mt, threshold)
  {
    forall i | 0 <= i < |ProfileSet(mt)|
      ensures NothingPredictedFor(ProfileSet(mt), MetricPredictor(mt, threshold), i) <==>
        forall movie :: movie in ProfileSet(mt)[i].targets ==>
          Contributors(mt.table, ProfileSet(mt)[i], movie, threshold) == {}
    {
      ProfileNoContributors(mt, threshold, i);
    }
  }

  /** With a non-negative threshold, a set-up metric has no error to report
      exactly when no profile has a neighbour who rated any of its held-out
      movies. */
  lemma MetricNoneIffNoContributors(mt: Metric, threshold: real)
    requires Shaped(mt.table) && 0.0 <= threshold
    ensures MetricMeanAbsoluteError(mt, threshold).None? <==> NoContributors(mt, threshold)
  {
    MetricNoneIffNothingPredicted(mt, threshold);
    NothingPredictedIffNoContributors(mt, threshold);
  }
}
