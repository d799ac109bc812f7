# Collaborative-filtering core of a MovieLens recommender, in Dafny

The model covers the engine that predicts how a user would rate a movie
from the ratings of similar users.

- **Profiles.** A user profile holds the user id and a dense internal index
  that addresses the similarity matrix. It also holds two maps from movie id
  to rating value: the retained ("source") ratings and the held-out
  ("target") ratings used for evaluation.
- **Ratings.** A rating records who gave it, the value and the movie. It is
  written out as a four-field record.
- **Two similarity metrics.**
  - *Mean squared difference.* The similarity is one minus the normalised
    mean squared rating difference over the co-rated movies.
  - *Pearson.* The similarity is the correlation of the two profiles'
    mean-centred ratings.
  - Both discount a similarity computed from fewer than 50 co-rated movies
    by `n/50`.
- **The similarity cache.** Each metric computes the similarity of every
  ordered pair once. It stores each value in an `N × N` matrix under both
  `(i, j)` and `(j, i)`.
- **Neighbours.** The neighbours of a profile are the other users whose
  cached similarity is strictly above a threshold.
- **Prediction.**
  - Mean squared difference: the similarity-weighted average of the
    neighbours' ratings.
  - Pearson: the profile's own mean plus the sum of sim × deviation
    divided by the sum of |sim|, where a neighbour's deviation is its
    rating minus its own mean.
  - Both clamp the result to `[1, 5]`. Both return the sentinel `-1` when
    the denominator (Σ sim for mean squared difference, Σ |sim| for
    Pearson) is at most 0.
- **Evaluation.** The mean absolute error of the successful predictions
  over every held-out rating of every profile.

## Modelling choices

- `double` is `real`.
  - Sums over a `HashSet` are `Sums.Sum` over a finite set. It is defined
    by removing the least element, so it does not depend on iteration
    order.
  - `Math.pow(x, 2)` is `x * x`.
  - `Math.sqrt` is a parameter `sqrt: real -> real`. Every lemma that
    needs it requires `RealArith.IsSqrt(sqrt)`: the result is non-negative
    and squares back to a non-negative argument.
- **Movies.** `Movie` is a datatype `(name, id)`. Rating maps are keyed by
  the movie id, because the loader shares one `Movie` object per id.
- **Metric interface.** The Java interface `SimilarityMetric` becomes the
  tagged datatype `Metric.Kind` (`MeanSquared | Correlation(sqrt)`).
  `Metric.Similarity` and `Metric.Predict` dispatch on the tag.
  `Metric.ProfileSet` returns the profiles the metric was set up over.
- **Profile set.** The metric's profile set is a sequence, in the order the
  loops visit it. Neighbours and contributors are sets of positions in that
  sequence.
- **The instance counter** (`Profile.INSTANCE_COUNT`) is an explicit
  parameter.
  - `Profiles.NewProfile` takes it and returns it incremented.
  - The matrix code requires `Profiles.DenseIds`: the internal indices of
    the profile set are distinct and below its size.
  - `Profiles.FreshProfilesDense` shows that profiles built one after another from
    zero satisfy it.
- **The matrix** is a `seq<seq<real>>`. `Metric.ComputeAll` fills it with
  two nested loops whose invariants carry symmetry and the filled prefix.
- **Profile methods without a body.** `Profile.java` as given has no body
  for these methods. The model gives them their evident meaning:
  - `getCommonMovies`: intersection of the key sets.
  - `hasRated`: key membership.
  - `getMeanRating`: arithmetic mean, and 0 for a profile with no
    ratings.
  - `addRating`: map update.
  - `split`: moves a caller-chosen set of movies to the target map.
  - `getTargetMovieList` / `getTargetRating`: the target map.
- **User ids.** `computeNeighbours` (src/ucd/ai/cf/MeanSquaredDifference.java:88,
  src/ucd/ai/cf/Pearson.java:96) skips a candidate by user id, not by
  identity with the query profile, and so does `Cache.IsNeighbour`. The
  Java test `!=` compares the two `Integer` objects by reference; the model
  compares the id values. `loadProfiles` (src/ucd/ai/cf/DatasetReader.java:70-77)
  builds one profile per user id, so in both readings the only candidate
  skipped is the query profile itself.
- **Evaluation** is pure. `Evaluation.MeanAbsoluteError` is stated over
  any predictor `(profile position, movie) -> real`.
  `Evaluation.MetricMeanAbsoluteError` instantiates it with a set-up
  metric and the threshold. When no prediction succeeds, the Java code
  divides 0 by 0; the model returns `None`.

## Model

| member | source | states |
|---|---|---|
| Profiles.NewProfile | src/ucd/ai/cf/Profile.java:56-62 | a new profile has the given user id, empty rating and target maps, and the counter's old value as internal index; the counter grows by one |
| Profiles.NewProfiles | src/ucd/ai/cf/Profile.java:53-61 | profiles built in sequence get the given user ids and consecutive internal indices starting at the counter, all empty; the counter advances by their number |
| Profiles.FreshProfilesDense | src/ucd/ai/cf/Profile.java:53-61 | profiles built one after another from zero have distinct internal indices below their count, so they address an N × N matrix one to one |
| Profiles.Size | src/ucd/ai/cf/Profile.java:31-33 | the size is zero exactly when the rating map is empty |
| Profiles.RatingFor | src/ucd/ai/cf/Profile.java:40-46 | a rated movie gives its stored value, an unrated one gives 0 |
| Profiles.RatingForZeroIffUnrated | src/ucd/ai/cf/Profile.java:40-46 | with ratings on the scale, a zero answer means exactly that the movie is unrated |
| Profiles.CommonMovies | src/ucd/ai/cf/MeanSquaredDifference.java:26 | a movie is common exactly when both profiles rated it |
| Profiles.CommonMoviesSymmetric | src/ucd/ai/cf/MeanSquaredDifference.java:26 | the common movies of a and b are those of b and a |
| Profiles.CommonMoviesSelf | src/ucd/ai/cf/MeanSquaredDifference.java:26 | a profile has all its rated movies in common with itself |
| Profiles.MeanRating | src/ucd/ai/cf/Pearson.java:28-29 | the mean of a profile with no ratings is taken as 0 |
| Profiles.MeanRatingBounds | src/ucd/ai/cf/Pearson.java:28-29 | the mean of ratings that all lie in [lo, hi] lies in [lo, hi] |
| Profiles.TargetMovies | src/ucd/ai/cf/Evaluation.java:34 | the target movies are exactly the keys of the held-out map |
| Profiles.TargetRating | src/ucd/ai/cf/Evaluation.java:36 | a held-out movie gives its held-out value, any other gives 0 |
| Profiles.AddRating | src/ucd/ai/cf/DatasetReader.java:75 | after adding, the movie is rated with the new value; every other movie, the ids and the targets are unchanged |
| Profiles.AddRatingSize | src/ucd/ai/cf/DatasetReader.java:75 | adding grows the size by one exactly when the movie was not yet rated; a repeat overwrites |
| Profiles.Split | src/ucd/ai/cf/DatasetReader.java:49 | the chosen rated movies leave the retained map and appear among the targets with their original values; the rest keep their values; the ids are unchanged |
| Profiles.SplitLaw | src/ucd/ai/cf/DatasetReader.java:49 | splitting is a move: the retained and held-out maps are disjoint and together hold as many ratings as before |
| Ratings.OwnedRating | src/ucd/ai/cf/Rating.java:14-18 | the three-argument constructor stores the giver, the value and the movie, and the accessors return them |
| Ratings.UnownedRating | src/ucd/ai/cf/Rating.java:26-30 | the two-argument constructor leaves the giver absent and stores the value and the movie |
| Ratings.SetProfile | src/ucd/ai/cf/Rating.java:43-45 | setting the giver attaches it and leaves the value and the movie unchanged |
| Ratings.AttachMatchesConstructor | src/ucd/ai/cf/DatasetReader.java:69-76 | the loader's path of an unowned rating with its giver attached later gives the same rating as the three-argument constructor |
| Ratings.SetProfileLastWins | src/ucd/ai/cf/Rating.java:43-45 | attaching twice is the same as attaching the second giver once |
| Ratings.Record | src/ucd/ai/cf/Rating.java:59-62 | a rating with a giver is written as four fields: user id, movie id, value and a constant 0 |
| Ratings.RecordRoundTrip | src/ucd/ai/cf/DatasetReader.java:65-68 | reading back the first three fields of a written record recovers the user id, the movie id and the value |
| Scale.Clamp | src/ucd/ai/cf/MeanSquaredDifference.java:64-71 | the clamped prediction is on the scale; a value already on the scale is kept; a value below 1 becomes 1 and one above 5 becomes 5 |
| Scale.Discount | src/ucd/ai/cf/MeanSquaredDifference.java:36-38 | the similarity is multiplied by min(n, 50)/50: unchanged from 50 co-rated movies up, zero for none, and always between zero and the undiscounted value |
| Cache.Zeros | src/ucd/ai/cf/MeanSquaredDifference.java:103 | the fresh matrix is N × N and all zero |
| Cache.ZerosSymmetric | src/ucd/ai/cf/MeanSquaredDifference.java:103 | the fresh matrix is symmetric |
| Cache.Store | src/ucd/ai/cf/MeanSquaredDifference.java:122-125 | storing writes the value at (i, j) and at (j, i) and changes no other cell |
| Cache.StoreKeepsSymmetry | src/ucd/ai/cf/Pearson.java:130-133 | storing a value into a symmetric matrix keeps it symmetric |
| Cache.NeighboursFrom | src/ucd/ai/cf/MeanSquaredDifference.java:86-93 | the scan from position k collects exactly the positions from k on whose user id differs and whose cached similarity is strictly above the threshold |
| Cache.Neighbours | src/ucd/ai/cf/MeanSquaredDifference.java:84-95 | a profile is a neighbour exactly when its user id differs from the query's and its cached similarity is strictly above the threshold |
| Cache.NeighboursExcludeSameUser | src/ucd/ai/cf/Pearson.java:92-103 | no profile with the query's user id, the query itself included, is a neighbour |
| Cache.NeighboursAntitone | src/ucd/ai/cf/Pearson.java:97 | raising the threshold can only remove neighbours |
| Cache.Contributors | src/ucd/ai/cf/MeanSquaredDifference.java:57-58 | the profiles a prediction draws on are exactly the neighbours who rated the movie |
| Correlations.CorrelationInRange | src/ucd/ai/cf/Pearson.java:40-48 | when the squared numerator is at most the product of the variations, the discounted correlation lies in [-1, 1] |
| Correlations.CorrelationDegenerate | src/ucd/ai/cf/Pearson.java:40-48 | the root is positive exactly when both variations are; when either is zero the correlation is 0 |
| Correlations.SelfCorrelation | src/ucd/ai/cf/Pearson.java:40-46 | a series with positive variation correlates with itself at exactly the discount factor |
| MeanSquaredDifference.Similarity | src/ucd/ai/cf/MeanSquaredDifference.java:25-43 | two profiles with no co-rated movie have similarity 0 |
| MeanSquaredDifference.SimilaritySymmetric | src/ucd/ai/cf/MeanSquaredDifference.java:26-35 | the similarity of a and b equals that of b and a |
| MeanSquaredDifference.SimilarityInUnit | src/ucd/ai/cf/MeanSquaredDifference.java:29-38 | with every rating on the scale, the discounted similarity lies in [0, 1] |
| MeanSquaredDifference.SelfSimilarity | src/ucd/ai/cf/MeanSquaredDifference.java:35-38 | a non-empty profile's similarity to itself is min(size, 50)/50 |
| MeanSquaredDifference.Prediction | src/ucd/ai/cf/MeanSquaredDifference.java:52-76 | the prediction is the sentinel -1 exactly when the contributing weights sum to at most 0, and a rating on the scale otherwise |
| MeanSquaredDifference.NoContributorsNoPrediction | src/ucd/ai/cf/MeanSquaredDifference.java:57-75 | when no neighbour rated the movie the prediction is -1 |
| MeanSquaredDifference.WeightsPositive | src/ucd/ai/cf/MeanSquaredDifference.java:89 | with a non-negative threshold every contributing weight is positive |
| MeanSquaredDifference.PredictionDefinedIff | src/ucd/ai/cf/MeanSquaredDifference.java:57-75 | with a non-negative threshold the prediction is -1 exactly when no neighbour rated the movie |
| MeanSquaredDifference.ConvexCombination | src/ucd/ai/cf/MeanSquaredDifference.java:57-64 | with a non-negative threshold the unclamped prediction lies between the least and greatest contributing rating |
| MeanSquaredDifference.PredictionUnclamped | src/ucd/ai/cf/MeanSquaredDifference.java:63-71 | when the contributors' ratings are on the scale the clamp never fires: the prediction is the weighted average itself |
| Pearson.Similarity | src/ucd/ai/cf/Pearson.java:26-50 | two profiles with no co-rated movie have similarity 0 |
| Pearson.SimilaritySymmetric | src/ucd/ai/cf/Pearson.java:26-50 | the similarity of a and b equals that of b and a |
| Pearson.DefinedIff | src/ucd/ai/cf/Pearson.java:40-41 | the root of the product of the variations is positive exactly when both profiles vary over the common movies |
| Pearson.NoVariationNoSimilarity | src/ucd/ai/cf/Pearson.java:40-48 | when either profile is constant at its own mean over the common movies the similarity is 0 |
| Pearson.CovariationDominated | src/ucd/ai/cf/Pearson.java:33-39 | by Cauchy–Schwarz the squared numerator is at most the product of the two variations |
| Pearson.SimilarityInRange | src/ucd/ai/cf/Pearson.java:26-50 | the discounted similarity lies in [-1, 1] |
| Pearson.SelfSimilarity | src/ucd/ai/cf/Pearson.java:40-46 | a profile that varies has similarity to itself equal to the discount factor of its size |
| Pearson.Predicted | src/ucd/ai/cf/Pearson.java:71-82 | given the mean and the two sums, the result is -1 exactly when the bottom is at most 0, and a rating on the scale otherwise |
| Pearson.Prediction | src/ucd/ai/cf/Pearson.java:59-83 | the prediction is -1 exactly when the sum of absolute weights is at most 0, and a rating on the scale otherwise |
| Pearson.NoContributorsNoPrediction | src/ucd/ai/cf/Pearson.java:62-82 | when no neighbour rated the movie the prediction is -1 |
| Pearson.WeightsPositive | src/ucd/ai/cf/Pearson.java:68 | with a non-negative threshold every contributing absolute weight is positive |
| Pearson.PredictionDefinedIff | src/ucd/ai/cf/Pearson.java:62-82 | with a non-negative threshold the prediction is -1 exactly when no neighbour rated the movie |
| Pearson.TopVanishesAtMean | src/ucd/ai/cf/Pearson.java:66-67 | neighbours who rated the movie at their own mean contribute nothing to the numerator |
| Pearson.NeighboursAtMean | src/ucd/ai/cf/Pearson.java:66-79 | when every contributor rated the movie at its own mean, the prediction is -1 or the profile's own mean clamped to the scale |
| Pearson.DeviationBounded | src/ucd/ai/cf/Pearson.java:64-72 | with a non-negative threshold the shift added to the profile's mean is no larger than the largest deviation of a contributor from its own mean |
| Pearson.AverageRating | src/ucd/ai/cf/Pearson.java:155-161 | the average is undefined exactly when the movie set is empty |
| Pearson.AverageOfAllIsMean | src/ucd/ai/cf/Pearson.java:155-161 | averaged over all its rated movies, a profile's average is its mean rating |
| Pearson.AverageInScale | src/ucd/ai/cf/Pearson.java:155-161 | the average over rated movies whose ratings are on the scale is on the scale |
| WorkedExample.MeanSquaredExample | src/ucd/ai/cf/MeanSquaredDifference.java:25-43 | for ratings (5, 3, 4) and (4, 3, 5) on three shared movies the similarity is 1 − (2/3)/16 discounted by 3/50, that is 0.0575 |
| WorkedExample.PearsonExample | src/ucd/ai/cf/Pearson.java:26-50 | for the same pair, centred on their means of 4, the correlation 1/2 discounted by 3/50 is 0.03 |
| Metric.Similarity | src/ucd/ai/cf/SimilarityMetric.java:7 | under either metric, profiles with no co-rated movie have similarity 0 |
| Metric.SimilaritySymmetric | src/ucd/ai/cf/SimilarityMetric.java:7 | both metrics are symmetric in the two profiles |
| Metric.SimilarityBounded | src/ucd/ai/cf/SimilarityMetric.java:7 | both metrics give values in [-1, 1] |
| Metric.StoreFills | src/ucd/ai/cf/MeanSquaredDifference.java:108-125 | storing the pair's similarity fills that pair and keeps every earlier pair filled, because the mirrored write carries the same value |
| Metric.ComputeAll | src/ucd/ai/cf/MeanSquaredDifference.java:108-114 | after the nested loops the matrix is N × N and symmetric, and the cell of every pair holds that pair's similarity |
| Metric.Setup | src/ucd/ai/cf/Pearson.java:111-115 | the set-up metric keeps its kind and profile set, and its cache gives the similarity of every pair of its profiles |
| Metric.CachedSymmetric | src/ucd/ai/cf/MeanSquaredDifference.java:132-134 | the cached similarity does not depend on the order of the pair |
| Metric.Predict | src/ucd/ai/cf/SimilarityMetric.java:9 | either metric predicts -1 or a rating on the scale |
| Metric.PredictDefinedIff | src/ucd/ai/cf/SimilarityMetric.java:9 | with a non-negative threshold either metric predicts -1 exactly when no neighbour rated the movie |
| Evaluation.ErrorBound | src/ucd/ai/cf/Evaluation.java:35-37 | a counted error lies between 0 and 4, and an uncounted prediction adds no error |
| Evaluation.MeanAbsoluteError | src/ucd/ai/cf/Evaluation.java:31-42 | the mean absolute error is undefined exactly when the number of counted predictions is zero |
| Evaluation.ProfileHitsCount | src/ucd/ai/cf/Evaluation.java:34-37 | a profile adds to the count exactly the number of its held-out movies that received a prediction |
| Evaluation.NoneIffNothingPredicted | src/ucd/ai/cf/Evaluation.java:33-41 | the error is undefined exactly when no held-out rating of any profile received a prediction |
| Evaluation.MeanAbsoluteErrorNonNegative | src/ucd/ai/cf/Evaluation.java:36-41 | a defined mean absolute error is at least 0, whatever the predictions and ratings |
| Evaluation.MeanAbsoluteErrorBounded | src/ucd/ai/cf/Evaluation.java:36-41 | with predictions that are -1 or on the scale and held-out ratings on the scale, a defined mean absolute error lies in [0, 4] |
| Evaluation.MetricPredictorSound | src/ucd/ai/cf/Evaluation.java:35 | a set-up metric's predictions are always -1 or on the scale |
| Evaluation.MetricNoneIffNothingPredicted | src/ucd/ai/cf/Evaluation.java:31-42 | a set-up metric's error is undefined exactly when it predicts none of its profiles' held-out ratings |
| Evaluation.MetricMeanAbsoluteErrorBounded | src/ucd/ai/cf/Evaluation.java:31-42 | with held-out ratings on the scale, a set-up metric's defined error lies in [0, 4] |
| Evaluation.MetricNoneIffNoContributors | src/ucd/ai/cf/Evaluation.java:31-42 | with a non-negative threshold the error is undefined exactly when no profile has a neighbour who rated any of its held-out movies |

## Left out

- File reading and tokenising, and file writing, are not modelled, and
  nor is console output. This covers `DatasetReader`, `DatasetWriter` and
  `Main`. The record a rating is written as is a sequence of fields, not
  text.
- The text formatting of `double` values in `Rating.toString` is not
  modelled.
- IEEE-754 behaviour is not modelled: no rounding, no NaN, and no
  dependence of a floating-point sum on `HashSet` iteration order.
- `Math.sqrt` is known only through the properties stated in
  `RealArith.IsSqrt`.
- The other evaluation measures that `Main` calls are not modelled:
  `getStdDeviationError`, `getPercentageRecommended` and
  `getMeanAbsoluteErrorDist`. Their bodies are not part of this model.
- The unused `threshold` field of `Evaluation` is not modelled.
- `Profile.java` as given has no body for `getMeanRating`,
  `getCommonMovies`, `split` and the other methods listed above. The model
  gives them their evident meaning (see above).
  - `Profiles.Split` takes the set of movies to hold out as a parameter.
    It does not model how `split(fraction)` chooses them.
  - `Profiles.MeanRating` is 0 for an empty profile. This is the model's
    choice for the mean of an empty profile.
- `Evaluation.MeanAbsoluteError` calls the predictor once per held-out
  movie. The Java code calls `predictRating` twice with the same
  arguments, and both calls give the same value.
- `Metric.SimilarityBounded` requires, for the mean-squared-difference
  metric, that both profiles' ratings lie on the scale. Outside the scale
  that similarity can be below -1.
- `Pearson.SelfSimilarity` covers only a profile that varies. A constant
  profile has similarity 0 with itself (see
  `Pearson.NoVariationNoSimilarity`).
- The process-wide counter behind internal indices is not modelled as
  global state. It is an explicit parameter, and dense indices are a
  precondition of the matrix code.
- Parallel construction of the matrix is not modelled.
