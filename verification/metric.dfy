/** The common face of the two similarity metrics: each is set up over a
    collection of profiles, computes the similarity of every pair once into
    a symmetric matrix, and predicts ratings from that matrix.  The metric is
    chosen by a tag rather than by dynamic dispatch. */
module Metric {
  import opened Scale
  import opened RealArith
  import opened Profiles
  import opened Cache
  import MSD = MeanSquaredDifference
  import PC = Pearson

  /** Which metric; the Pearson metric carries the square root it uses. */
  datatype Kind = MeanSquared | Correlation(sqrt: real -> real)

  /** The Pearson metric's square root really is one. */
  ghost predicate ValidKind(k: Kind)
  {
    k.Correlation? ==> IsSqrt(k.sqrt)
  }

  /** The similarity of two profiles under the chosen metric. */
  function Similarity(k: Kind, a: Profile, b: Profile): (r: real)
    ensures CommonMovies(a, b) == {} ==> r == 0.0
  {
    match k
    case MeanSquared => MSD.Similarity(a, b)
    case Correlation(sqrt) => PC.Similarity(sqrt, a, b)
  }

  /** Both metrics are symmetric in the two profiles. */
  lemma SimilaritySymmetric(k: Kind, a: Profile, b: Profile)
    ensures Similarity(k, a, b) == Similarity(k, b, a)
  {
    match k
    case MeanSquared => MSD.SimilaritySymmetric(a, b);
    case Correlation(sqrt) => PC.SimilaritySymmetric(sqrt, a, b);
  }

  /** Both metrics give values in [-1, 1]; the mean-squared one needs the
      ratings to be on the scale for that. */
  lemma SimilarityBounded(k: Kind, a: Profile, b: Profile)
    requires ValidKind(k)
    requires k.MeanSquared? ==> RatingsInScale(a) && RatingsInScale(b)
    ensures -1.0 <= Similarity(k, a, b) <= 1.0
  {
    match k
    case MeanSquared => MSD.SimilarityInUnit(a, b);
    case Correlation(sqrt) => PC.SimilarityInRange(sqrt, a, b);
  }

  /** The cell of the pair at positions `x` and `y` holds their similarity. */
  predicate Filled(k: Kind, ps: seq<Profile>, m: Matrix, x: int, y: int)
    requires DenseIds(ps) && IsSquare(m, |ps|)
    requires 0 <= x < |ps| && 0 <= y < |ps|
  {
    m[ps[x].internalId][ps[y].internalId] == Similarity(k, ps[x], ps[y])
  }

  /** Every pair before `(a, b)` in the order the loops visit them is
      filled. */
  predicate FilledBefore(k: Kind, ps: seq<Profile>, m: Matrix, a: int, b: int)
    requires DenseIds(ps) && IsSquare(m, |ps|)
  {
    forall x, y :: 0 <= x < |ps| && 0 <= y < |ps| && (x < a || (x == a && y < b)) ==> Filled(k, ps, m, x, y)
  }

  /** Storing the similarity of the pair `(a, b)` keeps the earlier pairs
      filled and fills this one.  The mirrored cell it also writes belongs
      to the pair `(b, a)`, whose similarity is the same. */
  lemma StoreFills(k: Kind, ps: seq<Profile>, m: Matrix, a: int, b: int)
    requires DenseIds(ps) && IsSquare(m, |ps|)
    requires 0 <= a < |ps| && 0 <= b < |ps|
    requires FilledBefore(k, ps, m, a, b)
    ensures FilledBefore(k, ps, Store(m, ps[a].internalId, ps[b].internalId, Similarity(k, ps[a], ps[b])), a, b + 1)
  {
    var i, j := ps[a].internalId, ps[b].internalId;
    var m' := Store(m, i, j, Similarity(k, ps[a], ps[b]));
    SimilaritySymmetric(k, ps[a], ps[b]);
    forall x, y | 0 <= x < |ps| && 0 <= y < |ps| && (x < a || (x == a && y < b + 1))
      ensures Filled(k, ps, m', x, y)
    {
      var u, v := ps[x].internalId, ps[y].internalId;
      if u == i && v == j {
        assert x == a && y == b;
      } else if u == j && v == i {
        assert x == b && y == a;
      } else {
        assert m'[u][v] == m[u][v];
        assert Filled(k, ps, m, x, y);
      }
    }
  }

  /** Fills the similarity matrix, visiting every ordered pair of profiles
      and storing each similarity under both orders. */
  method ComputeAll(k: Kind, ps: seq<Profile>) returns (m: Matrix)
    requires DenseIds(ps)
    ensures IsSquare(m, |ps|) && IsSymmetric(m)
    ensures forall x, y :: 0 <= x < |ps| && 0 <= y < |ps| ==>
      m[ps[x].internalId][ps[y].internalId] == Similarity(k, ps[x], ps[y])
  {
    var n := |ps|;
    m := Zeros(n);
    ZerosSymmetric(n);
    var a := 0;
    while a < n
      invariant 0 <= a <= n
      invariant IsSquare(m, n) && IsSymmetric(m)
      invariant FilledBefore(k, ps, m, a, 0)
    {
      var b := 0;
      while b < n
        invariant 0 <= b <= n
        invariant IsSquare(m, n) && IsSymmetric(m)
        invariant FilledBefore(k, ps, m, a, b)
      {
        var i, j := ps[a].internalId, ps[b].internalId;
        StoreFills(k, ps, m, a, b);
        StoreKeepsSymmetry(m, i, j, Similarity(k, ps[a], ps[b]));
        m := Store(m, i, j, Similarity(k, ps[a], ps[b]));
        b := b + 1;
      }
      assert FilledBefore(k, ps, m, a + 1, 0);
      a := a + 1;
    }
    forall x, y | 0 <= x < n && 0 <= y < n
      ensures m[ps[x].internalId][ps[y].internalId] == Similarity(k, ps[x], ps[y])
    {
      assert Filled(k, ps, m, x, y);
    }
  }

  /** A metric that has been set up: its kind and the table it works on. */
  datatype Metric = Metric(kind: Kind, table: Table)

  /** The profiles the metric works on. */
  function ProfileSet(mt: Metric): seq<Profile>
  {
    mt.table.profiles
  }

  /** Sets up a metric over the profiles.  The matrix is `N × N` for `N`
      profiles and is addressed by internal index, so the indices must be
      distinct and below `N`. */
  method Setup(k: Kind, ps: seq<Profile>) returns (mt: Metric)
    requires DenseIds(ps)
    ensures mt.kind == k && ProfileSet(mt) == ps && Shaped(mt.table)
    ensures IsSymmetric(mt.table.matrix)
    ensures forall x, y :: 0 <= x < |ps| && 0 <= y < |ps| ==>
      Cached(mt.table, ps[x], ps[y]) == Similarity(k, ps[x], ps[y])
  {
    var m := ComputeAll(k, ps);
    mt := Metric(k, Table(ps, m));
  }

  /** The cached similarity does not depend on the order of the pair. */
  lemma CachedSymmetric(t: Table, p: Profile, q: Profile)
    requires Shaped(t) && Indexed(t, p) && Indexed(t, q) && IsSymmetric(t.matrix)
    ensures Cached(t, p, q) == Cached(t, q, p)
  {
  }

  /** The predicted rating of `movie` for `p` under the chosen metric:
      `NoPrediction` or a rating on the scale. */
  function Predict(mt: Metric, p: Profile, movie: MovieId, threshold: real): (r: real)
    requires Shaped(mt.table) && Indexed(mt.table, p)
    ensures r == NoPrediction || InScale(r)
  {
    match mt.kind
    case MeanSquared => MSD.Prediction(mt.table, p, movie, threshold)
    case Correlation(_) => PC.Prediction(mt.table, p, movie, threshold)
  }

  /** With a non-negative threshold either metric predicts exactly when
      some neighbour of `p` rated the movie. */
  lemma PredictDefinedIff(mt: Metric, p: Profile, movie: MovieId, threshold: real)
    requires Shaped(mt.table) && Indexed(mt.table, p) && 0.0 <= threshold
    ensures Predict(mt, p, movie, threshold) == NoPrediction <==> Contributors(mt.table, p, movie, threshold) == {}
  {
    match mt.kind
    case MeanSquared => MSD.PredictionDefinedIff(mt.table, p, movie, threshold);
    case Correlation(_) => PC.PredictionDefinedIff(mt.table, p, movie, threshold);
  }
}
