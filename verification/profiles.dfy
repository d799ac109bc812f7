/** The data model underneath both similarity metrics: movies and user
    profiles.  A profile keeps two maps from movie id to rating value, the
    retained ("source") ratings and the held-out ("target") ratings, and the
    dense internal index that addresses the similarity matrix. */
module Profiles {
  import opened Sums
  import opened Scale
  import opened RealArith

  type MovieId = int
  type UserId = int

  /** A movie that users rate.  Movies are shared by id, so a map keyed by
      the movie object is a map keyed by its id. */
  datatype Movie = Movie(name: string, id: MovieId)

  datatype Profile = Profile(
    userId: UserId,
    internalId: nat,
    ratings: map<MovieId, real>,
    targets: map<MovieId, real>)

  /** Builds an empty profile.  The process-wide instance counter becomes an
      explicit parameter: the new profile takes its value as internal index
      and the returned counter is one larger. */
  function NewProfile(uid: UserId, counter: nat): (r: (Profile, nat))
    ensures r.0.userId == uid && r.0.internalId == counter
    ensures r.0.ratings == map[] && r.0.targets == map[]
    ensures r.1 == counter + 1
  {
    (Profile(uid, counter, map[], map[]), counter + 1)
  }

  /** Builds one profile per user id, in order, threading the counter. */
  function NewProfiles(uids: seq<UserId>, counter: nat): (r: (seq<Profile>, nat))
    ensures |r.0| == |uids| && r.1 == counter + |uids|
    ensures forall i :: 0 <= i < |uids| ==> r.0[i].userId == uids[i] && r.0[i].internalId == counter + i
    ensures forall i :: 0 <= i < |uids| ==> r.0[i].ratings == map[] && r.0[i].targets == map[]
    decreases |uids|
  {
    if uids == [] then
      ([], counter)
    else
      var (p, next) := NewProfile(uids[0], counter);
      var (rest, last) := NewProfiles(uids[1..], next);
      ([p] + rest, last)
  }

  /** The internal indices of `ps` are distinct and all below `|ps|`, so they
      address the rows and columns of an `|ps|`-square matrix one to one. */
  predicate DenseIds(ps: seq<Profile>)
  {
    && (forall i :: 0 <= i < |ps| ==> ps[i].internalId < |ps|)
    && (forall i, j :: 0 <= i < |ps| && 0 <= j < |ps| && ps[i].internalId == ps[j].internalId ==> i == j)
  }

  /** Profiles built one after another, the counter starting at zero, have
      dense ids. */
  lemma FreshProfilesDense(uids: seq<UserId>)
    ensures DenseIds(NewProfiles(uids, 0).0)
  {
  }

  /** The number of retained ratings. */
  function Size(p: Profile): (n: nat)
    ensures n == 0 <==> p.ratings == map[]
  {
    |p.ratings.Keys|
  }

  predicate HasRated(p: Profile, movie: MovieId)
  {
    movie in p.ratings
  }

  /** The retained rating for `movie`, or 0 when there is none. */
  function RatingFor(p: Profile, movie: MovieId): (r: real)
    ensures HasRated(p, movie) ==> r == p.ratings[movie]
    ensures !HasRated(p, movie) ==> r == 0.0
  {
    if movie in p.ratings then p.ratings[movie] else 0.0
  }

  /** Every retained rating lies on the rating scale. */
  predicate RatingsInScale(p: Profile)
  {
    forall m :: m in p.ratings ==> InScale(p.ratings[m])
  }

  /** Every held-out rating lies on the rating scale. */
  predicate TargetsInScale(p: Profile)
  {
    forall m :: m in p.targets ==> InScale(p.targets[m])
  }

  /** Since 0 is off the scale, a zero answer from `RatingFor` means exactly
      that the movie was not rated. */
  lemma RatingForZeroIffUnrated(p: Profile, movie: MovieId)
    requires RatingsInScale(p)
    ensures RatingFor(p, movie) == 0.0 <==> !HasRated(p, movie)
  {
  }

  /** The movies both profiles rated. */
  function CommonMovies(a: Profile, b: Profile): (c: set<MovieId>)
    ensures forall m :: m in c <==> HasRated(a, m) && HasRated(b, m)
  {
    a.ratings.Keys * b.ratings.Keys
  }

  lemma CommonMoviesSymmetric(a: Profile, b: Profile)
    ensures CommonMovies(a, b) == CommonMovies(b, a)
  {
  }

  lemma CommonMoviesSelf(a: Profile)
    ensures CommonMovies(a, a) == a.ratings.Keys
  {
  }

  /** The retained ratings of `p` as a function of the movie id. */
  function RatingsOf(p: Profile): int -> real
  {
    m => RatingFor(p, m)
  }

  /** The arithmetic mean of the retained ratings; 0 for a profile with
      none. */
  function MeanRating(p: Profile): (r: real)
    ensures Size(p) == 0 ==> r == 0.0
  {
    if Size(p) == 0 then 0.0
    else Sum(p.ratings.Keys, RatingsOf(p)) / |p.ratings.Keys| as real
  }

  /** The mean of ratings in [lo, hi] lies in [lo, hi]. */
  lemma MeanRatingBounds(p: Profile, lo: real, hi: real)
    requires Size(p) > 0
    requires forall m :: m in p.ratings ==> lo <= p.ratings[m] <= hi
    ensures lo <= MeanRating(p) <= hi
  {
    var s, f := p.ratings.Keys, RatingsOf(p);
    forall m | m in s
      ensures lo <= f(m) <= hi
    {
    }
    MeanBounds(s, f, lo, hi);
  }

  function TargetMovies(p: Profile): (ms: set<MovieId>)
    ensures forall m :: m in ms <==> m in p.targets
  {
    p.targets.Keys
  }

  /** The held-out rating for `movie`, or 0 when it is not held out. */
  function TargetRating(p: Profile, movie: MovieId): (r: real)
    ensures movie in p.targets ==> r == p.targets[movie]
    ensures movie !in p.targets ==> r == 0.0
  {
    if movie in p.targets then p.targets[movie] else 0.0
  }

  /** Records a retained rating; a second rating for the same movie
      replaces the first. */
  function AddRating(p: Profile, movie: MovieId, value: real): (r: Profile)
    ensures HasRated(r, movie) && RatingFor(r, movie) == value
    ensures forall m :: m != movie ==> HasRated(r, m) == HasRated(p, m) && RatingFor(r, m) == RatingFor(p, m)
    ensures r.userId == p.userId && r.internalId == p.internalId && r.targets == p.targets
  {
    p.(ratings := p.ratings[movie := value])
  }

  /** Adding a rating grows the profile by one exactly when the movie is new. */
  lemma AddRatingSize(p: Profile, movie: MovieId, value: real)
    ensures Size(AddRating(p, movie, value)) == if HasRated(p, movie) then Size(p) else Size(p) + 1
  {
    var r := AddRating(p, movie, value);
    if HasRated(p, movie) {
      assert r.ratings.Keys == p.ratings.Keys;
    } else {
      assert r.ratings.Keys == p.ratings.Keys + {movie};
    }
  }

  /** Moves the retained ratings of the chosen movies to the held-out map.
      Which movies are chosen is the caller's policy. */
  function Split(p: Profile, chosen: set<MovieId>): (r: Profile)
    ensures forall m :: HasRated(r, m) <==> HasRated(p, m) && m !in chosen
    ensures forall m :: m in r.targets <==> m in p.targets || (HasRated(p, m) && m in chosen)
    ensures forall m :: HasRated(r, m) ==> RatingFor(r, m) == RatingFor(p, m)
    ensures forall m :: m in chosen && HasRated(p, m) ==> TargetRating(r, m) == RatingFor(p, m)
    ensures r.userId == p.userId && r.internalId == p.internalId
  {
    var kept := map m | m in p.ratings && m !in chosen :: p.ratings[m];
    var moved := map m | m in p.ratings && m in chosen :: p.ratings[m];
    p.(ratings := kept, targets := p.targets + moved)
  }

  /** Splitting a profile with no held-out ratings is a move: the two maps
      are disjoint and together hold as many ratings as before. */
  lemma SplitLaw(p: Profile, chosen: set<MovieId>)
    requires p.targets == map[]
    ensures Split(p, chosen).ratings.Keys !! Split(p, chosen).targets.Keys
    ensures |Split(p, chosen).ratings| + |Split(p, chosen).targets| == |p.ratings|
  {
    var r := Split(p, chosen);
    assert r.ratings.Keys + r.targets.Keys == p.ratings.Keys;
  }
}
