/** A single rating: who gave it (possibly not yet known), the value and the
    movie; and the four-field text record it is written out as. */
module Ratings {
  import opened Options
  import opened Profiles

  /** The giver is `None` until the loader attaches the profile.  The value
      and the movie have no setters, so only the giver ever changes. */
  datatype Rating = Rating(profile: Option<Profile>, value: real, movie: Movie)

  /** The constructor that names the giver. */
  function OwnedRating(profile: Profile, value: real, movie: Movie): (r: Rating)
    ensures r.profile == Some(profile) && r.value == value && r.movie == movie
  {
    Rating(Some(profile), value, movie)
  }

  /** The constructor that leaves the giver absent. */
  function UnownedRating(value: real, movie: Movie): (r: Rating)
    ensures r.profile == None && r.value == value && r.movie == movie
  {
    Rating(None, value, movie)
  }

  function SetProfile(r: Rating, profile: Profile): (s: Rating)
    ensures s.profile == Some(profile)
    ensures s.value == r.value && s.movie == r.movie
  {
    r.(profile := Some(profile))
  }

  /** The loader's path (an unowned rating, then its profile attached) ends
      in the same rating as the three-field constructor. */
  lemma AttachMatchesConstructor(value: real, movie: Movie, profile: Profile)
    ensures SetProfile(UnownedRating(value, movie), profile) == OwnedRating(profile, value, movie)
  {
  }

  /** Attaching twice is attaching the second profile once. */
  lemma SetProfileLastWins(r: Rating, p: Profile, q: Profile)
    ensures SetProfile(SetProfile(r, p), q) == SetProfile(r, q)
  {
  }

  /** One field of a written record. */
  datatype Field = IntField(i: int) | RealField(x: real)

  /** The record a rating is written as: user id, movie id, value and a
      constant zero timestamp.  The giver must be attached. */
  function Record(r: Rating): (fields: seq<Field>)
    requires r.profile.Some?
    ensures |fields| == 4
    ensures fields[0] == IntField(r.profile.value.userId)
    ensures fields[1] == IntField(r.movie.id) && fields[2] == RealField(r.value)
    ensures fields[3] == IntField(0)
  {
    [IntField(r.profile.value.userId), IntField(r.movie.id), RealField(r.value), IntField(0)]
  }

  /** What the loader reads from a record: user id, movie id and value from
      the first three fields; anything after them is ignored. */
  function ParseRecord(fields: seq<Field>): (r: Option<(UserId, MovieId, real)>)
    ensures r.Some? <==> |fields| >= 3 && fields[0].IntField? && fields[1].IntField? && fields[2].RealField?
    ensures r.Some? ==> r.value == (fields[0].i, fields[1].i, fields[2].x)
  {
    if |fields| >= 3 && fields[0].IntField? && fields[1].IntField? && fields[2].RealField? then
      Some((fields[0].i, fields[1].i, fields[2].x))
    else
      None
  }

  /** Reading back a written record recovers who rated which movie and how. */
  lemma RecordRoundTrip(r: Rating)
    requires r.profile.Some?
    ensures ParseRecord(Record(r)) == Some((r.profile.value.userId, r.movie.id, r.value))
  {
  }
}
