/** The cached similarity matrix both metrics build over their profiles, and
    the neighbour selection that reads it.  Row and column `i` of the matrix
    belong to the profile whose internal index is `i`. */
module Cache {
  import opened Profiles

  type Matrix = seq<seq<real>>

  predicate IsSquare(m: Matrix, n: nat)
  {
    |m| == n && forall i :: 0 <= i < n ==> |m[i]| == n
  }

  predicate IsSymmetric(m: Matrix)
    requires IsSquare(m, |m|)
  {
    forall i, j :: 0 <= i < |m| && 0 <= j < |m| ==> m[i][j] == m[j][i]
  }

  /** The freshly allocated `n × n` matrix. */
  function Zeros(n: nat): (m: Matrix)
    ensures IsSquare(m, n)
    ensures forall i, j :: 0 <= i < n && 0 <= j < n ==> m[i][j] == 0.0
  {
    seq(n, _ => seq(n, _ => 0.0))
  }

  lemma ZerosSymmetric(n: nat)
    ensures IsSymmetric(Zeros(n))
  {
  }

  /** Stores one similarity under both orders of the pair. */
  function Store(m: Matrix, i: nat, j: nat, v: real): (r: Matrix)
    requires IsSquare(m, |m|) && i < |m| && j < |m|
    ensures IsSquare(r, |m|)
    ensures r[i][j] == v && r[j][i] == v
    ensures forall x, y :: 0 <= x < |m| && 0 <= y < |m| && !(x == i && y == j) && !(x == j && y == i) ==> r[x][y] == m[x][y]
  {
    var m1 := m[i := m[i][j := v]];
    m1[j := m1[j][i := v]]
  }

  /** Because both orders are written, storing keeps a symmetric matrix
      symmetric. */
  lemma StoreKeepsSymmetry(m: Matrix, i: nat, j: nat, v: real)
    requires IsSquare(m, |m|) && i < |m| && j < |m| && IsSymmetric(m)
    ensures IsSymmetric(Store(m, i, j, v))
  {
  }

  /** The profiles a metric works on, with the matrix computed over them. */
  datatype Table = Table(profiles: seq<Profile>, matrix: Matrix)

  /** The matrix is `N × N` for `N` profiles whose internal indices are
      distinct and below `N`. */
  predicate Shaped(t: Table)
  {
    DenseIds(t.profiles) && IsSquare(t.matrix, |t.profiles|)
  }

  /** `p` has a row in the matrix. */
  predicate Indexed(t: Table, p: Profile)
  {
    p.internalId < |t.profiles|
  }

  /** The cached similarity of two profiles. */
  function Cached(t: Table, p: Profile, q: Profile): real
    requires Shaped(t) && Indexed(t, p) && Indexed(t, q)
  {
    t.matrix[p.internalId][q.internalId]
  }

  /** The profile at position `j` is a neighbour of `p`: it has a different
      user id and its cached similarity to `p` is strictly above the
      threshold. */
  predicate IsNeighbour(t: Table, p: Profile, threshold: real, j: int)
    requires Shaped(t) && Indexed(t, p)
  {
    0 <= j < |t.profiles| && t.profiles[j].userId != p.userId && Cached(t, p, t.profiles[j]) > threshold
  }

  /** The neighbours among the profiles at positions `k` and later. */
  function NeighboursFrom(t: Table, p: Profile, threshold: real, k: nat): (n: set<int>)
    requires Shaped(t) && Indexed(t, p) && k <= |t.profiles|
    ensures forall j :: j in n <==> k <= j && IsNeighbour(t, p, threshold, j)
    decreases |t.profiles| - k
  {
    if k == |t.profiles| then
      {}
    else
      var rest := NeighboursFrom(t, p, threshold, k + 1);
      if IsNeighbour(t, p, threshold, k) then {k} + rest else rest
  }

  /** The positions of the neighbours of `p`. */
  function Neighbours(t: Table, p: Profile, threshold: real): (n: set<int>)
    requires Shaped(t) && Indexed(t, p)
    ensures forall j :: j in n <==> IsNeighbour(t, p, threshold, j)
  {
    NeighboursFrom(t, p, threshold, 0)
  }

  /** No profile with the query's user id, the query itself included, is a
      neighbour. */
  lemma NeighboursExcludeSameUser(t: Table, p: Profile, threshold: real, j: int)
    requires Shaped(t) && Indexed(t, p) && 0 <= j < |t.profiles|
    requires t.profiles[j].userId == p.userId
    ensures j !in Neighbours(t, p, threshold)
  {
  }

  /** Raising the threshold can only remove neighbours. */
  lemma NeighboursAntitone(t: Table, p: Profile, low: real, high: real)
    requires Shaped(t) && Indexed(t, p) && low <= high
    ensures Neighbours(t, p, high) <= Neighbours(t, p, low)
  {
    forall j | j in Neighbours(t, p, high)
      ensures j in Neighbours(t, p, low)
    {
      assert IsNeighbour(t, p, high, j);
    }
  }

  /** The neighbours of `p` who rated `movie`: the profiles a prediction
      draws on. */
  function Contributors(t: Table, p: Profile, movie: MovieId, threshold: real): (c: set<int>)
    requires Shaped(t) && Indexed(t, p)
    ensures forall j :: j in c <==> IsNeighbour(t, p, threshold, j) && HasRated(t.profiles[j], movie)
  {
    set j | j in Neighbours(t, p, threshold) && HasRated(t.profiles[j], movie)
  }

  /** The cached similarity of `p` to the profile at position `j`, as a
      total function of `j` for use in sums. */
  function CachedAt(t: Table, p: Profile): int -> real
    requires Shaped(t) && Indexed(t, p)
  {
    j => if 0 <= j < |t.profiles| then Cached(t, p, t.profiles[j]) else 0.0
  }
}
