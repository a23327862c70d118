/**
  The `Centroid` record and its per-pass state machine: points are
  accumulated into `xSum`/`ySum`/`n` during an assignment pass, folded into
  `current` by `UpdateCentroid` when at least one point arrived, and the
  accumulators are then reset.
 */
module Centroids {
  import opened Points

  /** Convergence threshold on each coordinate's movement. */
  const Epsilon: real := 0.001

  /** `n` stands for the source's `u32` counter; see README for the width. */
  datatype Centroid = Centroid(
    current: Point,
    xSum: real,
    ySum: real,
    n: nat,
    previous: Point,
    cluster: seq<Point>)

  /** No point has been accumulated since the last update. */
  predicate Idle(c: Centroid)
  {
    c.n == 0 && c.xSum == 0.0 && c.ySum == 0.0
  }

  /** Accumulators are only ever non-zero after some point was added. Every
      centroid the engine can reach satisfies this. */
  predicate WellFormed(c: Centroid)
  {
    c.n == 0 ==> Idle(c)
  }

  /** A fresh centroid at `(x, y)`: idle, with an empty cluster and a
      `previous` position at the origin. */
  function New(x: real, y: real): (c: Centroid)
    ensures Idle(c) && WellFormed(c)
    ensures c.current == Point(x, y) && c.previous == Origin
    ensures c.cluster == []
  {
    Centroid(Point(x, y), 0.0, 0.0, 0, Point(0.0, 0.0), [])
  }

  /** The centroid's distance to `p`, squared. */
  function Distance(c: Centroid, p: Point): real
  {
    SqDist(c.current, p)
  }

  /** Accumulate one point: exactly one more point counted, its coordinates
      added to the sums, nothing else touched. */
  function AddPoint(c: Centroid, x: real, y: real): (r: Centroid)
    ensures r.n == c.n + 1
    ensures r.xSum == c.xSum + x && r.ySum == c.ySum + y
    ensures r.current == c.current && r.previous == c.previous
    ensures r.cluster == c.cluster
    ensures WellFormed(r)
  {
    c.(xSum := c.xSum + x, ySum := c.ySum + y, n := c.n + 1)
  }

  /** Fold the accumulators into `current` when at least one point arrived,
      remembering the old position in `previous`; otherwise change nothing. */
  function UpdateCentroid(c: Centroid): (r: Centroid)
    ensures c.n == 0 ==> r == c
    ensures c.n > 0 ==> r.previous == c.current
    ensures c.n > 0 ==> r.current == Point(c.xSum / c.n as real, c.ySum / c.n as real)
    ensures r.n == 0 && r.cluster == c.cluster
    ensures WellFormed(c) ==> Idle(r)
  {
    if c.n > 0 then
      var count := c.n as real;
      c.(previous := c.current,
         current := Point(c.xSum / count, c.ySum / count),
         xSum := 0.0, ySum := 0.0, n := 0)
    else
      c
  }

  /** True exactly when `current` is within `Epsilon` of `previous` on both
      axes. `previous` is the origin until the centroid first receives a
      point, so a centroid never updated passes only near the origin. */
  function CompareToPrevious(c: Centroid): (b: bool)
    ensures b <==> -Epsilon < c.previous.x - c.current.x < Epsilon
                   && -Epsilon < c.previous.y - c.current.y < Epsilon
  {
    Abs(c.previous.x - c.current.x) < Epsilon && Abs(c.previous.y - c.current.y) < Epsilon
  }

  /** Accumulate a whole sequence of points, in order. */
  function AddAll(c: Centroid, ps: seq<Point>): Centroid
    decreases |ps|
  {
    if ps == [] then c else AddAll(AddPoint(c, ps[0].x, ps[0].y), ps[1..])
  }

  /** Accumulating a sequence counts every point once and sums its
      coordinates, leaving position and cluster alone. */
  lemma {:induction false} AddAllAccumulates(c: Centroid, ps: seq<Point>)
    ensures AddAll(c, ps).n == c.n + |ps|
    ensures AddAll(c, ps).xSum == c.xSum + SumX(ps)
    ensures AddAll(c, ps).ySum == c.ySum + SumY(ps)
    ensures AddAll(c, ps).current == c.current && AddAll(c, ps).previous == c.previous
    ensures AddAll(c, ps).cluster == c.cluster
    decreases |ps|
  {
    if ps != [] {
      AddAllAccumulates(AddPoint(c, ps[0].x, ps[0].y), ps[1..]);
    }
  }

  /** Starting idle, accumulating a non-empty sequence and updating moves the
      centroid to the mean of that sequence and resets it to idle. */
  lemma UpdateMovesToMean(c: Centroid, ps: seq<Point>)
    requires Idle(c) && |ps| > 0
    ensures UpdateCentroid(AddAll(c, ps)).current == Mean(ps)
    ensures UpdateCentroid(AddAll(c, ps)).previous == c.current
    ensures Idle(UpdateCentroid(AddAll(c, ps)))
  {
    AddAllAccumulates(c, ps);
  }

  /** An update leaves nothing to fold in, so a second update is a no-op. */
  lemma UpdateIdempotent(c: Centroid)
    ensures UpdateCentroid(UpdateCentroid(c)) == UpdateCentroid(c)
  {
  }

  /** A fresh centroid counts as converged exactly when it sits within
      `Epsilon` of the origin on both axes, since `previous` starts there. */
  lemma NewConvergedIffNearOrigin(x: real, y: real)
    ensures CompareToPrevious(New(x, y)) <==> Abs(x) < Epsilon && Abs(y) < Epsilon
  {
  }

  /** An update that receives no point leaves the convergence verdict as it was. */
  lemma StarvedUpdateKeepsVerdict(c: Centroid)
    requires c.n == 0
    ensures CompareToPrevious(UpdateCentroid(c)) == CompareToPrevious(c)
  {
  }
}
