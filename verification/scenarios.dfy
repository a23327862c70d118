/**
  Runs that start from identical seeds, as the source's random seeding
  produces (it re-seeds its generator with the same value for every
  centroid). Every tie goes to the first centroid, so the others receive no
  point in the first pass and keep `previous` at the origin.
 */
module Scenarios {
  import opened Points
  import opened Centroids
  import opened Nearest
  import opened Engine
  import opened Loop
  import opened Runs

  /** A centroid at the same position as centroid 0 never receives a point:
      every tie goes to the lower index. */
  lemma {:induction false} CopyOfFirstStarves(cs: seq<Centroid>, data: seq<Point>, i: nat)
    requires 0 < i < |cs| && cs[i].current == cs[0].current
    ensures AssignedTo(cs, data, i) == []
    decreases |data|
  {
    if data != [] {
      TieGoesToLowerIndex(cs, data[0], 0, i);
      CopyOfFirstStarves(cs, data[1..], i);
    }
  }

  /** With at least two identical seeds away from the origin, the first pass
      never ends the run: the second seed is starved, still remembers the
      origin as `previous`, and so fails its check. A converged run took at
      least two passes. */
  lemma IdenticalSeedsNeedTwoPasses(cs: seq<Centroid>, data: seq<Point>, x: real, y: real, fuel: nat)
    requires |cs| >= 2 && forall i :: 0 <= i < |cs| ==> cs[i] == New(x, y)
    requires !(Abs(x) < Epsilon && Abs(y) < Epsilon)
    ensures !AllConverged(Pass(cs, data))
    ensures KMeansClustering(cs, data, fuel).Converged? ==>
              KMeansClustering(cs, data, fuel).iterations >= 2
  {
    CopyOfFirstStarves(cs, data, 1);
    PassMovesToMeans(cs, data, 1);
    NewConvergedIffNearOrigin(x, y);
    assert !CompareToPrevious(Pass(cs, data)[1]);
    if KMeansClustering(cs, data, fuel).Converged? {
      KMeansIsFirstConvergedPass(cs, data, fuel);
      assert Passes(cs, data, 1) == Pass(cs, data);
    }
  }

  /** Two identical seeds at `(x, y)`, away from the origin, and one point on
      them. The first pass moves nothing but records `(x, y)` as the first
      centroid's `previous`; from then on each pass leaves the centroids as
      they are while the second one still fails its check. The source loop
      would never return; the model runs out of fuel whatever the budget. */
  lemma IdenticalSeedsOnOnePointNeverSettle(x: real, y: real, fuel: nat)
    requires !(Abs(x) < Epsilon && Abs(y) < Epsilon)
    ensures fuel > 0 ==>
              KMeansClustering([New(x, y), New(x, y)], [Point(x, y)], fuel)
              == OutOfFuel([New(x, y).(previous := Point(x, y)), New(x, y)])
  {
    var p := Point(x, y);
    var cs := [New(x, y), New(x, y)];
    var settled := [New(x, y).(previous := p), New(x, y)];
    OnePointPass(cs, p);
    OnePointPass(settled, p);
    NewConvergedIffNearOrigin(x, y);
    assert !AllConverged(settled) by {
      assert !CompareToPrevious(settled[1]);
    }
    if fuel > 0 {
      var step := PassStep([p]);
      assert step(cs) == settled;
      DriveStuck(step, AllConverged, settled, fuel - 1, 1);
      assert Drive(step, AllConverged, cs, fuel, 0) == OutOfFuel(settled);
      KMeansUnfold(cs, [p], fuel);
    }
  }

  /** One pass over the single point `p` when both centroids sit on `p` and
      start idle: the first centroid takes `p`, stays on it and records it as
      `previous`; the second is starved and left as it was. */
  lemma OnePointPass(cs: seq<Centroid>, p: Point)
    requires |cs| == 2 && cs[0].current == p && cs[1].current == p
    requires Idle(cs[0]) && Idle(cs[1])
    ensures Pass(cs, [p]) == [cs[0].(previous := p), cs[1]]
  {
    CopyOfFirstStarves(cs, [p], 1);
    assert [p][1..] == [];
    assert AssignedTo(cs, [p], 0) == [p];
    PassMovesToMeans(cs, [p], 0);
    PassMovesToMeans(cs, [p], 1);
    MeanSingleton(p);
  }
}
