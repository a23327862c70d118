/**
  The k-means engine: one assignment pass that accumulates every point into
  its nearest centroid, the update sweep, the convergence check, the final
  materialization of clusters and the driver loop that repeats passes until
  every centroid has settled.
 */
module Engine {
  import opened Points
  import opened Centroids
  import opened Nearest
  import opened Loop

  /** Every point can be given a centroid: there is one, or there is no point.
      With points and no centroid the source indexes an empty slice. */
  predicate Assignable(cs: seq<Centroid>, data: seq<Point>)
  {
    |cs| > 0 || data == []
  }

  /** The points of `data` whose nearest centroid is number `i`, in input
      order. This is the reference for what one pass sends to centroid `i`. */
  function AssignedTo(cs: seq<Centroid>, data: seq<Point>, i: nat): seq<Point>
    requires Assignable(cs, data)
    decreases |data|
  {
    if data == [] then []
    else
      var rest := AssignedTo(cs, data[1..], i);
      if MinDistance(cs, data[0]) == i then [data[0]] + rest else rest
  }

  /** Centroid `i` is given every copy of each point nearest to it, and
      nothing else. */
  lemma {:induction false} AssignedToContents(cs: seq<Centroid>, data: seq<Point>, i: nat)
    requires Assignable(cs, data)
    ensures forall q {:trigger multiset(AssignedTo(cs, data, i))[q]} ::
              multiset(AssignedTo(cs, data, i))[q] ==
                (if q in data && MinDistance(cs, q) == i then multiset(data)[q] else 0)
    decreases |data|
  {
    if data != [] {
      AssignedToContents(cs, data[1..], i);
      assert data == [data[0]] + data[1..];
      assert forall q :: q in data[1..] ==> q in data;
    }
  }

  /** `AssignedTo` reads only the centroids' positions. */
  lemma {:induction false} AssignedToOnlyReadsPositions(
    a: seq<Centroid>, b: seq<Centroid>, data: seq<Point>, i: nat)
    requires Assignable(a, data) && SamePositions(a, b)
    ensures AssignedTo(a, data, i) == AssignedTo(b, data, i)
    decreases |data|
  {
    if data != [] {
      MinDistanceOnlyReadsPositions(a, b, data[0]);
      AssignedToOnlyReadsPositions(a, b, data[1..], i);
    }
  }

  lemma AddAllCons(c: Centroid, p: Point, ps: seq<Point>)
    ensures AddAll(c, [p] + ps) == AddAll(AddPoint(c, p.x, p.y), ps)
  {
    assert ([p] + ps)[1..] == ps;
  }

  /** The assignment loop: each point, in input order, is added to its
      nearest centroid. No position moves while points are being assigned. */
  function Assign(cs: seq<Centroid>, data: seq<Point>): (r: seq<Centroid>)
    requires Assignable(cs, data)
    ensures SamePositions(cs, r)
    decreases |data|
  {
    if data == [] then cs
    else
      var p := data[0];
      var k := MinDistance(cs, p);
      Assign(cs[k := AddPoint(cs[k], p.x, p.y)], data[1..])
  }

  /** After the assignment loop, centroid `i` has accumulated exactly the
      points `AssignedTo` gives it, in input order, and nothing else. */
  lemma {:induction false} AssignCollects(cs: seq<Centroid>, data: seq<Point>, i: nat)
    requires Assignable(cs, data) && i < |cs|
    ensures Assign(cs, data)[i] == AddAll(cs[i], AssignedTo(cs, data, i))
    decreases |data|
  {
    if data != [] {
      var p := data[0];
      var k := MinDistance(cs, p);
      var next := cs[k := AddPoint(cs[k], p.x, p.y)];
      assert SamePositions(cs, next);
      AssignCollects(next, data[1..], i);
      AssignedToOnlyReadsPositions(next, cs, data[1..], i);
      if k == i {
        AddAllCons(cs[i], p, AssignedTo(cs, data[1..], i));
      }
    }
  }

  /** In one assignment pass each centroid gains one count per point it is
      given and the coordinates of exactly those points; nothing else moves. */
  lemma AssignAccumulates(cs: seq<Centroid>, data: seq<Point>, i: nat)
    requires Assignable(cs, data) && i < |cs|
    ensures Assign(cs, data)[i].n == cs[i].n + |AssignedTo(cs, data, i)|
    ensures Assign(cs, data)[i].xSum == cs[i].xSum + SumX(AssignedTo(cs, data, i))
    ensures Assign(cs, data)[i].ySum == cs[i].ySum + SumY(AssignedTo(cs, data, i))
    ensures Assign(cs, data)[i].current == cs[i].current
    ensures Assign(cs, data)[i].previous == cs[i].previous
    ensures Assign(cs, data)[i].cluster == cs[i].cluster
  {
    AssignCollects(cs, data, i);
    AddAllAccumulates(cs[i], AssignedTo(cs, data, i));
  }

  /** The update sweep, applied to every centroid. */
  function UpdateAll(cs: seq<Centroid>): (r: seq<Centroid>)
    ensures |r| == |cs|
    ensures forall i :: 0 <= i < |cs| ==> r[i] == UpdateCentroid(cs[i])
  {
    seq(|cs|, i requires 0 <= i < |cs| => UpdateCentroid(cs[i]))
  }

  lemma AddAllKeepsWellFormed(c: Centroid, ps: seq<Point>)
    ensures WellFormed(c) ==> WellFormed(AddAll(c, ps))
  {
    AddAllAccumulates(c, ps);
    if ps == [] {
      assert AddAll(c, ps) == c;
    }
  }

  /** One pass: assign every point, then update every centroid. Counters are
      zero again afterwards, and so are the sums of every well-formed
      centroid; clusters are not touched. */
  function Pass(cs: seq<Centroid>, data: seq<Point>): (r: seq<Centroid>)
    requires Assignable(cs, data)
    ensures |r| == |cs|
    ensures forall i :: 0 <= i < |cs| ==> r[i].n == 0 && r[i].cluster == cs[i].cluster
    ensures forall i :: 0 <= i < |cs| ==> WellFormed(cs[i]) ==> Idle(r[i])
  {
    var a := Assign(cs, data);
    var r := UpdateAll(a);
    assert forall i :: 0 <= i < |cs| ==>
             r[i].n == 0 && r[i].cluster == cs[i].cluster && (WellFormed(cs[i]) ==> Idle(r[i])) by {
      forall i | 0 <= i < |cs|
        ensures r[i].n == 0 && r[i].cluster == cs[i].cluster && (WellFormed(cs[i]) ==> Idle(r[i]))
      {
        var ps := AssignedTo(cs, data, i);
        AssignCollects(cs, data, i);
        AddAllAccumulates(cs[i], ps);
        AddAllKeepsWellFormed(cs[i], ps);
        assert r[i] == UpdateCentroid(a[i]);
      }
    }
    r
  }

  /** Lloyd's step: from idle centroids, a pass moves every centroid that
      received points to the mean of those points, remembering where it was,
      and leaves every centroid that received none exactly as it was. */
  lemma PassMovesToMeans(cs: seq<Centroid>, data: seq<Point>, i: nat)
    requires Assignable(cs, data) && i < |cs|
    requires Idle(cs[i])
    ensures AssignedTo(cs, data, i) != [] ==>
              Pass(cs, data)[i].current == Mean(AssignedTo(cs, data, i))
              && Pass(cs, data)[i].previous == cs[i].current
    ensures AssignedTo(cs, data, i) == [] ==> Pass(cs, data)[i] == cs[i]
  {
    var ps := AssignedTo(cs, data, i);
    AssignCollects(cs, data, i);
    if ps != [] {
      UpdateMovesToMean(cs[i], ps);
    }
  }

  /** The convergence check: true when every centroid's `current` is within
      `Epsilon` of its `previous` on both axes (`previous` is the origin until
      the centroid first receives a point). */
  function AllConverged(cs: seq<Centroid>): (b: bool)
    ensures b <==> forall i :: 0 <= i < |cs| ==> CompareToPrevious(cs[i])
  {
    if cs == [] then true
    else
      var rest := AllConverged(cs[1..]);
      assert forall i :: 1 <= i < |cs| ==> cs[i] == cs[1..][i - 1];
      CompareToPrevious(cs[0]) && rest
  }

  /** A centroid that gets no point in a pass keeps its position and its
      `previous`; if those are far apart the pass cannot be the last. */
  lemma StarvedCentroidBlocksConvergence(cs: seq<Centroid>, data: seq<Point>, i: nat)
    requires Assignable(cs, data) && i < |cs|
    requires Idle(cs[i]) && !CompareToPrevious(cs[i])
    ensures AssignedTo(cs, data, i) == [] ==> !AllConverged(Pass(cs, data))
  {
    PassMovesToMeans(cs, data, i);
  }

  /** The final read-only pass: each point, in input order, is appended to the
      cluster of its nearest centroid. */
  function Materialize(cs: seq<Centroid>, data: seq<Point>): (r: seq<Centroid>)
    requires Assignable(cs, data)
    ensures SamePositions(cs, r)
    decreases |data|
  {
    if data == [] then cs
    else
      var p := data[0];
      var k := MinDistance(cs, p);
      Materialize(cs[k := cs[k].(cluster := cs[k].cluster + [p])], data[1..])
  }

  /** Materialization appends to centroid `i`'s cluster exactly the points
      nearest to it, in input order, and changes nothing else about it. */
  lemma {:induction false} MaterializeAppends(cs: seq<Centroid>, data: seq<Point>, i: nat)
    requires Assignable(cs, data) && i < |cs|
    ensures Materialize(cs, data)[i] == cs[i].(cluster := cs[i].cluster + AssignedTo(cs, data, i))
    decreases |data|
  {
    if data != [] {
      var p := data[0];
      var k := MinDistance(cs, p);
      var next := cs[k := cs[k].(cluster := cs[k].cluster + [p])];
      assert SamePositions(cs, next);
      MaterializeAppends(next, data[1..], i);
      AssignedToOnlyReadsPositions(next, cs, data[1..], i);
      if k == i {
        assert cs[i].cluster + [p] + AssignedTo(cs, data[1..], i)
            == cs[i].cluster + AssignedTo(cs, data, i);
      }
    }
  }

  /** One pass as a step of the driver loop. Every state the loop reaches
      has as many centroids as it started with, so the guard only rules out
      the input the source panics on. */
  function PassStep(data: seq<Point>): seq<Centroid> -> seq<Centroid>
  {
    cs => if Assignable(cs, data) then Pass(cs, data) else cs
  }

  /** What every state of a run keeps: the number of centroids and their
      clusters. */
  predicate KeepsShape(start: seq<Centroid>, cs: seq<Centroid>)
  {
    |cs| == |start| && forall i :: 0 <= i < |cs| ==> cs[i].cluster == start[i].cluster
  }

  /** No accumulator is left over. */
  predicate AllCountersZero(cs: seq<Centroid>)
  {
    forall i :: 0 <= i < |cs| ==> cs[i].n == 0
  }

  /** `k_mean_clustering` with at most `fuel` passes: repeat passes until
      every centroid passes its check, then materialize the clusters. On
      convergence at least one pass ran, every centroid passes its check, no
      counter is left over, and each centroid's cluster gained exactly the
      points nearest to its final position, in input order. Out of fuel, no
      cluster is touched. */
  function KMeansClustering(cs: seq<Centroid>, data: seq<Point>, fuel: nat)
    : (r: Outcome<seq<Centroid>>)
    requires Assignable(cs, data)
    ensures |r.state| == |cs|
    ensures r.Converged? ==> 1 <= r.iterations <= fuel
    ensures r.Converged? ==> forall i :: 0 <= i < |cs| ==>
              && CompareToPrevious(r.state[i])
              && r.state[i].n == 0
              && r.state[i].cluster == cs[i].cluster + AssignedTo(r.state, data, i)
    ensures r.OutOfFuel? ==> forall i :: 0 <= i < |cs| ==> r.state[i].cluster == cs[i].cluster
  {
    var run := Drive(PassStep(data), AllConverged, cs, fuel, 0);
    DriveKeepsShape(cs, data, fuel);
    if run.OutOfFuel? then run
    else
      SettledMaterialized(cs, run.state, data);
      Converged(Materialize(run.state, data), run.iterations)
  }

  /** Materializing a settled state keeps every verdict and counter and gives
      each centroid the points nearest to it. */
  lemma SettledMaterialized(start: seq<Centroid>, settled: seq<Centroid>, data: seq<Point>)
    requires KeepsShape(start, settled) && AllCountersZero(settled) && AllConverged(settled)
    requires Assignable(settled, data)
    ensures var m := Materialize(settled, data);
      && |m| == |start|
      && forall i :: 0 <= i < |start| ==>
           && CompareToPrevious(m[i])
           && m[i].n == 0
           && m[i].cluster == start[i].cluster + AssignedTo(m, data, i)
  {
    MaterializeFinal(settled, data);
  }

  lemma DriveKeepsShape(cs: seq<Centroid>, data: seq<Point>, fuel: nat)
    requires Assignable(cs, data)
    ensures var run := Drive(PassStep(data), AllConverged, cs, fuel, 0);
      KeepsShape(cs, run.state) && (run.Converged? ==> AllCountersZero(run.state))
  {
    var inv := t => KeepsShape(cs, t);
    forall t | inv(t)
      ensures inv(PassStep(data)(t)) && AllCountersZero(PassStep(data)(t))
    {
      assert Assignable(t, data);
    }
    DriveKeeps(PassStep(data), AllConverged, cs, fuel, 0, inv, AllCountersZero);
  }

  /** Materialization on every centroid at once, and its positions unchanged
      for `AssignedTo`. */
  lemma MaterializeFinal(cs: seq<Centroid>, data: seq<Point>)
    requires Assignable(cs, data)
    ensures forall i :: 0 <= i < |cs| ==>
              && Materialize(cs, data)[i]
                 == cs[i].(cluster := cs[i].cluster + AssignedTo(cs, data, i))
              && AssignedTo(Materialize(cs, data), data, i) == AssignedTo(cs, data, i)
  {
    forall i | 0 <= i < |cs|
      ensures && Materialize(cs, data)[i]
                 == cs[i].(cluster := cs[i].cluster + AssignedTo(cs, data, i))
              && AssignedTo(Materialize(cs, data), data, i) == AssignedTo(cs, data, i)
    {
      MaterializeAppends(cs, data, i);
      AssignedToOnlyReadsPositions(cs, Materialize(cs, data), data, i);
    }
  }
}
