/**
  What the driver computes, stated against an independent reference: the
  centroids after `m` passes with no convergence check. The run stops at the
  first pass after which every centroid has settled, and more fuel never
  changes an answer already reached.
 */
module Runs {
  import opened Points
  import opened Centroids
  import opened Engine
  import opened Loop

  /** The centroids after `m` passes, with no convergence check. */
  function Passes(cs: seq<Centroid>, data: seq<Point>, m: nat): seq<Centroid>
  {
    Steps(PassStep(data), cs, m)
  }

  /** On convergence, `KMeansClustering` reports the first pass count after
      which every centroid passes its check, and its clusters are
      materialized from the centroids of that pass. */
  lemma KMeansIsFirstConvergedPass(cs: seq<Centroid>, data: seq<Point>, fuel: nat)
    requires Assignable(cs, data)
    ensures var r := KMeansClustering(cs, data, fuel);
      r.Converged? ==>
        && AllConverged(Passes(cs, data, r.iterations))
        && (forall j :: 1 <= j < r.iterations ==> !AllConverged(Passes(cs, data, j)))
        && Assignable(Passes(cs, data, r.iterations), data)
        && r.state == Materialize(Passes(cs, data, r.iterations), data)
  {
    KMeansUnfold(cs, data, fuel);
    FromScratch(PassStep(data), AllConverged, cs, fuel);
  }

  /** `KMeansClustering` runs out of fuel only when none of the first `fuel`
      passes converged, and then returns the centroids after `fuel` passes. */
  lemma OutOfFuelMeansNoPassConverged(cs: seq<Centroid>, data: seq<Point>, fuel: nat)
    requires Assignable(cs, data)
    ensures var r := KMeansClustering(cs, data, fuel);
      r.OutOfFuel? ==>
        && (forall j :: 1 <= j <= fuel ==> !AllConverged(Passes(cs, data, j)))
        && r.state == Passes(cs, data, fuel)
  {
    KMeansUnfold(cs, data, fuel);
    FromScratch(PassStep(data), AllConverged, cs, fuel);
  }

  /** The driver's answer in terms of the underlying loop. */
  lemma KMeansUnfold(cs: seq<Centroid>, data: seq<Point>, fuel: nat)
    requires Assignable(cs, data)
    ensures var run := Drive(PassStep(data), AllConverged, cs, fuel, 0);
      && (run.OutOfFuel? ==> KMeansClustering(cs, data, fuel) == run)
      && (run.Converged? ==>
            && Assignable(run.state, data)
            && KMeansClustering(cs, data, fuel)
               == Converged(Materialize(run.state, data), run.iterations))
  {
    DriveKeepsShape(cs, data, fuel);
  }

  /** Fuel only bounds the unbounded source loop: once a run converges, any
      larger budget gives the same centroids and the same pass count. */
  lemma MoreFuelSameResult(cs: seq<Centroid>, data: seq<Point>, f: nat, g: nat)
    requires Assignable(cs, data) && f <= g
    ensures KMeansClustering(cs, data, f).Converged? ==>
              KMeansClustering(cs, data, g) == KMeansClustering(cs, data, f)
  {
    if KMeansClustering(cs, data, f).Converged? {
      DriveMoreFuel(PassStep(data), AllConverged, cs, f, g, 0);
    }
  }

  /** A configuration that one pass leaves unchanged and that fails the check
      is never left: the source loop would spin forever, and the model runs
      out of fuel whatever the budget. */
  lemma FixedPointNeverConverges(cs: seq<Centroid>, data: seq<Point>, fuel: nat)
    requires Assignable(cs, data)
    ensures Pass(cs, data) == cs && !AllConverged(cs) ==>
              KMeansClustering(cs, data, fuel) == OutOfFuel(cs)
  {
    if Pass(cs, data) == cs && !AllConverged(cs) {
      DriveStuck(PassStep(data), AllConverged, cs, fuel, 0);
    }
  }
}
