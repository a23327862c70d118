/**
  Completeness of the assignment: one pass counts every point exactly once,
  and materialization hands every point to exactly one cluster.
 */
module Partition {
  import opened Points
  import opened Centroids
  import opened Nearest
  import opened Engine

  /** Total of the per-centroid counters. */
  function TotalCount(cs: seq<Centroid>): nat
  {
    if cs == [] then 0 else cs[0].n + TotalCount(cs[1..])
  }

  /** Total number of points held in clusters. */
  function TotalClusterSize(cs: seq<Centroid>): nat
  {
    if cs == [] then 0 else |cs[0].cluster| + TotalClusterSize(cs[1..])
  }

  /** All cluster contents together, as a multiset. */
  function ClusterBag(cs: seq<Centroid>): multiset<Point>
  {
    if cs == [] then multiset{} else multiset(cs[0].cluster) + ClusterBag(cs[1..])
  }

  lemma {:induction false} TotalCountReplace(cs: seq<Centroid>, k: nat, c: Centroid)
    requires k < |cs|
    ensures TotalCount(cs[k := c]) + cs[k].n == TotalCount(cs) + c.n
    decreases |cs|
  {
    if k == 0 {
      assert cs[k := c][1..] == cs[1..];
    } else {
      assert cs[k := c][1..] == cs[1..][k - 1 := c];
      TotalCountReplace(cs[1..], k - 1, c);
    }
  }

  /** Appending `extra` to one cluster adds exactly `extra` to the bag. */
  lemma {:induction false} ClusterBagAppend(cs: seq<Centroid>, k: nat, extra: seq<Point>)
    requires k < |cs|
    ensures ClusterBag(cs[k := cs[k].(cluster := cs[k].cluster + extra)])
         == ClusterBag(cs) + multiset(extra)
    decreases |cs|
  {
    var c := cs[k].(cluster := cs[k].cluster + extra);
    if k == 0 {
      assert cs[k := c][1..] == cs[1..];
    } else {
      assert cs[k := c][1..] == cs[1..][k - 1 := c];
      assert cs[k := c][0] == cs[0] && cs[1..][k - 1] == cs[k];
      ClusterBagAppend(cs[1..], k - 1, extra);
    }
  }

  lemma {:induction false} ClusterBagSize(cs: seq<Centroid>)
    ensures |ClusterBag(cs)| == TotalClusterSize(cs)
    decreases |cs|
  {
    if cs != [] {
      ClusterBagSize(cs[1..]);
    }
  }

  /** Across all centroids, one assignment pass adds exactly `|data|` to the
      counters: every point is counted once. */
  lemma {:induction false} AssignCountsEveryPoint(cs: seq<Centroid>, data: seq<Point>)
    requires Assignable(cs, data)
    ensures TotalCount(Assign(cs, data)) == TotalCount(cs) + |data|
    decreases |data|
  {
    if data != [] {
      var p := data[0];
      var k := MinDistance(cs, p);
      var next := cs[k := AddPoint(cs[k], p.x, p.y)];
      TotalCountReplace(cs, k, AddPoint(cs[k], p.x, p.y));
      AssignCountsEveryPoint(next, data[1..]);
    }
  }

  /** The counters are all zero after a pass: the accumulators never carry
      over into the next pass. */
  lemma PassResetsCounters(cs: seq<Centroid>, data: seq<Point>)
    requires Assignable(cs, data)
    ensures TotalCount(Pass(cs, data)) == 0
  {
    var r := Pass(cs, data);
    assert forall i :: 0 <= i < |r| ==> r[i].n == 0;
    AllZeroTotal(r);
  }

  lemma {:induction false} AllZeroTotal(cs: seq<Centroid>)
    requires forall i :: 0 <= i < |cs| ==> cs[i].n == 0
    ensures TotalCount(cs) == 0
    decreases |cs|
  {
    if cs != [] {
      AllZeroTotal(cs[1..]);
    }
  }

  /** Materialization hands out the input exactly once: the clusters gain,
      between them, precisely the multiset of input points, so their lengths
      grow by `|data|` in total. */
  lemma MaterializePartitions(cs: seq<Centroid>, data: seq<Point>)
    requires Assignable(cs, data)
    ensures ClusterBag(Materialize(cs, data)) == ClusterBag(cs) + multiset(data)
    ensures TotalClusterSize(Materialize(cs, data)) == TotalClusterSize(cs) + |data|
  {
    MaterializeBag(cs, data);
    ClusterBagSize(cs);
    ClusterBagSize(Materialize(cs, data));
  }

  lemma MaterializeUnfold(cs: seq<Centroid>, data: seq<Point>)
    requires Assignable(cs, data) && data != []
    ensures var k := MinDistance(cs, data[0]);
      Materialize(cs, data)
      == Materialize(cs[k := cs[k].(cluster := cs[k].cluster + [data[0]])], data[1..])
  {
  }

  lemma {:induction false} MaterializeBag(cs: seq<Centroid>, data: seq<Point>)
    requires Assignable(cs, data)
    ensures ClusterBag(Materialize(cs, data)) == ClusterBag(cs) + multiset(data)
    decreases |data|
  {
    if data != [] {
      var p := data[0];
      var k := MinDistance(cs, p);
      var c := cs[k].(cluster := cs[k].cluster + [p]);
      var next := cs[k := c];
      MaterializeUnfold(cs, data);
      ClusterBagAppend(cs, k, [p]);
      MaterializeBag(next, data[1..]);
      assert multiset(data) == multiset{p} + multiset(data[1..]) by {
        assert data == [p] + data[1..];
      }
    }
  }
}
