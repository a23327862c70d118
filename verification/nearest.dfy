/**
  Nearest-centroid selection. The scan keeps the best index seen so far and
  replaces it only on a strictly smaller distance, so among equally near
  centroids the one with the lowest index wins.
 */
module Nearest {
  import opened Points
  import opened Centroids

  /** `k` is the first index of minimum distance from `p`: no centroid is
      nearer, and every centroid before `k` is strictly farther. */
  predicate IsFirstMin(cs: seq<Centroid>, p: Point, k: nat)
  {
    && k < |cs|
    && (forall j :: 0 <= j < |cs| ==> Distance(cs[k], p) <= Distance(cs[j], p))
    && (forall j :: 0 <= j < k ==> Distance(cs[j], p) > Distance(cs[k], p))
  }

  /** The scan from index `i` on, with `best` the winner among `cs[..i]`. */
  function Scan(cs: seq<Centroid>, p: Point, i: nat, best: nat): (r: nat)
    requires best < i <= |cs|
    requires forall j :: 0 <= j < i ==> Distance(cs[best], p) <= Distance(cs[j], p)
    requires forall j :: 0 <= j < best ==> Distance(cs[j], p) > Distance(cs[best], p)
    ensures IsFirstMin(cs, p, r)
    decreases |cs| - i
  {
    if i == |cs| then best
    else if Distance(cs[i], p) < Distance(cs[best], p) then Scan(cs, p, i + 1, i)
    else Scan(cs, p, i + 1, best)
  }

  /** The index of the centroid nearest to `p`, ties going to the lowest
      index. Centroid 0 always beats the initial sentinel, so the scan starts
      with it as the best candidate. */
  function MinDistance(cs: seq<Centroid>, p: Point): (r: nat)
    requires |cs| > 0
    ensures r < |cs|
    ensures forall j :: 0 <= j < |cs| ==> Distance(cs[r], p) <= Distance(cs[j], p)
    ensures forall j :: 0 <= j < r ==> Distance(cs[j], p) > Distance(cs[r], p)
  {
    Scan(cs, p, 1, 0)
  }

  /** The first minimum is unique, so `MinDistance` is exactly the index that
      satisfies `IsFirstMin`. */
  lemma FirstMinIsMinDistance(cs: seq<Centroid>, p: Point, k: nat)
    requires |cs| > 0
    ensures IsFirstMin(cs, p, k) <==> k == MinDistance(cs, p)
  {
  }

  /** Of two equally near centroids, the later one is never chosen. */
  lemma TieGoesToLowerIndex(cs: seq<Centroid>, p: Point, i: nat, j: nat)
    requires i < j < |cs|
    requires Distance(cs[i], p) == Distance(cs[j], p)
    ensures MinDistance(cs, p) != j
  {
  }

  /** Two centroid sequences with the same positions, index by index. */
  predicate SamePositions(a: seq<Centroid>, b: seq<Centroid>)
  {
    |a| == |b| && forall i :: 0 <= i < |a| ==> a[i].current == b[i].current
  }

  /** The choice depends only on the centroids' `current` positions: sums,
      counts, `previous` and clusters play no part. */
  lemma MinDistanceOnlyReadsPositions(a: seq<Centroid>, b: seq<Centroid>, p: Point)
    requires |a| > 0 && SamePositions(a, b)
    ensures MinDistance(a, p) == MinDistance(b, p)
  {
    var k := MinDistance(a, p);
    assert forall j :: 0 <= j < |a| ==> Distance(a[j], p) == Distance(b[j], p);
    assert IsFirstMin(b, p, k);
    FirstMinIsMinDistance(b, p, k);
  }
}
