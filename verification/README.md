# k-means clustering engine, modelled in Dafny

This project models the clustering engine of `src/main.rs` in a small Rust
k-means program. Points live in the plane. A `Centroid` carries:

- its `current` position;
- the running sums `x_sum`, `y_sum` and the count `n` of the points assigned to
  it in the current pass;
- its `previous` position;
- the `cluster` of points handed to it at the end.

`k_mean_clustering` repeats passes. One pass assigns every point to its nearest
centroid, then updates each centroid that received points to their mean.
The passes continue until every centroid's `current` is within 0.001 of its
`previous` on both axes; `previous` is the origin until the centroid first
receives a point.
Then one final read-only sweep puts every point into the cluster of its nearest
centroid, and the number of passes is returned.

Layout:

- `points.dfy` (`Points`): points over `real`, squared distance, sums and mean.
- `centroid.dfy` (`Centroids`): the centroid record and its per-pass state
  machine (`new`, `add_point`, `update_centroid`, `compare_to_previous`).
- `nearest.dfy` (`Nearest`): `min_distance` as a first-minimum scan. A reference
  predicate, `IsFirstMin`, states what the scan's answer is.
- `engine.dfy` (`Engine`): one pass, the convergence check, materialization and
  the driver. It also defines `AssignedTo`, the independent reference: the
  points nearest to a given centroid, in input order.
- `partition.dfy` (`Partition`): every point is counted once per pass and put in
  exactly one cluster.
- `loop.dfy` (`Loop`): the shape of the driver loop for any step and any
  stopping test. Fuel bounds the number of steps.
- `runs.dfy` (`Runs`): what the driver returns, stated against the plain
  sequence of passes.
- `scenarios.dfy` (`Scenarios`): runs that start from identical seeds. These are
  what the program's own random seeding produces, because it re-seeds with the
  same value for every centroid.

Modelling choices:

- **Coordinates are `real`.** The distance is the squared Euclidean distance.
  Square root is monotone, so the nearest centroid is the same either way.
- **The driver takes `fuel`.** It returns `Converged(state, passes)` or
  `OutOfFuel(state)`. The source loop has no bound, and the model does not
  claim it ends. `Scenarios.IdenticalSeedsOnOnePointNeverSettle` exhibits an
  input on which it never ends.
- **A centroid that never receives a point does not report convergence at
  once.** `update_centroid` skips it when `n == 0` (src/main.rs:52), so
  `previous` keeps the origin set at src/main.rs:29. The check at
  src/main.rs:66 then fails unless the centroid lies within 0.001 of the
  origin (`Centroids.NewConvergedIffNearOrigin`,
  `Engine.StarvedCentroidBlocksConvergence`).

## Model

| member | source | states |
|---|---|---|
| Centroids.New | src/main.rs:23-32 | A fresh centroid sits at `(x, y)`, has zero sums and count, `previous` at the origin and an empty cluster |
| Centroids.AddPoint | src/main.rs:45-49 | Adding a point raises `n` by exactly one and adds its coordinates to the sums; position, `previous` and cluster are unchanged |
| Centroids.UpdateCentroid | src/main.rs:51-60 | With `n > 0` the old position becomes `previous`, the new position is the sums divided by `n`, and the accumulators are reset; with `n == 0` nothing changes |
| Centroids.CompareToPrevious | src/main.rs:62-67 | True exactly when `current` is strictly within 0.001 of `previous` on both axes; `previous` is the origin until the centroid first receives a point |
| Centroids.AddAllAccumulates | src/main.rs:45-49 | Adding a sequence of points counts each once and adds the sums of their coordinates, touching nothing else |
| Centroids.UpdateMovesToMean | src/main.rs:51-60 | From an idle centroid, adding a non-empty sequence and updating moves the centroid to the mean of that sequence and remembers its old position |
| Centroids.UpdateIdempotent | src/main.rs:51-60 | A second update right after an update changes nothing |
| Centroids.NewConvergedIffNearOrigin | src/main.rs:62-67 | A fresh centroid passes its check exactly when it lies within 0.001 of the origin on both axes, because its `previous` starts there (line 29) |
| Centroids.StarvedUpdateKeepsVerdict | src/main.rs:51-60 | An update with no point received leaves the convergence verdict unchanged |
| Nearest.Scan | src/main.rs:87-93 | The scan loop, keeping the best index so far and replacing it only on a strictly smaller distance, ends on the first minimum |
| Nearest.MinDistance | src/main.rs:83-96 | On a non-empty centroid sequence the index is in range, no centroid is nearer, and every centroid before it is strictly farther |
| Nearest.FirstMinIsMinDistance | src/main.rs:83-96 | The returned index is the one and only first minimum: an index is a first minimum if and only if it is the returned one |
| Nearest.TieGoesToLowerIndex | src/main.rs:89-92 | Of two equally near centroids, the later one is never chosen |
| Nearest.MinDistanceOnlyReadsPositions | src/main.rs:83-96 | The choice depends only on the centroids' current positions, never on sums, counts, `previous` or clusters |
| Engine.AssignedToContents | src/main.rs:104-107 | Centroid `i` is given each point nearest to it, with its full multiplicity in the input, and no other point |
| Engine.Assign | src/main.rs:104-107 | The assignment loop moves no centroid |
| Engine.AssignCollects | src/main.rs:104-107 | After the assignment loop, each centroid has accumulated exactly its nearest points, in input order |
| Engine.AssignAccumulates | src/main.rs:104-107 | After the assignment loop each centroid's count and sums have grown by exactly its nearest points; position, `previous` and cluster are unchanged |
| Engine.UpdateAll | src/main.rs:109 | The update sweep updates every centroid and keeps their number |
| Engine.Pass | src/main.rs:104-109 | After a pass every counter is zero, every cluster is untouched, and each well-formed centroid is idle again |
| Engine.PassMovesToMeans | src/main.rs:104-109 | From idle centroids, a pass moves each centroid that received points to their mean and remembers where it was; a centroid that received none is left exactly as it was |
| Engine.AllConverged | src/main.rs:111-120 | The check succeeds exactly when every centroid passes `compare_to_previous` |
| Engine.StarvedCentroidBlocksConvergence | src/main.rs:109-120 | A centroid that gets no point and fails its check keeps the pass from being the last |
| Engine.Materialize | src/main.rs:123-126 | The final sweep moves no centroid |
| Engine.MaterializeAppends | src/main.rs:123-126 | The final sweep appends to each cluster exactly the points nearest to that centroid, in input order, and changes nothing else about the centroid |
| Engine.DriveKeepsShape | src/main.rs:101-121 | Every state the loop reaches keeps the number of centroids and their clusters, and a converged one has all counters at zero |
| Engine.SettledMaterialized | src/main.rs:118-126 | Materializing a converged state keeps every check passing and every counter at zero, and gives each centroid its nearest points |
| Engine.KMeansClustering | src/main.rs:98-129 | A converged run took between one pass and the fuel. Every centroid passes its check and has zero count, and its cluster gained exactly its nearest points in input order. A run out of fuel left every cluster untouched |
| Partition.AssignCountsEveryPoint | src/main.rs:104-107 | One assignment loop raises the total of all counts by exactly the number of points |
| Partition.PassResetsCounters | src/main.rs:104-109 | After a pass the counts of all centroids sum to zero |
| Partition.MaterializePartitions | src/main.rs:123-126 | The clusters together gain exactly the input points as a multiset, so their lengths grow by the number of points |
| Loop.Drive | src/main.rs:101-121 | A converged loop took at least one and at most `fuel` steps and stopped on a settled state |
| Loop.DriveIsFirstSettled | src/main.rs:101-121 | The loop stops at the first settled step; it runs out of fuel only when none of the first `fuel` steps is settled, and then returns the state after `fuel` steps |
| Loop.DriveMoreFuel | src/main.rs:101-121 | Once the loop has converged, any larger budget gives the same answer |
| Loop.DriveStuck | src/main.rs:101-121 | A state that one step leaves unchanged and that is not settled is never left |
| Loop.DriveKeeps | src/main.rs:101-121 | A property every step preserves holds of the final state, and a property every step establishes holds of a converged final state |
| Runs.KMeansIsFirstConvergedPass | src/main.rs:98-129 | A converged run reports the first pass count after which every centroid passes its check, and its clusters are built from the centroids of that pass |
| Runs.OutOfFuelMeansNoPassConverged | src/main.rs:101-121 | A run out of fuel had no converged pass among the first `fuel` passes, and returns the centroids after `fuel` passes |
| Runs.MoreFuelSameResult | src/main.rs:101-121 | A converged run gives the same centroids and pass count under any larger budget |
| Runs.FixedPointNeverConverges | src/main.rs:101-121 | Centroids that one pass leaves unchanged and that fail the check never converge, whatever the budget |
| Scenarios.CopyOfFirstStarves | src/main.rs:87-92 | A centroid at the same position as centroid 0 never receives a point |
| Scenarios.OnePointPass | src/main.rs:104-109 | With two idle centroids on a single point, the first takes the point and records it as `previous`; the second is left as it was |
| Scenarios.IdenticalSeedsNeedTwoPasses | src/main.rs:101-121 | With two or more identical seeds away from the origin, the first pass is never the last, so a converged run took at least two passes |
| Scenarios.IdenticalSeedsOnOnePointNeverSettle | src/main.rs:101-121 | Two identical seeds away from the origin over a single point on them: the run runs out of fuel whatever the budget |

## Left out

- `Centroid::new_random` and `generate_random_coordinates` (src/main.rs:34-39, 70-81) draw from the `rand` crate. The initial centroids and the data are parameters instead. `Scenarios` covers the identical seeds that `new_random` produces.
- `main` (src/main.rs:131-171) and `src/lib.rs`: argument echoing, cluster packing for plotting, the console report and the plot file.
- `f32` arithmetic: rounding, `powf`, `sqrt`, NaN and infinities. Coordinates are `real`, and the distance is squared.
- `min_distance`'s `f32::MAX` sentinel: centroid 0 beats it for every finite distance, so the scan starts with centroid 0 as the best candidate.
- Centroids.Distance has no contract of its own. It is the squared Euclidean distance between the centroid's position and the point, and its role is stated through `Nearest.MinDistance`.
- Centroids.AddPoint: `n` is a `nat`. The source's `u32` would overflow after 2^32 points in one pass.
- Engine.KMeansClustering: the pass count is a `nat`, where the source's `u32` would overflow after 2^32 passes.
- Engine.KMeansClustering: the unbounded source loop is cut off by `fuel`, and running out is reported as `OutOfFuel`. No termination is claimed.
- Engine.KMeansClustering: the source indexes an empty centroid slice when there are points but no centroids, and panics. The model requires at least one centroid whenever there is a point (`Assignable`). With no point and no centroid, both return after one pass.
- Engine.PassStep: the driver's step function returns its argument unchanged when there are points but no centroids. The loop never reaches that case, because every pass keeps the number of centroids.
- In-place mutation of the centroid slice: the model returns new sequences.
- Whether the within-cluster sum of squares decreases from pass to pass is not stated. It needs non-linear reasoning about means.
