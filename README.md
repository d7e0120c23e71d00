# Kinematics reachability engine, modelled in Dafny

This project models the core of MoveIt's kinematics reachability engine
(`KinematicsReachability`). The engine samples a box-shaped workspace on a
uniform grid with a set of tool orientations. It asks an inverse-kinematics
(IK) solver whether each sampled pose can be reached. A spatial kinematics
cache is built once on the first request. It supplies IK seeds, and every
solution found is fed back into it. The per-point results then become
reachability maps.

The project has six modules, in dependency order:

- `Types` holds the data model: poses, joint states and the closed
  `SolutionCode` classification. It also holds the `Workspace` report as a
  class. The caller owns that report and the engine fills it in place.
- `Sampler` has `getNumPoints` and `sampleUniform`. The four nested
  `push_back` loops are four methods, one per loop level (`AppendGrid`,
  `AppendSlab`, `AppendColumn`, `AppendCell`), each with its loop invariants. Those loops are
  specified by recursive block functions (`Orients`, `ZRun`, `YRun`,
  `XRun`), and index lemmas locate each grid point.
- `Bookkeeping` has `removeUnreachableWorkspace`, an in-place erase loop.
  It also has `getPositionIndex` and the two index filters, which are
  append loops. Each is specified against the `OnlyReachable` function or
  an explicit membership characterisation.
- `CacheBridge` has the `updateFromCache` range test and seeding. It also
  has `generateCache`'s replace, read, generate and write chain, and the
  guarded `addToCache` / `writeToFile`. The cache is a value: its group,
  its options, and the ordered log of calls the engine made on it.
- `Orchestrator` has `getDefaultIKRequest`, `findIK`, and the sequential
  pass of `findIKSolutions` as a recursive specification (`Solved`).
- `Engine` has the class `KinematicsReachability`. Its fields are
  `first_time_`, `use_cache_`, the cache handle (`None` models the null
  pointer), the tool offset and its inverse, and a count of random draws.
  Its methods are `computeWorkspace`, `getOnlyReachableWorkspace`,
  `findIKSolutions`, `generateCache`, `setToolFrameOffset` and
  `computeRedundantSolutions`. Each method's new state is tied to a
  value-level function (`Latched`, `Searched`, `Computed`,
  `RedundantPoints`), and lemmas about those functions state what the
  engine promises.

Everything the engine calls but does not implement is a function-valued
parameter (`Collaborators`, `CacheBackend`), with no assumptions other
than those listed under "## Left out" (the solver answers with one of three
codes, and `getSolution` either fills the seed or leaves it):

- the IK service;
- tf's transform composition and inverse, quaternion angle and vector length;
- the kinematic model (tip link, joint names, the groups that have a solver);
- the random joint values, which are keyed by group and draw number;
- the cache's own answers: the squared-distance envelope, `getSolution`, and
  whether reading, generating and writing succeed.

Points of the code worth noting:

- Axis counts are `trunc(|max - min| / res) + 1` (truncation plus one).
- The coverage test in `updateFromCache` measures the squared distance from
  the frame origin. The cache's own origin option plays no part in it.
- A target outside the cache's coverage is classified PLANNING_FAILED, and
  the solver is not called for it.
- The first-call latch fires once per engine. A later request for another
  group reuses the first cache (`LatchFiresOnce`).
- The result of `getSolution` is ignored. The model assumes that a
  `getSolution` with no configuration for the pose leaves the random seed
  in the request. `getSolution` is not part of this model (see the
  `CacheBridge.UpdateFromCache` line under "## Left out").
- A failed cache build does not always leave the engine usable without a
  cache. See Findings.

## Model

| member | source | states |
|---|---|---|
| Sampler.AxisCount | moveit_ros/kinematics_reachability/src/kinematics_reachability.cpp:474-489 | the count along an axis is at least 1, and (n-1)·res ≤ \|lo-hi\| < n·res, i.e. trunc(\|lo-hi\|/res)+1 |
| Sampler.AppendGrid | moveit_ros/kinematics_reachability/src/kinematics_reachability.cpp:513-527 | the four nested loops append exactly the grid's sample sequence to the points already there |
| Sampler.AppendSlab | moveit_ros/kinematics_reachability/src/kinematics_reachability.cpp:515-529 | the y loop for x-step i appends exactly that slab's samples |
| Sampler.AppendColumn | moveit_ros/kinematics_reachability/src/kinematics_reachability.cpp:518-529 | the z loop for x-step i and y-step j appends exactly that column's samples |
| Sampler.AppendCell | moveit_ros/kinematics_reachability/src/kinematics_reachability.cpp:521-528 | the orientation loop at one grid position appends one point per orientation, in order, at that position |
| Sampler.SampleUniform | moveit_ros/kinematics_reachability/src/kinematics_reachability.cpp:493-534 | fails iff there are no orientations, and then changes nothing; otherwise sets `ordered` and appends the grid samples without clearing |
| Sampler.SampleAt | moveit_ros/kinematics_reachability/src/kinematics_reachability.cpp:513-527 | the sample at row-major index ((i·ny+j)·nz+k)·nr+m has position (xmin+i·res, ymin+j·res, zmin+k·res), orientation m, and no classification |
| Sampler.SamplesLayout | moveit_ros/kinematics_reachability/src/kinematics_reachability.cpp:513-527 | the sample sequence has nx·ny·nz·nr points, and every grid cell and orientation is at its row-major index |
| Sampler.SampleUniformLayout | moveit_ros/kinematics_reachability/src/kinematics_reachability.cpp:493-534 | sampling grows the list by exactly nx·ny·nz·nr, keeps the old prefix, and places each grid point at old length + its row-major index |
| Sampler.DegenerateBoxGivesOnePoint | moveit_ros/kinematics_reachability/src/kinematics_reachability.cpp:474-489 | a zero-extent box at resolution 0.1 with one orientation gives exactly one sample, at the origin |
| Sampler.UnitExtentHalfResolution | moveit_ros/kinematics_reachability/src/kinematics_reachability.cpp:493-534 | a 1 m extent at 0.5 m resolution gives three samples, at 0, 0.5 and 1.0 |
| Bookkeeping.OnlyReachableAppend | moveit_ros/kinematics_reachability/src/kinematics_reachability.cpp:428-445 | compaction distributes over concatenation |
| Bookkeeping.OnlyReachableMembers | moveit_ros/kinematics_reachability/src/kinematics_reachability.cpp:428-445 | compaction never grows the list; a point survives iff it was present and is SUCCESS |
| Bookkeeping.OnlyReachableOfReachable | moveit_ros/kinematics_reachability/src/kinematics_reachability.cpp:428-445 | a list of SUCCESS points is left unchanged |
| Bookkeeping.OnlyReachableIdempotent | moveit_ros/kinematics_reachability/src/kinematics_reachability.cpp:428-445 | compacting twice equals compacting once |
| Bookkeeping.OnlyReachablePosition | moveit_ros/kinematics_reachability/src/kinematics_reachability.cpp:428-445 | order is kept: a SUCCESS point lands right after the survivors that preceded it |
| Bookkeeping.RemoveUnreachableWorkspace | moveit_ros/kinematics_reachability/src/kinematics_reachability.cpp:428-445 | the in-place erase loop leaves exactly the SUCCESS points of the input, in their order |
| Bookkeeping.GetPositionIndex | moveit_ros/kinematics_reachability/src/kinematics_reachability.cpp:412-426 | over the grid count N (requires at least N points), the given lists are extended by increasing indices below N; index t goes to the reachable list iff its code is SUCCESS and to the unreachable list otherwise, so together they cover 0..N-1 without overlap |
| Bookkeeping.DisplayGuardAdmitsShortList | moveit_ros/kinematics_reachability/src/kinematics_reachability.cpp:689-696 | a compacted workspace with one of its two grid points left passes getDisplayTrajectory's non-empty check but is shorter than the grid getPositionIndex scans |
| Bookkeeping.DisplayIndices | moveit_ros/kinematics_reachability/src/kinematics_reachability.cpp:689-696 | with the guard that the list is non-empty and covers the grid, the reachable indices are increasing, below the grid count, and exactly the SUCCESS points of the grid, even when the list is longer than the grid; without it, nothing is indexed |
| Bookkeeping.GetPointsAtOrientation | moveit_ros/kinematics_reachability/src/kinematics_reachability.cpp:447-457 | the result is increasing, in range, and holds t iff point t's orientation is within 0.001 rad of the given one |
| Bookkeeping.GetPointsWithinRange | moveit_ros/kinematics_reachability/src/kinematics_reachability.cpp:459-472 | the result is increasing, in range, and holds t iff min ≤ \|position t\| ≤ max |
| Bookkeeping.IncreasingUnique | moveit_ros/kinematics_reachability/src/kinematics_reachability.cpp:447-472 | two increasing index lists with the same members are equal, so the filters' results are determined by their membership laws |
| Bookkeeping.ToleranceScenario | moveit_ros/kinematics_reachability/src/kinematics_reachability.cpp:392-401 | an angle of 0.0005 counts as equal and 0.01 does not |
| CacheBridge.UpdateFromCache | moveit_ros/kinematics_reachability/src/kinematics_reachability.cpp:339-351 | accepts iff x²+y²+z² < the cache's max²; on rejection the request is unchanged; on acceptance only the seed's joint values can change: to the cache's solution for the pose when it has one, otherwise they stay as they were |
| CacheBridge.BoundaryIsRejected | moveit_ros/kinematics_reachability/src/kinematics_reachability.cpp:342-346 | a target exactly at max² is rejected |
| CacheBridge.CoverageScenario | moveit_ros/kinematics_reachability/src/kinematics_reachability.cpp:339-351 | with max² = 4.0, a target at 2.1 m gets no seed and one at 1.5 m is seeded |
| CacheBridge.AddSolution | moveit_ros/kinematics_reachability/src/kinematics_reachability.cpp:267 | with a cache, records exactly one addToCache (overwrite on) with the pose and the joint values; with none, does nothing |
| CacheBridge.SaveCache | moveit_ros/kinematics_reachability/src/kinematics_reachability.cpp:283-286 | with a cache, records exactly one writeToFile; with none, does nothing |
| CacheBridge.SaveCacheAsWritten | moveit_ros/kinematics_reachability/src/kinematics_reachability.cpp:283-286 | the write as written, through the handle with no null check; it needs a cache |
| CacheBridge.CacheToBuild | moveit_ros/kinematics_reachability/src/kinematics_reachability.cpp:358-371 | the current cache is kept iff it exists and was built for the group; otherwise a new cache for the group is initialised with the options |
| CacheBridge.BuildCache | moveit_ros/kinematics_reachability/src/kinematics_reachability.cpp:353-386 | an unknown group that needs a new cache fails with the cache untouched; otherwise the chain runs on the cache to build; success means a cache for the group exists; a cache never disappears |
| CacheBridge.BuildChain | moveit_ros/kinematics_reachability/src/kinematics_reachability.cpp:372-385 | read first; generate only if the read failed; write only if generation succeeded; success iff the read succeeded, or generation and writing both did; the exact call log |
| Orchestrator.FindIK | moveit_ros/kinematics_reachability/src/kinematics_reachability.cpp:289-314 | the solver is skipped iff the cache is in use and rejects the target, and then the code is PLANNING_FAILED and the state is untouched; otherwise code and state are the solver's, for a request with the tool-compensated target, the tip link, a 5 s timeout, and the cache's seed when the cache is in use and has one for the pose, otherwise the random seed |
| Orchestrator.DefaultIKRequest | moveit_ros/kinematics_reachability/src/kinematics_reachability.cpp:317-333 | the default request names the group's tip link and joints, takes the joint values of one random draw, and has a 5 s timeout |
| Orchestrator.SolveStep | moveit_ros/kinematics_reachability/src/kinematics_reachability.cpp:254-272 | one iteration keeps the number of points and point i's pose, gives point i a final code, and never creates or drops the cache; StepOther, StepPoint and StepCacheCalls state the rest |
| Orchestrator.Solved | moveit_ros/kinematics_reachability/src/kinematics_reachability.cpp:252-281 | the pass keeps the number of points and whether a cache exists |
| Orchestrator.StepOther | moveit_ros/kinematics_reachability/src/kinematics_reachability.cpp:252-272 | iteration i leaves every other point as it was |
| Orchestrator.StepPoint | moveit_ros/kinematics_reachability/src/kinematics_reachability.cpp:260-266 | iteration i gives point i findIK's code, and findIK's solution only on SUCCESS |
| Orchestrator.SolvedBefore | moveit_ros/kinematics_reachability/src/kinematics_reachability.cpp:252-281 | the first n iterations leave every point from n on untouched |
| Orchestrator.SolvedAfter | moveit_ros/kinematics_reachability/src/kinematics_reachability.cpp:252-281 | after iteration i has run, later iterations leave point i alone |
| Orchestrator.SolvedPoint | moveit_ros/kinematics_reachability/src/kinematics_reachability.cpp:252-270 | point i is untouched before iteration i; afterwards it keeps its pose, carries findIK's code from iteration i (against the cache of that moment), and gets a new robot state only on SUCCESS |
| Orchestrator.SolvedIsFinal | moveit_ros/kinematics_reachability/src/kinematics_reachability.cpp:252-281 | after the pass every point is SUCCESS, NO_IK_SOLUTION or PLANNING_FAILED, and its pose is unchanged |
| Orchestrator.StepCacheCalls | moveit_ros/kinematics_reachability/src/kinematics_reachability.cpp:260-268 | one iteration keeps the earlier points, the pose, the cache's existence, group and options, and appends to the cache log exactly one addToCache with the point's pose and joint values when the point is SUCCESS |
| Orchestrator.CallsAfterStep | moveit_ros/kinematics_reachability/src/kinematics_reachability.cpp:263-268 | the log invariant "initial calls plus AddCalls of the points done" carries over one iteration |
| Orchestrator.SolvedCacheCalls | moveit_ros/kinematics_reachability/src/kinematics_reachability.cpp:263-268 | during the pass the cache receives exactly one addToCache per SUCCESS point, in point order, with the pose and the solution's joint values, and nothing else |
| Engine.Latched | moveit_ros/kinematics_reachability/src/kinematics_reachability.cpp:133-138 | the latch is off afterwards; it changes nothing if it was already off; on the first call the cache is what generateCache leaves, and the cache is in use afterwards iff it was before or generateCache succeeded; a cache newly put into use exists and belongs to the requested group |
| Engine.Searched | moveit_ros/kinematics_reachability/src/kinematics_reachability.cpp:249-287 | findIKSolutions keeps the number of points, uses one random draw per point, changes only the cache among the engine's fields, and keeps a cache in use present |
| Engine.Computed | moveit_ros/kinematics_reachability/src/kinematics_reachability.cpp:130-148 | succeeds iff there are orientations; sets the tool offset in both cases; on failure leaves points and ordering alone; on success the list grows by the grid size, `ordered` is set and every point is queried |
| Engine.ComputedClassifiesGrid | moveit_ros/kinematics_reachability/src/kinematics_reachability.cpp:130-148 | after a successful computeWorkspace every point, old or new, has a final code and its pose; grid cell (i,j,k) with orientation m sits at old length + its row-major index |
| Engine.ComputedCacheLog | moveit_ros/kinematics_reachability/src/kinematics_reachability.cpp:130-148 | after the latch, the computation adds exactly the addToCache calls of the SUCCESS points, then one writeToFile, and nothing else |
| Engine.LatchFiresOnce | moveit_ros/kinematics_reachability/src/kinematics_reachability.cpp:133-138 | once the latch is off, computeWorkspace for any group neither rebuilds the cache nor changes whether it is in use |
| Engine.UnknownFirstGroupWritesWithoutCache | moveit_ros/kinematics_reachability/src/kinematics_reachability.cpp:283-286 | a first request for a group without a solver leaves no cache, sampling succeeds, and the pass reaches writeToFile with no cache |
| Engine.UnknownFirstGroupHasNoCache | moveit_ros/kinematics_reachability/src/kinematics_reachability.cpp:130-148 | with the guarded cache calls, that request completes, classifies every point, and leaves no cache in use |
| Engine.RedundantPoint | moveit_ros/kinematics_reachability/src/kinematics_reachability.cpp:225-241 | with the cache off the solver is always called with a random seed; the point has the target pose and the solver's code, and the solution only on SUCCESS |
| Engine.RedundantPoints | moveit_ros/kinematics_reachability/src/kinematics_reachability.cpp:222-242 | n iterations give n points |
| Engine.RedundantPointsAt | moveit_ros/kinematics_reachability/src/kinematics_reachability.cpp:222-242 | point t is the t-th independent solver call, made with the t-th random seed |
| Engine.KinematicsReachability.constructor | moveit_ros/kinematics_reachability/src/kinematics_reachability.cpp:47-106 | after initialize, the offsets are the identity, there is no cache, the cache is not in use and the latch is armed |
| Engine.KinematicsReachability.SetToolFrameOffset | moveit_ros/kinematics_reachability/src/kinematics_reachability.cpp:536-540 | stores the offset and its inverse |
| Engine.KinematicsReachability.GenerateCache | moveit_ros/kinematics_reachability/src/kinematics_reachability.cpp:353-386 | the step-by-step method leaves exactly the outcome and cache of BuildCache |
| Engine.KinematicsReachability.FindIKSolutions | moveit_ros/kinematics_reachability/src/kinematics_reachability.cpp:249-287 | the loop leaves the points and engine state of Searched and keeps a cache in use present |
| Engine.KinematicsReachability.SolvePoints | moveit_ros/kinematics_reachability/src/kinematics_reachability.cpp:252-281 | the loop leaves the points and the cache of Solved over all points, with one random draw per point |
| Engine.KinematicsReachability.SolvePoint | moveit_ros/kinematics_reachability/src/kinematics_reachability.cpp:254-280 | one iteration leaves the points and the cache of SolveStep and uses one random draw |
| Engine.KinematicsReachability.ComputeWorkspace | moveit_ros/kinematics_reachability/src/kinematics_reachability.cpp:130-148 | the result, engine state, points and ordering are those of Computed |
| Engine.KinematicsReachability.LatchCache | moveit_ros/kinematics_reachability/src/kinematics_reachability.cpp:133-138 | the first-call block leaves the engine state Latched describes |
| Engine.KinematicsReachability.GetOnlyReachableWorkspace | moveit_ros/kinematics_reachability/src/kinematics_reachability.cpp:197-204 | computeWorkspace, then on success only the SUCCESS points remain, in order |
| Engine.KinematicsReachability.ComputeRedundantSolutions | moveit_ros/kinematics_reachability/src/kinematics_reachability.cpp:211-246 | returns a new workspace for the group in the target's frame holding RedundantPoints, with an empty box, zero resolution, no orientations, `ordered` unset and an all-zero tool offset; the cache flag is restored, the cache is unchanged, and the engine's tool offset is left at that all-zero pose |
| Engine.KinematicsReachability.CollectRedundant | moveit_ros/kinematics_reachability/src/kinematics_reachability.cpp:222-242 | with the cache off, the loop appends exactly RedundantPoints and uses one random draw per iteration |
| Engine.KinematicsReachability.CollectWithoutCache | moveit_ros/kinematics_reachability/src/kinematics_reachability.cpp:221-244 | the loop runs with the cache off and collects RedundantPoints; afterwards the engine state is the old one except for the draws used, so the cache flag is restored |

## Left out

- ROS parameter loading, the publishers, the wait for the solver service and `initializeColor` are not modelled. The constructor takes the cache parameters as arguments. Their parameter-server defaults (lines 66-85) are not modelled. The failure paths of `initialize` (the solver fails to start, no `cache_filename`) are not modelled.
- The marker, trajectory and animation code is not modelled, and neither is the `visualize` flag. They only produce display output. The exception is the index split in `getDisplayTrajectory`, which is modelled (`DisplayIndices`) because of the defect under Findings. The trajectory it builds is not modelled.
- Orchestrator.DefaultIKRequest: the kinematic model is assumed to know every group name it is given. `getJointModelGroup` is used without a null check (lines 326-330), so a name unknown to the model dereferences a null group in `findIK` and `computeRedundantSolutions`. The model does not represent that case.
- CacheBridge.UpdateFromCache: `getSolution` either fills the seed or leaves it as it was (the backend's `None`). A `getSolution` that fails after partly overwriting the seed is not modelled.
- `computeWorkspaceFK` is not modelled. It is a wall-clock loop over random configurations, forward kinematics and validity checks, all of which are foreign.
- Engine.KinematicsReachability.ComputeRedundantSolutions: the wall-clock loop bound and `ros::ok()` become a given number of iterations.
- tf's numerics are uninterpreted functions: quaternion `angleShortestPath`, vector length, pose composition and inverse. As a result, the round trip between a tool offset and its inverse is not stated.
- Floating-point arithmetic is modelled with exact reals. This affects grid coordinates, the axis division and squared distances.
- The unsigned 32-bit counters and casts are unbounded naturals. A grid with more than 2³² points, or a count that overflows the cast, is not modelled.
- Sampler.SampleUniform: a resolution ≤ 0 is a precondition. The code does not check it, and dividing by it gives counts that C++ leaves undefined.
- Sampler.AxisCount: a resolution > 0 is a precondition for the same division (lines 484-486). The same holds for `Sampler.GridOf`, which applies it to each axis.
- Engine.Computed: the same `resolution > 0` precondition, because it samples the grid. The lemmas about it (`ComputedClassifiesGrid`, `ComputedCacheLog`, `LatchFiresOnce`, `UnknownFirstGroupWritesWithoutCache`, `UnknownFirstGroupHasNoCache`) carry it too.
- Bookkeeping.GetPositionIndex: the same `resolution > 0` precondition, because it recomputes the grid count through `getNumPoints` (lines 484-486).
- Bookkeeping.DisplayIndices: the same `resolution > 0` precondition, for the same division.
- Engine.KinematicsReachability.ComputeWorkspace: the same `resolution > 0` precondition, because it samples through `sampleUniform`.
- Engine.KinematicsReachability.GetOnlyReachableWorkspace: the same `resolution > 0` precondition, through `computeWorkspace`.
- The internals of the cache are foreign. Its answers are functions of its call log: the grid storage, the per-cell cap, the file format, and what `getSolution` returns for a pose.
- The IK solver's other error codes are not modelled. The model only distinguishes SUCCESS, NO_IK_SOLUTION and PLANNING_FAILED.
- The random seed of `getDefaultIKRequest` comes from a function of the group and the engine's draw counter, not from a random number generator.
- `publishWorkspace` is not modelled, because it is I/O.
- `isEqual` is not a member of its own: it is the predicate `IsEqual`, defined over the angle function.

## Findings

| source | as written | input that shows it | evidently intended | confidence | as-written member | corrected member |
|---|---|---|---|---|---|---|
| moveit_ros/kinematics_reachability/src/kinematics_reachability.cpp:283 | `findIKSolutions` calls `writeToFile` (and, for a SUCCESS point, `addToCache` at line 267) through the cache handle without checking that a cache exists | the first `computeWorkspace` names a group without a kinematics solver and has at least one orientation. `generateCache` returns false at line 364 before any cache is created, the latch clears, sampling succeeds, and the pass dereferences the null handle | proceed without a cache: skip the cache calls when there is none | not executed | CacheBridge.SaveCacheAsWritten, Engine.UnknownFirstGroupWritesWithoutCache | CacheBridge.SaveCache, CacheBridge.AddSolution, Engine.UnknownFirstGroupHasNoCache |
| moveit_ros/kinematics_reachability/src/kinematics_reachability.cpp:692 | `getDisplayTrajectory` checks only that the list is non-empty before `getPositionIndex`, which reads every index of the full grid (line 421) | `getOnlyReachableWorkspace` on a zero-extent box with two orientations where only the first is reachable leaves one point, while `getPositionIndex` reads index 1 | check that the list covers the whole grid (or scan only the points present) | not executed | Bookkeeping.DisplayGuardAsWritten, Bookkeeping.DisplayGuardAdmitsShortList | Bookkeeping.DisplayIndices |
