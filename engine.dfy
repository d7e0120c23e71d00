/** The reachability engine (KinematicsReachability): the one-time cache
    latch, computeWorkspace, getOnlyReachableWorkspace, findIKSolutions and
    computeRedundantSolutions, with the engine's mutable state as fields of
    a class and the value-level specification of each public operation. */
module Engine {
  import opened Types
  import opened Sampler
  import opened Bookkeeping
  import opened CacheBridge
  import opened Orchestrator

  /** What initialize fixes for the engine's lifetime. */
  datatype Config = Config(fx: Collaborators, cacheFilename: string, cacheTimeout: real,
                           cacheOptions: CacheOptions)

  /** The engine's mutable state: the first-call latch, the cache flag, the
      cache handle (None is the null pointer), the tool offset and its
      inverse, and the number of random configurations drawn so far. */
  datatype EngineState = EngineState(firstTime: bool, useCache: bool, cache: Option<Cache>,
                                     toolOffset: Pose, toolOffsetInverse: Pose, draws: nat)
  {
    /** The cache is only in use when there is one. */
    predicate Consistent() {
      useCache ==> cache.Some?
    }
  }

  /** The first-call latch of computeWorkspace: on the first call only,
      generateCache runs for the workspace's group and, if it succeeds, the
      cache is put into use; the latch then never fires again. */
  function Latched(c: Config, e: EngineState, group: string): (r: EngineState)
    ensures !r.firstTime
    ensures !e.firstTime ==> r == e
    ensures e.Consistent() ==> r.Consistent()
    ensures r.useCache && !e.useCache ==> r.cache.Some? && r.cache.value.group == group
    ensures e.firstTime ==>
              var b := BuildCache(e.cache, group, c.cacheTimeout, c.cacheOptions, c.cacheFilename,
                                  c.fx.solverGroups, c.fx.cache);
              r.useCache == (e.useCache || b.ok) && r.cache == b.cache
    ensures r.toolOffset == e.toolOffset && r.toolOffsetInverse == e.toolOffsetInverse && r.draws == e.draws
  {
    if !e.firstTime then e
    else
      var b := BuildCache(e.cache, group, c.cacheTimeout, c.cacheOptions, c.cacheFilename,
                          c.fx.solverGroups, c.fx.cache);
      e.(firstTime := false, useCache := e.useCache || b.ok, cache := b.cache)
  }

  /** The findIKSolutions pass seen from the engine: its query settings. */
  function PassQuery(c: Config, e: EngineState, group: string, frame: string): Query {
    Query(c.fx, e.useCache, e.toolOffsetInverse, group, frame, e.draws)
  }

  /** findIKSolutions: the pass over all points, then writeToFile. It
      consumes one random draw per point and changes nothing else of the
      engine besides the cache. */
  function Searched(c: Config, e: EngineState, group: string, frame: string,
                    points: seq<WorkspacePoint>): (r: (EngineState, seq<WorkspacePoint>))
    requires e.Consistent()
    ensures |r.1| == |points|
    ensures r.0 == e.(cache := r.0.cache, draws := e.draws + |points|)
    ensures r.0.Consistent() && (r.0.cache.Some? <==> e.cache.Some?)
  {
    var p := Solved(PassQuery(c, e, group, frame), Pass(points, e.cache), |points|);
    (e.(cache := SaveCache(p.cache, c.cacheFilename), draws := e.draws + |points|), p.points)
  }

  /** What computeWorkspace leaves behind. */
  datatype Run = Run(ok: bool, engine: EngineState, points: seq<WorkspacePoint>, ordered: bool)

  /** computeWorkspace on the fields of a workspace: the latch, the tool
      offset, the uniform sampling (appended to the points already there)
      and the findIKSolutions pass over all points. */
  function Computed(c: Config, e: EngineState, group: string, frame: string, box: BoundingBox,
                    resolution: real, orientations: seq<Quaternion>, toolFrameOffset: Pose,
                    ordered: bool, points: seq<WorkspacePoint>): (r: Run)
    requires resolution > 0.0 && e.Consistent()
    ensures r.ok <==> orientations != []
    ensures !r.engine.firstTime && r.engine.Consistent()
    ensures r.engine.toolOffset == toolFrameOffset
    ensures r.engine.toolOffsetInverse == c.fx.inverse(toolFrameOffset)
    ensures !r.ok ==> r.points == points && r.ordered == ordered && r.engine.draws == e.draws
    ensures r.ok ==> r.ordered
    ensures r.ok ==> |r.points| == |points| + GridSize(GridOf(box, resolution, orientations))
    ensures r.ok ==> r.engine.draws == e.draws + |r.points|
  {
    var latched := Latched(c, e, group);
    var offset := latched.(toolOffset := toolFrameOffset, toolOffsetInverse := c.fx.inverse(toolFrameOffset));
    if orientations == [] then Run(false, offset, points, ordered)
    else
      var sampled := points + Samples(GridOf(box, resolution, orientations));
      SamplesLayout(GridOf(box, resolution, orientations));
      var searched := Searched(c, offset, group, frame, sampled);
      Run(true, searched.0, searched.1, true)
  }

  /** After a successful computeWorkspace every point, old or sampled, is
      classified SUCCESS, NO_IK_SOLUTION or PLANNING_FAILED with its pose
      kept, and the sampled point of grid cell (i, j, k) and orientation m
      sits at the row-major index of that cell after the old points. */
  lemma ComputedClassifiesGrid(c: Config, e: EngineState, group: string, frame: string, box: BoundingBox,
                               resolution: real, orientations: seq<Quaternion>, toolFrameOffset: Pose,
                               ordered: bool, points: seq<WorkspacePoint>)
    requires resolution > 0.0 && e.Consistent() && orientations != []
    ensures var r := Computed(c, e, group, frame, box, resolution, orientations, toolFrameOffset, ordered, points);
            && (forall t :: 0 <= t < |points| ==> r.points[t].code.IsFinal() && r.points[t].pose == points[t].pose)
            && (forall t :: |points| <= t < |r.points| ==> r.points[t].code.IsFinal())
    ensures var r := Computed(c, e, group, frame, box, resolution, orientations, toolFrameOffset, ordered, points);
            var g := GridOf(box, resolution, orientations);
            forall i: nat, j: nat, k: nat, m: nat
              | i < g.nx && j < g.ny && k < g.nz && m < |g.orientations|
              :: |points| + GridIndex(g, i, j, k, m) < |r.points|
                 && r.points[|points| + GridIndex(g, i, j, k, m)].pose == PoseAt(g, i, j, k, m)
  {
    var g := GridOf(box, resolution, orientations);
    var latched := Latched(c, e, group);
    var offset := latched.(toolOffset := toolFrameOffset, toolOffsetInverse := c.fx.inverse(toolFrameOffset));
    var sampled := points + Samples(g);
    var q := PassQuery(c, offset, group, frame);
    SamplesLayout(g);
    SolvedIsFinal(q, Pass(sampled, offset.cache));
    var r := Computed(c, e, group, frame, box, resolution, orientations, toolFrameOffset, ordered, points);
    assert r.points == Solved(q, Pass(sampled, offset.cache), |sampled|).points;
    forall t | 0 <= t < |points| ensures r.points[t].pose == points[t].pose {
      assert sampled[t] == points[t];
    }
    forall i: nat, j: nat, k: nat, m: nat | i < g.nx && j < g.ny && k < g.nz && m < |g.orientations|
      ensures |points| + GridIndex(g, i, j, k, m) < |r.points|
      ensures r.points[|points| + GridIndex(g, i, j, k, m)].pose == PoseAt(g, i, j, k, m)
    {
      SampleAt(g, i, j, k, m);
      assert sampled[|points| + GridIndex(g, i, j, k, m)] == Samples(g)[GridIndex(g, i, j, k, m)];
    }
  }

  /** The cache's call log across computeWorkspace: after the latch, the
      pass adds exactly one addToCache per SUCCESS point, in point order,
      and then one writeToFile; a call with no orientations leaves the
      latched cache alone. */
  lemma ComputedCacheLog(c: Config, e: EngineState, group: string, frame: string, box: BoundingBox,
                         resolution: real, orientations: seq<Quaternion>, toolFrameOffset: Pose,
                         ordered: bool, points: seq<WorkspacePoint>)
    requires resolution > 0.0 && e.Consistent()
    ensures var r := Computed(c, e, group, frame, box, resolution, orientations, toolFrameOffset, ordered, points);
            var latched := Latched(c, e, group).cache;
            && (r.engine.cache.Some? <==> latched.Some?)
            && (!r.ok ==> r.engine.cache == latched)
            && (r.ok && latched.Some? ==>
                  r.engine.cache.value.group == latched.value.group
                  && r.engine.cache.value.calls
                     == latched.value.calls + AddCalls(r.points) + [WriteToFile(c.cacheFilename)])
  {
    var r := Computed(c, e, group, frame, box, resolution, orientations, toolFrameOffset, ordered, points);
    if orientations != [] {
      var g := GridOf(box, resolution, orientations);
      var latched := Latched(c, e, group);
      var offset := latched.(toolOffset := toolFrameOffset, toolOffsetInverse := c.fx.inverse(toolFrameOffset));
      var sampled := points + Samples(g);
      var q := PassQuery(c, offset, group, frame);
      SolvedCacheCalls(q, Pass(sampled, offset.cache), |sampled|);
      var p := Solved(q, Pass(sampled, offset.cache), |sampled|);
      assert p.points[..|sampled|] == p.points == r.points;
    }
  }

  /** The latch fires once per engine, not once per group: a later
      computeWorkspace, for any group, neither regenerates nor replaces the
      cache nor changes whether it is in use. */
  lemma LatchFiresOnce(c: Config, e: EngineState, group: string, frame: string, box: BoundingBox,
                       resolution: real, orientations: seq<Quaternion>, toolFrameOffset: Pose,
                       ordered: bool, points: seq<WorkspacePoint>)
    requires resolution > 0.0 && e.Consistent() && !e.firstTime
    ensures var r := Computed(c, e, group, frame, box, resolution, orientations, toolFrameOffset, ordered, points);
            && r.engine.useCache == e.useCache
            && (r.engine.cache.Some? <==> e.cache.Some?)
            && (r.ok && e.cache.Some? ==>
                  r.engine.cache.value.group == e.cache.value.group
                  && r.engine.cache.value.calls
                     == e.cache.value.calls + AddCalls(r.points) + [WriteToFile(c.cacheFilename)])
  {
    ComputedCacheLog(c, e, group, frame, box, resolution, orientations, toolFrameOffset, ordered, points);
  }

  /** The defect in findIKSolutions, as written: when the first
      computeWorkspace names a group without a kinematics solver,
      generateCache fails before a cache exists, the cache is not in use,
      sampling still succeeds, and the pass reaches its writeToFile with no
      cache, so the requirement of SaveCacheAsWritten is not met there. */
  lemma UnknownFirstGroupWritesWithoutCache(c: Config, e: EngineState, group: string, frame: string,
                                            box: BoundingBox, resolution: real, orientations: seq<Quaternion>,
                                            toolFrameOffset: Pose, ordered: bool, points: seq<WorkspacePoint>)
    requires resolution > 0.0 && e.Consistent()
    requires e.firstTime && e.cache.None? && group !in c.fx.solverGroups && orientations != []
    ensures var latched := Latched(c, e, group);
            var offset := latched.(toolOffset := toolFrameOffset, toolOffsetInverse := c.fx.inverse(toolFrameOffset));
            var sampled := points + Samples(GridOf(box, resolution, orientations));
            && latched.cache.None? && !latched.useCache
            && Computed(c, e, group, frame, box, resolution, orientations, toolFrameOffset, ordered, points).ok
            && Solved(PassQuery(c, offset, group, frame), Pass(sampled, offset.cache), |sampled|).cache.None?
  {
  }

  /** The intended behaviour, which the model implements by skipping the
      cache calls when there is no cache (AddSolution, SaveCache): the same
      first call completes, classifies every point, and leaves the engine
      without a cache and with the cache not in use. */
  lemma UnknownFirstGroupHasNoCache(c: Config, e: EngineState, group: string, frame: string,
                                    box: BoundingBox, resolution: real, orientations: seq<Quaternion>,
                                    toolFrameOffset: Pose, ordered: bool, points: seq<WorkspacePoint>)
    requires resolution > 0.0 && e.Consistent()
    requires e.firstTime && e.cache.None? && group !in c.fx.solverGroups && orientations != []
    ensures var r := Computed(c, e, group, frame, box, resolution, orientations, toolFrameOffset, ordered, points);
            && r.ok && !r.engine.useCache && r.engine.cache.None?
            && forall t :: 0 <= t < |r.points| ==> r.points[t].code.IsFinal()
  {
    ComputedClassifiesGrid(c, e, group, frame, box, resolution, orientations, toolFrameOffset, ordered, points);
  }

  /** One iteration of computeRedundantSolutions (the cache is switched
      off): the point carries the target pose and the solver's code, and the
      solver's solution only on SUCCESS. The solver is always invoked, with
      a random seed. */
  function RedundantPoint(fx: Collaborators, cache: Option<Cache>, toolOffsetInverse: Pose,
                          group: string, target: PoseStamped, draw: nat): (p: WorkspacePoint)
    ensures var request := DefaultIKRequest(fx, group, draw).(target := ToSolverFrame(fx, target, toolOffsetInverse));
            && p.pose == target.pose
            && p.code == fx.getIK(request).code
            && p.state == (if p.code == Success then fx.getIK(request).solution else EmptyState)
  {
    var o := FindIK(fx, false, cache, toolOffsetInverse, group, target, EmptyState, draw);
    WorkspacePoint(target.pose, if o.code == Success then o.state else EmptyState, o.code)
  }

  /** The first n points computeRedundantSolutions collects, from random
      draw number `base` on. */
  function RedundantPoints(fx: Collaborators, cache: Option<Cache>, toolOffsetInverse: Pose,
                           group: string, target: PoseStamped, base: nat, n: nat): (r: seq<WorkspacePoint>)
    ensures |r| == n
  {
    if n == 0 then []
    else RedundantPoints(fx, cache, toolOffsetInverse, group, target, base, n - 1)
         + [RedundantPoint(fx, cache, toolOffsetInverse, group, target, base + n - 1)]
  }

  /** Point t of the redundant solutions is the t-th independent solver
      call, made with the t-th random seed after `base`. */
  lemma {:induction false} RedundantPointsAt(fx: Collaborators, cache: Option<Cache>, toolOffsetInverse: Pose,
                                             group: string, target: PoseStamped, base: nat, n: nat, t: nat)
    requires t < n
    ensures RedundantPoints(fx, cache, toolOffsetInverse, group, target, base, n)[t]
            == RedundantPoint(fx, cache, toolOffsetInverse, group, target, base + t)
  {
    if t < n - 1 {
      RedundantPointsAt(fx, cache, toolOffsetInverse, group, target, base, n - 1, t);
    }
  }

  /** The engine object. */
  class KinematicsReachability {
    const fx: Collaborators
    const cacheFilename: string
    const cacheTimeout: real
    const cacheOptions: CacheOptions
    var firstTime: bool
    var useCache: bool
    var cache: Option<Cache>
    var toolOffset: Pose
    var toolOffsetInverse: Pose
    var draws: nat

    function Settings(): Config
      reads this
    {
      Config(fx, cacheFilename, cacheTimeout, cacheOptions)
    }

    function State(): EngineState
      reads this
    {
      EngineState(firstTime, useCache, cache, toolOffset, toolOffsetInverse, draws)
    }

    predicate Valid()
      reads this
    {
      State().Consistent()
    }

    /** initialize: identity tool offset, no cache, cache not in use, the
        latch armed. The cache parameters are those read from the parameter
        server. */
    constructor (fx: Collaborators, cacheFilename: string, cacheTimeout: real, cacheOptions: CacheOptions)
      ensures Settings() == Config(fx, cacheFilename, cacheTimeout, cacheOptions)
      ensures State() == EngineState(true, false, None, IdentityPose, IdentityPose, 0)
      ensures Valid()
    {
      this.fx := fx;
      this.cacheFilename := cacheFilename;
      this.cacheTimeout := cacheTimeout;
      this.cacheOptions := cacheOptions;
      firstTime := true;
      useCache := false;
      cache := None;
      toolOffset := IdentityPose;
      toolOffsetInverse := IdentityPose;
      draws := 0;
    }

    /** setToolFrameOffset: store the offset and its inverse. */
    method SetToolFrameOffset(pose: Pose)
      modifies this`toolOffset, this`toolOffsetInverse
      ensures toolOffset == pose && toolOffsetInverse == fx.inverse(pose)
    {
      toolOffset := pose;
      toolOffsetInverse := fx.inverse(pose);
    }

    /** generateCache, step by step on the cache handle. */
    method GenerateCache(group: string, timeout: real, options: CacheOptions, filename: string)
      returns (ok: bool)
      modifies this`cache
      ensures CacheBuild(ok, cache) == BuildCache(old(cache), group, timeout, options, filename,
                                                  fx.solverGroups, fx.cache)
    {
      if cache.None? || cache.value.group != group {
        if group !in fx.solverGroups {
          return false;
        }
        cache := Some(Cache(group, options, [Initialize(group, options)]));
      }
      var c := cache.value;
      cache := Some(Record(c, ReadFromFile(filename)));
      if !fx.cache.readOk(c, filename) {
        var read := cache.value;
        cache := Some(Record(read, GenerateCacheMap(timeout)));
        if !fx.cache.generateOk(read, timeout) {
          return false;
        }
        var generated := cache.value;
        cache := Some(Record(generated, WriteToFile(filename)));
        if !fx.cache.writeOk(generated, filename) {
          return false;
        }
      }
      ok := true;
    }

    /** findIKSolutions: query every point in order, record codes and
        solutions, add each solution to the cache, then save the cache. */
    method FindIKSolutions(ws: Workspace)
      requires Valid()
      modifies ws`points, this`cache, this`draws
      ensures Valid()
      ensures var r := Searched(Settings(), old(State()), ws.groupName, ws.frame, old(ws.points));
              State() == r.0 && ws.points == r.1
    {
      SolvePoints(ws);
      cache := SaveCache(cache, cacheFilename);
    }

    /** The loop of findIKSolutions: point i is solved with the engine's
        i-th next random draw, against the cache as the earlier points left
        it. */
    method SolvePoints(ws: Workspace)
      requires Valid()
      modifies ws`points, this`cache, this`draws
      ensures Pass(ws.points, cache)
              == Solved(PassQuery(Settings(), old(State()), ws.groupName, ws.frame),
                        Pass(old(ws.points), old(cache)), |old(ws.points)|)
      ensures draws == old(draws) + |old(ws.points)|
    {
      ghost var q := PassQuery(Settings(), State(), ws.groupName, ws.frame);
      ghost var start := Pass(ws.points, cache);
      var n := |ws.points|;
      for i := 0 to n
        invariant Pass(ws.points, cache) == Solved(q, start, i)
        invariant draws == q.drawBase + i
        invariant q == Query(fx, useCache, toolOffsetInverse, ws.groupName, ws.frame, q.drawBase)
      {
        SolvePoint(ws, i, q);
      }
    }

    /** One iteration of findIKSolutions: findIK on point i with the next
        random draw; the code is recorded, and on SUCCESS the solution is
        recorded and added to the cache under the point's pose. */
    method SolvePoint(ws: Workspace, i: nat, ghost q: Query)
      requires i < |ws.points| && Valid()
      requires q == Query(fx, useCache, toolOffsetInverse, ws.groupName, ws.frame, q.drawBase)
      requires draws == q.drawBase + i
      modifies ws`points, this`cache, this`draws
      ensures Pass(ws.points, cache) == SolveStep(q, Pass(old(ws.points), old(cache)), i)
      ensures draws == old(draws) + 1
    {
      ghost var before := Pass(ws.points, cache);
      var p := ws.points[i];
      var o := FindIK(fx, useCache, cache, toolOffsetInverse, ws.groupName,
                      PoseStamped(ws.frame, p.pose), EmptyState, draws);
      SolveStepOutcome(q, before, i, o);
      draws := draws + 1;
      if o.code == Success {
        ws.points := ws.points[i := p.(code := o.code, state := o.state)];
        cache := AddSolution(cache, p.pose, o.state.positions);
      } else {
        ws.points := ws.points[i := p.(code := o.code)];
      }
    }

    /** The first-call block of computeWorkspace: generateCache for the
        group, the cache switched on if that succeeds, and the latch reset. */
    method LatchCache(group: string)
      modifies this`firstTime, this`useCache, this`cache
      ensures State() == Latched(Settings(), old(State()), group)
    {
      if firstTime {
        var built := GenerateCache(group, cacheTimeout, cacheOptions, cacheFilename);
        if built {
          useCache := true;
        }
        firstTime := false;
      }
    }

    /** computeWorkspace: the latch, the tool offset, the sampling and the
        IK pass; false, with no pass, when there are no orientations. */
    method ComputeWorkspace(ws: Workspace) returns (ok: bool)
      requires Valid() && ws.resolution > 0.0
      modifies this, ws`points, ws`ordered
      ensures Valid()
      ensures var r := Computed(Settings(), old(State()), ws.groupName, ws.frame, ws.box, ws.resolution,
                                ws.orientations, ws.toolFrameOffset, old(ws.ordered), old(ws.points));
              ok == r.ok && State() == r.engine && ws.points == r.points && ws.ordered == r.ordered
    {
      LatchCache(ws.groupName);
      SetToolFrameOffset(ws.toolFrameOffset);
      ok := SampleUniform(ws);
      if ok {
        FindIKSolutions(ws);
      }
    }

    /** getOnlyReachableWorkspace: computeWorkspace, then keep only the
        SUCCESS points. */
    method GetOnlyReachableWorkspace(ws: Workspace) returns (ok: bool)
      requires Valid() && ws.resolution > 0.0
      modifies this, ws`points, ws`ordered
      ensures Valid()
      ensures var r := Computed(Settings(), old(State()), ws.groupName, ws.frame, ws.box, ws.resolution,
                                ws.orientations, ws.toolFrameOffset, old(ws.ordered), old(ws.points));
              && ok == r.ok && State() == r.engine && ws.ordered == r.ordered
              && ws.points == (if r.ok then OnlyReachable(r.points) else r.points)
    {
      ok := ComputeWorkspace(ws);
      if ok {
        RemoveUnreachableWorkspace(ws);
      }
    }

    /** computeRedundantSolutions: a fresh workspace for the group in the
        target's frame, `iterations` solver calls on the same target with the
        cache switched off, then the cache flag restored. The tool offset is
        left set to the workspace's default (all-zero) pose. */
    method ComputeRedundantSolutions(group: string, target: PoseStamped, iterations: nat)
      returns (ws: Workspace)
      requires Valid()
      modifies this`useCache, this`toolOffset, this`toolOffsetInverse, this`draws
      ensures Valid() && fresh(ws)
      ensures ws.groupName == group && ws.frame == target.frame && ws.orientations == []
      ensures ws.box == BoundingBox(ZeroPoint, ZeroPoint) && ws.resolution == 0.0
      ensures !ws.ordered && ws.toolFrameOffset == ZeroPose
      ensures ws.points == RedundantPoints(fx, cache, fx.inverse(ZeroPose), group, target, old(draws), iterations)
      ensures State() == old(State()).(toolOffset := ZeroPose, toolOffsetInverse := fx.inverse(ZeroPose),
                                       draws := old(draws) + iterations)
    {
      ws := new Workspace(group, target.frame, BoundingBox(ZeroPoint, ZeroPoint), 0.0, [], ZeroPose);
      SetToolFrameOffset(ws.toolFrameOffset);
      assert State() == old(State()).(toolOffset := ZeroPose, toolOffsetInverse := fx.inverse(ZeroPose));
      CollectWithoutCache(ws, group, target, iterations);
    }

    /** The cache flag saved and cleared around the loop of
        computeRedundantSolutions, then restored. */
    method CollectWithoutCache(ws: Workspace, group: string, target: PoseStamped, iterations: nat)
      requires ws.points == []
      modifies ws`points, this`useCache, this`draws
      ensures ws.points == RedundantPoints(fx, cache, toolOffsetInverse, group, target, old(draws), iterations)
      ensures State() == old(State()).(draws := old(draws) + iterations)
    {
      var saved := useCache;
      useCache := false;
      CollectRedundant(ws, group, target, iterations);
      useCache := saved;
    }

    /** The loop of computeRedundantSolutions, with the cache switched off:
        one findIK call per iteration on the same target, each appending a
        point. */
    method CollectRedundant(ws: Workspace, group: string, target: PoseStamped, iterations: nat)
      requires !useCache && ws.points == []
      modifies ws`points, this`draws
      ensures ws.points == RedundantPoints(fx, cache, toolOffsetInverse, group, target, old(draws), iterations)
      ensures draws == old(draws) + iterations
    {
      var k := 0;
      while k < iterations
        invariant k <= iterations
        invariant draws == old(draws) + k
        invariant ws.points == RedundantPoints(fx, cache, toolOffsetInverse, group, target, old(draws), k)
      {
        var o := FindIK(fx, useCache, cache, toolOffsetInverse, group, target, EmptyState, draws);
        draws := draws + 1;
        var point := WorkspacePoint(target.pose, if o.code == Success then o.state else EmptyState, o.code);
        ws.points := ws.points + [point];
        k := k + 1;
      }
    }
  }
}
