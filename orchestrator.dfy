/** The IK query orchestrator: building the default request, moving the
    target into the solver's frame, the cache gate, the solver call, and the
    sequential pass of findIKSolutions that classifies every point and feeds
    each solution back into the cache. */
module Orchestrator {
  import opened Types
  import opened CacheBridge

  /** The code the engine calls but does not implement: the IK service, the
      transform library, the kinematic model (tip link, joint names, random
      joint values, the groups that have a solver) and the cache's own code. */
  datatype Collaborators = Collaborators(
    getIK: IKRequest -> IKResponse,
    compose: (Pose, Pose) -> Pose,
    inverse: Pose -> Pose,
    tipLink: string -> string,
    jointNames: string -> seq<string>,
    randomPositions: (string, nat) -> seq<real>,
    solverGroups: set<string>,
    cache: CacheBackend)

  /** Solver timeout of every request, in seconds. */
  const DefaultIKTimeout: real := 5.0

  /** getDefaultIKRequest: the group's tip link as IK link, a random
      configuration of the group (random draw number `draw`) as seed, and
      the fixed timeout. The target is filled in by the caller. */
  function DefaultIKRequest(fx: Collaborators, group: string, draw: nat): (r: IKRequest)
    ensures r.ikLink == fx.tipLink(group) && r.timeout == DefaultIKTimeout
    ensures r.seed.names == fx.jointNames(group) && r.seed.positions == fx.randomPositions(group, draw)
  {
    IKRequest(PoseStamped("", ZeroPose), fx.tipLink(group),
              RobotState(fx.jointNames(group), fx.randomPositions(group, draw)),
              DefaultIKTimeout)
  }

  /** The target moved from the caller's tool frame to the solver's
      end-effector frame: pose composed with the inverse tool offset. */
  function ToSolverFrame(fx: Collaborators, target: PoseStamped, toolOffsetInverse: Pose): PoseStamped {
    target.(pose := fx.compose(target.pose, toolOffsetInverse))
  }

  /** What one findIK call leaves behind: the error code, the robot state,
      and the request handed to the solver if the solver was invoked. */
  datatype IKOutcome = IKOutcome(code: FinalCode, state: RobotState, solverRequest: Option<IKRequest>)

  /** findIK. With the cache in use, a target outside the cache's coverage
      is PLANNING_FAILED without invoking the solver and the robot state is
      left as it was; otherwise the solver is invoked (with the cache's seed
      when the cache is in use) and its error code and solution are copied. */
  function FindIK(fx: Collaborators, useCache: bool, cache: Option<Cache>, toolOffsetInverse: Pose,
                  group: string, target: PoseStamped, state: RobotState, draw: nat): (o: IKOutcome)
    requires useCache ==> cache.Some?
    ensures o.solverRequest.None? <==>
              useCache && DistanceSquared(ToSolverFrame(fx, target, toolOffsetInverse).pose.position)
                          >= fx.cache.minMaxSquaredDistance(cache.value).1
    ensures o.solverRequest.None? ==> o.code == PlanningFailed && o.state == state
    ensures o.solverRequest.Some? ==>
              var request := o.solverRequest.value;
              && o.code == fx.getIK(request).code
              && o.state == fx.getIK(request).solution
              && request.target == ToSolverFrame(fx, target, toolOffsetInverse)
              && request.ikLink == fx.tipLink(group)
              && request.timeout == DefaultIKTimeout
              && request.seed.names == fx.jointNames(group)
              && request.seed.positions
                 == (if useCache && fx.cache.solution(cache.value, request.target.pose).Some?
                     then fx.cache.solution(cache.value, request.target.pose).value
                     else fx.randomPositions(group, draw))
  {
    var request := DefaultIKRequest(fx, group, draw).(target := ToSolverFrame(fx, target, toolOffsetInverse));
    if useCache && !UpdateFromCache(request, cache.value, fx.cache).0 then
      IKOutcome(PlanningFailed, state, None)
    else
      var seeded := if useCache then UpdateFromCache(request, cache.value, fx.cache).1 else request;
      var response := fx.getIK(seeded);
      IKOutcome(response.code, response.solution, Some(seeded))
  }

  /** The state findIKSolutions works on: the points and the cache. */
  datatype Pass = Pass(points: seq<WorkspacePoint>, cache: Option<Cache>)

  /** The settings findIKSolutions reads but does not change, and the
      number of random configurations drawn before the pass. */
  datatype Query = Query(fx: Collaborators, useCache: bool, toolOffsetInverse: Pose,
                         group: string, frame: string, drawBase: nat)

  /** One iteration of findIKSolutions, on point i (the pass's i-th random
      draw): record the code; on SUCCESS also record the solution and add it
      to the cache under the point's pose. */
  function SolveStep(q: Query, s: Pass, i: nat): (r: Pass)
    requires i < |s.points| && (q.useCache ==> s.cache.Some?)
    ensures |r.points| == |s.points| && r.points[i].pose == s.points[i].pose
    ensures r.points[i].code.IsFinal()
    ensures r.cache.Some? <==> s.cache.Some?
  {
    var p := s.points[i];
    var o := FindIK(q.fx, q.useCache, s.cache, q.toolOffsetInverse, q.group,
                    PoseStamped(q.frame, p.pose), EmptyState, q.drawBase + i);
    if o.code == Success then
      Pass(s.points[i := p.(code := o.code, state := o.state)], AddSolution(s.cache, p.pose, o.state.positions))
    else
      Pass(s.points[i := p.(code := o.code)], s.cache)
  }

  /** SolveStep in terms of the findIK outcome o of its point. */
  lemma SolveStepOutcome(q: Query, s: Pass, i: nat, o: IKOutcome)
    requires i < |s.points| && (q.useCache ==> s.cache.Some?)
    requires o == FindIK(q.fx, q.useCache, s.cache, q.toolOffsetInverse, q.group,
                         PoseStamped(q.frame, s.points[i].pose), EmptyState, q.drawBase + i)
    ensures SolveStep(q, s, i)
            == if o.code == Success
               then Pass(s.points[i := s.points[i].(code := o.code, state := o.state)],
                         AddSolution(s.cache, s.points[i].pose, o.state.positions))
               else Pass(s.points[i := s.points[i].(code := o.code)], s.cache)
  {
  }

  /** The state after the first n iterations of findIKSolutions. */
  function Solved(q: Query, start: Pass, n: nat): (r: Pass)
    requires n <= |start.points| && (q.useCache ==> start.cache.Some?)
    ensures |r.points| == |start.points|
    ensures r.cache.Some? <==> start.cache.Some?
  {
    if n == 0 then start else SolveStep(q, Solved(q, start, n - 1), n - 1)
  }

  /** The addToCache calls a list of classified points calls for, in order. */
  function AddCalls(s: seq<WorkspacePoint>): seq<CacheCall> {
    if s == [] then []
    else
      var p := s[|s| - 1];
      AddCalls(s[..|s| - 1]) + (if p.code == Success then [AddToCache(p.pose, p.state.positions, true)] else [])
  }

  /** One iteration leaves every point other than i as it was. */
  lemma StepOther(q: Query, s: Pass, i: nat, j: nat, t: Pass)
    requires i < |s.points| && j < |s.points| && j != i && (q.useCache ==> s.cache.Some?)
    requires t == SolveStep(q, s, i)
    ensures t.points[j] == s.points[j]
  {
  }

  /** One iteration sets point i: its code becomes findIK's and its robot
      state findIK's solution on SUCCESS. */
  lemma StepPoint(q: Query, s: Pass, i: nat, t: Pass)
    requires i < |s.points| && (q.useCache ==> s.cache.Some?)
    requires t == SolveStep(q, s, i)
    ensures var p := s.points[i];
            var o := FindIK(q.fx, q.useCache, s.cache, q.toolOffsetInverse, q.group,
                            PoseStamped(q.frame, p.pose), EmptyState, q.drawBase + i);
            t.points[i] == p.(code := o.code, state := if o.code == Success then o.state else p.state)
  {
  }

  /** The log invariant of the pass carried over one iteration: if the log
      was the initial one plus the calls of the first n - 1 points, and the
      iteration on point n - 1 appended that point's call alone, the log is
      the initial one plus the calls of the first n points. */
  lemma CallsAfterStep(log: seq<CacheCall>, prev: Pass, cur: Pass, n: nat)
    requires 0 < n <= |cur.points| == |prev.points|
    requires cur.points[..n - 1] == prev.points[..n - 1]
    requires prev.cache.Some? && cur.cache.Some?
    requires prev.cache.value.calls == log + AddCalls(prev.points[..n - 1])
    requires var p := cur.points[n - 1];
             cur.cache.value.calls
             == prev.cache.value.calls + (if p.code == Success then [AddToCache(p.pose, p.state.positions, true)] else [])
    ensures cur.cache.value.calls == log + AddCalls(cur.points[..n])
  {
    var block := cur.points[..n];
    assert block[..n - 1] == prev.points[..n - 1];
    assert block[n - 1] == cur.points[n - 1];
  }

  /** Point i is untouched by the first n iterations when n <= i. */
  lemma {:induction false} SolvedBefore(q: Query, start: Pass, n: nat, i: nat)
    requires n <= i < |start.points| && (q.useCache ==> start.cache.Some?)
    ensures Solved(q, start, n).points[i] == start.points[i]
  {
    if n > 0 {
      StepOther(q, Solved(q, start, n - 1), n - 1, i, Solved(q, start, n));
      SolvedBefore(q, start, n - 1, i);
    }
  }

  /** Once iteration i has run, later iterations leave point i alone. */
  lemma {:induction false} SolvedAfter(q: Query, start: Pass, n: nat, i: nat)
    requires i < n <= |start.points| && (q.useCache ==> start.cache.Some?)
    ensures Solved(q, start, n).points[i] == Solved(q, start, i + 1).points[i]
  {
    if n > i + 1 {
      var prev := Solved(q, start, n - 1);
      var cur := Solved(q, start, n);
      StepOther(q, prev, n - 1, i, cur);
      SolvedAfter(q, start, n - 1, i);
      assert cur.points[i] == prev.points[i] == Solved(q, start, i + 1).points[i];
    }
  }

  /** Point i of the pass: untouched before iteration i; from then on its
      pose is kept, its code is what findIK answered at iteration i (against
      the cache as it was then), and its robot state is replaced only on
      SUCCESS. */
  lemma SolvedPoint(q: Query, start: Pass, n: nat, i: nat)
    requires n <= |start.points| && i < |start.points| && (q.useCache ==> start.cache.Some?)
    ensures n <= i ==> Solved(q, start, n).points[i] == start.points[i]
    ensures i < n ==>
      var before := Solved(q, start, i);
      var p := start.points[i];
      var o := FindIK(q.fx, q.useCache, before.cache, q.toolOffsetInverse, q.group,
                      PoseStamped(q.frame, p.pose), EmptyState, q.drawBase + i);
      Solved(q, start, n).points[i]
        == p.(code := o.code, state := if o.code == Success then o.state else p.state)
  {
    if n <= i {
      SolvedBefore(q, start, n, i);
    } else {
      SolvedBefore(q, start, i, i);
      StepPoint(q, Solved(q, start, i), i, Solved(q, start, i + 1));
      SolvedAfter(q, start, n, i);
    }
  }

  /** After the pass every point carries a final classification: SUCCESS,
      NO_IK_SOLUTION or PLANNING_FAILED, never EVALUATING or unset. */
  lemma SolvedIsFinal(q: Query, start: Pass)
    requires q.useCache ==> start.cache.Some?
    ensures forall i :: 0 <= i < |start.points| ==>
              Solved(q, start, |start.points|).points[i].code.IsFinal()
              && Solved(q, start, |start.points|).points[i].pose == start.points[i].pose
  {
    forall i | 0 <= i < |start.points|
      ensures Solved(q, start, |start.points|).points[i].code.IsFinal()
      ensures Solved(q, start, |start.points|).points[i].pose == start.points[i].pose
    {
      SolvedPoint(q, start, |start.points|, i);
    }
  }

  /** One iteration touches only point i, and calls addToCache once, with
      that point's pose and new joint values, exactly when it is SUCCESS. */
  lemma StepCacheCalls(q: Query, s: Pass, i: nat, t: Pass)
    requires i < |s.points| && (q.useCache ==> s.cache.Some?)
    requires t == SolveStep(q, s, i)
    ensures |t.points| == |s.points| && t.points[..i] == s.points[..i]
    ensures t.points[i].pose == s.points[i].pose
    ensures s.cache.None? ==> t.cache.None?
    ensures s.cache.Some? ==>
              t.cache.Some? && t.cache.value.group == s.cache.value.group
              && t.cache.value.options == s.cache.value.options
              && t.cache.value.calls
                 == s.cache.value.calls
                    + (if t.points[i].code == Success
                       then [AddToCache(t.points[i].pose, t.points[i].state.positions, true)] else [])
  {
  }

  /** The cache receives exactly one addToCache per SUCCESS, in point order,
      with the point's pose and the solution's joint values; nothing else is
      called on it during the loop. */
  lemma {:induction false} SolvedCacheCalls(q: Query, start: Pass, n: nat)
    requires n <= |start.points| && (q.useCache ==> start.cache.Some?)
    ensures start.cache.Some? ==>
              Solved(q, start, n).cache.value.group == start.cache.value.group
              && Solved(q, start, n).cache.value.options == start.cache.value.options
              && Solved(q, start, n).cache.value.calls
                 == start.cache.value.calls + AddCalls(Solved(q, start, n).points[..n])
    ensures start.cache.None? ==> Solved(q, start, n).cache.None?
  {
    if n > 0 {
      var prev := Solved(q, start, n - 1);
      var cur := Solved(q, start, n);
      assert cur == SolveStep(q, prev, n - 1);
      SolvedCacheCalls(q, start, n - 1);
      StepCacheCalls(q, prev, n - 1, cur);
      if start.cache.Some? {
        CallsAfterStep(start.cache.value.calls, prev, cur, n);
      }
    }
  }
}
