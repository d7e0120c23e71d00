/** Result bookkeeping over the flat list of workspace points: compaction to
    the reachable points, the reachable/unreachable index partition over the
    sampled grid, and the two index filters. */
module Bookkeeping {
  import opened Types
  import opened Sampler

  /** Orientations closer than this angle (radians) count as equal. */
  const OrientationTolerance: real := 0.001

  /** isEqual: the shortest-path angle between the two orientations, as the
      transform library computes it, is below the tolerance. */
  predicate IsEqual(angle: (Quaternion, Quaternion) -> real, a: Quaternion, b: Quaternion) {
    angle(a, b) < OrientationTolerance
  }

  /** Indices listed in strictly increasing order. */
  predicate Increasing(s: seq<nat>) {
    forall a, b :: 0 <= a < b < |s| ==> s[a] < s[b]
  }

  lemma IncreasingSnoc(s: seq<nat>, x: nat)
    requires Increasing(s) && forall t :: t in s ==> t < x
    ensures Increasing(s + [x])
  {
    forall a, b | 0 <= a < b < |s| + 1 ensures (s + [x])[a] < (s + [x])[b] {
      if b == |s| {
        assert s[a] in s;
      }
    }
  }

  /** The points that survive removeUnreachableWorkspace, in their order. */
  function OnlyReachable(s: seq<WorkspacePoint>): seq<WorkspacePoint> {
    if s == [] then []
    else (if s[0].code == Success then [s[0]] else []) + OnlyReachable(s[1..])
  }

  /** Compaction distributes over concatenation of two parts. */
  lemma {:induction false} OnlyReachableAppend(a: seq<WorkspacePoint>, b: seq<WorkspacePoint>)
    ensures OnlyReachable(a + b) == OnlyReachable(a) + OnlyReachable(b)
  {
    if a == [] {
      assert a + b == b;
    } else {
      var head := if a[0].code == Success then [a[0]] else [];
      assert a + b != [] && (a + b)[0] == a[0];
      assert (a + b)[1..] == a[1..] + b;
      OnlyReachableAppend(a[1..], b);
      calc {
        OnlyReachable(a + b);
        head + OnlyReachable(a[1..] + b);
        head + (OnlyReachable(a[1..]) + OnlyReachable(b));
        (head + OnlyReachable(a[1..])) + OnlyReachable(b);
        OnlyReachable(a) + OnlyReachable(b);
      }
    }
  }

  /** Compacting one more point keeps it exactly when it is a SUCCESS. */
  lemma OnlyReachableSnoc(s: seq<WorkspacePoint>, p: WorkspacePoint)
    ensures OnlyReachable(s + [p]) == OnlyReachable(s) + (if p.code == Success then [p] else [])
  {
    OnlyReachableAppend(s, [p]);
    assert [p][1..] == [];
  }

  /** A point survives compaction iff it was present and is a SUCCESS; the
      result is never longer than the input. */
  lemma {:induction false} OnlyReachableMembers(s: seq<WorkspacePoint>)
    ensures |OnlyReachable(s)| <= |s|
    ensures forall p :: p in OnlyReachable(s) <==> p in s && p.code == Success
  {
    if s != [] {
      OnlyReachableMembers(s[1..]);
      assert forall p :: p in s <==> p == s[0] || p in s[1..];
    }
  }

  /** A list of SUCCESS points is left as it is. */
  lemma {:induction false} OnlyReachableOfReachable(s: seq<WorkspacePoint>)
    requires forall i :: 0 <= i < |s| ==> s[i].code == Success
    ensures OnlyReachable(s) == s
  {
    if s != [] {
      OnlyReachableOfReachable(s[1..]);
    }
  }

  /** Compacting twice is compacting once. */
  lemma OnlyReachableIdempotent(s: seq<WorkspacePoint>)
    ensures OnlyReachable(OnlyReachable(s)) == OnlyReachable(s)
  {
    OnlyReachableMembers(s);
    var r := OnlyReachable(s);
    forall i | 0 <= i < |r| ensures r[i].code == Success {
      assert r[i] in r;
    }
    OnlyReachableOfReachable(r);
  }

  /** Order is kept: a SUCCESS point at index i lands right after the
      survivors of the points before it. */
  lemma OnlyReachablePosition(s: seq<WorkspacePoint>, i: nat)
    requires i < |s| && s[i].code == Success
    ensures |OnlyReachable(s[..i])| < |OnlyReachable(s)|
    ensures OnlyReachable(s)[|OnlyReachable(s[..i])|] == s[i]
  {
    assert s == s[..i] + [s[i]] + s[i + 1..];
    OnlyReachableAppend(s[..i] + [s[i]], s[i + 1..]);
    OnlyReachableSnoc(s[..i], s[i]);
  }

  /** removeUnreachableWorkspace: erase, in place, every point whose code is
      not SUCCESS; the cursor advances only past a kept point. */
  method RemoveUnreachableWorkspace(ws: Workspace)
    modifies ws`points
    ensures ws.points == OnlyReachable(old(ws.points))
  {
    ghost var orig := ws.points;
    ghost var scanned := 0;
    ghost var kept: seq<WorkspacePoint> := [];
    var i := 0;
    while i < |ws.points|
      invariant scanned <= |orig| && i <= |ws.points|
      invariant kept == OnlyReachable(orig[..scanned])
      invariant ws.points[..i] == kept && ws.points[i..] == orig[scanned..]
      decreases |ws.points| - i
    {
      assert orig[..scanned + 1] == orig[..scanned] + [orig[scanned]];
      OnlyReachableSnoc(orig[..scanned], orig[scanned]);
      assert ws.points[i] == ws.points[i..][0] == orig[scanned];
      if ws.points[i].code != Success {
        ws.points := ws.points[..i] + ws.points[i + 1..];
      } else {
        kept := kept + [orig[scanned]];
        i := i + 1;
      }
      scanned := scanned + 1;
    }
    assert ws.points == ws.points[..i] + ws.points[i..];
    assert orig[..scanned] == orig;
  }

  /** getPositionIndex: over the first nx·ny·nz·|orientations| points (the
      sampled grid, not the list length), append each index to the
      reachable list when its code is SUCCESS and to the unreachable list
      otherwise. The lists passed in are extended, not cleared. */
  method GetPositionIndex(ws: Workspace, reachable0: seq<nat>, unreachable0: seq<nat>)
    returns (reachable: seq<nat>, unreachable: seq<nat>)
    requires ws.resolution > 0.0
    requires |ws.points| >= GridSize(GridOf(ws.box, ws.resolution, ws.orientations))
    ensures |reachable0| <= |reachable| && reachable[..|reachable0|] == reachable0
    ensures |unreachable0| <= |unreachable| && unreachable[..|unreachable0|] == unreachable0
    ensures Increasing(reachable[|reachable0|..]) && Increasing(unreachable[|unreachable0|..])
    ensures (|reachable| - |reachable0|) + (|unreachable| - |unreachable0|)
            == GridSize(GridOf(ws.box, ws.resolution, ws.orientations))
    ensures forall t :: t in reachable[|reachable0|..]
              ==> t < GridSize(GridOf(ws.box, ws.resolution, ws.orientations))
    ensures forall t :: t in unreachable[|unreachable0|..]
              ==> t < GridSize(GridOf(ws.box, ws.resolution, ws.orientations))
    ensures forall t :: 0 <= t < GridSize(GridOf(ws.box, ws.resolution, ws.orientations))
              ==> (t in reachable[|reachable0|..] <==> ws.points[t].code == Success)
    ensures forall t :: 0 <= t < GridSize(GridOf(ws.box, ws.resolution, ws.orientations))
              ==> (t in unreachable[|unreachable0|..] <==> ws.points[t].code != Success)
  {
    var n := GridSize(GridOf(ws.box, ws.resolution, ws.orientations));
    var hit: seq<nat> := [];
    var miss: seq<nat> := [];
    for i := 0 to n
      invariant Increasing(hit) && Increasing(miss)
      invariant |hit| + |miss| == i
      invariant forall t :: t in hit ==> t < i
      invariant forall t :: t in miss ==> t < i
      invariant forall t :: 0 <= t < i ==> (t in hit <==> ws.points[t].code == Success)
      invariant forall t :: 0 <= t < i ==> (t in miss <==> ws.points[t].code != Success)
    {
      if ws.points[i].code == Success {
        IncreasingSnoc(hit, i);
        hit := hit + [i];
      } else {
        IncreasingSnoc(miss, i);
        miss := miss + [i];
      }
    }
    reachable := reachable0 + hit;
    unreachable := unreachable0 + miss;
    assert reachable[|reachable0|..] == hit;
    assert unreachable[|unreachable0|..] == miss;
  }

  /** The guard getDisplayTrajectory places before its getPositionIndex
      call, as written: only that the list is not empty. */
  predicate DisplayGuardAsWritten(points: seq<WorkspacePoint>) {
    points != []
  }

  /** The guard as written admits a compacted workspace that is shorter
      than its grid: a zero-extent box with two orientations has two grid
      points; when only the first is SUCCESS, getOnlyReachableWorkspace
      leaves one point, the guard passes, and getPositionIndex reads
      index 1 of a one-point list. */
  lemma DisplayGuardAdmitsShortList(q1: Quaternion, q2: Quaternion)
    ensures var g := GridOf(BoundingBox(ZeroPoint, ZeroPoint), 0.1, [q1, q2]);
            var computed := [WorkspacePoint(Pose(ZeroPoint, q1), EmptyState, Success),
                             WorkspacePoint(Pose(ZeroPoint, q2), EmptyState, NoIKSolution)];
            var compacted := OnlyReachable(computed);
            && GridSize(g) == 2
            && DisplayGuardAsWritten(compacted)
            && |compacted| == 1 < GridSize(g)
  {
    var computed := [WorkspacePoint(Pose(ZeroPoint, q1), EmptyState, Success),
                     WorkspacePoint(Pose(ZeroPoint, q2), EmptyState, NoIKSolution)];
    assert computed[1..][1..] == [];
    assert OnlyReachable(computed[1..]) == [] + OnlyReachable(computed[1..][1..]);
    assert OnlyReachable(computed) == [computed[0]] + OnlyReachable(computed[1..]);
  }

  /** The index split of getDisplayTrajectory with the guard it needs: the
      list is non-empty and covers the whole grid. Under that guard the
      reachable indices are exactly the SUCCESS points of the grid, in
      increasing order. */
  method DisplayIndices(ws: Workspace) returns (ok: bool, reachable: seq<nat>)
    requires ws.resolution > 0.0
    ensures ok <==> ws.points != [] && |ws.points| >= GridSize(GridOf(ws.box, ws.resolution, ws.orientations))
    ensures !ok ==> reachable == []
    ensures ok ==> Increasing(reachable)
    ensures ok ==> forall t :: t in reachable ==> t < GridSize(GridOf(ws.box, ws.resolution, ws.orientations))
    ensures ok ==> forall t :: 0 <= t < GridSize(GridOf(ws.box, ws.resolution, ws.orientations))
                     ==> (t in reachable <==> ws.points[t].code == Success)
  {
    reachable := [];
    ok := ws.points != [] && |ws.points| >= GridSize(GridOf(ws.box, ws.resolution, ws.orientations));
    if ok {
      var unreachable;
      reachable, unreachable := GetPositionIndex(ws, [], []);
      assert reachable[0..] == reachable;
    }
  }

  /** getPointsAtOrientation: the indices, in order, of the points whose
      orientation isEqual to the given one. */
  method GetPointsAtOrientation(ws: Workspace, orientation: Quaternion,
                                angle: (Quaternion, Quaternion) -> real)
    returns (wp: seq<nat>)
    ensures Increasing(wp)
    ensures forall t :: t in wp ==> t < |ws.points|
    ensures forall t :: 0 <= t < |ws.points|
              ==> (t in wp <==> IsEqual(angle, ws.points[t].pose.orientation, orientation))
  {
    wp := [];
    for i := 0 to |ws.points|
      invariant Increasing(wp)
      invariant forall t :: t in wp ==> t < i
      invariant forall t :: 0 <= t < i
                  ==> (t in wp <==> IsEqual(angle, ws.points[t].pose.orientation, orientation))
    {
      if IsEqual(angle, ws.points[i].pose.orientation, orientation) {
        IncreasingSnoc(wp, i);
        wp := wp + [i];
      }
    }
  }

  /** getPointsWithinRange: the indices, in order, of the points whose
      distance from the frame origin lies in [minRadius, maxRadius]. */
  method GetPointsWithinRange(ws: Workspace, minRadius: real, maxRadius: real,
                              length: Point3 -> real)
    returns (wp: seq<nat>)
    ensures Increasing(wp)
    ensures forall t :: t in wp ==> t < |ws.points|
    ensures forall t :: 0 <= t < |ws.points|
              ==> (t in wp <==> minRadius <= length(ws.points[t].pose.position) <= maxRadius)
  {
    wp := [];
    for i := 0 to |ws.points|
      invariant Increasing(wp)
      invariant forall t :: t in wp ==> t < i
      invariant forall t :: 0 <= t < i
                  ==> (t in wp <==> minRadius <= length(ws.points[t].pose.position) <= maxRadius)
    {
      var v := length(ws.points[i].pose.position);
      if v >= minRadius && v <= maxRadius {
        IncreasingSnoc(wp, i);
        wp := wp + [i];
      }
    }
  }

  /** An increasing index list is determined by its members, so each filter
      above has exactly one admissible result. */
  lemma {:induction false} IncreasingUnique(a: seq<nat>, b: seq<nat>)
    requires Increasing(a) && Increasing(b)
    requires forall t :: t in a <==> t in b
    ensures a == b
  {
    assert a != [] ==> a[0] in b;
    assert b != [] ==> b[0] in a;
    if a != [] && b != [] {
      assert a[0] == b[0] by {
        assert b[0] in a && a[0] in b;
      }
      forall t ensures t in a[1..] <==> t in b[1..] {
        if t in a[1..] {
          var k :| 1 <= k < |a| && a[k] == t;
          assert t in b && t != b[0];
        }
        if t in b[1..] {
          var k :| 1 <= k < |b| && b[k] == t;
          assert t in a && t != a[0];
        }
      }
      IncreasingUnique(a[1..], b[1..]);
      assert a == [a[0]] + a[1..] && b == [b[0]] + b[1..];
    }
  }

  /** The orientation tolerance: half a milliradian apart is equal, ten
      milliradians apart is not. */
  lemma ToleranceScenario(angle: (Quaternion, Quaternion) -> real, a: Quaternion, b: Quaternion, c: Quaternion)
    requires angle(a, b) == 0.0005 && angle(a, c) == 0.01
    ensures IsEqual(angle, a, b) && !IsEqual(angle, a, c)
  {
  }
}
