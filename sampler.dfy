/** The grid sampler: per-axis point counts and the uniform enumeration of
    candidate poses in x, then y, then z, then orientation order. */
module Sampler {
  import opened Types

  function Abs(r: real): real {
    if r < 0.0 then -r else r
  }

  lemma ScaleStrict(a: real, b: real, c: real)
    requires a < b && c > 0.0
    ensures a * c < b * c
  {}

  lemma ScaleWeak(a: real, b: real, c: real)
    requires a <= b && c > 0.0
    ensures a * c <= b * c
  {}

  /** Number of grid points along one axis: the truncated quotient of the
      axis extent by the resolution, plus one. The last sample lies inside
      the extent and one more step would leave it. */
  function AxisCount(lo: real, hi: real, res: real): (n: nat)
    requires res > 0.0
    ensures n >= 1
    ensures (n - 1) as real * res <= Abs(lo - hi) < n as real * res
  {
    var d := Abs(lo - hi);
    var q := d / res;
    assert q * res == d;
    var f := q.Floor;
    assert 0 <= f;
    var n := f + 1;
    ScaleWeak((n - 1) as real, q, res);
    ScaleStrict(q, n as real, res);
    assert q * res < n as real * res;
    assert d < n as real * res;
    n
  }

  /** What the sampler enumerates: the min corner, the resolution, the three
      per-axis counts and the orientation list. */
  datatype Grid = Grid(origin: Point3, res: real, nx: nat, ny: nat, nz: nat,
                       orientations: seq<Quaternion>)

  /** The grid of a workspace (getNumPoints and the corner it starts from). */
  function GridOf(box: BoundingBox, res: real, orientations: seq<Quaternion>): (g: Grid)
    requires res > 0.0
  {
    Grid(box.minCorner, res,
         AxisCount(box.minCorner.x, box.maxCorner.x, res),
         AxisCount(box.minCorner.y, box.maxCorner.y, res),
         AxisCount(box.minCorner.z, box.maxCorner.z, res),
         orientations)
  }

  /** Number of poses the grid enumerates. */
  function GridSize(g: Grid): nat {
    g.nx * g.ny * g.nz * |g.orientations|
  }

  /** Flat position of grid coordinate (i, j, k, m) in the enumeration. */
  function GridIndex(g: Grid, i: nat, j: nat, k: nat, m: nat): nat {
    ((i * g.ny + j) * g.nz + k) * |g.orientations| + m
  }

  /** Coordinate of grid step n along an axis starting at lo. */
  function Coord(lo: real, n: nat, res: real): real {
    lo + n as real * res
  }

  /** The pose at grid coordinate (i, j, k) with orientation m. */
  function PoseAt(g: Grid, i: nat, j: nat, k: nat, m: nat): Pose
    requires m < |g.orientations|
  {
    Pose(Point3(Coord(g.origin.x, i, g.res), Coord(g.origin.y, j, g.res), Coord(g.origin.z, k, g.res)),
         g.orientations[m])
  }

  /** The first n orientations at position (i, j, k). */
  function Orients(g: Grid, i: nat, j: nat, k: nat, n: nat): seq<WorkspacePoint>
    requires n <= |g.orientations|
  {
    if n == 0 then [] else Orients(g, i, j, k, n - 1) + [SampledPoint(PoseAt(g, i, j, k, n - 1))]
  }

  /** The first n z-steps of column (i, j). */
  function ZRun(g: Grid, i: nat, j: nat, n: nat): seq<WorkspacePoint>
    requires n <= g.nz
  {
    if n == 0 then [] else ZRun(g, i, j, n - 1) + Orients(g, i, j, n - 1, |g.orientations|)
  }

  /** The first n y-steps of slab i. */
  function YRun(g: Grid, i: nat, n: nat): seq<WorkspacePoint>
    requires n <= g.ny
  {
    if n == 0 then [] else YRun(g, i, n - 1) + ZRun(g, i, n - 1, g.nz)
  }

  /** The first n x-steps of the grid. */
  function XRun(g: Grid, n: nat): seq<WorkspacePoint>
    requires n <= g.nx
  {
    if n == 0 then [] else XRun(g, n - 1) + YRun(g, n - 1, g.ny)
  }

  /** Everything the sampler appends for a grid. */
  function Samples(g: Grid): seq<WorkspacePoint> {
    XRun(g, g.nx)
  }

  lemma BlockBound(q: nat, n: nat, size: nat, r: nat)
    requires q < n && r < size
    ensures q * size + r < n * size
  {
    assert (q + 1) * size == q * size + size;
    assert (q + 1) * size <= n * size;
  }

  lemma {:induction false} OrientsAt(g: Grid, i: nat, j: nat, k: nat, n: nat, m: nat)
    requires m < n <= |g.orientations|
    ensures |Orients(g, i, j, k, n)| == n
    ensures Orients(g, i, j, k, n)[m] == SampledPoint(PoseAt(g, i, j, k, m))
  {
    OrientsLength(g, i, j, k, n - 1);
    if m < n - 1 {
      OrientsAt(g, i, j, k, n - 1, m);
    }
  }

  lemma {:induction false} OrientsLength(g: Grid, i: nat, j: nat, k: nat, n: nat)
    requires n <= |g.orientations|
    ensures |Orients(g, i, j, k, n)| == n
  {
    if n > 0 {
      OrientsLength(g, i, j, k, n - 1);
    }
  }

  lemma {:induction false} ZRunLength(g: Grid, i: nat, j: nat, n: nat)
    requires n <= g.nz
    ensures |ZRun(g, i, j, n)| == n * |g.orientations|
  {
    if n > 0 {
      ZRunLength(g, i, j, n - 1);
      OrientsLength(g, i, j, n - 1, |g.orientations|);
      assert n * |g.orientations| == (n - 1) * |g.orientations| + |g.orientations|;
    }
  }

  lemma {:induction false} ZRunAt(g: Grid, i: nat, j: nat, n: nat, k: nat, off: nat)
    requires k < n <= g.nz && off < |g.orientations|
    ensures |ZRun(g, i, j, n)| == n * |g.orientations| && k * |g.orientations| + off < n * |g.orientations|
    ensures |Orients(g, i, j, k, |g.orientations|)| == |g.orientations|
    ensures ZRun(g, i, j, n)[k * |g.orientations| + off] == Orients(g, i, j, k, |g.orientations|)[off]
  {
    var nr := |g.orientations|;
    ZRunLength(g, i, j, n - 1);
    ZRunLength(g, i, j, n);
    OrientsLength(g, i, j, k, nr);
    BlockBound(k, n, nr, off);
    if k < n - 1 {
      BlockBound(k, n - 1, nr, off);
      ZRunAt(g, i, j, n - 1, k, off);
    }
  }

  lemma {:induction false} YRunLength(g: Grid, i: nat, n: nat)
    requires n <= g.ny
    ensures |YRun(g, i, n)| == n * (g.nz * |g.orientations|)
  {
    if n > 0 {
      YRunLength(g, i, n - 1);
      ZRunLength(g, i, n - 1, g.nz);
      assert n * (g.nz * |g.orientations|) == (n - 1) * (g.nz * |g.orientations|) + g.nz * |g.orientations|;
    }
  }

  lemma {:induction false} YRunAt(g: Grid, i: nat, n: nat, j: nat, off: nat)
    requires j < n <= g.ny && off < g.nz * |g.orientations|
    ensures |YRun(g, i, n)| == n * (g.nz * |g.orientations|)
    ensures j * (g.nz * |g.orientations|) + off < n * (g.nz * |g.orientations|)
    ensures |ZRun(g, i, j, g.nz)| == g.nz * |g.orientations|
    ensures YRun(g, i, n)[j * (g.nz * |g.orientations|) + off] == ZRun(g, i, j, g.nz)[off]
  {
    var size := g.nz * |g.orientations|;
    YRunLength(g, i, n - 1);
    YRunLength(g, i, n);
    ZRunLength(g, i, j, g.nz);
    BlockBound(j, n, size, off);
    if j < n - 1 {
      BlockBound(j, n - 1, size, off);
      YRunAt(g, i, n - 1, j, off);
    }
  }

  lemma {:induction false} XRunLength(g: Grid, n: nat)
    requires n <= g.nx
    ensures |XRun(g, n)| == n * (g.ny * (g.nz * |g.orientations|))
  {
    if n > 0 {
      XRunLength(g, n - 1);
      YRunLength(g, n - 1, g.ny);
      var size := g.ny * (g.nz * |g.orientations|);
      assert n * size == (n - 1) * size + size;
    }
  }

  lemma {:induction false} XRunAt(g: Grid, n: nat, i: nat, off: nat)
    requires i < n <= g.nx && off < g.ny * (g.nz * |g.orientations|)
    ensures |XRun(g, n)| == n * (g.ny * (g.nz * |g.orientations|))
    ensures i * (g.ny * (g.nz * |g.orientations|)) + off < n * (g.ny * (g.nz * |g.orientations|))
    ensures |YRun(g, i, g.ny)| == g.ny * (g.nz * |g.orientations|)
    ensures XRun(g, n)[i * (g.ny * (g.nz * |g.orientations|)) + off] == YRun(g, i, g.ny)[off]
  {
    var size := g.ny * (g.nz * |g.orientations|);
    XRunLength(g, n - 1);
    XRunLength(g, n);
    YRunLength(g, i, g.ny);
    BlockBound(i, n, size, off);
    if i < n - 1 {
      BlockBound(i, n - 1, size, off);
      XRunAt(g, n - 1, i, off);
    }
  }

  lemma IndexLayout(g: Grid, i: nat, j: nat, k: nat, m: nat)
    ensures GridIndex(g, i, j, k, m)
            == i * (g.ny * (g.nz * |g.orientations|))
               + (j * (g.nz * |g.orientations|) + (k * |g.orientations| + m))
  {
    var nr := |g.orientations|;
    calc {
      ((i * g.ny + j) * g.nz + k) * nr + m;
      (i * g.ny + j) * g.nz * nr + k * nr + m;
      (i * g.ny * g.nz + j * g.nz) * nr + k * nr + m;
      i * (g.ny * (g.nz * nr)) + (j * (g.nz * nr) + (k * nr + m));
    }
  }

  lemma SizeLayout(g: Grid)
    ensures GridSize(g) == g.nx * (g.ny * (g.nz * |g.orientations|))
  {
    var nr := |g.orientations|;
    assert g.nx * g.ny * g.nz * nr == g.nx * (g.ny * (g.nz * nr));
  }

  /** One sample of the enumeration, addressed by its grid coordinate. */
  lemma {:induction false} SampleAt(g: Grid, i: nat, j: nat, k: nat, m: nat)
    requires i < g.nx && j < g.ny && k < g.nz && m < |g.orientations|
    ensures |Samples(g)| == GridSize(g)
    ensures GridIndex(g, i, j, k, m) < GridSize(g)
    ensures Samples(g)[GridIndex(g, i, j, k, m)] == SampledPoint(PoseAt(g, i, j, k, m))
  {
    var nr := |g.orientations|;
    var s1 := g.nz * nr;
    var s2 := g.ny * s1;
    var o1 := k * nr + m;
    var o2 := j * s1 + o1;
    SizeLayout(g);
    IndexLayout(g, i, j, k, m);
    BlockBound(k, g.nz, nr, m);
    BlockBound(j, g.ny, s1, o1);
    XRunAt(g, g.nx, i, o2);
    YRunAt(g, i, g.ny, j, o1);
    ZRunAt(g, i, j, g.nz, k, m);
    OrientsAt(g, i, j, k, nr, m);
  }

  /** The enumeration has exactly nx·ny·nz·|orientations| poses, and the one
      at flat index ((i·ny+j)·nz+k)·nr+m is position
      (xmin+i·res, ymin+j·res, zmin+k·res) with orientation m. */
  lemma SamplesLayout(g: Grid)
    ensures |Samples(g)| == GridSize(g)
    ensures forall i: nat, j: nat, k: nat, m: nat
              | i < g.nx && j < g.ny && k < g.nz && m < |g.orientations|
              :: GridIndex(g, i, j, k, m) < GridSize(g)
                 && Samples(g)[GridIndex(g, i, j, k, m)] == SampledPoint(PoseAt(g, i, j, k, m))
  {
    XRunLength(g, g.nx);
    assert GridSize(g) == g.nx * (g.ny * (g.nz * |g.orientations|));
    forall i: nat, j: nat, k: nat, m: nat
      | i < g.nx && j < g.ny && k < g.nz && m < |g.orientations|
      ensures GridIndex(g, i, j, k, m) < GridSize(g)
      ensures Samples(g)[GridIndex(g, i, j, k, m)] == SampledPoint(PoseAt(g, i, j, k, m))
    {
      SampleAt(g, i, j, k, m);
    }
  }

  /** The four nested loops of sampleUniform: one point per position and
      orientation, x outermost and orientation innermost. */
  method AppendGrid(ws: Workspace, g: Grid)
    modifies ws`points
    ensures ws.points == old(ws.points) + Samples(g)
  {
    var i := 0;
    while i < g.nx
      invariant i <= g.nx
      invariant ws.points == old(ws.points) + XRun(g, i)
    {
      var x := Coord(g.origin.x, i, g.res);
      AppendSlab(ws, g, i, x);
      i := i + 1;
    }
  }

  /** The y loop of sampleUniform for x-step i. */
  method AppendSlab(ws: Workspace, g: Grid, i: nat, x: real)
    requires x == Coord(g.origin.x, i, g.res)
    modifies ws`points
    ensures ws.points == old(ws.points) + YRun(g, i, g.ny)
  {
    var j := 0;
    while j < g.ny
      invariant j <= g.ny
      invariant ws.points == old(ws.points) + YRun(g, i, j)
    {
      var y := Coord(g.origin.y, j, g.res);
      AppendColumn(ws, g, i, j, x, y);
      j := j + 1;
    }
  }

  /** The z loop of sampleUniform for x-step i and y-step j. */
  method AppendColumn(ws: Workspace, g: Grid, i: nat, j: nat, x: real, y: real)
    requires x == Coord(g.origin.x, i, g.res) && y == Coord(g.origin.y, j, g.res)
    modifies ws`points
    ensures ws.points == old(ws.points) + ZRun(g, i, j, g.nz)
  {
    var k := 0;
    while k < g.nz
      invariant k <= g.nz
      invariant ws.points == old(ws.points) + ZRun(g, i, j, k)
    {
      var z := Coord(g.origin.z, k, g.res);
      AppendCell(ws, g, i, j, k, x, y, z);
      k := k + 1;
    }
  }

  /** The orientation loop of sampleUniform at grid position (i, j, k). */
  method AppendCell(ws: Workspace, g: Grid, i: nat, j: nat, k: nat, x: real, y: real, z: real)
    requires x == Coord(g.origin.x, i, g.res) && y == Coord(g.origin.y, j, g.res)
    requires z == Coord(g.origin.z, k, g.res)
    modifies ws`points
    ensures ws.points == old(ws.points) + Orients(g, i, j, k, |g.orientations|)
  {
    var nr := |g.orientations|;
    var m := 0;
    while m < nr
      invariant m <= nr
      invariant ws.points == old(ws.points) + Orients(g, i, j, k, m)
    {
      var p := SampledPoint(Pose(Point3(x, y, z), g.orientations[m]));
      assert p == SampledPoint(PoseAt(g, i, j, k, m));
      ws.points := ws.points + [p];
      m := m + 1;
    }
  }

  /** sampleUniform: fails, changing nothing, when there is no orientation;
      otherwise marks the workspace ordered and appends the grid's poses to
      the points already present (the list is not cleared). */
  method SampleUniform(ws: Workspace) returns (ok: bool)
    requires ws.resolution > 0.0
    modifies ws`points, ws`ordered
    ensures ok == (old(ws.orientations) != [])
    ensures !ok ==> ws.points == old(ws.points) && ws.ordered == old(ws.ordered)
    ensures ok ==> ws.ordered
    ensures ok ==> ws.points == old(ws.points) + Samples(GridOf(ws.box, ws.resolution, ws.orientations))
  {
    if ws.orientations == [] {
      return false;
    }
    ws.ordered := true;
    var g := GridOf(ws.box, ws.resolution, ws.orientations);
    AppendGrid(ws, g);
    ok := true;
  }

  /** The growth and layout the caller of sampleUniform can rely on. */
  lemma SampleUniformLayout(before: seq<WorkspacePoint>, after: seq<WorkspacePoint>, g: Grid)
    requires after == before + Samples(g)
    ensures |after| == |before| + g.nx * g.ny * g.nz * |g.orientations|
    ensures after[..|before|] == before
    ensures forall i: nat, j: nat, k: nat, m: nat
              | i < g.nx && j < g.ny && k < g.nz && m < |g.orientations|
              :: |before| + GridIndex(g, i, j, k, m) < |after|
                 && after[|before| + GridIndex(g, i, j, k, m)] == SampledPoint(PoseAt(g, i, j, k, m))
  {
    SamplesLayout(g);
  }

  /** A box collapsed to one corner gives exactly one sample per orientation. */
  lemma DegenerateBoxGivesOnePoint(q: Quaternion)
    ensures var g := GridOf(BoundingBox(ZeroPoint, ZeroPoint), 0.1, [q]);
            g.nx == 1 && g.ny == 1 && g.nz == 1 && |Samples(g)| == 1
            && Samples(g)[0].pose == Pose(ZeroPoint, q)
  {
    var g := GridOf(BoundingBox(ZeroPoint, ZeroPoint), 0.1, [q]);
    SamplesLayout(g);
    assert GridIndex(g, 0, 0, 0, 0) == 0;
  }

  /** A unit extent along x at resolution 0.5 gives samples at 0, 0.5 and 1. */
  lemma UnitExtentHalfResolution(q: Quaternion)
    ensures var g := GridOf(BoundingBox(ZeroPoint, Point3(1.0, 0.0, 0.0)), 0.5, [q]);
            g.nx == 3 && g.ny == 1 && g.nz == 1 && |Samples(g)| == 3
            && Samples(g)[0].pose.position == Point3(0.0, 0.0, 0.0)
            && Samples(g)[1].pose.position == Point3(0.5, 0.0, 0.0)
            && Samples(g)[2].pose.position == Point3(1.0, 0.0, 0.0)
  {
    var g := GridOf(BoundingBox(ZeroPoint, Point3(1.0, 0.0, 0.0)), 0.5, [q]);
    assert (1.0 / 0.5).Floor == 2;
    assert g.nx == 3 && g.ny == 1 && g.nz == 1;
    SampleAt(g, 0, 0, 0, 0);
    SampleAt(g, 1, 0, 0, 0);
    SampleAt(g, 2, 0, 0, 0);
    assert GridIndex(g, 1, 0, 0, 0) == 1;
    assert GridIndex(g, 2, 0, 0, 0) == 2;
  }
}
