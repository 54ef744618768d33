/**
 * The voxel scene classifier: every cell (x, y, z) of a VoxelCount^3 grid
 * gets a material label by a first-match chain of centred-band tests, and
 * the labels are written into a 3-D byte grid indexed grid[z, y, x].
 */
module VoxelGenerator {
  import opened Materials

  /** Side length of the grid (a power of two). */
  const VoxelCount: int := 16
  /** Width of one voxel in world units. */
  const VoxelWidth: real := 1.0

  /** Ratio of the glowing core cube. */
  const CenterGlass: real := 0.125
  /** Ratio of the square window carved through each wall. */
  const WallHole: real := 0.25
  /** Ratio of the glass pane inside each wall's solid frame. */
  const WallGlass: real := 0.875

  /** C++'s conversion `int(v)` of a floating value: truncation toward zero. */
  function Trunc(v: real): (t: int)
    ensures 0.0 <= v ==> t as real <= v < t as real + 1.0
    ensures v < 0.0 ==> v <= t as real < v + 1.0
  {
    if v >= 0.0 then v.Floor else -((-v).Floor)
  }

  /** Truncation never reverses the order of its arguments. */
  lemma TruncMonotone(a: real, b: real)
    requires a <= b
    ensures Trunc(a) <= Trunc(b)
  {
  }

  /** Lowest index of the centred band of ratio r. */
  function BandLow(r: real): int
  {
    Trunc(0.5 * VoxelCount as real - 0.5 * r * VoxelCount as real)
  }

  /** Highest index of the centred band of ratio r. */
  function BandHigh(r: real): int
  {
    Trunc(0.5 * VoxelCount as real + 0.5 * r * VoxelCount as real - 0.5)
  }

  /** Single-axis test: index x lies in the centred band of ratio r. */
  function WithinRatio(x: int, r: real): (b: bool)
    ensures 0.0 <= r <= 1.0 && b ==> 0 <= x < VoxelCount
  {
    x >= BandLow(r) && x <= BandHigh(r)
  }

  /** Two-axis test: both indices lie in the band. */
  function WithinRatio2(x: int, y: int, r: real): (b: bool)
    ensures r == WallHole ==> (b <==> 6 <= x <= 9 && 6 <= y <= 9)
    ensures r == WallGlass ==> (b <==> 1 <= x <= 14 && 1 <= y <= 14)
  {
    WithinRatio(x, r) && WithinRatio(y, r)
  }

  /** Three-axis test: all three indices lie in the band. */
  function WithinRatio3(x: int, y: int, z: int, r: real): (b: bool)
    ensures r == CenterGlass ==> (b <==> 7 <= x <= 8 && 7 <= y <= 8 && 7 <= z <= 8)
  {
    WithinRatio(x, r) && WithinRatio(y, r) && WithinRatio(z, r)
  }

  /** The cell lies on the outer shell of the grid. */
  function IsWall(x: int, y: int, z: int): (b: bool)
    ensures InGrid(x, y, z) ==> (b <==> !(1 <= x <= 14 && 1 <= y <= 14 && 1 <= z <= 14))
  {
    x == 0 || y == 0 || z == 0 ||
    x == VoxelCount - 1 || y == VoxelCount - 1 || z == VoxelCount - 1
  }

  predicate InGrid(x: int, y: int, z: int)
  {
    0 <= x < VoxelCount && 0 <= y < VoxelCount && 0 <= z < VoxelCount
  }

  /** The first-match classification of one cell. */
  function Classify(x: int, y: int, z: int): (m: Material)
    ensures m == SemiSolid <==> WithinRatio3(x, y, z, CenterGlass)
    ensures !IsWall(x, y, z) ==> m == Void || m == SemiSolid
    ensures m == Glass ==> IsWall(x, y, z) && z != VoxelCount - 1
    ensures m == Solid ==>
      && IsWall(x, y, z)
      && !WithinRatio2(x, y, WallGlass)
      && !WithinRatio2(x, z, WallGlass)
      && !WithinRatio2(y, z, WallGlass)
  {
    if WithinRatio3(x, y, z, CenterGlass) then
      SemiSolid
    else if WithinRatio2(x, y, WallHole)
         || WithinRatio2(x, z, WallHole)
         || WithinRatio2(y, z, WallHole) then
      Void
    else if IsWall(x, y, z) then
      if !WithinRatio2(x, y, WallGlass)
         && !WithinRatio2(x, z, WallGlass)
         && !WithinRatio2(y, z, WallGlass) then
        Solid
      else if z == VoxelCount - 1 then
        Void
      else
        Glass
    else
      Void
  }

  // ---------------------------------------------------------------------
  // The bands

  /** For the grid of 16 cells the three bands are [7,8], [6,9] and [1,14]. */
  lemma BandBounds(x: int)
    ensures WithinRatio(x, CenterGlass) <==> 7 <= x <= 8
    ensures WithinRatio(x, WallHole) <==> 6 <= x <= 9
    ensures WithinRatio(x, WallGlass) <==> 1 <= x <= 14
  {
  }

  /** For a ratio in [0, 1] the band lies inside the grid. */
  lemma BandInsideGrid(r: real, x: int)
    requires 0.0 <= r <= 1.0
    ensures 0 <= BandLow(r) && BandHigh(r) <= VoxelCount - 1
    ensures WithinRatio(x, r) ==> 0 <= x < VoxelCount
  {
  }

  /** A band of a larger ratio contains the band of a smaller one. */
  lemma BandsNested(r: real, s: real, x: int)
    requires r <= s
    ensures WithinRatio(x, r) ==> WithinRatio(x, s)
  {
  }

  /** The bands used by the scene are symmetric about the grid's midpoint. */
  lemma BandsSymmetric(x: int)
    ensures WithinRatio(x, CenterGlass) <==> WithinRatio(VoxelCount - 1 - x, CenterGlass)
    ensures WithinRatio(x, WallHole) <==> WithinRatio(VoxelCount - 1 - x, WallHole)
    ensures WithinRatio(x, WallGlass) <==> WithinRatio(VoxelCount - 1 - x, WallGlass)
  {
  }

  /** The two- and three-axis tests do not depend on the order of their coordinates. */
  lemma RatioTestsSymmetric(x: int, y: int, z: int, r: real)
    ensures WithinRatio2(x, y, r) == WithinRatio2(y, x, r)
    ensures WithinRatio3(x, y, z, r) == WithinRatio3(y, x, z, r)
    ensures WithinRatio3(x, y, z, r) == WithinRatio3(x, z, y, r)
    ensures WithinRatio3(x, y, z, r) == WithinRatio3(z, y, x, r)
  {
  }

  // ---------------------------------------------------------------------
  // The scene, stated independently of the band tests

  /** Coordinate c lies on a face of the grid. */
  predicate OnBoundary(c: int)
  {
    c == 0 || c == VoxelCount - 1
  }

  /** How many of the cell's coordinates lie on a face of the grid. */
  function BoundaryCount(x: int, y: int, z: int): (k: nat)
    ensures k <= 3
    ensures k == 0 <==> !OnBoundary(x) && !OnBoundary(y) && !OnBoundary(z)
  {
    (if OnBoundary(x) then 1 else 0) +
    (if OnBoundary(y) then 1 else 0) +
    (if OnBoundary(z) then 1 else 0)
  }

  /** The two coordinates of a cell that lies on exactly one face, within that face. */
  function FaceCoordinates(x: int, y: int, z: int): (int, int)
  {
    if OnBoundary(x) then (y, z)
    else if OnBoundary(y) then (x, z)
    else (x, y)
  }

  /**
   * The scene: the twelve edges of the box are solid; each face is a glass
   * pane with a 4x4 window in its middle, except the face z = 15, which is
   * open; the inside is air around a 2x2x2 glowing core.
   */
  function Scene(x: int, y: int, z: int): Material
  {
    var k := BoundaryCount(x, y, z);
    if k >= 2 then
      Solid
    else if k == 1 then
      var (u, v) := FaceCoordinates(x, y, z);
      if 6 <= u <= 9 && 6 <= v <= 9 then Void
      else if z == VoxelCount - 1 then Void
      else Glass
    else if 7 <= x <= 8 && 7 <= y <= 8 && 7 <= z <= 8 then
      SemiSolid
    else
      Void
  }

  /** The first-match chain builds exactly the scene. */
  lemma ClassifyIsScene(x: int, y: int, z: int)
    requires InGrid(x, y, z)
    ensures Classify(x, y, z) == Scene(x, y, z)
  {
  }

  /** A wall cell is exactly a cell outside the 0.875 band on some axis. */
  lemma WallIsOutsideGlassCube(x: int, y: int, z: int)
    requires InGrid(x, y, z)
    ensures IsWall(x, y, z) <==> !WithinRatio3(x, y, z, WallGlass)
    ensures IsWall(x, y, z) <==> BoundaryCount(x, y, z) >= 1
  {
  }

  /** SOLID cells are exactly the edges of the box: two or more coordinates on a face. */
  lemma SolidIsFrame(x: int, y: int, z: int)
    requires InGrid(x, y, z)
    ensures Classify(x, y, z) == Solid <==> BoundaryCount(x, y, z) >= 2
  {
  }

  /**
   * A non-core cell inside the window band on any one coordinate pair is
   * VOID, wall or not, whatever its third coordinate.
   */
  lemma WindowCutsThrough(x: int, y: int, z: int)
    requires !WithinRatio3(x, y, z, CenterGlass)
    requires WithinRatio2(x, y, WallHole) || WithinRatio2(x, z, WallHole) || WithinRatio2(y, z, WallHole)
    ensures Classify(x, y, z) == Void
  {
  }

  /** The open face z = 15 holds no glass. */
  lemma OpenFaceHasNoGlass(x: int, y: int)
    ensures Classify(x, y, VoxelCount - 1) != Glass
  {
  }

  /** Sample cells: the centre, a face centre, a cell near a corner, an edge cell and a cell on the open face. */
  lemma SceneSamples()
    ensures Classify(8, 8, 8) == SemiSolid
    ensures Classify(0, 8, 8) == Void
    ensures Classify(0, 1, 1) == Glass
    ensures Classify(0, 0, 5) == Solid
    ensures Classify(5, 3, VoxelCount - 1) == Void
  {
  }

  // ---------------------------------------------------------------------
  // Filling the grid

  /**
   * Cell (i, j, k) is visited before cell (x, y, z) by the loop, which runs
   * x outermost and z innermost.
   */
  predicate VisitedBefore(i: int, j: int, k: int, x: int, y: int, z: int)
  {
    i < x || (i == x && (j < y || (j == y && k < z)))
  }

  /** Every grid cell visited before (x, y, z) holds its label, transposed. */
  ghost predicate FilledBefore(grid: array3<Byte>, x: int, y: int, z: int)
    requires grid.Length0 == VoxelCount && grid.Length1 == VoxelCount && grid.Length2 == VoxelCount
    reads grid
  {
    forall i, j, k :: InGrid(i, j, k) && VisitedBefore(i, j, k, x, y, z) ==>
      grid[k, j, i] == Code(Classify(i, j, k))
  }

  /** Exactly the grid cells visited before (x, y, z) have been stored, once each. */
  ghost predicate StoredOnceBefore(writes: multiset<(int, int, int)>, x: int, y: int, z: int)
  {
    forall c :: writes[c] ==
      (if InGrid(c.0, c.1, c.2) && VisitedBefore(c.0, c.1, c.2, x, y, z) then 1 else 0)
  }

  /**
   * The classification loop of initVoxels: visits every cell once and
   * stores its label transposed, at grid[z, y, x]. `writes` counts the
   * stores made to each cell.
   */
  method InitVoxels() returns (grid: array3<Byte>, ghost writes: multiset<(int, int, int)>)
    ensures grid.Length0 == VoxelCount && grid.Length1 == VoxelCount && grid.Length2 == VoxelCount
    ensures forall x, y, z :: InGrid(x, y, z) ==> grid[z, y, x] == Code(Classify(x, y, z))
    ensures forall c :: writes[c] == (if InGrid(c.0, c.1, c.2) then 1 else 0)
  {
    grid := new Byte[VoxelCount, VoxelCount, VoxelCount];
    writes := multiset{};
    for x := 0 to VoxelCount
      invariant FilledBefore(grid, x, 0, 0)
      invariant StoredOnceBefore(writes, x, 0, 0)
    {
      for y := 0 to VoxelCount
        invariant FilledBefore(grid, x, y, 0)
        invariant StoredOnceBefore(writes, x, y, 0)
      {
        for z := 0 to VoxelCount
          invariant FilledBefore(grid, x, y, z)
          invariant StoredOnceBefore(writes, x, y, z)
        {
          grid[z, y, x] := Code(Classify(x, y, z));
          writes := writes + multiset{(x, y, z)};
        }
      }
    }
  }
}
