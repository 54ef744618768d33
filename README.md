# Voxel raymarcher host logic, in Dafny

This project models the two pieces of host-side logic of a small OpenGL
voxel raymarcher and proves properties about them.

- **The voxel scene classifier** (`voxel_generator.dfy`, module
  `VoxelGenerator`). Every cell `(x, y, z)` of a 16×16×16 grid gets a
  material label from a first-match chain. A cell in the central core cube
  is SEMI_SOLID. A cell in the centred window square on any coordinate pair
  is VOID. A wall cell outside the glass square on every pair is SOLID. Any
  other wall cell is VOID on the face z = 15 and GLASS elsewhere. Every
  remaining cell is VOID. The centred bands come from truncating
  `0.5N − 0.5rN` and `0.5N + 0.5rN − 0.5`. They are modelled over `real`
  with an explicit truncation toward zero, as C++'s `int(...)` does. The
  triple loop of `initVoxels` is a method that allocates an
  `array3<Byte>` and fills it at the transposed index `grid[z, y, x]`. A ghost multiset
  counts the stores to each cell.
- **The material encoding** (`materials.dfy`, module `Materials`). The
  labels and the byte the shader reads for each one.
- **The orbit camera** (`camera.dfy`, module `OrbitCamera`). The class
  `Camera` has yaw (`x` in the C++ class), pitch (`y`), zoom and the drag
  anchor `mxPrev`/`myPrev`, all as `real` or `int` fields. Clicks, drags
  and the per-frame tick update them in place. Publishing the camera
  matrices (`updateCameraMatrix`) is modelled as appending the current pose
  to the ghost sequence `published`. The matrix math is not modelled. The
  GLUT key states for 'z' and 'x' become boolean parameters of `Update`.

The main results:

- `ClassifyIsScene` proves that the first-match chain builds exactly an
  independently stated scene (`Scene`). The twelve edges of the box are
  solid. Each face is glass around a 4×4 window, except the open face
  z = 15. A 2×2×2 core sits in an empty interior.
- `InitVoxels` proves that every grid entry holds its cell's label,
  transposed, and that every cell is stored exactly once.
- `Camera.MouseDragged` keeps pitch within ±0.499π after every drag.
  `ClampPitch` proves that the clamp picks the nearest allowed pitch.

Points about the code worth knowing:

- The band bounds are truncated by `int(...)`, not rounded.
- Cell (0, 1, 1) is GLASS, not SOLID: its (y, z) pair (1, 1) lies in the
  0.875 band [1, 14] (`SceneSamples`).
- `src/materials.hpp:6-10` declares only VOID=0, GLASS=1 and SOLID=2, yet
  the generator uses `Material::SEMI_SOLID`. The model adds `SemiSolid`
  and encodes it as 3, the next free byte.
- `src/camera.hpp:14` declares `update()`, `src/camera.cpp:39` defines
  `update(float delta_t)` and `src/main.cpp:83` calls `update()`. The model
  follows the definition, `Update(deltaT, zHeld, xHeld)`.

## Model

| member | source | states |
|---|---|---|
| `Materials.Code` | src/materials.hpp:6-10 | each material is stored as a byte below 4, and only VOID is stored as 0 |
| `Materials.Decode` | src/materials.hpp:6-10 | a byte names a material exactly when it is below 4 |
| `Materials.DecodeCode` | src/materials.hpp:6-10 | decoding a material's byte gives back that material |
| `Materials.CodeDecode` | src/materials.hpp:6-10 | every byte below 4 is the code of the material it decodes to |
| `Materials.CodeInjective` | src/materials.hpp:6-10 | distinct materials are stored as distinct bytes |
| `VoxelGenerator.Trunc` | src/voxel-generator.cpp:35-36 | `int(v)` truncates toward zero: the result lies within one unit of v, on the side of v toward zero |
| `VoxelGenerator.TruncMonotone` | src/voxel-generator.cpp:35-36 | truncation preserves order |
| `VoxelGenerator.BandBounds` | src/voxel-generator.cpp:34-37 | with N = 16, the single-axis test with ratio 0.125, 0.25 or 0.875 holds exactly on [7,8], [6,9] or [1,14] |
| `VoxelGenerator.BandInsideGrid` | src/voxel-generator.cpp:34-37 | for a ratio in [0,1] both bounds and every index in the band lie inside the grid |
| `VoxelGenerator.BandsNested` | src/voxel-generator.cpp:34-37 | the band of a larger ratio contains the band of a smaller one |
| `VoxelGenerator.BandsSymmetric` | src/voxel-generator.cpp:58-60 | the three bands the scene uses are mirror-symmetric about the grid midpoint |
| `VoxelGenerator.RatioTestsSymmetric` | src/voxel-generator.cpp:39-45 | the two- and three-axis tests do not change when their coordinates are permuted |
| `VoxelGenerator.WallIsOutsideGlassCube` | src/voxel-generator.cpp:47-50 | inside the grid, a cell is a wall cell iff some coordinate is 0 or N−1, iff it lies outside the 0.875 band on some axis |
| `VoxelGenerator.WithinRatio` | src/voxel-generator.cpp:34-37 | for a ratio in [0,1] every index in the band lies inside the grid; the concrete bands are in `BandBounds`, nesting in `BandsNested` |
| `VoxelGenerator.WithinRatio2` | src/voxel-generator.cpp:39-41 | with ratio 0.25 it holds exactly on the square [6,9]², with ratio 0.875 exactly on [1,14]²; symmetry under swapping the coordinates is `RatioTestsSymmetric` |
| `VoxelGenerator.WithinRatio3` | src/voxel-generator.cpp:43-45 | with ratio 0.125 it holds exactly on the cube [7,8]³; symmetry under permuting the coordinates is `RatioTestsSymmetric` |
| `VoxelGenerator.IsWall` | src/voxel-generator.cpp:47-50 | inside the grid, a cell is a wall cell exactly when it is not in the interior cube [1,14]³; the link to the 0.875 band and to the face count is `WallIsOutsideGlassCube` |
| `VoxelGenerator.Classify` | src/voxel-generator.cpp:65-83 | SEMI_SOLID iff inside the core band on all three axes; a non-wall cell is only VOID or SEMI_SOLID; GLASS only on walls off the face z = N−1; SOLID only on walls outside the 0.875 band on all three pairs |
| `VoxelGenerator.WindowCutsThrough` | src/voxel-generator.cpp:67-70 | a non-core cell inside the 0.25 band on any one of the pairs (x,y), (x,z), (y,z) is VOID, wall or not, whatever its third coordinate |
| `VoxelGenerator.OpenFaceHasNoGlass` | src/voxel-generator.cpp:76-77 | no cell on the face z = N−1 is GLASS |
| `VoxelGenerator.BoundaryCount` | src/voxel-generator.cpp:47-50 | counts at most three boundary coordinates, and zero exactly for a cell off every face |
| `VoxelGenerator.ClassifyIsScene` | src/voxel-generator.cpp:62-86 | inside the grid, the first-match chain equals the scene: solid edges, glass faces with a central 4×4 window, an open face z = 15, and a 2×2×2 core in empty air |
| `VoxelGenerator.SolidIsFrame` | src/voxel-generator.cpp:71-75 | inside the grid, a cell is SOLID exactly when two or more of its coordinates are 0 or N−1 |
| `VoxelGenerator.SceneSamples` | src/voxel-generator.cpp:58-83 | the centre (8,8,8) is SEMI_SOLID, the face centre (0,8,8) VOID, (0,1,1) GLASS, the edge cell (0,0,5) SOLID, and (5,3,15) on the open face VOID |
| `VoxelGenerator.InitVoxels` | src/voxel-generator.cpp:54-86 | the returned N×N×N grid holds at `[z,y,x]` the byte of cell (x,y,z)'s label, and every cell, and nothing else, is stored exactly once |
| `OrbitCamera.ClampPitch` | src/camera.cpp:64-69 | the clamped pitch lies in [−MAX_Y, MAX_Y] and is the allowed value nearest to the unclamped one |
| `OrbitCamera.ClampPitchKeepsAllowed` | src/camera.cpp:64-69 | an allowed pitch passes unchanged, so clamping is idempotent |
| `OrbitCamera.ClampPitchMonotone` | src/camera.cpp:64-69 | clamping preserves the order of pitches |
| `OrbitCamera.ZoomedIn` | src/camera.cpp:41-42 | a zoom-in tick leaves zoom at least MAX_ZOOM (0.01), and it equals the lowered zoom unless the floor applies |
| `OrbitCamera.Camera.constructor` | src/camera.cpp:21-25 | yaw 0, pitch 0, zoom 2.5·N = 40, anchor (0,0), and one publication of that pose |
| `OrbitCamera.Camera.UpdateCameraMatrix` | src/camera.cpp:27-37 | publishes the current pose and changes nothing else |
| `OrbitCamera.Camera.Update` | src/camera.cpp:39-48 | with 'z' held, zoom is lowered by ZOOM_RATE·Δt and floored; else with 'x' held it is raised by exactly ZOOM_RATE·Δt; with neither held nothing changes and nothing is published; yaw, pitch and anchor never change |
| `OrbitCamera.Camera.MouseClicked` | src/camera.cpp:50-57 | on a press the anchor becomes the cursor; on any other state nothing changes; the button is ignored, and yaw, pitch, zoom and publications are untouched |
| `OrbitCamera.Camera.MouseDragged` | src/camera.cpp:59-77 | yaw changes by exactly −ROTATE_RATE·(mx−anchor x), pitch becomes the clamp of pitch + ROTATE_RATE·(anchor y − my), so it is always in range; zoom is unchanged; the published pose is the post-clamp pose; the anchor becomes (mx,my); a drag to the anchor changes neither yaw nor an in-range pitch |
| `OrbitCamera.ZoomInTicks` | src/camera.cpp:39-48 | after one or more zoom-in ticks, zoom is at least MAX_ZOOM, whatever it started at |
| `OrbitCamera.DragAlong` | src/camera.cpp:59-77 | along any non-empty sequence of drags, pitch ends in range and the anchor is the last cursor position |
| `OrbitCamera.DragScenario` | src/camera.cpp:59-77 | from a fresh camera, a press at (200,300) then a drag to (300,300) gives yaw −1 and pitch 0 |

## Left out

- The 3-D texture creation and upload, and the three uniform writes (`voxel_density`, `voxel_width`, `voxel_count`) at the end of `initVoxels` (src/voxel-generator.cpp:90-106). These are OpenGL side effects.
- `printVoxels` (src/voxel-generator.cpp:10-32) writes to stdout, and its only call is commented out.
- The body of `updateCameraMatrix`: the rotation, look-at and inversion go through a vector library that is not part of this model. `UpdateCameraMatrix` records the pose the matrices are computed from.
- `glutKeyIsDown` becomes the `zHeld` and `xHeld` parameters of `Update`. `glutPostRedisplay` at the end of a drag is dropped, because it only requests a redraw.
- The default constructor `Camera()`, which delegates with shader 0, is the constructor called with 0.
- Floating point: the camera fields are `float` in the C++ class and `real` here, and MAX_Y is 0.499 times M_PI to 16 significant digits. No float rounding is modelled. The cursor differences `mx - mx_prev` are unbounded integers here, with no 32-bit overflow.
- src/main.cpp (window, callbacks, event loop), src/shader-utils.hpp and src/gl-import.hpp are not part of this model.
