# Virtual camera: a verified model of the wireframe pipeline

Virtual-Camera-Angular draws a small wireframe street (six cube "houses" and a
floor grid) on a 600×600 canvas through a movable, rotatable, zoomable camera.
This project models in Dafny the four parts that do the work:

- **the matrix engine** (`Matrix4x4`): the constructor that falls back to the
  identity, the triple-loop matrix product, the matrix-times-point product,
  the three axis rotations and the transpose (`matrix4x4.dfy`, with the
  algebraic laws in `matrix_laws.dfy`);
- **the camera** (`Camera`): its three mutable fields and `project`, a depth
  test with the sentinel `(-1, -1)` and a perspective divide with focal
  constant 500 and the screen y axis pointing down (`camera.dfy`);
- **the line** (`Line3D`): the default colour and `render`, which culls the
  whole segment when either end is at or behind the eye and otherwise draws
  one segment in the line's colour (`line3d.dfy`);
- **the component** (`AppComponent`): the key controller (`handleKey`,
  `rotateCamera`), the scene builder (`createScene`, `createCube`) and one
  frame of `loop` as an ordered draw list (`app_component.dfy`).

Numbers are Dafny `real`s. `Math.cos(angle)` and `Math.sin(angle)` are not
computed: every rotation takes the pair `(c, s)` they would return, and the
laws that need it assume `c*c + s*s == 1`. A rotation by `-angle` is the pair
`(c, -s)`. The controller takes `(c, s)` for its step of 0.05 as parameters.

The state-changing operations and the loops of the source are methods,
the loops with loop invariants, each proved equal to a specification
function (`MultiplyMatrix` to `Product`, `MultiplyPoint`
to `Transform`, `HandleKey` to `KeyStep`, `Loop` to `Draws`, `CreateScene` to
`SceneBuildings` and `SceneFloor`); the lemmas then state the promises of the
program about those functions.

## Model

| member | source | states |
|---|---|---|
| Matrices.Identity | src/app/models/matrix4x4.ts:12-17 | the fallback matrix is 4×4 with 1 on the diagonal and 0 elsewhere |
| Matrices.New | src/app/models/matrix4x4.ts:6-19 | the result is always 4×4; data of exactly 4 rows of 4 entries is kept as given; anything else (no data, wrong row count, a short or long row) gives the identity |
| MatrixLaws.NewKeepsOrFallsBack | src/app/models/matrix4x4.ts:6-19 | calling the constructor without data gives the identity; rebuilding from a matrix's own data gives the same matrix back |
| Matrices.ProductAt | src/app/models/matrix4x4.ts:21-35 | the product is 4×4 and its entry (i, j) is the sum over k of m1[i][k]·m2[k][j] |
| Matrices.MultiplyMatrix | src/app/models/matrix4x4.ts:21-35 | the triple loop returns a well-formed matrix equal to the product `Product(m1, m2)` |
| MatrixLaws.IdentityLeftUnit | src/app/models/matrix4x4.ts:21-35 | identity · m = m |
| MatrixLaws.IdentityRightUnit | src/app/models/matrix4x4.ts:21-35 | m · identity = m |
| MatrixLaws.ProductAssociative | src/app/models/matrix4x4.ts:21-35 | (a·b)·c = a·(b·c), so accumulated rotations can be regrouped |
| MatrixLaws.IdentityAffine | src/app/models/matrix4x4.ts:12-17 | the starting transform has last row and column [0, 0, 0, 1]: no translation or perspective part |
| MatrixLaws.ProductAffine | src/app/models/matrix4x4.ts:21-35 | the product of two matrices with last row and column [0, 0, 0, 1] has that shape too |
| Matrices.MultiplyPoint | src/app/models/matrix4x4.ts:37-51 | the loop returns the first three components of M·[x, y, z, 1] |
| MatrixLaws.TransformIdentity | src/app/models/matrix4x4.ts:37-51 | transforming by the identity returns the same point |
| MatrixLaws.TransformProduct | src/app/models/matrix4x4.ts:37-51 | transforming by a·b is transforming by b and then by a, when b keeps the homogeneous coordinate at 1 |
| Matrices.RotationX | src/app/models/matrix4x4.ts:53-62 | the rotation about x is 4×4 with last row and last column [0, 0, 0, 1] |
| Matrices.RotationY | src/app/models/matrix4x4.ts:64-73 | the rotation about y is 4×4 with last row and last column [0, 0, 0, 1] |
| Matrices.RotationZ | src/app/models/matrix4x4.ts:75-84 | the rotation about z is 4×4 with last row and last column [0, 0, 0, 1] |
| MatrixLaws.RotationXActs | src/app/models/matrix4x4.ts:53-62 | rotationX keeps x and maps (y, z) to (y·c − z·s, y·s + z·c) |
| MatrixLaws.RotationYActs | src/app/models/matrix4x4.ts:64-73 | rotationY keeps y and maps (x, z) to (x·c + z·s, −x·s + z·c) |
| MatrixLaws.RotationZActs | src/app/models/matrix4x4.ts:75-84 | rotationZ keeps z and maps (x, y) to (x·c − y·s, x·s + y·c) |
| MatrixLaws.RotationZeroAngle | src/app/models/matrix4x4.ts:53-84 | each rotation by angle 0, (c, s) = (1, 0), is the identity |
| MatrixLaws.RotationXUndo | src/app/models/matrix4x4.ts:53-62 | rotationX(θ)·rotationX(−θ) is the identity when c² + s² = 1 |
| MatrixLaws.RotationYUndo | src/app/models/matrix4x4.ts:64-73 | rotationY(θ)·rotationY(−θ) is the identity when c² + s² = 1 |
| MatrixLaws.RotationZUndo | src/app/models/matrix4x4.ts:75-84 | rotationZ(θ)·rotationZ(−θ) is the identity when c² + s² = 1 |
| MatrixLaws.RotationXAdds | src/app/models/matrix4x4.ts:53-62 | rotationX(θ2)·rotationX(θ1) is rotationX of the summed angle, in (cos, sin) form |
| MatrixLaws.RotationYAdds | src/app/models/matrix4x4.ts:64-73 | rotationY(θ2)·rotationY(θ1) is rotationY of the summed angle, in (cos, sin) form |
| MatrixLaws.RotationZAdds | src/app/models/matrix4x4.ts:75-84 | rotationZ(θ2)·rotationZ(θ1) is rotationZ of the summed angle, in (cos, sin) form |
| MatrixLaws.RotationsHaveDeterminantOne | src/app/models/matrix4x4.ts:53-84 | each rotation has determinant 1 when c² + s² = 1: it keeps orientation and volume |
| Matrices.Transpose | src/app/models/matrix4x4.ts:86-94 | the transpose is 4×4 and moves entry (j, i) to (i, j) |
| MatrixLaws.TransposeInvolution | src/app/models/matrix4x4.ts:86-94 | transposing twice gives the matrix back |
| MatrixLaws.RotationTransposes | src/app/models/matrix4x4.ts:86-94 | the transpose of each rotation is the rotation by the opposite angle |
| MatrixLaws.RotationXOrthogonal | src/app/models/matrix4x4.ts:53-94 | R·Rᵀ and Rᵀ·R are the identity for rotationX when c² + s² = 1 |
| MatrixLaws.RotationYOrthogonal | src/app/models/matrix4x4.ts:53-94 | R·Rᵀ and Rᵀ·R are the identity for rotationY when c² + s² = 1 |
| MatrixLaws.RotationZOrthogonal | src/app/models/matrix4x4.ts:53-94 | R·Rᵀ and Rᵀ·R are the identity for rotationZ when c² + s² = 1 |
| Cameras.Camera.constructor | src/app/models/camera.ts:7-9 | a new camera keeps the given position and zoom and starts with the identity transform, which is affine, so the camera invariant (4×4 and affine) holds from the start |
| Cameras.Camera.Project | src/app/models/camera.ts:11-31 | the point is behind exactly when its transformed depth is not positive, and then the result is (-1, -1); otherwise the offset from the canvas centre times the depth is the transformed offset from the eye times zoom·500, with y negated |
| Cameras.ProjectCentre | src/app/models/camera.ts:25-30 | a point in front whose transformed x and y equal the eye's projects to the centre (size/2, size/2) |
| Cameras.ProjectDeadCentre | src/app/models/camera.ts:11-31 | from the origin, unrotated at zoom 1, the point (0, 0, 500) lands on the centre |
| Cameras.ProjectZoomScales | src/app/models/camera.ts:25-28 | scaling the zoom by k keeps the behind test and scales both offsets from the centre by k (doubling zoom doubles them) |
| Cameras.ProjectInvertsY | src/app/models/camera.ts:28 | with positive zoom and equal depth, a higher transformed y gives a smaller screen y |
| Cameras.ProjectKeepsXOrder | src/app/models/camera.ts:27 | with positive zoom and equal depth, a larger transformed x gives a larger screen x |
| Lines.NewLine | src/app/models/line3d.ts:6 | the line keeps its two ends; a given colour is kept and a missing one is "black" |
| Lines.Render | src/app/models/line3d.ts:8-23 | nothing is drawn exactly when either end has non-positive depth; a drawn stroke has the line's colour |
| Lines.RenderCullsBehindStart | src/app/models/line3d.ts:13-15 | a start projected as behind means no stroke |
| Lines.RenderCullsBehindEnd | src/app/models/line3d.ts:13-15 | an end projected as behind means no stroke, whatever the start |
| Lines.RenderDrawsInFront | src/app/models/line3d.ts:17-22 | with both ends in front, exactly one stroke from the projected start to the projected end in the line's colour |
| Lines.RenderReversed | src/app/models/line3d.ts:8-23 | swapping the ends culls the same lines and draws the same segment reversed |
| Viewer.TranslationKeysMoveOneAxis | src/app/app.component.ts:59-64 | each arrow and page key moves the eye by 20 along its one axis; zoom, transform and the other coordinates stay |
| Viewer.TranslationKeysUndo | src/app/app.component.ts:59-64 | each arrow or page key is undone by its opposite, in either order |
| Viewer.RotationKeysLeftMultiply | src/app/app.component.ts:66-71 | for any 4×4 transform, w/s, a/d, q/e replace the transform by R·old with R the rotation about x, y, z by ∓step; position and zoom stay |
| Viewer.RotationKeysRotatePoints | src/app/app.component.ts:66-71 | on an affine transform, which every camera has, after a rotation key every point is rotated by the old transform and then by R |
| Viewer.PitchKeysUndo | src/app/app.component.ts:66-67 | 'w' and 's' undo each other, in either order, when c² + s² = 1 |
| Viewer.YawKeysUndo | src/app/app.component.ts:68-69 | 'a' and 'd' undo each other, in either order, when c² + s² = 1 |
| Viewer.RollKeysUndo | src/app/app.component.ts:70-71 | 'q' and 'e' undo each other, in either order, when c² + s² = 1 |
| Viewer.RepeatedTurnAccumulates | src/app/app.component.ts:78-89 | n presses of 'd' left-multiply the n-th power of the step rotation onto the transform and keep position and zoom |
| Viewer.ZoomKeysScale | src/app/app.component.ts:73-74 | 'x' multiplies the zoom by 0.9 and 'z' by 1.1, nothing else changes; no key makes a positive zoom non-positive |
| Viewer.ZoomOutInLosesOnePercent | src/app/app.component.ts:73-74 | 'x' then 'z' (or 'z' then 'x') leaves 0.99 of the zoom, not the zoom |
| Viewer.UnknownKeyIgnored | src/app/app.component.ts:57-75 | a key outside the switch leaves the camera exactly as it was |
| Viewer.KeyStepKeepsAffine | src/app/app.component.ts:52-76 | no key gives the transform a translation or perspective part |
| Viewer.AppComponent.HandleKey | src/app/app.component.ts:52-76 | the camera's new position, zoom and transform are `KeyStep` of the old ones; the camera invariant (affine transform) is kept; the line lists are untouched |
| Viewer.AppComponent.RotateCamera | src/app/app.component.ts:78-89 | the transform becomes the axis rotation times the old transform and stays affine; another axis changes nothing; position and zoom stay |
| Viewer.CubeCornersLayers | src/app/app.component.ts:136-151 | of the eight corners, the first four are on the ground (y = 0 whatever the centre's y) and the last four are the same corners raised by the height |
| Viewer.CubeCornersOnBox | src/app/app.component.ts:136-151 | each corner lies at x = centre.x ± size/2, z = centre.z ± size/2, y = 0 or height |
| Viewer.CubeEdges | src/app/app.component.ts:153-160 | a cube is 12 lines |
| Viewer.CubeEdgesOnBox | src/app/app.component.ts:135-161 | every cube line has the given colour, and both its ends are corners of the box, so have y equal to 0 or the height |
| Viewer.CubeRings | src/app/app.component.ts:153-160 | lines 1-4 are the closed top square, 5-8 the uprights from ground to top, 9-12 the closed bottom square |
| Viewer.AppComponent.CreateCube | src/app/app.component.ts:135-161 | the building lines gain exactly the 12 cube lines at the end; the floor lines are unchanged |
| Viewer.HouseEdges | src/app/app.component.ts:102-108 | a house on either side of the street is black, between ground and roof, and at least 200 from the street's middle |
| Viewer.BuildingsShape | src/app/app.component.ts:102-108 | the scene has 72 building lines (6 cubes), all black, between ground and roof, none inside the street |
| Viewer.AppComponent.CreateBuildings | src/app/app.component.ts:102-108 | rows -1, 0, 1 each append the left then the right cube, ending with the scene's building lines |
| Viewer.FloorShape | src/app/app.component.ts:110-132 | the floor has 2·(800/50 + 1) = 34 lines: 17 along z at x = -400 … 400 then 17 along x at z = 100 … -700, all at y = 0 and in colour #b5d5aaff |
| Viewer.AppComponent.CreateFloorAlongZ | src/app/app.component.ts:117-123 | the first floor loop appends the 17 lines along z, left to right |
| Viewer.AppComponent.CreateFloorAlongX | src/app/app.component.ts:125-132 | the second floor loop appends the 17 lines along x, front to back |
| Viewer.AppComponent.CreateScene | src/app/app.component.ts:91-133 | both lists end as the scene's building lines and floor lines whatever they held before, so building twice gives the same scene |
| Viewer.AppComponent.constructor | src/app/app.component.ts:18-36 | the camera starts at (0, 300, -1200) with zoom 1 and the identity transform, and the scene is built |
| Viewer.Draws | src/app/app.component.ts:41-47 | one frame draws at most one stroke per line |
| Viewer.DrawsAppend | src/app/app.component.ts:41-47 | drawing two lists in turn draws their strokes in turn |
| Viewer.DrawsAllInFront | src/app/app.component.ts:41-47 | with every end in front, every line gives exactly one stroke, in list order and in its colour |
| Viewer.DrawsNoneBehind | src/app/app.component.ts:41-47 | with every start behind, nothing is drawn |
| Viewer.AppComponent.Loop | src/app/app.component.ts:38-50 | one frame's draw log is the building lines' strokes in order followed by the floor lines' strokes in order |

## Left out

- IEEE-754 doubles: all arithmetic is over exact reals, so rounding in the
  product, the perspective divide and the repeated zoom factors is not
  modelled.
- `Math.cos` and `Math.sin`: each rotation takes the pair (c, s) they would
  return; `rotateCamera(axis, -angle)` is modelled as the pair (c, -s). The
  values for the step 0.05 are parameters of `HandleKey`.
- MatrixLaws.RotationXAdds: angle additivity is stated with the addition
  formulas written in (c, s) form, because the model has no angles; the
  same holds for RotationYAdds and RotationZAdds.
- MatrixLaws.RotationsHaveDeterminantOne: states the determinant of the
  upper-left 3×3 block, which is the whole determinant for these matrices.
- Canvas plumbing (`getContext`, canvas sizing, `clearRect`, `beginPath`,
  `moveTo`, `lineTo`, `strokeStyle`, `stroke`): `Render` returns the segment
  it would stroke and `Loop` returns the frame's strokes in order.
- The `requestAnimationFrame` recursion never ends: `Loop` is one frame.
  The `keydown` listener is not modelled: `HandleKey` is one key press and
  takes `event.key` as a string.
- Angular decorators, `@ViewChild`, `CommonModule`, the template and styles.
- src/app/models/point3d.ts is not part of this model: `Point3D` is a value of
  three reals. `handleKey`'s in-place update of `camera.position.x` is modelled
  as replacing the camera's position value, so aliasing of point objects is
  not captured.
- The camera is created in `ngAfterViewInit`; the model creates it in the
  component's constructor, so the model has no state from before
  `ngAfterViewInit`.
- `rotateCamera` is typed to receive only 'x', 'y' or 'z'; the model accepts
  any character and takes the `default` branch for the others.
- Viewer.AppComponent.CreateScene: the three loops of `createScene` are the
  helper methods CreateBuildings, CreateFloorAlongZ and CreateFloorAlongX,
  called in the source's order after both lists are emptied; each helper's
  precondition is what `createScene` has established at that point.
