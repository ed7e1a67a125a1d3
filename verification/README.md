# m4: 4×4 transforms for the 3D perspective lesson

This project models the `m4` object of `src/WebGLBasics/07_3d_perspective/math.ts`,
the small matrix library the WebGL lesson uses to place, turn, scale and
project its geometry, and proves what the library's matrices do to points.

- `matrix.dfy` (module `Matrix`) defines the sixteen-number matrix type as a
  datatype with one field per entry, `m23` being row 2, column 3. `Flatten`
  and `Unflatten` give the flat array the library returns, with entry (i, j)
  at index 4i+j. The module also fixes the reading of a matrix as a transform:
  a homogeneous point is a row vector p, and the matrix m sends it to p·m.
  The library's own layout implies this reading. `translation` puts its offset
  in the last row (`math.ts:125`). The lesson uploads the array unchanged with
  `gl.uniformMatrix4fv(matrixUniformLoc, false, matrix)`
  (`src/WebGLBasics/07_3d_perspective/07.ts:161`). That call reads the sixteen
  numbers column by column, so a shader that multiplies the uniform by the
  position computes p·m. The module also holds the row/column/unit-vector
  vocabulary the laws are stated in.
- `m4.dfy` (module `M4`) holds every builder: `projection`, `orthographic`,
  `perspective`, `translation`, `x/y/zRotation`, `scaling` and
  `makeZToWMatrix`. It also holds the hand-expanded `multiply` and the chaining
  wrappers `translate`, `x/y/zRotate` and `scale`, each with the same entries
  as the source. Each builder's contract says where it sends every point
  (x, y, z). By `Matrix.PointsDetermine`, that determines all sixteen entries.
  Each wrapper's contract says that the new matrix first applies the builder's
  transform and then the old matrix.
- `m4_laws.dfy` (module `M4Laws`) holds the algebra: the entry formula of
  `multiply`, identity and associativity, the neutral arguments of the
  builders, how translations, scalings and rotations compose and cancel, and
  what chained wrappers add up to. It also holds where the projections send
  the corners of their viewing volumes, and the depth each plane gets after the
  perspective divide.

Conventions:

- Numbers are real numbers, not IEEE-754 doubles.
- The trigonometry the source computes is a parameter. A rotation by θ takes
  c = cos θ and s = sin θ. `Perspective` takes f = tan(π/2 − fov/2). The
  laws that need a true angle require c² + s² = 1.
- `multiply(a, b)` computes the textbook product b·a. Under the row-vector
  reading, b is applied first and a second (`M4.MultiplyApply`).
- `translate(m, …)` is `multiply(m, translation(…))`, so the translation acts
  on points before m does. The same holds for the other wrappers.
- The source's `Matrix4` is a TypeScript tuple type of sixteen numbers. The
  library never checks lengths at run time, so the model makes a wrong length
  unrepresentable rather than modelling a length error.

## Model

| member | source | states |
|---|---|---|
| `Matrix.Flatten` | src/WebGLBasics/07_3d_perspective/math.ts:2-7 | a matrix is an array of exactly 16 numbers, with entry (i, j) at index 4i+j |
| `Matrix.Unflatten` | src/WebGLBasics/07_3d_perspective/math.ts:2-7 | every 16-number array is read back with index 4i+j as entry (i, j) |
| `Matrix.FlattenRoundTrip` | src/WebGLBasics/07_3d_perspective/math.ts:2-7 | the flat layout and the matrix convert both ways without loss |
| `M4.Projection` | src/WebGLBasics/07_3d_perspective/math.ts:14-23 | pixel x in [0, width] goes to [−1, 1]; y is flipped so that row 0 is at the top (1 − 2y/height); z becomes 2z/depth; w stays 1 |
| `M4.Orthographic` | src/WebGLBasics/07_3d_perspective/math.ts:25-44 | each axis is the affine map sending left/bottom/−near to −1 and right/top/−far to 1; w stays 1 |
| `M4.Perspective` | src/WebGLBasics/07_3d_perspective/math.ts:46-62 | x is scaled by f/aspect and y by −f; z becomes (z(near+far) + 2·near·far)/(near−far); the output w is −z |
| `M4.Multiply` | src/WebGLBasics/07_3d_perspective/math.ts:64-117 | the hand-expanded product, entry for entry as in the source. It carries no ensures of its own: its contract is `M4.MultiplyApply`, `M4Laws.MultiplyEntries` and `M4Laws.MultiplyFlat` |
| `M4.MultiplyApply` | src/WebGLBasics/07_3d_perspective/math.ts:64-117 | transforming by multiply(a, b) is transforming by b and then by a |
| `M4Laws.MultiplyRow` | src/WebGLBasics/07_3d_perspective/math.ts:99-116 | row i of multiply(a, b) is row i of b transformed by a |
| `M4Laws.MultiplyEntries` | src/WebGLBasics/07_3d_perspective/math.ts:99-116 | entry (i, j) of multiply(a, b) is row i of b dotted with column j of a |
| `M4Laws.MultiplyFlat` | src/WebGLBasics/07_3d_perspective/math.ts:64-116 | on the flat arrays, index 4i+j of multiply(a, b) is the sum over k of b[4i+k]·a[4k+j] |
| `M4Laws.MultiplyIdentity` | src/WebGLBasics/07_3d_perspective/math.ts:64-117 | the identity is a unit of multiply on both sides |
| `M4Laws.MultiplyAssociative` | src/WebGLBasics/07_3d_perspective/math.ts:64-117 | multiply(multiply(a, b), c) equals multiply(a, multiply(b, c)) |
| `M4.Translation` | src/WebGLBasics/07_3d_perspective/math.ts:119-127 | points move by (tx, ty, tz); directions (w = 0) are unchanged |
| `M4.XRotation` | src/WebGLBasics/07_3d_perspective/math.ts:129-140 | x is fixed; (y, z) becomes (c·y − s·z, s·y + c·z) |
| `M4.YRotation` | src/WebGLBasics/07_3d_perspective/math.ts:142-153 | y is fixed; (x, z) becomes (c·x + s·z, c·z − s·x) |
| `M4.ZRotation` | src/WebGLBasics/07_3d_perspective/math.ts:155-166 | z is fixed; (x, y) becomes (c·x − s·y, s·x + c·y) |
| `M4.Scaling` | src/WebGLBasics/07_3d_perspective/math.ts:168-176 | each coordinate is multiplied by its own factor |
| `M4.Translate` | src/WebGLBasics/07_3d_perspective/math.ts:178-185 | the result sends p to where m sends p + (tx, ty, tz) |
| `M4.XRotate` | src/WebGLBasics/07_3d_perspective/math.ts:187-189 | the result sends p to where m sends p turned about the x axis |
| `M4.YRotate` | src/WebGLBasics/07_3d_perspective/math.ts:191-193 | the result sends p to where m sends p turned about the y axis |
| `M4.ZRotate` | src/WebGLBasics/07_3d_perspective/math.ts:195-197 | the result sends p to where m sends p turned about the z axis |
| `M4.Scale` | src/WebGLBasics/07_3d_perspective/math.ts:199-201 | the result sends p to where m sends p scaled axis by axis |
| `M4.MakeZToWMatrix` | src/WebGLBasics/07_3d_perspective/math.ts:203-211 | x, y and z are unchanged and w becomes 1 + k·z |
| `M4Laws.MakeZToWLayout` | src/WebGLBasics/07_3d_perspective/math.ts:203-211 | the flat array is the identity's with k at index 11 |
| `M4Laws.NeutralBuilders` | src/WebGLBasics/07_3d_perspective/math.ts:119-211 | translation(0,0,0), scaling(1,1,1), the rotations by angle 0 and makeZToWMatrix(0) are the identity |
| `M4Laws.NeutralWrappers` | src/WebGLBasics/07_3d_perspective/math.ts:178-201 | the wrappers at their neutral arguments return m unchanged |
| `M4Laws.TranslationsCompose` | src/WebGLBasics/07_3d_perspective/math.ts:119-127 | two translations multiply to the translation by the summed offsets, in either order |
| `M4Laws.ScalingsCompose` | src/WebGLBasics/07_3d_perspective/math.ts:168-176 | two scalings multiply to the scaling by the products of the factors |
| `M4Laws.ScalingInverse` | src/WebGLBasics/07_3d_perspective/math.ts:168-176 | a scaling with nonzero factors times the reciprocal scaling is the identity |
| `M4Laws.XRotationsCompose` | src/WebGLBasics/07_3d_perspective/math.ts:129-140 | two x rotations multiply to the x rotation by the summed angle (angle-sum formulas for c and s) |
| `M4Laws.YRotationsCompose` | src/WebGLBasics/07_3d_perspective/math.ts:142-153 | the same for y rotations |
| `M4Laws.ZRotationsCompose` | src/WebGLBasics/07_3d_perspective/math.ts:155-166 | the same for z rotations |
| `M4Laws.XRotationInverse` | src/WebGLBasics/07_3d_perspective/math.ts:129-140 | with c² + s² = 1, the rotations (c, s) and (c, −s) multiply to the identity in either order |
| `M4Laws.YRotationInverse` | src/WebGLBasics/07_3d_perspective/math.ts:142-153 | the same for y rotations |
| `M4Laws.ZRotationInverse` | src/WebGLBasics/07_3d_perspective/math.ts:155-166 | the same for z rotations |
| `M4Laws.XRotationPreservesLength` | src/WebGLBasics/07_3d_perspective/math.ts:129-140 | with c² + s² = 1, an x rotation keeps every point's distance from the origin |
| `M4Laws.YRotationPreservesLength` | src/WebGLBasics/07_3d_perspective/math.ts:142-153 | the same for y rotations |
| `M4Laws.ZRotationPreservesLength` | src/WebGLBasics/07_3d_perspective/math.ts:155-166 | the same for z rotations |
| `M4Laws.TranslateTwice` | src/WebGLBasics/07_3d_perspective/math.ts:178-185 | two chained translates are one translate by the summed offset |
| `M4Laws.TranslateBack` | src/WebGLBasics/07_3d_perspective/math.ts:178-185 | translating by t and then by −t gives back m |
| `M4Laws.ScaleTwice` | src/WebGLBasics/07_3d_perspective/math.ts:199-201 | two chained scales are one scale by the products of the factors |
| `M4Laws.RotateTwice` | src/WebGLBasics/07_3d_perspective/math.ts:187-197 | two chained rotates about one axis are one rotate by the summed angle |
| `M4Laws.ProjectionCorners` | src/WebGLBasics/07_3d_perspective/math.ts:14-23 | pixel (0, 0) goes to clip (−1, 1) and (width, height) to (1, −1) |
| `M4Laws.ProjectionIsOrthographic` | src/WebGLBasics/07_3d_perspective/math.ts:14-44 | projection(w, h, d) is orthographic(0, w, h, 0, d/2, −d/2) |
| `M4Laws.OrthographicCorners` | src/WebGLBasics/07_3d_perspective/math.ts:25-44 | corner (left, bottom, −near) goes to (−1, −1, −1) and (right, top, −far) to (1, 1, 1) |
| `M4Laws.OrthographicBoxInCube` | src/WebGLBasics/07_3d_perspective/math.ts:25-44 | every point of the viewing box lands inside the clip cube [−1, 1]³, with each pair of bounds in either order (the lesson's box has bottom > top and near > far) |
| `M4Laws.ProjectionBoxInCube` | src/WebGLBasics/07_3d_perspective/math.ts:14-23 | every point of the pixel box [0, width] × [0, height] × [−depth/2, depth/2] lands inside the clip cube |
| `M4Laws.PerspectiveLayout` | src/WebGLBasics/07_3d_perspective/math.ts:56-61 | the flat array has −1 at index 11 and 0 at index 15 |
| `M4Laws.PerspectiveDepth` | src/WebGLBasics/07_3d_perspective/math.ts:46-62 | w is the distance to the plane; after the divide by w, the near plane has depth −1 and the far plane depth 1 |

## Left out

- `m4.lookAt`, `m4.inverse`, the `v3` vector helpers and the 3×3 (`m3`) helpers of the other lessons are not part of this model.
- The lesson's drawing code, buffer set-up and UI are not part of this model. Neither is the graphics backend's upload call, beyond the flat index layout.
- The vertex shader is not part of this model. The row-vector reading p·m assumes that it multiplies the uploaded matrix by the vertex position.
- Floating point: every number is a real. Rounding, overflow to Infinity and NaN are not modelled.
- `Math.cos`, `Math.sin` and `Math.tan` are not computed. The rotations take c and s, and `Perspective` takes f, as parameters. The angle-sum laws state the angle-sum formulas for c and s instead of adding radians.
- M4.Projection: requires width, height and depth to be nonzero, because JavaScript's division by zero gives Infinity or NaN, which real numbers cannot express.
- M4.Orthographic: requires left ≠ right, bottom ≠ top and near ≠ far, for the same reason.
- M4.Perspective: requires aspect ≠ 0 and near ≠ far, for the same reason.
- No error path for a wrongly sized operand of `multiply`: the code has no run-time length check, because the tuple type fixes the length at sixteen. The model follows the code, and its matrix type cannot have another length.
