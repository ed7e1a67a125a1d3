/** The `m4` transform library: builders for translation, rotation, scaling and
    three projections, the hand-expanded product `Multiply`, and the chaining
    wrappers that post-compose a builder onto an existing matrix.

    Trigonometry is not computed here: a rotation by θ takes c = cos θ and
    s = sin θ, and `Perspective` takes f = tan(π/2 − fov/2) = cot(fov/2).
    Every contract describes the built matrix by what it does to points p·m
    (see the Matrix module for that convention). */
module M4 {
  import opened Matrix

  /** Pixel space to clip space without perspective: x from [0, width] to
      [−1, 1], y flipped so that pixel row 0 is at the top, z scaled by
      2/depth. */
  function Projection(width: real, height: real, depth: real): (r: Matrix4)
    requires width != 0.0 && height != 0.0 && depth != 0.0
    ensures forall x: real, y: real, z: real ::
      Apply(Point(x, y, z), r) == Point(2.0 * x / width - 1.0, 1.0 - 2.0 * y / height, 2.0 * z / depth)
  {
    Matrix4(2.0 / width, 0.0,            0.0,           0.0,
            0.0,         -2.0 / height,  0.0,           0.0,
            0.0,         0.0,            2.0 / depth,   0.0,
            -1.0,        1.0,            0.0,           1.0)
  }

  /** The box [left, right] × [bottom, top] × [−near, −far] onto the clip
      cube [−1, 1]³, each axis by the affine map sending the first bound to
      −1 and the second to 1. */
  function Orthographic(left: real, right: real, bottom: real, top: real, near: real, far: real): (r: Matrix4)
    requires left != right && bottom != top && near != far
    ensures forall x: real, y: real, z: real ::
      Apply(Point(x, y, z), r)
      == Point((2.0 * x - (left + right)) / (right - left),
               (2.0 * y - (bottom + top)) / (top - bottom),
               (-2.0 * z - (near + far)) / (far - near))
  {
    Matrix4(2.0 / (right - left),             0.0,                             0.0,                         0.0,
            0.0,                              2.0 / (top - bottom),            0.0,                         0.0,
            0.0,                              0.0,                             2.0 / (near - far),          0.0,
            (left + right) / (left - right),  (bottom + top) / (bottom - top), (near + far) / (near - far), 1.0)
  }

  /** Symmetric-frustum perspective.  The output w is −z, so the backend's
      divide by w shrinks distant points; x is scaled by f/aspect and y by −f. */
  function Perspective(f: real, aspect: real, near: real, far: real): (r: Matrix4)
    requires aspect != 0.0 && near != far
    ensures forall x: real, y: real, z: real ::
      Apply(Point(x, y, z), r)
      == Vector4(x * f / aspect, -y * f, (z * (near + far) + 2.0 * near * far) / (near - far), -z)
  {
    var rangeInv := 1.0 / (near - far);
    Matrix4(f / aspect, 0.0, 0.0,                             0.0,
            0.0,        -f,  0.0,                             0.0,
            0.0,        0.0, (near + far) * rangeInv,         -1.0,
            0.0,        0.0, near * far * rangeInv * 2.0,     0.0)
  }

  /** The library's product, written out entry by entry as in the source:
      entry (i, j) is row i of b against column j of a, the textbook product
      b·a.  As a transform of row vectors, b is applied first and a second
      (MultiplyApply). */
  function Multiply(a: Matrix4, b: Matrix4): Matrix4
  {
    Matrix4(
      b.m00 * a.m00 + b.m01 * a.m10 + b.m02 * a.m20 + b.m03 * a.m30,
      b.m00 * a.m01 + b.m01 * a.m11 + b.m02 * a.m21 + b.m03 * a.m31,
      b.m00 * a.m02 + b.m01 * a.m12 + b.m02 * a.m22 + b.m03 * a.m32,
      b.m00 * a.m03 + b.m01 * a.m13 + b.m02 * a.m23 + b.m03 * a.m33,
      b.m10 * a.m00 + b.m11 * a.m10 + b.m12 * a.m20 + b.m13 * a.m30,
      b.m10 * a.m01 + b.m11 * a.m11 + b.m12 * a.m21 + b.m13 * a.m31,
      b.m10 * a.m02 + b.m11 * a.m12 + b.m12 * a.m22 + b.m13 * a.m32,
      b.m10 * a.m03 + b.m11 * a.m13 + b.m12 * a.m23 + b.m13 * a.m33,
      b.m20 * a.m00 + b.m21 * a.m10 + b.m22 * a.m20 + b.m23 * a.m30,
      b.m20 * a.m01 + b.m21 * a.m11 + b.m22 * a.m21 + b.m23 * a.m31,
      b.m20 * a.m02 + b.m21 * a.m12 + b.m22 * a.m22 + b.m23 * a.m32,
      b.m20 * a.m03 + b.m21 * a.m13 + b.m22 * a.m23 + b.m23 * a.m33,
      b.m30 * a.m00 + b.m31 * a.m10 + b.m32 * a.m20 + b.m33 * a.m30,
      b.m30 * a.m01 + b.m31 * a.m11 + b.m32 * a.m21 + b.m33 * a.m31,
      b.m30 * a.m02 + b.m31 * a.m12 + b.m32 * a.m22 + b.m33 * a.m32,
      b.m30 * a.m03 + b.m31 * a.m13 + b.m32 * a.m23 + b.m33 * a.m33)
  }

  // Both sides of MultiplyApply multiplied out, one component at a time.
  // Stated exactly as unfolding produces them, so that the solver only has to
  // see that the two sums hold the same sixteen monomials.

  lemma ApplyMultiplyExpandedX(p: Vector4, a: Matrix4, b: Matrix4)
    ensures Apply(p, Multiply(a, b)).x
         == p.x * (b.m00 * a.m00 + b.m01 * a.m10 + b.m02 * a.m20 + b.m03 * a.m30)
            + p.y * (b.m10 * a.m00 + b.m11 * a.m10 + b.m12 * a.m20 + b.m13 * a.m30)
            + p.z * (b.m20 * a.m00 + b.m21 * a.m10 + b.m22 * a.m20 + b.m23 * a.m30)
            + p.w * (b.m30 * a.m00 + b.m31 * a.m10 + b.m32 * a.m20 + b.m33 * a.m30)
  {
    ApplyExpanded(p, Multiply(a, b));
  }

  lemma ApplyMultiplyExpandedY(p: Vector4, a: Matrix4, b: Matrix4)
    ensures Apply(p, Multiply(a, b)).y
         == p.x * (b.m00 * a.m01 + b.m01 * a.m11 + b.m02 * a.m21 + b.m03 * a.m31)
            + p.y * (b.m10 * a.m01 + b.m11 * a.m11 + b.m12 * a.m21 + b.m13 * a.m31)
            + p.z * (b.m20 * a.m01 + b.m21 * a.m11 + b.m22 * a.m21 + b.m23 * a.m31)
            + p.w * (b.m30 * a.m01 + b.m31 * a.m11 + b.m32 * a.m21 + b.m33 * a.m31)
  {
    ApplyExpanded(p, Multiply(a, b));
  }

  lemma ApplyMultiplyExpandedZ(p: Vector4, a: Matrix4, b: Matrix4)
    ensures Apply(p, Multiply(a, b)).z
         == p.x * (b.m00 * a.m02 + b.m01 * a.m12 + b.m02 * a.m22 + b.m03 * a.m32)
            + p.y * (b.m10 * a.m02 + b.m11 * a.m12 + b.m12 * a.m22 + b.m13 * a.m32)
            + p.z * (b.m20 * a.m02 + b.m21 * a.m12 + b.m22 * a.m22 + b.m23 * a.m32)
            + p.w * (b.m30 * a.m02 + b.m31 * a.m12 + b.m32 * a.m22 + b.m33 * a.m32)
  {
    ApplyExpanded(p, Multiply(a, b));
  }

  lemma ApplyMultiplyExpandedW(p: Vector4, a: Matrix4, b: Matrix4)
    ensures Apply(p, Multiply(a, b)).w
         == p.x * (b.m00 * a.m03 + b.m01 * a.m13 + b.m02 * a.m23 + b.m03 * a.m33)
            + p.y * (b.m10 * a.m03 + b.m11 * a.m13 + b.m12 * a.m23 + b.m13 * a.m33)
            + p.z * (b.m20 * a.m03 + b.m21 * a.m13 + b.m22 * a.m23 + b.m23 * a.m33)
            + p.w * (b.m30 * a.m03 + b.m31 * a.m13 + b.m32 * a.m23 + b.m33 * a.m33)
  {
    ApplyExpanded(p, Multiply(a, b));
  }

  lemma ApplyTwiceExpandedX(p: Vector4, a: Matrix4, b: Matrix4)
    ensures Apply(Apply(p, b), a).x
         == (p.x * b.m00 + p.y * b.m10 + p.z * b.m20 + p.w * b.m30) * a.m00
            + (p.x * b.m01 + p.y * b.m11 + p.z * b.m21 + p.w * b.m31) * a.m10
            + (p.x * b.m02 + p.y * b.m12 + p.z * b.m22 + p.w * b.m32) * a.m20
            + (p.x * b.m03 + p.y * b.m13 + p.z * b.m23 + p.w * b.m33) * a.m30
  {
    ApplyExpanded(p, b);
    ApplyComponents(Apply(p, b), a,
      p.x * b.m00 + p.y * b.m10 + p.z * b.m20 + p.w * b.m30,
      p.x * b.m01 + p.y * b.m11 + p.z * b.m21 + p.w * b.m31,
      p.x * b.m02 + p.y * b.m12 + p.z * b.m22 + p.w * b.m32,
      p.x * b.m03 + p.y * b.m13 + p.z * b.m23 + p.w * b.m33);
  }

  lemma ApplyTwiceExpandedY(p: Vector4, a: Matrix4, b: Matrix4)
    ensures Apply(Apply(p, b), a).y
         == (p.x * b.m00 + p.y * b.m10 + p.z * b.m20 + p.w * b.m30) * a.m01
            + (p.x * b.m01 + p.y * b.m11 + p.z * b.m21 + p.w * b.m31) * a.m11
            + (p.x * b.m02 + p.y * b.m12 + p.z * b.m22 + p.w * b.m32) * a.m21
            + (p.x * b.m03 + p.y * b.m13 + p.z * b.m23 + p.w * b.m33) * a.m31
  {
    ApplyExpanded(p, b);
    ApplyComponents(Apply(p, b), a,
      p.x * b.m00 + p.y * b.m10 + p.z * b.m20 + p.w * b.m30,
      p.x * b.m01 + p.y * b.m11 + p.z * b.m21 + p.w * b.m31,
      p.x * b.m02 + p.y * b.m12 + p.z * b.m22 + p.w * b.m32,
      p.x * b.m03 + p.y * b.m13 + p.z * b.m23 + p.w * b.m33);
  }

  lemma ApplyTwiceExpandedZ(p: Vector4, a: Matrix4, b: Matrix4)
    ensures Apply(Apply(p, b), a).z
         == (p.x * b.m00 + p.y * b.m10 + p.z * b.m20 + p.w * b.m30) * a.m02
            + (p.x * b.m01 + p.y * b.m11 + p.z * b.m21 + p.w * b.m31) * a.m12
            + (p.x * b.m02 + p.y * b.m12 + p.z * b.m22 + p.w * b.m32) * a.m22
            + (p.x * b.m03 + p.y * b.m13 + p.z * b.m23 + p.w * b.m33) * a.m32
  {
    ApplyExpanded(p, b);
    ApplyComponents(Apply(p, b), a,
      p.x * b.m00 + p.y * b.m10 + p.z * b.m20 + p.w * b.m30,
      p.x * b.m01 + p.y * b.m11 + p.z * b.m21 + p.w * b.m31,
      p.x * b.m02 + p.y * b.m12 + p.z * b.m22 + p.w * b.m32,
      p.x * b.m03 + p.y * b.m13 + p.z * b.m23 + p.w * b.m33);
  }

  lemma ApplyTwiceExpandedW(p: Vector4, a: Matrix4, b: Matrix4)
    ensures Apply(Apply(p, b), a).w
         == (p.x * b.m00 + p.y * b.m10 + p.z * b.m20 + p.w * b.m30) * a.m03
            + (p.x * b.m01 + p.y * b.m11 + p.z * b.m21 + p.w * b.m31) * a.m13
            + (p.x * b.m02 + p.y * b.m12 + p.z * b.m22 + p.w * b.m32) * a.m23
            + (p.x * b.m03 + p.y * b.m13 + p.z * b.m23 + p.w * b.m33) * a.m33
  {
    ApplyExpanded(p, b);
    ApplyComponents(Apply(p, b), a,
      p.x * b.m00 + p.y * b.m10 + p.z * b.m20 + p.w * b.m30,
      p.x * b.m01 + p.y * b.m11 + p.z * b.m21 + p.w * b.m31,
      p.x * b.m02 + p.y * b.m12 + p.z * b.m22 + p.w * b.m32,
      p.x * b.m03 + p.y * b.m13 + p.z * b.m23 + p.w * b.m33);
  }

  /** Transforming by Multiply(a, b) is transforming by b and then by a. */
  lemma MultiplyApply(p: Vector4, a: Matrix4, b: Matrix4)
    ensures Apply(p, Multiply(a, b)) == Apply(Apply(p, b), a)
  {
    ApplyMultiplyExpandedX(p, a, b);
    ApplyMultiplyExpandedY(p, a, b);
    ApplyMultiplyExpandedZ(p, a, b);
    ApplyMultiplyExpandedW(p, a, b);
    ApplyTwiceExpandedX(p, a, b);
    ApplyTwiceExpandedY(p, a, b);
    ApplyTwiceExpandedZ(p, a, b);
    ApplyTwiceExpandedW(p, a, b);
  }

  /** MultiplyApply for every vector at once. */
  lemma MultiplyActs(m: Matrix4, b: Matrix4)
    ensures forall p: Vector4 :: Apply(p, Multiply(m, b)) == Apply(Apply(p, b), m)
  {
    forall p: Vector4 {
      MultiplyApply(p, m, b);
    }
  }

  /** Moves points by (tx, ty, tz) and leaves directions (w = 0) alone. */
  function Translation(tx: real, ty: real, tz: real): (r: Matrix4)
    ensures forall x: real, y: real, z: real ::
      Apply(Point(x, y, z), r) == Point(x + tx, y + ty, z + tz)
    ensures forall x: real, y: real, z: real ::
      Apply(Vector4(x, y, z, 0.0), r) == Vector4(x, y, z, 0.0)
  {
    Matrix4(1.0, 0.0, 0.0, 0.0,
            0.0, 1.0, 0.0, 0.0,
            0.0, 0.0, 1.0, 0.0,
            tx,  ty,  tz,  1.0)
  }

  /** Rotation about the x axis by the angle whose cosine is c and sine is s:
      x is fixed and (y, z) turns from y towards z. */
  function XRotation(c: real, s: real): (r: Matrix4)
    ensures forall x: real, y: real, z: real ::
      Apply(Point(x, y, z), r) == Point(x, c * y - s * z, s * y + c * z)
  {
    Matrix4(1.0, 0.0, 0.0, 0.0,
            0.0, c,   s,   0.0,
            0.0, -s,  c,   0.0,
            0.0, 0.0, 0.0, 1.0)
  }

  /** Rotation about the y axis: y is fixed and (z, x) turns from z towards x. */
  function YRotation(c: real, s: real): (r: Matrix4)
    ensures forall x: real, y: real, z: real ::
      Apply(Point(x, y, z), r) == Point(c * x + s * z, y, c * z - s * x)
  {
    Matrix4(c,   0.0, -s,  0.0,
            0.0, 1.0, 0.0, 0.0,
            s,   0.0, c,   0.0,
            0.0, 0.0, 0.0, 1.0)
  }

  /** Rotation about the z axis: z is fixed and (x, y) turns from x towards y. */
  function ZRotation(c: real, s: real): (r: Matrix4)
    ensures forall x: real, y: real, z: real ::
      Apply(Point(x, y, z), r) == Point(c * x - s * y, s * x + c * y, z)
  {
    Matrix4(c,   s,   0.0, 0.0,
            -s,  c,   0.0, 0.0,
            0.0, 0.0, 1.0, 0.0,
            0.0, 0.0, 0.0, 1.0)
  }

  /** Scales each axis by its own factor about the origin. */
  function Scaling(sx: real, sy: real, sz: real): (r: Matrix4)
    ensures forall x: real, y: real, z: real ::
      Apply(Point(x, y, z), r) == Point(sx * x, sy * y, sz * z)
  {
    Matrix4(sx,  0.0, 0.0, 0.0,
            0.0, sy,  0.0, 0.0,
            0.0, 0.0, sz,  0.0,
            0.0, 0.0, 0.0, 1.0)
  }

  /** m with a translation applied to points before m. */
  function Translate(m: Matrix4, tx: real, ty: real, tz: real): (r: Matrix4)
    ensures forall x: real, y: real, z: real ::
      Apply(Point(x, y, z), r) == Apply(Point(x + tx, y + ty, z + tz), m)
  {
    MultiplyActs(m, Translation(tx, ty, tz));
    Multiply(m, Translation(tx, ty, tz))
  }

  /** m with an x rotation applied to points before m. */
  function XRotate(m: Matrix4, c: real, s: real): (r: Matrix4)
    ensures forall x: real, y: real, z: real ::
      Apply(Point(x, y, z), r) == Apply(Point(x, c * y - s * z, s * y + c * z), m)
  {
    MultiplyActs(m, XRotation(c, s));
    Multiply(m, XRotation(c, s))
  }

  /** m with a y rotation applied to points before m. */
  function YRotate(m: Matrix4, c: real, s: real): (r: Matrix4)
    ensures forall x: real, y: real, z: real ::
      Apply(Point(x, y, z), r) == Apply(Point(c * x + s * z, y, c * z - s * x), m)
  {
    MultiplyActs(m, YRotation(c, s));
    Multiply(m, YRotation(c, s))
  }

  /** m with a z rotation applied to points before m. */
  function ZRotate(m: Matrix4, c: real, s: real): (r: Matrix4)
    ensures forall x: real, y: real, z: real ::
      Apply(Point(x, y, z), r) == Apply(Point(c * x - s * y, s * x + c * y, z), m)
  {
    MultiplyActs(m, ZRotation(c, s));
    Multiply(m, ZRotation(c, s))
  }

  /** m with a scaling applied to points before m. */
  function Scale(m: Matrix4, sx: real, sy: real, sz: real): (r: Matrix4)
    ensures forall x: real, y: real, z: real ::
      Apply(Point(x, y, z), r) == Apply(Point(sx * x, sy * y, sz * z), m)
  {
    MultiplyActs(m, Scaling(sx, sy, sz));
    Multiply(m, Scaling(sx, sy, sz))
  }

  /** Copies z into w with weight k (w = 1 + k·z), so that the backend's
      divide by w shrinks points the further they are along z. */
  function MakeZToWMatrix(k: real): (r: Matrix4)
    ensures forall x: real, y: real, z: real ::
      Apply(Point(x, y, z), r) == Vector4(x, y, z, 1.0 + k * z)
  {
    Matrix4(1.0, 0.0, 0.0, 0.0,
            0.0, 1.0, 0.0, 0.0,
            0.0, 0.0, 1.0, k,
            0.0, 0.0, 0.0, 1.0)
  }
}
