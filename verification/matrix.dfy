/** 4×4 matrices over the reals and the row-vector convention in which they
    transform homogeneous points.

    A matrix is the sixteen-number tuple of the transform library, kept as one
    field per entry: `m23` is row 2, column 3, which sits at index 4*2 + 3 = 11
    of the flat array.  A point is a row vector p and a matrix m sends it to
    p·m.  That reading is the one the library's own layout implies: the
    translation builder puts its offset in the last row (entries 12 to 14), and
    the lesson uploads the array unchanged, without transposing, to a 4×4
    uniform.  The model takes as given that the vertex shader multiplies that
    uniform by the vertex position; with the array read column by column, as
    the upload does, that product is p·m. */
module Matrix {

  /** A homogeneous point (w = 1) or direction (w = 0). */
  datatype Vector4 = Vector4(x: real, y: real, z: real, w: real)

  datatype Matrix4 = Matrix4(
    m00: real, m01: real, m02: real, m03: real,
    m10: real, m11: real, m12: real, m13: real,
    m20: real, m21: real, m22: real, m23: real,
    m30: real, m31: real, m32: real, m33: real)

  const Identity: Matrix4 :=
    Matrix4(1.0, 0.0, 0.0, 0.0,
            0.0, 1.0, 0.0, 0.0,
            0.0, 0.0, 1.0, 0.0,
            0.0, 0.0, 0.0, 1.0)

  /** A point at (x, y, z). */
  function Point(x: real, y: real, z: real): Vector4
  {
    Vector4(x, y, z, 1.0)
  }

  /** Component k: x, y, z, w for k = 0, 1, 2, 3. */
  function Get(v: Vector4, k: nat): real
    requires k < 4
  {
    if k == 0 then v.x else if k == 1 then v.y else if k == 2 then v.z else v.w
  }

  function Row(m: Matrix4, i: nat): Vector4
    requires i < 4
  {
    if i == 0 then Vector4(m.m00, m.m01, m.m02, m.m03)
    else if i == 1 then Vector4(m.m10, m.m11, m.m12, m.m13)
    else if i == 2 then Vector4(m.m20, m.m21, m.m22, m.m23)
    else Vector4(m.m30, m.m31, m.m32, m.m33)
  }

  function Column(m: Matrix4, j: nat): Vector4
    requires j < 4
  {
    if j == 0 then Vector4(m.m00, m.m10, m.m20, m.m30)
    else if j == 1 then Vector4(m.m01, m.m11, m.m21, m.m31)
    else if j == 2 then Vector4(m.m02, m.m12, m.m22, m.m32)
    else Vector4(m.m03, m.m13, m.m23, m.m33)
  }

  /** Entry in row i, column j. */
  function At(m: Matrix4, i: nat, j: nat): real
    requires i < 4 && j < 4
  {
    Get(Row(m, i), j)
  }

  function Dot(u: Vector4, v: Vector4): real
  {
    u.x * v.x + u.y * v.y + u.z * v.z + u.w * v.w
  }

  /** The unit vector along axis i. */
  function Unit(i: nat): Vector4
    requires i < 4
  {
    if i == 0 then Vector4(1.0, 0.0, 0.0, 0.0)
    else if i == 1 then Vector4(0.0, 1.0, 0.0, 0.0)
    else if i == 2 then Vector4(0.0, 0.0, 1.0, 0.0)
    else Vector4(0.0, 0.0, 0.0, 1.0)
  }

  /** The row vector p transformed by m, that is p·m: component j is p
      against column j of m. */
  function Apply(p: Vector4, m: Matrix4): Vector4
  {
    Vector4(p.x * m.m00 + p.y * m.m10 + p.z * m.m20 + p.w * m.m30,
            p.x * m.m01 + p.y * m.m11 + p.z * m.m21 + p.w * m.m31,
            p.x * m.m02 + p.y * m.m12 + p.z * m.m22 + p.w * m.m32,
            p.x * m.m03 + p.y * m.m13 + p.z * m.m23 + p.w * m.m33)
  }

  /** The flat sixteen-number array the library returns and the backend's
      uniform upload reads: entry (i, j) at index 4*i + j. */
  function Flatten(m: Matrix4): (r: seq<real>)
    ensures |r| == 16
    ensures forall i: nat, j: nat | i < 4 && j < 4 :: r[4 * i + j] == At(m, i, j)
  {
    [m.m00, m.m01, m.m02, m.m03,
     m.m10, m.m11, m.m12, m.m13,
     m.m20, m.m21, m.m22, m.m23,
     m.m30, m.m31, m.m32, m.m33]
  }

  /** The matrix stored in a flat sixteen-number array. */
  function Unflatten(s: seq<real>): (m: Matrix4)
    requires |s| == 16
    ensures forall i: nat, j: nat | i < 4 && j < 4 :: At(m, i, j) == s[4 * i + j]
  {
    Matrix4(s[0], s[1], s[2], s[3],
            s[4], s[5], s[6], s[7],
            s[8], s[9], s[10], s[11],
            s[12], s[13], s[14], s[15])
  }

  /** The flat layout loses nothing: reading the array back gives the matrix,
      and every sixteen-number array is the layout of one matrix. */
  lemma FlattenRoundTrip(m: Matrix4, s: seq<real>)
    requires |s| == 16
    ensures Unflatten(Flatten(m)) == m
    ensures Flatten(Unflatten(s)) == s
  {
  }

  /** Column j holds the entries (0, j) to (3, j). */
  lemma ColumnAt(m: Matrix4, j: nat)
    requires j < 4
    ensures Column(m, j) == Vector4(At(m, 0, j), At(m, 1, j), At(m, 2, j), At(m, 3, j))
  {
  }

  /** p·m written out. */
  lemma ApplyExpanded(p: Vector4, m: Matrix4)
    ensures Apply(p, m)
         == Vector4(p.x * m.m00 + p.y * m.m10 + p.z * m.m20 + p.w * m.m30,
                    p.x * m.m01 + p.y * m.m11 + p.z * m.m21 + p.w * m.m31,
                    p.x * m.m02 + p.y * m.m12 + p.z * m.m22 + p.w * m.m32,
                    p.x * m.m03 + p.y * m.m13 + p.z * m.m23 + p.w * m.m33)
  {
  }

  /** p·m component by component, for a vector known by its components. */
  lemma ApplyComponents(p: Vector4, m: Matrix4, x: real, y: real, z: real, w: real)
    requires p == Vector4(x, y, z, w)
    ensures Apply(p, m).x == x * m.m00 + y * m.m10 + z * m.m20 + w * m.m30
    ensures Apply(p, m).y == x * m.m01 + y * m.m11 + z * m.m21 + w * m.m31
    ensures Apply(p, m).z == x * m.m02 + y * m.m12 + z * m.m22 + w * m.m32
    ensures Apply(p, m).w == x * m.m03 + y * m.m13 + z * m.m23 + w * m.m33
  {
  }

  /** u·v for vectors known by their components. */
  lemma DotComponents(u: Vector4, v: Vector4, u0: real, u1: real, u2: real, u3: real,
                      v0: real, v1: real, v2: real, v3: real)
    requires u == Vector4(u0, u1, u2, u3) && v == Vector4(v0, v1, v2, v3)
    ensures Dot(u, v) == u0 * v0 + u1 * v1 + u2 * v2 + u3 * v3
  {
  }

  /** Component j of p·m is p against column j of m. */
  lemma GetApply(p: Vector4, m: Matrix4, j: nat)
    requires j < 4
    ensures Get(Apply(p, m), j) == Dot(p, Column(m, j))
  {
    if j == 0 {
    } else if j == 1 {
    } else if j == 2 {
    } else {
    }
  }

  /** The unit vector along axis i picks out row i. */
  lemma UnitRow(m: Matrix4, i: nat)
    requires i < 4
    ensures Apply(Unit(i), m) == Row(m, i)
  {
    if i == 0 {
    } else if i == 1 {
    } else if i == 2 {
    } else {
    }
  }

  /** A matrix is determined by where it sends the four unit vectors. */
  lemma UnitsDetermine(a: Matrix4, b: Matrix4)
    requires forall i: nat | i < 4 :: Apply(Unit(i), a) == Apply(Unit(i), b)
    ensures a == b
  {
    forall i: nat | i < 4
      ensures Row(a, i) == Row(b, i)
    {
      UnitRow(a, i);
      UnitRow(b, i);
    }
    assert Row(a, 0) == Row(b, 0) && Row(a, 1) == Row(b, 1);
    assert Row(a, 2) == Row(b, 2) && Row(a, 3) == Row(b, 3);
  }

  /** A matrix is determined by what it does to points: the origin gives the
      last row and the three unit points give the others. */
  lemma PointsDetermine(a: Matrix4, b: Matrix4)
    requires forall x: real, y: real, z: real :: Apply(Point(x, y, z), a) == Apply(Point(x, y, z), b)
    ensures a == b
  {
    var o := Point(0.0, 0.0, 0.0);
    var ex := Point(1.0, 0.0, 0.0);
    var ey := Point(0.0, 1.0, 0.0);
    var ez := Point(0.0, 0.0, 1.0);
    assert Apply(o, a) == Apply(o, b);
    assert Apply(ex, a) == Apply(ex, b);
    assert Apply(ey, a) == Apply(ey, b);
    assert Apply(ez, a) == Apply(ez, b);
  }
}
