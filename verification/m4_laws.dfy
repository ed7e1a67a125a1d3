/** Algebraic laws of the `m4` library: how its product composes, which
    builders are the identity, how translations, scalings and rotations
    compose and cancel, what the chaining wrappers add up to, and where the
    three projections send the corners of their viewing volumes. */
module M4Laws {
  import opened Matrix
  import opened M4

  /** Row i of multiply(a, b) is row i of b transformed by a. */
  lemma MultiplyRow(a: Matrix4, b: Matrix4, i: nat)
    requires i < 4
    ensures Row(Multiply(a, b), i) == Apply(Row(b, i), a)
  {
    UnitRow(Multiply(a, b), i);
    UnitRow(b, i);
    MultiplyApply(Unit(i), a, b);
  }

  /** The product entry by entry: entry (i, j) of multiply(a, b) is row i of b
      against column j of a, the sum over k of b[i][k]·a[k][j]; on the flat
      arrays, index 4i+j of the result against indices 4i+k of b and 4k+j of
      a. */
  lemma MultiplyEntries(a: Matrix4, b: Matrix4, i: nat, j: nat)
    requires i < 4 && j < 4
    ensures At(Multiply(a, b), i, j) == Dot(Row(b, i), Column(a, j))
  {
    MultiplyRow(a, b, i);
    GetApply(Row(b, i), a, j);
  }

  /** The entry formula on the flat arrays the library passes around: index
      4i+j of multiply(a, b) is the sum over k of b[4i+k]·a[4k+j]. */
  lemma MultiplyFlat(a: Matrix4, b: Matrix4, i: nat, j: nat)
    requires i < 4 && j < 4
    ensures Flatten(Multiply(a, b))[4 * i + j]
         == Flatten(b)[4 * i] * Flatten(a)[j] + Flatten(b)[4 * i + 1] * Flatten(a)[4 + j]
          + Flatten(b)[4 * i + 2] * Flatten(a)[8 + j] + Flatten(b)[4 * i + 3] * Flatten(a)[12 + j]
  {
    var fa, fb := Flatten(a), Flatten(b);
    MultiplyEntries(a, b, i, j);
    ColumnAt(a, j);
    assert fb[4 * i] == At(b, i, 0) && fb[4 * i + 1] == At(b, i, 1);
    assert fb[4 * i + 2] == At(b, i, 2) && fb[4 * i + 3] == At(b, i, 3);
    assert fa[j] == At(a, 0, j) && fa[4 + j] == At(a, 1, j);
    assert fa[8 + j] == At(a, 2, j) && fa[12 + j] == At(a, 3, j);
    assert Row(b, i) == Vector4(fb[4 * i], fb[4 * i + 1], fb[4 * i + 2], fb[4 * i + 3]);
    DotComponents(Row(b, i), Column(a, j), fb[4 * i], fb[4 * i + 1], fb[4 * i + 2], fb[4 * i + 3],
                  fa[j], fa[4 + j], fa[8 + j], fa[12 + j]);
  }

  /** The identity is a unit of multiply on either side. */
  lemma MultiplyIdentity(m: Matrix4)
    ensures Multiply(m, Identity) == m
    ensures Multiply(Identity, m) == m
  {
  }

  /** Chained products may be grouped either way. */
  lemma MultiplyAssociative(a: Matrix4, b: Matrix4, c: Matrix4)
    ensures Multiply(Multiply(a, b), c) == Multiply(a, Multiply(b, c))
  {
    forall i: nat | i < 4
      ensures Apply(Unit(i), Multiply(Multiply(a, b), c)) == Apply(Unit(i), Multiply(a, Multiply(b, c)))
    {
      MultiplyApply(Unit(i), Multiply(a, b), c);
      MultiplyApply(Apply(Unit(i), c), a, b);
      MultiplyApply(Unit(i), a, Multiply(b, c));
      MultiplyApply(Unit(i), b, c);
    }
    UnitsDetermine(Multiply(Multiply(a, b), c), Multiply(a, Multiply(b, c)));
  }

  /** The builders at their neutral arguments are all the identity. */
  lemma NeutralBuilders()
    ensures Translation(0.0, 0.0, 0.0) == Identity
    ensures Scaling(1.0, 1.0, 1.0) == Identity
    ensures XRotation(1.0, 0.0) == Identity
    ensures YRotation(1.0, 0.0) == Identity
    ensures ZRotation(1.0, 0.0) == Identity
    ensures MakeZToWMatrix(0.0) == Identity
  {
  }

  /** The wrappers at their neutral arguments leave the matrix unchanged. */
  lemma NeutralWrappers(m: Matrix4)
    ensures Translate(m, 0.0, 0.0, 0.0) == m
    ensures Scale(m, 1.0, 1.0, 1.0) == m
    ensures XRotate(m, 1.0, 0.0) == m
    ensures YRotate(m, 1.0, 0.0) == m
    ensures ZRotate(m, 1.0, 0.0) == m
  {
    NeutralBuilders();
    MultiplyIdentity(m);
  }

  /** Translations compose by adding their offsets, and so commute. */
  lemma TranslationsCompose(px: real, py: real, pz: real, qx: real, qy: real, qz: real)
    ensures Multiply(Translation(px, py, pz), Translation(qx, qy, qz)) == Translation(px + qx, py + qy, pz + qz)
    ensures Multiply(Translation(px, py, pz), Translation(qx, qy, qz))
         == Multiply(Translation(qx, qy, qz), Translation(px, py, pz))
  {
  }

  /** Scalings compose by multiplying their factors axis by axis. */
  lemma ScalingsCompose(px: real, py: real, pz: real, qx: real, qy: real, qz: real)
    ensures Multiply(Scaling(px, py, pz), Scaling(qx, qy, qz)) == Scaling(px * qx, py * qy, pz * qz)
  {
  }

  /** A scaling with no zero factor is undone by the reciprocal scaling. */
  lemma ScalingInverse(sx: real, sy: real, sz: real)
    requires sx != 0.0 && sy != 0.0 && sz != 0.0
    ensures Multiply(Scaling(sx, sy, sz), Scaling(1.0 / sx, 1.0 / sy, 1.0 / sz)) == Identity
  {
  }

  /** Rotations about one axis compose by adding angles: with (c1, s1) and
      (c2, s2) the cosine and sine of two angles, the product is the rotation
      whose cosine and sine are those of the sum. */
  lemma XRotationsCompose(c1: real, s1: real, c2: real, s2: real)
    ensures Multiply(XRotation(c1, s1), XRotation(c2, s2)) == XRotation(c1 * c2 - s1 * s2, s1 * c2 + c1 * s2)
  {
  }

  lemma YRotationsCompose(c1: real, s1: real, c2: real, s2: real)
    ensures Multiply(YRotation(c1, s1), YRotation(c2, s2)) == YRotation(c1 * c2 - s1 * s2, s1 * c2 + c1 * s2)
  {
  }

  lemma ZRotationsCompose(c1: real, s1: real, c2: real, s2: real)
    ensures Multiply(ZRotation(c1, s1), ZRotation(c2, s2)) == ZRotation(c1 * c2 - s1 * s2, s1 * c2 + c1 * s2)
  {
  }

  /** Rotating by θ and then by −θ (cosine c, sine −s) cancels, in either
      order, when (c, s) lies on the unit circle. */
  lemma XRotationInverse(c: real, s: real)
    requires c * c + s * s == 1.0
    ensures Multiply(XRotation(c, s), XRotation(c, -s)) == Identity
    ensures Multiply(XRotation(c, -s), XRotation(c, s)) == Identity
  {
    XRotationsCompose(c, s, c, -s);
    XRotationsCompose(c, -s, c, s);
  }

  lemma YRotationInverse(c: real, s: real)
    requires c * c + s * s == 1.0
    ensures Multiply(YRotation(c, s), YRotation(c, -s)) == Identity
    ensures Multiply(YRotation(c, -s), YRotation(c, s)) == Identity
  {
    YRotationsCompose(c, s, c, -s);
    YRotationsCompose(c, -s, c, s);
  }

  lemma ZRotationInverse(c: real, s: real)
    requires c * c + s * s == 1.0
    ensures Multiply(ZRotation(c, s), ZRotation(c, -s)) == Identity
    ensures Multiply(ZRotation(c, -s), ZRotation(c, s)) == Identity
  {
    ZRotationsCompose(c, s, c, -s);
    ZRotationsCompose(c, -s, c, s);
  }

  /** Squared distance from the origin. */
  function NormSquared(p: Vector4): real
  {
    p.x * p.x + p.y * p.y + p.z * p.z
  }

  /** Turning the pair (u, v) by a unit (c, s) keeps u² + v². */
  lemma TurnKeepsLength(c: real, s: real, u: real, v: real)
    requires c * c + s * s == 1.0
    ensures (c * u - s * v) * (c * u - s * v) + (s * u + c * v) * (s * u + c * v) == u * u + v * v
  {
    assert (c * u - s * v) * (c * u - s * v) + (s * u + c * v) * (s * u + c * v)
        == (c * c + s * s) * (u * u + v * v);
  }

  /** A rotation keeps every point at its distance from the origin. */
  lemma XRotationPreservesLength(c: real, s: real, x: real, y: real, z: real)
    requires c * c + s * s == 1.0
    ensures NormSquared(Apply(Point(x, y, z), XRotation(c, s))) == NormSquared(Point(x, y, z))
  {
    assert Apply(Point(x, y, z), XRotation(c, s)) == Point(x, c * y - s * z, s * y + c * z);
    TurnKeepsLength(c, s, y, z);
  }

  lemma YRotationPreservesLength(c: real, s: real, x: real, y: real, z: real)
    requires c * c + s * s == 1.0
    ensures NormSquared(Apply(Point(x, y, z), YRotation(c, s))) == NormSquared(Point(x, y, z))
  {
    assert Apply(Point(x, y, z), YRotation(c, s)) == Point(c * x + s * z, y, c * z - s * x);
    TurnKeepsLength(c, s, z, x);
  }

  lemma ZRotationPreservesLength(c: real, s: real, x: real, y: real, z: real)
    requires c * c + s * s == 1.0
    ensures NormSquared(Apply(Point(x, y, z), ZRotation(c, s))) == NormSquared(Point(x, y, z))
  {
    assert Apply(Point(x, y, z), ZRotation(c, s)) == Point(c * x - s * y, s * x + c * y, z);
    TurnKeepsLength(c, s, x, y);
  }

  /** Two chained translates are one translate by the summed offset. */
  lemma TranslateTwice(m: Matrix4, px: real, py: real, pz: real, qx: real, qy: real, qz: real)
    ensures Translate(Translate(m, px, py, pz), qx, qy, qz) == Translate(m, px + qx, py + qy, pz + qz)
  {
    MultiplyAssociative(m, Translation(px, py, pz), Translation(qx, qy, qz));
    TranslationsCompose(px, py, pz, qx, qy, qz);
  }

  /** Two chained scales are one scale by the product of the factors. */
  lemma ScaleTwice(m: Matrix4, px: real, py: real, pz: real, qx: real, qy: real, qz: real)
    ensures Scale(Scale(m, px, py, pz), qx, qy, qz) == Scale(m, px * qx, py * qy, pz * qz)
  {
    MultiplyAssociative(m, Scaling(px, py, pz), Scaling(qx, qy, qz));
    ScalingsCompose(px, py, pz, qx, qy, qz);
  }

  /** Two chained rotates about one axis are one rotate by the summed angle. */
  lemma RotateTwice(m: Matrix4, c1: real, s1: real, c2: real, s2: real)
    ensures XRotate(XRotate(m, c1, s1), c2, s2) == XRotate(m, c1 * c2 - s1 * s2, s1 * c2 + c1 * s2)
    ensures YRotate(YRotate(m, c1, s1), c2, s2) == YRotate(m, c1 * c2 - s1 * s2, s1 * c2 + c1 * s2)
    ensures ZRotate(ZRotate(m, c1, s1), c2, s2) == ZRotate(m, c1 * c2 - s1 * s2, s1 * c2 + c1 * s2)
  {
    XRotationsCompose(c1, s1, c2, s2);
    YRotationsCompose(c1, s1, c2, s2);
    ZRotationsCompose(c1, s1, c2, s2);
    MultiplyAssociative(m, XRotation(c1, s1), XRotation(c2, s2));
    MultiplyAssociative(m, YRotation(c1, s1), YRotation(c2, s2));
    MultiplyAssociative(m, ZRotation(c1, s1), ZRotation(c2, s2));
  }

  /** A translate is undone by the opposite translate. */
  lemma TranslateBack(m: Matrix4, tx: real, ty: real, tz: real)
    ensures Translate(Translate(m, tx, ty, tz), -tx, -ty, -tz) == m
  {
    TranslateTwice(m, tx, ty, tz, -tx, -ty, -tz);
    NeutralWrappers(m);
  }

  /** The pixel rectangle's top-left corner goes to clip (−1, 1) and its
      bottom-right corner to (1, −1); depth z goes to 2z/depth. */
  lemma ProjectionCorners(width: real, height: real, depth: real, z: real)
    requires width != 0.0 && height != 0.0 && depth != 0.0
    ensures Apply(Point(0.0, 0.0, z), Projection(width, height, depth)) == Point(-1.0, 1.0, 2.0 * z / depth)
    ensures Apply(Point(width, height, z), Projection(width, height, depth)) == Point(1.0, -1.0, 2.0 * z / depth)
  {
  }

  /** The pixel projection is the orthographic box [0, width] × [height, 0]
      with near and far at ±depth/2. */
  lemma ProjectionIsOrthographic(width: real, height: real, depth: real)
    requires width != 0.0 && height != 0.0 && depth != 0.0
    ensures Projection(width, height, depth) == Orthographic(0.0, width, height, 0.0, depth / 2.0, -depth / 2.0)
  {
  }

  /** The affine map of [lo, hi] onto [−1, 1] sends lo to −1 and hi to 1. */
  lemma AffineEnds(lo: real, hi: real)
    requires lo != hi
    ensures (2.0 * lo - (lo + hi)) / (hi - lo) == -1.0
    ensures (2.0 * hi - (lo + hi)) / (hi - lo) == 1.0
  {
    assert 2.0 * lo - (lo + hi) == -(hi - lo);
    assert 2.0 * hi - (lo + hi) == hi - lo;
  }

  /** The box's two opposite corners go to the clip cube's two opposite
      corners. */
  lemma OrthographicCorners(left: real, right: real, bottom: real, top: real, near: real, far: real)
    requires left != right && bottom != top && near != far
    ensures Apply(Point(left, bottom, -near), Orthographic(left, right, bottom, top, near, far)) == Point(-1.0, -1.0, -1.0)
    ensures Apply(Point(right, top, -far), Orthographic(left, right, bottom, top, near, far)) == Point(1.0, 1.0, 1.0)
  {
    AffineEnds(left, right);
    AffineEnds(bottom, top);
    AffineEnds(near, far);
    assert -2.0 * -near - (near + far) == 2.0 * near - (near + far);
    assert -2.0 * -far - (near + far) == 2.0 * far - (near + far);
  }

  /** A quotient with |n| <= d lies in [−1, 1]. */
  lemma RatioBounds(n: real, d: real)
    requires d > 0.0 && -d <= n <= d
    ensures -1.0 <= n / d <= 1.0
  {
  }

  /** v lies between the two bounds, whichever of them is the larger. */
  predicate Between(v: real, lo: real, hi: real)
  {
    lo <= v <= hi || hi <= v <= lo
  }

  /** An affine map sending lo to −1 and hi to 1 keeps the segment between
      them inside [−1, 1], in either orientation. */
  lemma UnitInterval(v: real, lo: real, hi: real)
    requires lo != hi && Between(v, lo, hi)
    ensures -1.0 <= (2.0 * v - (lo + hi)) / (hi - lo) <= 1.0
  {
    var n := 2.0 * v - (lo + hi);
    if lo < hi {
      RatioBounds(n, hi - lo);
    } else {
      RatioBounds(-n, lo - hi);
      QuotientOf(n, hi - lo, -n / (lo - hi));
    }
  }

  /** Every point of the viewing box lands inside the clip cube.  The bounds
      may come in either order, as in the lesson's flipped box with bottom
      below top on screen and near = 400 > far = −400. */
  lemma OrthographicBoxInCube(left: real, right: real, bottom: real, top: real, near: real, far: real,
                              x: real, y: real, z: real)
    requires left != right && bottom != top && near != far
    requires Between(x, left, right) && Between(y, bottom, top) && Between(z, -near, -far)
    ensures var q := Apply(Point(x, y, z), Orthographic(left, right, bottom, top, near, far));
      -1.0 <= q.x <= 1.0 && -1.0 <= q.y <= 1.0 && -1.0 <= q.z <= 1.0
  {
    assert Apply(Point(x, y, z), Orthographic(left, right, bottom, top, near, far))
        == Point((2.0 * x - (left + right)) / (right - left),
                 (2.0 * y - (bottom + top)) / (top - bottom),
                 (-2.0 * z - (near + far)) / (far - near));
    UnitInterval(x, left, right);
    UnitInterval(y, bottom, top);
    UnitInterval(-z, near, far);
    assert 2.0 * -z - (near + far) == -2.0 * z - (near + far);
  }

  /** Every point of the pixel box [0, width] × [0, height] × [−depth/2,
      depth/2] lands inside the clip cube. */
  lemma ProjectionBoxInCube(width: real, height: real, depth: real, x: real, y: real, z: real)
    requires width != 0.0 && height != 0.0 && depth != 0.0
    requires Between(x, 0.0, width) && Between(y, 0.0, height) && Between(z, -depth / 2.0, depth / 2.0)
    ensures var q := Apply(Point(x, y, z), Projection(width, height, depth));
      -1.0 <= q.x <= 1.0 && -1.0 <= q.y <= 1.0 && -1.0 <= q.z <= 1.0
  {
    ProjectionIsOrthographic(width, height, depth);
    OrthographicBoxInCube(0.0, width, height, 0.0, depth / 2.0, -depth / 2.0, x, y, z);
  }

  /** The backend's perspective divide. */
  function Divide(v: Vector4): (r: Vector4)
    requires v.w != 0.0
    ensures r.w == 1.0
    ensures r.x * v.w == v.x && r.y * v.w == v.y && r.z * v.w == v.z
  {
    Vector4(v.x / v.w, v.y / v.w, v.z / v.w, 1.0)
  }

  /** The perspective matrix has −1 at index 11 and 0 at index 15, so the
      output w is −z. */
  lemma PerspectiveLayout(f: real, aspect: real, near: real, far: real)
    requires aspect != 0.0 && near != far
    ensures Flatten(Perspective(f, aspect, near, far))[11] == -1.0
    ensures Flatten(Perspective(f, aspect, near, far))[15] == 0.0
  {
  }

  /** a / b is q when a is q·b. */
  lemma QuotientOf(a: real, b: real, q: real)
    requires b != 0.0 && a == q * b
    ensures a / b == q
  {
  }

  /** The depth row of the perspective matrix, divided by w = −z, at the near
      and far planes. */
  lemma NearFarDepth(near: real, far: real)
    requires near != far && near != 0.0 && far != 0.0
    ensures ((-near) * (near + far) + 2.0 * near * far) / (near - far) / near == -1.0
    ensures ((-far) * (near + far) + 2.0 * near * far) / (near - far) / far == 1.0
  {
    QuotientOf((-near) * (near + far) + 2.0 * near * far, near - far, -near);
    QuotientOf(-near, near, -1.0);
    QuotientOf((-far) * (near + far) + 2.0 * near * far, near - far, far);
    QuotientOf(far, far, 1.0);
  }

  /** After the divide, points on the near plane z = −near have depth −1 and
      points on the far plane z = −far have depth 1. */
  lemma PerspectiveDepth(f: real, aspect: real, near: real, far: real, x: real, y: real)
    requires aspect != 0.0 && near != far && near != 0.0 && far != 0.0
    ensures Apply(Point(x, y, -near), Perspective(f, aspect, near, far)).w == near
    ensures Divide(Apply(Point(x, y, -near), Perspective(f, aspect, near, far))).z == -1.0
    ensures Apply(Point(x, y, -far), Perspective(f, aspect, near, far)).w == far
    ensures Divide(Apply(Point(x, y, -far), Perspective(f, aspect, near, far))).z == 1.0
  {
    NearFarDepth(near, far);
  }

  /** makeZToWMatrix(k) is the identity with k at index 11. */
  lemma MakeZToWLayout(k: real)
    ensures Flatten(MakeZToWMatrix(k)) == Flatten(Identity)[11 := k]
  {
  }
}
