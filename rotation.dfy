/**
 * What the rotation matrix of pc_matrix_set_from_quaternion is worth: for a
 * unit quaternion it is orthogonal (a rotation, undone by the conjugate
 * quaternion, keeping lengths); for any other quaternion with a non-zero
 * vector part it is not.
 */
module QuaternionRotation {
  import opened MatrixAlgebra
  import opened Quaternions

  /**
   * R R^T for an arbitrary quaternion: I + k G with k == 4 (|q|^2 - 1) and G
   * built from the vector part (x, y, z).
   */
  function GramMatrix(q: Quaternion): Mat33
  {
    var x, y, z, k := q.x, q.y, q.z, 4.0 * (NormSquared(q) - 1.0);
    Mat33(1.0 + k * (y * y + z * z), -k * x * y,                -k * x * z,
          -k * x * y,                1.0 + k * (x * x + z * z), -k * y * z,
          -k * x * z,                -k * y * z,                1.0 + k * (x * x + y * y))
  }

  /** For every quaternion, R R^T == GramMatrix(q). */
  lemma {:induction false} RotationGram(q: Quaternion)
    ensures MatMul(Rotation(q), Transpose(Rotation(q))) == GramMatrix(q)
  {
    var k := 4.0 * (NormSquared(q) - 1.0);
    RotationGramSetting(q, k);
    GramOfEntries(Rotation(q), GramMatrix(q), q.w, q.x, q.y, q.z, k);
  }

  /** For a unit quaternion the scale k vanishes and R R^T is the identity. */
  lemma GramMatrixOfUnit(q: Quaternion)
    requires IsUnit(q)
    ensures GramMatrix(q) == Identity3
  {
  }

  /** A quaternion whose vector part is zero gives the identity matrix, whatever w is. */
  lemma ZeroVectorPartGivesIdentity(q: Quaternion)
    requires q.x == 0.0 && q.y == 0.0 && q.z == 0.0
    ensures Rotation(q) == Identity3
  {
  }

  /**
   * The property the library relies on when it assumes a unit quaternion:
   * the matrix it builds is orthogonal, on both sides.
   */
  lemma {:induction false} UnitRotationIsOrthogonal(q: Quaternion)
    requires IsUnit(q)
    ensures IsOrthogonal(Rotation(q))
  {
    var r, c := Rotation(q), Conjugate(q);
    RotationGram(q);
    GramMatrixOfUnit(q);
    RotationGram(c);
    GramMatrixOfUnit(c);
    ConjugateGivesTranspose(q);
    TransposeEntry(r, 0, 0);
  }

  /**
   * Exactly the unit quaternions, and the quaternions with a zero vector part,
   * give an orthogonal matrix.
   */
  lemma {:induction false} OrthogonalIff(q: Quaternion)
    ensures IsOrthogonal(Rotation(q)) <==> IsUnit(q) || (q.x == 0.0 && q.y == 0.0 && q.z == 0.0)
  {
    if q.x == 0.0 && q.y == 0.0 && q.z == 0.0 {
      ZeroVectorPartGivesIdentity(q);
      IdentityIsOrthogonal();
    } else if IsUnit(q) {
      UnitRotationIsOrthogonal(q);
    } else if IsOrthogonal(Rotation(q)) {
      OrthogonalGivesIdentityGram(q);
      IdentityGramOnlyIf(q);
    }
  }

  lemma IdentityIsOrthogonal()
    ensures IsOrthogonal(Identity3)
  {
    var i := Identity3;
    assert Transpose(i) == i;
    assert Row(i, 0) == Column(i, 0) == Vec3(1.0, 0.0, 0.0);
    assert Row(i, 1) == Column(i, 1) == Vec3(0.0, 1.0, 0.0);
    assert Row(i, 2) == Column(i, 2) == Vec3(0.0, 0.0, 1.0);
  }

  lemma {:induction false} OrthogonalGivesIdentityGram(q: Quaternion)
    requires IsOrthogonal(Rotation(q))
    ensures GramMatrix(q) == Identity3
  {
    RotationGram(q);
  }

  /** R R^T is the identity only for a unit quaternion or a zero vector part. */
  lemma {:induction false} IdentityGramOnlyIf(q: Quaternion)
    requires GramMatrix(q) == Identity3
    ensures IsUnit(q) || (q.x == 0.0 && q.y == 0.0 && q.z == 0.0)
  {
    var k := 4.0 * (NormSquared(q) - 1.0);
    GramMatrixEntries(q, k);
    ScaleVanishes(q.x, q.y, q.z, k);
  }

  /**
   * If k times each of y^2 + z^2, x^2 + z^2 and x^2 + y^2 is zero, then k is
   * zero or x, y and z all are.
   */
  lemma ScaleVanishes(x: real, y: real, z: real, k: real)
    requires 1.0 + k * (y * y + z * z) == 1.0
    requires 1.0 + k * (x * x + z * z) == 1.0
    requires 1.0 + k * (x * x + y * y) == 1.0
    ensures k == 0.0 || (x == 0.0 && y == 0.0 && z == 0.0)
  {
    if k != 0.0 {
      ZeroProduct(k, y * y + z * z);
      ZeroProduct(k, x * x + z * z);
      ZeroProduct(k, x * x + y * y);
      ZeroSquares(x, y);
      ZeroSquares(x, z);
    }
  }

  lemma ZeroProduct(a: real, b: real)
    requires a * b == 0.0 && a != 0.0
    ensures b == 0.0
  {
  }

  /** A sum of two squares vanishes only if both terms do. */
  lemma ZeroSquares(a: real, b: real)
    requires a * a + b * b == 0.0
    ensures a == 0.0 && b == 0.0
  {
    NonNegativeSquare(a);
    NonNegativeSquare(b);
    NonNegativeSum(a * a, b * b);
    ZeroSquare(a);
    ZeroSquare(b);
  }

  lemma ZeroSquare(a: real)
    requires a * a == 0.0
    ensures a == 0.0
  {
    if a != 0.0 {
      ZeroProduct(a, a);
    }
  }

  lemma NonNegativeSquare(a: real)
    ensures a * a >= 0.0
  {
    if a < 0.0 {
      NegativeProduct(a, a);
    }
  }

  lemma NegativeProduct(p: real, q: real)
    requires p < 0.0 && q < 0.0
    ensures p * q > 0.0
  {
  }

  lemma NonNegativeSum(p: real, q: real)
    requires p >= 0.0 && q >= 0.0 && p + q == 0.0
    ensures p == 0.0 && q == 0.0
  {
  }

  /** A quaternion that is not unit, here (0, 0, 0, 2), does not give a rotation. */
  lemma NonUnitQuaternionIsNotOrthogonal()
    ensures Rotation(Quaternion(0.0, 0.0, 0.0, 2.0)) == Mat33(-7.0, 0.0, 0.0, 0.0, -7.0, 0.0, 0.0, 0.0, 1.0)
    ensures !IsOrthogonal(Rotation(Quaternion(0.0, 0.0, 0.0, 2.0)))
  {
    var r := Mat33(-7.0, 0.0, 0.0, 0.0, -7.0, 0.0, 0.0, 0.0, 1.0);
    assert Rotation(Quaternion(0.0, 0.0, 0.0, 2.0)) == r;
    assert Dot(Row(r, 0), Column(Transpose(r), 0)) == 49.0;
  }

  /**
   * For a unit quaternion, rotating by q and then by its conjugate gives back
   * the vector, and rotating keeps its length.
   */
  lemma {:induction false} RotateBackRestores(q: Quaternion, v: Vec3)
    requires IsUnit(q)
    ensures MulVec(Rotation(Conjugate(q)), MulVec(Rotation(q), v)) == v
    ensures LengthSquared(MulVec(Rotation(q), v)) == LengthSquared(v)
  {
    UnitRotationIsOrthogonal(q);
    OrthogonalPreservesVectors(Rotation(q), v);
    ConjugateGivesTranspose(q);
  }

  /** (cos 45, 0, 0, sin 45) turns the x axis into the y axis. */
  lemma {:induction false} QuarterTurnAboutZ(s: real)
    requires s * s == 0.5
    ensures MulVec(Rotation(Quaternion(s, 0.0, 0.0, s)), Vec3(1.0, 0.0, 0.0)) == Vec3(0.0, 1.0, 0.0)
  {
    AboutZ(s, s);
  }

  /** The rotation matrix of a quaternion (w, 0, 0, z), whose axis is z. */
  lemma AboutZ(w: real, z: real)
    ensures Rotation(Quaternion(w, 0.0, 0.0, z))
         == Mat33(1.0 - 2.0 * (z * z), -2.0 * (w * z), 0.0,
                  2.0 * (w * z),       1.0 - 2.0 * (z * z), 0.0,
                  0.0,                 0.0,                 1.0)
  {
  }

  /** (0, 0, 0, 1) is the half turn about z: (x, y, z) goes to (-x, -y, z). */
  lemma HalfTurnAboutZ(v: Vec3)
    ensures MulVec(Rotation(Quaternion(0.0, 0.0, 0.0, 1.0)), v) == Vec3(-v.x, -v.y, v.z)
  {
  }

  /**
   * r holds the rotation entries of (w, x, y, z) and g the entries of its
   * Gram matrix with scale k. Bundled in one predicate so that the polynomial
   * reasoning below is done once, away from the definitions of Rotation and
   * GramMatrix.
   */
  predicate GramSetting(r: Mat33, g: Mat33, w: real, x: real, y: real, z: real, k: real)
  {
    && k == 4.0 * (w * w + x * x + y * y + z * z - 1.0)
    && r.m00 == 1.0 - 2.0 * (y * y + z * z) && r.m01 == 2.0 * (x * y - w * z) && r.m02 == 2.0 * (x * z + w * y)
    && r.m10 == 2.0 * (x * y + w * z) && r.m11 == 1.0 - 2.0 * (x * x + z * z) && r.m12 == 2.0 * (y * z - w * x)
    && r.m20 == 2.0 * (x * z - w * y) && r.m21 == 2.0 * (y * z + w * x) && r.m22 == 1.0 - 2.0 * (x * x + y * y)
    && g.m00 == 1.0 + k * (y * y + z * z) && g.m01 == -k * x * y && g.m02 == -k * x * z
    && g.m10 == -k * x * y && g.m11 == 1.0 + k * (x * x + z * z) && g.m12 == -k * y * z
    && g.m20 == -k * x * z && g.m21 == -k * y * z && g.m22 == 1.0 + k * (x * x + y * y)
  }

  lemma {:induction false} GramOfEntries(r: Mat33, g: Mat33, w: real, x: real, y: real, z: real, k: real)
    requires GramSetting(r, g, w, x, y, z, k)
    ensures MatMul(r, Transpose(r)) == g
  {
    GramEntries(r);
    RowDot00(w, x, y, z, k, Row(r, 0), Row(r, 0));
    RowDot01(w, x, y, z, k, Row(r, 0), Row(r, 1));
    RowDot02(w, x, y, z, k, Row(r, 0), Row(r, 2));
    RowDot11(w, x, y, z, k, Row(r, 1), Row(r, 1));
    RowDot12(w, x, y, z, k, Row(r, 1), Row(r, 2));
    RowDot22(w, x, y, z, k, Row(r, 2), Row(r, 2));
  }

  lemma RotationGramSetting(q: Quaternion, k: real)
    requires k == 4.0 * (NormSquared(q) - 1.0)
    ensures GramSetting(Rotation(q), GramMatrix(q), q.w, q.x, q.y, q.z, k)
  {
    RotationEntries(q);
    GramMatrixEntries(q, k);
  }

  /** The entries of Rotation(q), written out. */
  lemma RotationEntries(q: Quaternion)
    ensures var r, w, x, y, z := Rotation(q), q.w, q.x, q.y, q.z;
      && r.m00 == 1.0 - 2.0 * (y * y + z * z) && r.m01 == 2.0 * (x * y - w * z) && r.m02 == 2.0 * (x * z + w * y)
      && r.m10 == 2.0 * (x * y + w * z) && r.m11 == 1.0 - 2.0 * (x * x + z * z) && r.m12 == 2.0 * (y * z - w * x)
      && r.m20 == 2.0 * (x * z - w * y) && r.m21 == 2.0 * (y * z + w * x) && r.m22 == 1.0 - 2.0 * (x * x + y * y)
  {
  }

  /** The entries of GramMatrix(q), written out with the scale k. */
  lemma GramMatrixEntries(q: Quaternion, k: real)
    requires k == 4.0 * (NormSquared(q) - 1.0)
    ensures var g, w, x, y, z := GramMatrix(q), q.w, q.x, q.y, q.z;
      && k == 4.0 * (w * w + x * x + y * y + z * z - 1.0)
      && g.m00 == 1.0 + k * (y * y + z * z) && g.m01 == -k * x * y && g.m02 == -k * x * z
      && g.m10 == -k * x * y && g.m11 == 1.0 + k * (x * x + z * z) && g.m12 == -k * y * z
      && g.m20 == -k * x * z && g.m21 == -k * y * z && g.m22 == 1.0 + k * (x * x + y * y)
  {
  }

  /** Row 0 of the rotation matrix of (w, x, y, z) dotted with row 0. */
  lemma {:induction false} RowDot00(w: real, x: real, y: real, z: real, k: real, a: Vec3, b: Vec3)
    requires k == 4.0 * (w * w + x * x + y * y + z * z - 1.0)
    requires a == Vec3(1.0 - 2.0 * (y * y + z * z), 2.0 * (x * y - w * z), 2.0 * (x * z + w * y))
    requires b == Vec3(1.0 - 2.0 * (y * y + z * z), 2.0 * (x * y - w * z), 2.0 * (x * z + w * y))
    ensures Dot(a, b) == 1.0 + k * (y * y + z * z)
  {
    DotOfComponents(1.0 - 2.0 * (y * y + z * z), 2.0 * (x * y - w * z), 2.0 * (x * z + w * y),
                    1.0 - 2.0 * (y * y + z * z), 2.0 * (x * y - w * z), 2.0 * (x * z + w * y));
    RowDotExpanded00(w, x, y, z, k);
  }

  lemma RowDotExpanded00(w: real, x: real, y: real, z: real, k: real)
    requires k == 4.0 * (w * w + x * x + y * y + z * z - 1.0)
    ensures (1.0 - 2.0 * (y * y + z * z)) * (1.0 - 2.0 * (y * y + z * z))
          + (2.0 * (x * y - w * z)) * (2.0 * (x * y - w * z))
          + (2.0 * (x * z + w * y)) * (2.0 * (x * z + w * y))
         == 1.0 + k * (y * y + z * z)
  {
  }

  /** Row 0 of the rotation matrix of (w, x, y, z) dotted with row 1. */
  lemma {:induction false} RowDot01(w: real, x: real, y: real, z: real, k: real, a: Vec3, b: Vec3)
    requires k == 4.0 * (w * w + x * x + y * y + z * z - 1.0)
    requires a == Vec3(1.0 - 2.0 * (y * y + z * z), 2.0 * (x * y - w * z), 2.0 * (x * z + w * y))
    requires b == Vec3(2.0 * (x * y + w * z), 1.0 - 2.0 * (x * x + z * z), 2.0 * (y * z - w * x))
    ensures Dot(a, b) == -k * x * y
  {
    DotOfComponents(1.0 - 2.0 * (y * y + z * z), 2.0 * (x * y - w * z), 2.0 * (x * z + w * y),
                    2.0 * (x * y + w * z), 1.0 - 2.0 * (x * x + z * z), 2.0 * (y * z - w * x));
    RowDotExpanded01(w, x, y, z, k);
  }

  lemma RowDotExpanded01(w: real, x: real, y: real, z: real, k: real)
    requires k == 4.0 * (w * w + x * x + y * y + z * z - 1.0)
    ensures (1.0 - 2.0 * (y * y + z * z)) * (2.0 * (x * y + w * z))
          + (2.0 * (x * y - w * z)) * (1.0 - 2.0 * (x * x + z * z))
          + (2.0 * (x * z + w * y)) * (2.0 * (y * z - w * x))
         == -k * x * y
  {
  }

  /** Row 0 of the rotation matrix of (w, x, y, z) dotted with row 2. */
  lemma {:induction false} RowDot02(w: real, x: real, y: real, z: real, k: real, a: Vec3, b: Vec3)
    requires k == 4.0 * (w * w + x * x + y * y + z * z - 1.0)
    requires a == Vec3(1.0 - 2.0 * (y * y + z * z), 2.0 * (x * y - w * z), 2.0 * (x * z + w * y))
    requires b == Vec3(2.0 * (x * z - w * y), 2.0 * (y * z + w * x), 1.0 - 2.0 * (x * x + y * y))
    ensures Dot(a, b) == -k * x * z
  {
    DotOfComponents(1.0 - 2.0 * (y * y + z * z), 2.0 * (x * y - w * z), 2.0 * (x * z + w * y),
                    2.0 * (x * z - w * y), 2.0 * (y * z + w * x), 1.0 - 2.0 * (x * x + y * y));
    RowDotExpanded02(w, x, y, z, k);
  }

  lemma RowDotExpanded02(w: real, x: real, y: real, z: real, k: real)
    requires k == 4.0 * (w * w + x * x + y * y + z * z - 1.0)
    ensures (1.0 - 2.0 * (y * y + z * z)) * (2.0 * (x * z - w * y))
          + (2.0 * (x * y - w * z)) * (2.0 * (y * z + w * x))
          + (2.0 * (x * z + w * y)) * (1.0 - 2.0 * (x * x + y * y))
         == -k * x * z
  {
  }

  /** Row 1 of the rotation matrix of (w, x, y, z) dotted with row 1. */
  lemma {:induction false} RowDot11(w: real, x: real, y: real, z: real, k: real, a: Vec3, b: Vec3)
    requires k == 4.0 * (w * w + x * x + y * y + z * z - 1.0)
    requires a == Vec3(2.0 * (x * y + w * z), 1.0 - 2.0 * (x * x + z * z), 2.0 * (y * z - w * x))
    requires b == Vec3(2.0 * (x * y + w * z), 1.0 - 2.0 * (x * x + z * z), 2.0 * (y * z - w * x))
    ensures Dot(a, b) == 1.0 + k * (x * x + z * z)
  {
    DotOfComponents(2.0 * (x * y + w * z), 1.0 - 2.0 * (x * x + z * z), 2.0 * (y * z - w * x),
                    2.0 * (x * y + w * z), 1.0 - 2.0 * (x * x + z * z), 2.0 * (y * z - w * x));
    RowDotExpanded11(w, x, y, z, k);
  }

  lemma RowDotExpanded11(w: real, x: real, y: real, z: real, k: real)
    requires k == 4.0 * (w * w + x * x + y * y + z * z - 1.0)
    ensures (2.0 * (x * y + w * z)) * (2.0 * (x * y + w * z))
          + (1.0 - 2.0 * (x * x + z * z)) * (1.0 - 2.0 * (x * x + z * z))
          + (2.0 * (y * z - w * x)) * (2.0 * (y * z - w * x))
         == 1.0 + k * (x * x + z * z)
  {
  }

  /** Row 1 of the rotation matrix of (w, x, y, z) dotted with row 2. */
  lemma {:induction false} RowDot12(w: real, x: real, y: real, z: real, k: real, a: Vec3, b: Vec3)
    requires k == 4.0 * (w * w + x * x + y * y + z * z - 1.0)
    requires a == Vec3(2.0 * (x * y + w * z), 1.0 - 2.0 * (x * x + z * z), 2.0 * (y * z - w * x))
    requires b == Vec3(2.0 * (x * z - w * y), 2.0 * (y * z + w * x), 1.0 - 2.0 * (x * x + y * y))
    ensures Dot(a, b) == -k * y * z
  {
    DotOfComponents(2.0 * (x * y + w * z), 1.0 - 2.0 * (x * x + z * z), 2.0 * (y * z - w * x),
                    2.0 * (x * z - w * y), 2.0 * (y * z + w * x), 1.0 - 2.0 * (x * x + y * y));
    RowDotExpanded12(w, x, y, z, k);
  }

  lemma RowDotExpanded12(w: real, x: real, y: real, z: real, k: real)
    requires k == 4.0 * (w * w + x * x + y * y + z * z - 1.0)
    ensures (2.0 * (x * y + w * z)) * (2.0 * (x * z - w * y))
          + (1.0 - 2.0 * (x * x + z * z)) * (2.0 * (y * z + w * x))
          + (2.0 * (y * z - w * x)) * (1.0 - 2.0 * (x * x + y * y))
         == -k * y * z
  {
  }

  /** Row 2 of the rotation matrix of (w, x, y, z) dotted with row 2. */
  lemma {:induction false} RowDot22(w: real, x: real, y: real, z: real, k: real, a: Vec3, b: Vec3)
    requires k == 4.0 * (w * w + x * x + y * y + z * z - 1.0)
    requires a == Vec3(2.0 * (x * z - w * y), 2.0 * (y * z + w * x), 1.0 - 2.0 * (x * x + y * y))
    requires b == Vec3(2.0 * (x * z - w * y), 2.0 * (y * z + w * x), 1.0 - 2.0 * (x * x + y * y))
    ensures Dot(a, b) == 1.0 + k * (x * x + y * y)
  {
    DotOfComponents(2.0 * (x * z - w * y), 2.0 * (y * z + w * x), 1.0 - 2.0 * (x * x + y * y),
                    2.0 * (x * z - w * y), 2.0 * (y * z + w * x), 1.0 - 2.0 * (x * x + y * y));
    RowDotExpanded22(w, x, y, z, k);
  }

  lemma RowDotExpanded22(w: real, x: real, y: real, z: real, k: real)
    requires k == 4.0 * (w * w + x * x + y * y + z * z - 1.0)
    ensures (2.0 * (x * z - w * y)) * (2.0 * (x * z - w * y))
          + (2.0 * (y * z + w * x)) * (2.0 * (y * z + w * x))
          + (1.0 - 2.0 * (x * x + y * y)) * (1.0 - 2.0 * (x * x + y * y))
         == 1.0 + k * (x * x + y * y)
  {
  }
}
