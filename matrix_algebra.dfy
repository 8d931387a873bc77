/**
 * Vectors and 3x3 matrices over the reals. C doubles are modelled as exact
 * reals. The library keeps a 3x3 matrix (PCMAT33) in nine doubles, row-major,
 * so that entry (r, c) sits at index 3 * r + c, and a vector (PCVEC3) in three;
 * SeqOfMat / MatOfSeq and SeqOfVec / VecOfSeq are that layout and its inverse.
 */
module MatrixAlgebra {

  datatype Vec3 = Vec3(x: real, y: real, z: real)

  /** Entry m<r><c> is row r, column c. */
  datatype Mat33 = Mat33(m00: real, m01: real, m02: real,
                         m10: real, m11: real, m12: real,
                         m20: real, m21: real, m22: real)

  const Identity3 := Mat33(1.0, 0.0, 0.0,
                           0.0, 1.0, 0.0,
                           0.0, 0.0, 1.0)

  /** Entry (r, c) of m. */
  function Entry(m: Mat33, r: nat, c: nat): real
    requires r < 3 && c < 3
  {
    if r == 0 then (if c == 0 then m.m00 else if c == 1 then m.m01 else m.m02)
    else if r == 1 then (if c == 0 then m.m10 else if c == 1 then m.m11 else m.m12)
    else (if c == 0 then m.m20 else if c == 1 then m.m21 else m.m22)
  }

  /** Component i of v. */
  function Component(v: Vec3, i: nat): real
    requires i < 3
  {
    if i == 0 then v.x else if i == 1 then v.y else v.z
  }

  function Row(m: Mat33, r: nat): Vec3
    requires r < 3
  {
    Vec3(Entry(m, r, 0), Entry(m, r, 1), Entry(m, r, 2))
  }

  function Column(m: Mat33, c: nat): Vec3
    requires c < 3
  {
    Vec3(Entry(m, 0, c), Entry(m, 1, c), Entry(m, 2, c))
  }

  function Dot(u: Vec3, v: Vec3): real
  {
    u.x * v.x + u.y * v.y + u.z * v.z
  }

  /** The dot product of two vectors given by their components. */
  lemma DotOfComponents(a0: real, a1: real, a2: real, b0: real, b1: real, b2: real)
    ensures Dot(Vec3(a0, a1, a2), Vec3(b0, b1, b2)) == a0 * b0 + a1 * b1 + a2 * b2
  {
  }

  function Add(u: Vec3, v: Vec3): Vec3
  {
    Vec3(u.x + v.x, u.y + v.y, u.z + v.z)
  }

  /** The squared Euclidean length of v. */
  function LengthSquared(v: Vec3): real
  {
    Dot(v, v)
  }

  /** v scaled by k. */
  function Scale(k: real, v: Vec3): Vec3
  {
    Vec3(k * v.x, k * v.y, k * v.z)
  }

  /**
   * The matrix-vector product: component r is row r of m dotted with v. The
   * unit vectors go to the columns of m.
   */
  function MulVec(m: Mat33, v: Vec3): (r: Vec3)
    ensures v == Vec3(1.0, 0.0, 0.0) ==> r == Column(m, 0)
    ensures v == Vec3(0.0, 1.0, 0.0) ==> r == Column(m, 1)
    ensures v == Vec3(0.0, 0.0, 1.0) ==> r == Column(m, 2)
  {
    Vec3(Dot(Row(m, 0), v), Dot(Row(m, 1), v), Dot(Row(m, 2), v))
  }

  function Transpose(m: Mat33): Mat33
  {
    Mat33(m.m00, m.m10, m.m20,
          m.m01, m.m11, m.m21,
          m.m02, m.m12, m.m22)
  }

  /** The matrix product: entry (r, c) is row r of a dotted with column c of b. */
  function MatMul(a: Mat33, b: Mat33): Mat33
  {
    Mat33(Dot(Row(a, 0), Column(b, 0)), Dot(Row(a, 0), Column(b, 1)), Dot(Row(a, 0), Column(b, 2)),
          Dot(Row(a, 1), Column(b, 0)), Dot(Row(a, 1), Column(b, 1)), Dot(Row(a, 1), Column(b, 2)),
          Dot(Row(a, 2), Column(b, 0)), Dot(Row(a, 2), Column(b, 1)), Dot(Row(a, 2), Column(b, 2)))
  }

  /** m is orthogonal: its transpose is its inverse on both sides. */
  ghost predicate IsOrthogonal(m: Mat33)
  {
    MatMul(m, Transpose(m)) == Identity3 && MatMul(Transpose(m), m) == Identity3
  }

  /**
   * Entry (r, c) of m m^T is row r of m dotted with row c of m; the product is
   * symmetric, so each entry is written with the smaller row index first.
   */
  lemma GramEntries(m: Mat33)
    ensures MatMul(m, Transpose(m))
         == Mat33(Dot(Row(m, 0), Row(m, 0)), Dot(Row(m, 0), Row(m, 1)), Dot(Row(m, 0), Row(m, 2)),
                  Dot(Row(m, 0), Row(m, 1)), Dot(Row(m, 1), Row(m, 1)), Dot(Row(m, 1), Row(m, 2)),
                  Dot(Row(m, 0), Row(m, 2)), Dot(Row(m, 1), Row(m, 2)), Dot(Row(m, 2), Row(m, 2)))
  {
    var t := Transpose(m);
    assert Column(t, 0) == Row(m, 0) && Column(t, 1) == Row(m, 1) && Column(t, 2) == Row(m, 2);
  }

  /** The row-major layout of a 3x3 matrix in nine doubles. */
  function SeqOfMat(m: Mat33): (s: seq<real>)
    ensures |s| == 9
    ensures forall r: nat, c: nat | r < 3 && c < 3 :: s[3 * r + c] == Entry(m, r, c)
  {
    [m.m00, m.m01, m.m02, m.m10, m.m11, m.m12, m.m20, m.m21, m.m22]
  }

  /** Reads a 3x3 matrix back from its row-major layout. */
  function MatOfSeq(s: seq<real>): (m: Mat33)
    requires |s| == 9
    ensures forall r: nat, c: nat | r < 3 && c < 3 :: Entry(m, r, c) == s[3 * r + c]
  {
    Mat33(s[0], s[1], s[2], s[3], s[4], s[5], s[6], s[7], s[8])
  }

  function SeqOfVec(v: Vec3): (s: seq<real>)
    ensures |s| == 3
    ensures forall i: nat | i < 3 :: s[i] == Component(v, i)
  {
    [v.x, v.y, v.z]
  }

  function VecOfSeq(s: seq<real>): (v: Vec3)
    requires |s| == 3
    ensures forall i: nat | i < 3 :: Component(v, i) == s[i]
  {
    Vec3(s[0], s[1], s[2])
  }

  /** The layouts are inverse to each other, in both directions. */
  lemma LayoutRoundTrip(m: Mat33, v: Vec3, s9: seq<real>, s3: seq<real>)
    requires |s9| == 9 && |s3| == 3
    ensures MatOfSeq(SeqOfMat(m)) == m && SeqOfMat(MatOfSeq(s9)) == s9
    ensures VecOfSeq(SeqOfVec(v)) == v && SeqOfVec(VecOfSeq(s3)) == s3
  {
  }

  /** Transposing swaps the row and column of every entry, and twice is the identity. */
  lemma TransposeEntry(m: Mat33, r: nat, c: nat)
    requires r < 3 && c < 3
    ensures Entry(Transpose(m), r, c) == Entry(m, c, r)
    ensures Transpose(Transpose(m)) == m
  {
  }

  /**
   * Read by columns, m v is the combination of the columns of m weighted by
   * the components of v.
   */
  lemma MulVecByColumns(m: Mat33, v: Vec3)
    ensures MulVec(m, v) == Add(Add(Scale(v.x, Column(m, 0)), Scale(v.y, Column(m, 1))), Scale(v.z, Column(m, 2)))
  {
  }

  /** The identity matrix maps every vector to itself. */
  lemma MulVecIdentity(v: Vec3)
    ensures MulVec(Identity3, v) == v
  {
  }

  /** Applying b and then a is applying their product. */
  lemma MulVecMatMul(a: Mat33, b: Mat33, v: Vec3)
    ensures MulVec(a, MulVec(b, v)) == MulVec(MatMul(a, b), v)
  {
    ThreeTermAssociativity(a.m00, a.m01, a.m02, b, v);
    ThreeTermAssociativity(a.m10, a.m11, a.m12, b, v);
    ThreeTermAssociativity(a.m20, a.m21, a.m22, b, v);
  }

  /** One row of MulVecMatMul: (p, q, s) . (b v) == ((p, q, s) b) . v. */
  lemma ThreeTermAssociativity(p: real, q: real, s: real, b: Mat33, v: Vec3)
    ensures p * Dot(Row(b, 0), v) + q * Dot(Row(b, 1), v) + s * Dot(Row(b, 2), v)
         == (p * b.m00 + q * b.m10 + s * b.m20) * v.x
          + (p * b.m01 + q * b.m11 + s * b.m21) * v.y
          + (p * b.m02 + q * b.m12 + s * b.m22) * v.z
  {
  }

  /** The transpose is the adjoint for the dot product. */
  lemma DotTranspose(m: Mat33, u: Vec3, w: Vec3)
    ensures Dot(MulVec(m, u), w) == Dot(u, MulVec(Transpose(m), w))
  {
  }

  /**
   * An orthogonal matrix is undone by its transpose and keeps lengths:
   * applying m and then its transpose restores v, and |m v|^2 == |v|^2.
   */
  lemma {:induction false} OrthogonalPreservesVectors(m: Mat33, v: Vec3)
    requires IsOrthogonal(m)
    ensures MulVec(Transpose(m), MulVec(m, v)) == v
    ensures LengthSquared(MulVec(m, v)) == LengthSquared(v)
  {
    MulVecMatMul(Transpose(m), m, v);
    MulVecIdentity(v);
    DotTranspose(m, v, MulVec(m, v));
  }
}
