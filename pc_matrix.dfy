/**
 * The four routines of lib/pc_matrix.c, on the caller's buffers: a PCMAT33 is
 * an array of nine reals, a PCMAT43 of twelve, a PCVEC3 of three. Each method
 * does what the C does, statement for statement, and its postcondition gives
 * the whole new contents of the buffer it writes through the specification
 * functions of MatrixAlgebra, Quaternions and AffineMaps.
 *
 * The C does not forbid passing the same buffer as res and vec; it then reads
 * components it has already overwritten. The product methods state that case
 * too, through InPlaceMulVec and InPlaceApply.
 */
module PcMatrix {
  import opened MatrixAlgebra
  import opened Quaternions
  import opened AffineMaps
  import QuaternionRotation

  /** pc_matrix_set_from_quaternion: mat becomes the rotation matrix of (qw, qx, qy, qz). */
  method SetFromQuaternion(mat: array<real>, qw: real, qx: real, qy: real, qz: real)
    requires mat.Length == 9
    modifies mat
    ensures mat[..] == SeqOfMat(Rotation(Quaternion(qw, qx, qy, qz)))
  {
    var x := qx + qx;
    var y := qy + qy;
    var z := qz + qz;

    var xx := qx * x;
    var xy := qx * y;
    var xz := qx * z;
    var yy := qy * y;
    var yz := qy * z;
    var zz := qz * z;
    var wx := qw * x;
    var wy := qw * y;
    var wz := qw * z;

    mat[0] := 1.0 - (yy + zz);
    mat[1] := xy - wz;
    mat[2] := xz + wy;

    mat[3] := xy + wz;
    mat[4] := 1.0 - (xx + zz);
    mat[5] := yz - wx;

    mat[6] := xz - wy;
    mat[7] := yz + wx;
    mat[8] := 1.0 - (xx + yy);

    DoubledProducts(qw, qx, qy, qz, x, y, z, xx, xy, xz, yy, yz, zz, wx, wy, wz);
    assert mat[..] == [mat[0], mat[1], mat[2], mat[3], mat[4], mat[5], mat[6], mat[7], mat[8]];
  }

  /**
   * The entries the C computes from the doubled components x == 2 qx, ... and
   * the products xx == qx x, ... are the entries of Rotation.
   */
  lemma DoubledProducts(qw: real, qx: real, qy: real, qz: real, x: real, y: real, z: real,
                        xx: real, xy: real, xz: real, yy: real, yz: real, zz: real,
                        wx: real, wy: real, wz: real)
    requires x == qx + qx && y == qy + qy && z == qz + qz
    requires xx == qx * x && xy == qx * y && xz == qx * z
    requires yy == qy * y && yz == qy * z && zz == qz * z
    requires wx == qw * x && wy == qw * y && wz == qw * z
    ensures Mat33(1.0 - (yy + zz), xy - wz, xz + wy,
                  xy + wz, 1.0 - (xx + zz), yz - wx,
                  xz - wy, yz + wx, 1.0 - (xx + yy))
         == Rotation(Quaternion(qw, qx, qy, qz))
  {
  }

  /** pc_matrix_set_affine: mat becomes the 3x4 layout of the given linear part and offset. */
  method SetAffine(mat: array<real>,
                   a: real, b: real, c: real,
                   d: real, e: real, f: real,
                   g: real, h: real, i: real,
                   xoff: real, yoff: real, zoff: real)
    requires mat.Length == 12
    modifies mat
    ensures mat[..] == SeqOfAffine(Affine(Mat33(a, b, c, d, e, f, g, h, i), Vec3(xoff, yoff, zoff)))
  {
    mat[0] := a;
    mat[1] := b;
    mat[2] := c;
    mat[3] := xoff;

    mat[4] := d;
    mat[5] := e;
    mat[6] := f;
    mat[7] := yoff;

    mat[8] := g;
    mat[9] := h;
    mat[10] := i;
    mat[11] := zoff;

    assert mat[..] == [mat[0], mat[1], mat[2], mat[3], mat[4], mat[5],
                       mat[6], mat[7], mat[8], mat[9], mat[10], mat[11]];
  }

  /**
   * What the C computes when res and vec are the same buffer: each component
   * is computed from the vector as it stands after the earlier components
   * were overwritten. Component r is component r of the true product of m and
   * that partly overwritten vector.
   */
  function InPlaceMulVec(m: Mat33, v: Vec3): (r: Vec3)
    ensures r.x == MulVec(m, v).x
    ensures r.y == MulVec(m, Vec3(r.x, v.y, v.z)).y
    ensures r.z == MulVec(m, Vec3(r.x, r.y, v.z)).z
  {
    var r0 := Dot(Row(m, 0), v);
    var r1 := Dot(Row(m, 1), Vec3(r0, v.y, v.z));
    Vec3(r0, r1, Dot(Row(m, 2), Vec3(r0, r1, v.z)))
  }

  /** The same for the affine transform, against the true image Apply. */
  function InPlaceApply(t: Affine, v: Vec3): (r: Vec3)
    ensures r.x == Apply(t, v).x
    ensures r.y == Apply(t, Vec3(r.x, v.y, v.z)).y
    ensures r.z == Apply(t, Vec3(r.x, r.y, v.z)).z
  {
    var m := t.linear;
    var r0 := Dot(Row(m, 0), v) + t.offset.x;
    var r1 := Dot(Row(m, 1), Vec3(r0, v.y, v.z)) + t.offset.y;
    Vec3(r0, r1, Dot(Row(m, 2), Vec3(r0, r1, v.z)) + t.offset.z)
  }

  /**
   * pc_matrix_multiply_vector: res becomes mat times vec; mat is not changed,
   * and neither is vec unless it is res.
   */
  method MultiplyVector(res: array<real>, mat: array<real>, vec: array<real>)
    requires res.Length == 3 && mat.Length == 9 && vec.Length == 3
    modifies res
    ensures res != vec ==> res[..] == SeqOfVec(MulVec(MatOfSeq(mat[..]), VecOfSeq(old(vec[..]))))
    ensures res == vec ==> res[..] == SeqOfVec(InPlaceMulVec(MatOfSeq(mat[..]), VecOfSeq(old(vec[..]))))
    ensures mat[..] == old(mat[..])
    ensures res != vec ==> vec[..] == old(vec[..])
  {
    ghost var m, v := mat[..], vec[..];
    res[0] := mat[0] * vec[0] + mat[1] * vec[1] + mat[2] * vec[2];
    res[1] := mat[3] * vec[0] + mat[4] * vec[1] + mat[5] * vec[2];
    res[2] := mat[6] * vec[0] + mat[7] * vec[1] + mat[8] * vec[2];

    assert res[..] == [res[0], res[1], res[2]];
    assert mat[..] == m;
    if res == vec {
      InPlaceMulVecOfSlots(m, v, res[0], res[1], res[2]);
    } else {
      MulVecOfSlots(m, v, res[0], res[1], res[2]);
    }
  }

  /** The product of MultiplyVector, written out on the slots of the buffers. */
  lemma MulVecOfSlots(m: seq<real>, v: seq<real>, r0: real, r1: real, r2: real)
    requires |m| == 9 && |v| == 3
    requires r0 == m[0] * v[0] + m[1] * v[1] + m[2] * v[2]
    requires r1 == m[3] * v[0] + m[4] * v[1] + m[5] * v[2]
    requires r2 == m[6] * v[0] + m[7] * v[1] + m[8] * v[2]
    ensures MulVec(MatOfSeq(m), VecOfSeq(v)) == Vec3(r0, r1, r2)
  {
  }

  /** The in-place product, written out on the slots: r0 and r1 are the components already stored. */
  lemma InPlaceMulVecOfSlots(m: seq<real>, v: seq<real>, r0: real, r1: real, r2: real)
    requires |m| == 9 && |v| == 3
    requires r0 == m[0] * v[0] + m[1] * v[1] + m[2] * v[2]
    requires r1 == m[3] * r0 + m[4] * v[1] + m[5] * v[2]
    requires r2 == m[6] * r0 + m[7] * r1 + m[8] * v[2]
    ensures InPlaceMulVec(MatOfSeq(m), VecOfSeq(v)) == Vec3(r0, r1, r2)
  {
  }

  /**
   * pc_matrix_transform_affine: res becomes the affine map laid out in mat
   * applied to vec; mat is not changed, and neither is vec unless it is res.
   */
  method TransformAffine(res: array<real>, mat: array<real>, vec: array<real>)
    requires res.Length == 3 && mat.Length == 12 && vec.Length == 3
    modifies res
    ensures res != vec ==> res[..] == SeqOfVec(Apply(AffineOfSeq(mat[..]), VecOfSeq(old(vec[..]))))
    ensures res == vec ==> res[..] == SeqOfVec(InPlaceApply(AffineOfSeq(mat[..]), VecOfSeq(old(vec[..]))))
    ensures mat[..] == old(mat[..])
    ensures res != vec ==> vec[..] == old(vec[..])
  {
    ghost var m, v := mat[..], vec[..];
    res[0] := mat[0] * vec[0] + mat[1] * vec[1]
      + mat[2] * vec[2] + mat[3];
    res[1] := mat[4] * vec[0] + mat[5] * vec[1]
      + mat[6] * vec[2] + mat[7];
    res[2] := mat[8] * vec[0] + mat[9] * vec[1]
      + mat[10] * vec[2] + mat[11];

    assert res[..] == [res[0], res[1], res[2]];
    assert mat[..] == m;
    if res == vec {
      InPlaceApplyOfSlots(m, v, res[0], res[1], res[2]);
    } else {
      ApplyOfSlots(m, v, res[0], res[1], res[2]);
    }
  }

  /** The transform of TransformAffine, written out on the slots of the buffers. */
  lemma ApplyOfSlots(m: seq<real>, v: seq<real>, r0: real, r1: real, r2: real)
    requires |m| == 12 && |v| == 3
    requires r0 == m[0] * v[0] + m[1] * v[1] + m[2] * v[2] + m[3]
    requires r1 == m[4] * v[0] + m[5] * v[1] + m[6] * v[2] + m[7]
    requires r2 == m[8] * v[0] + m[9] * v[1] + m[10] * v[2] + m[11]
    ensures Apply(AffineOfSeq(m), VecOfSeq(v)) == Vec3(r0, r1, r2)
  {
  }

  /** The in-place transform, written out on the slots: r0 and r1 are the components already stored. */
  lemma InPlaceApplyOfSlots(m: seq<real>, v: seq<real>, r0: real, r1: real, r2: real)
    requires |m| == 12 && |v| == 3
    requires r0 == m[0] * v[0] + m[1] * v[1] + m[2] * v[2] + m[3]
    requires r1 == m[4] * r0 + m[5] * v[1] + m[6] * v[2] + m[7]
    requires r2 == m[8] * r0 + m[9] * r1 + m[10] * v[2] + m[11]
    ensures InPlaceApply(AffineOfSeq(m), VecOfSeq(v)) == Vec3(r0, r1, r2)
  {
  }

  /**
   * In place, the product is still right when no component is read after it
   * is overwritten: when the entries below the diagonal are zero.
   */
  lemma InPlaceMulVecUpperTriangular(m: Mat33, v: Vec3)
    requires m.m10 == 0.0 && m.m20 == 0.0 && m.m21 == 0.0
    ensures InPlaceMulVec(m, v) == MulVec(m, v)
  {
  }

  /** The same for the affine transform. */
  lemma InPlaceApplyUpperTriangular(t: Affine, v: Vec3)
    requires t.linear.m10 == 0.0 && t.linear.m20 == 0.0 && t.linear.m21 == 0.0
    ensures InPlaceApply(t, v) == Apply(t, v)
  {
  }

  /** The matrix that swaps the x and y components. */
  const SwapXY := Mat33(0.0, 1.0, 0.0, 1.0, 0.0, 0.0, 0.0, 0.0, 1.0)

  /**
   * Otherwise it can go wrong: the matrix that swaps x and y, computed in
   * place, copies y into both components and loses x.
   */
  lemma InPlaceSwapLosesX(v: Vec3)
    ensures MulVec(SwapXY, v) == Vec3(v.y, v.x, v.z)
    ensures InPlaceMulVec(SwapXY, v) == Vec3(v.y, v.y, v.z)
  {
  }

  /** A buffer holding the identity matrix gives back the vector it multiplies. */
  lemma IdentityBufferGivesVector(vec: seq<real>)
    requires |vec| == 3
    ensures SeqOfVec(MulVec(MatOfSeq([1.0, 0.0, 0.0, 0.0, 1.0, 0.0, 0.0, 0.0, 1.0]), VecOfSeq(vec))) == vec
  {
    assert MatOfSeq([1.0, 0.0, 0.0, 0.0, 1.0, 0.0, 0.0, 0.0, 1.0]) == Identity3;
    MulVecIdentity(VecOfSeq(vec));
    LayoutRoundTrip(Identity3, VecOfSeq(vec), SeqOfMat(Identity3), vec);
  }

  /**
   * Filling a buffer with pc_matrix_set_from_quaternion and then multiplying
   * by it rotates the vector; for a unit quaternion, multiplying by the matrix
   * of the conjugate undoes it.
   */
  lemma {:induction false} QuaternionBufferRoundTrip(q: Quaternion, v: Vec3)
    requires IsUnit(q)
    ensures MatOfSeq(SeqOfMat(Rotation(q))) == Rotation(q)
    ensures MulVec(MatOfSeq(SeqOfMat(Rotation(Conjugate(q)))), MulVec(MatOfSeq(SeqOfMat(Rotation(q))), v)) == v
  {
    LayoutRoundTrip(Rotation(q), v, SeqOfMat(Rotation(q)), SeqOfVec(v));
    LayoutRoundTrip(Rotation(Conjugate(q)), v, SeqOfMat(Rotation(Conjugate(q))), SeqOfVec(v));
    QuaternionRotation.RotateBackRestores(q, v);
  }

  /**
   * The round trip on the library's own buffers: fill a PCMAT33 from a unit
   * quaternion, multiply vec by it, fill a second PCMAT33 from the conjugate
   * and multiply the result by that; the final vector is vec again.
   */
  method RotateAndRestore(vec: array<real>, qw: real, qx: real, qy: real, qz: real) returns (out: array<real>)
    requires vec.Length == 3 && IsUnit(Quaternion(qw, qx, qy, qz))
    ensures out.Length == 3 && out[..] == vec[..]
  {
    var q := Quaternion(qw, qx, qy, qz);
    var mat := new real[9];
    SetFromQuaternion(mat, qw, qx, qy, qz);
    var rotated := new real[3];
    MultiplyVector(rotated, mat, vec);
    var inverse := new real[9];
    SetFromQuaternion(inverse, qw, -qx, -qy, -qz);
    out := new real[3];
    MultiplyVector(out, inverse, rotated);

    var v := VecOfSeq(vec[..]);
    assert Quaternion(qw, -qx, -qy, -qz) == Conjugate(q);
    QuaternionBufferRoundTrip(q, v);
    LayoutRoundTrip(Rotation(q), MulVec(Rotation(q), v), SeqOfMat(Rotation(q)), rotated[..]);
    LayoutRoundTrip(Rotation(q), v, SeqOfMat(Rotation(q)), vec[..]);
  }
}
