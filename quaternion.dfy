/**
 * Quaternions and the rotation matrix the point-cloud library derives from
 * them (lib/pc_matrix.c, pc_matrix_set_from_quaternion). The library assumes
 * a unit quaternion and does not check it; QuaternionRotation says what the
 * matrix is for unit quaternions and what goes wrong for the others.
 */
module Quaternions {
  import opened MatrixAlgebra

  datatype Quaternion = Quaternion(w: real, x: real, y: real, z: real)

  const IdentityQuaternion := Quaternion(1.0, 0.0, 0.0, 0.0)

  function NormSquared(q: Quaternion): real
  {
    q.w * q.w + q.x * q.x + q.y * q.y + q.z * q.z
  }

  predicate IsUnit(q: Quaternion)
  {
    NormSquared(q) == 1.0
  }

  /** The conjugate (w, -x, -y, -z); for a unit quaternion it is the inverse rotation. */
  function Conjugate(q: Quaternion): (c: Quaternion)
    ensures NormSquared(c) == NormSquared(q)
    ensures c.w == q.w && c.x == -q.x && c.y == -q.y && c.z == -q.z
  {
    Quaternion(q.w, -q.x, -q.y, -q.z)
  }

  /**
   * The textbook rotation matrix of q, row-major:
   *   | 1 - 2(y^2 + z^2)   2(xy - wz)         2(xz + wy)       |
   *   | 2(xy + wz)         1 - 2(x^2 + z^2)   2(yz - wx)       |
   *   | 2(xz - wy)         2(yz + wx)         1 - 2(x^2 + y^2) |
   * Its symmetric part carries the products of the vector part, its
   * antisymmetric part the vector part scaled by w, and its trace the squared
   * length of the vector part.
   */
  function Rotation(q: Quaternion): (r: Mat33)
    ensures r.m01 + r.m10 == 4.0 * (q.x * q.y) && r.m02 + r.m20 == 4.0 * (q.x * q.z)
         && r.m12 + r.m21 == 4.0 * (q.y * q.z)
    ensures r.m10 - r.m01 == 4.0 * (q.w * q.z) && r.m02 - r.m20 == 4.0 * (q.w * q.y)
         && r.m21 - r.m12 == 4.0 * (q.w * q.x)
    ensures r.m00 + r.m11 + r.m22 == 3.0 - 4.0 * (q.x * q.x + q.y * q.y + q.z * q.z)
  {
    var w, x, y, z := q.w, q.x, q.y, q.z;
    Mat33(1.0 - 2.0 * (y * y + z * z), 2.0 * (x * y - w * z),       2.0 * (x * z + w * y),
          2.0 * (x * y + w * z),       1.0 - 2.0 * (x * x + z * z), 2.0 * (y * z - w * x),
          2.0 * (x * z - w * y),       2.0 * (y * z + w * x),       1.0 - 2.0 * (x * x + y * y))
  }

  /** The identity quaternion gives the identity matrix. */
  lemma IdentityQuaternionGivesIdentity()
    ensures Rotation(IdentityQuaternion) == Identity3
  {
  }

  /** The conjugate quaternion gives the transposed matrix. */
  lemma ConjugateGivesTranspose(q: Quaternion)
    ensures Rotation(Conjugate(q)) == Transpose(Rotation(q))
  {
    var w, x, y, z := q.w, q.x, q.y, q.z;
    NegatedProduct(x, y);
    NegatedProduct(x, z);
    NegatedProduct(y, z);
    NegatedProduct(x, x);
    NegatedProduct(y, y);
    NegatedProduct(z, z);
    NegatedProduct(w, -x);
    NegatedProduct(w, -y);
    NegatedProduct(w, -z);
  }

  lemma NegatedProduct(a: real, b: real)
    ensures (-a) * (-b) == a * b && a * (-b) == -(a * b)
  {
  }
}
