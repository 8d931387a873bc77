# pc_matrix: the matrix kernel of the point-cloud rotation code

This project models `lib/pc_matrix.c`, the small matrix library behind the
PostgreSQL point-cloud extension's quaternion and affine transforms, and
proves properties of the model in Dafny.

The library has four routines. Each writes, element by element, into a buffer
that the caller supplies:

- `pc_matrix_set_from_quaternion` fills a 3x3 matrix (`PCMAT33`, nine doubles,
  row-major) from a quaternion (qw, qx, qy, qz). It uses the doubled-product
  formula.
- `pc_matrix_set_affine` packs a 3x3 linear part and a translation into a
  3x4 matrix (`PCMAT43`, twelve doubles). Each row holds three coefficients
  followed by one translation component.
- `pc_matrix_multiply_vector` computes the 3x3 matrix times a vector
  (`PCVEC3`, three doubles).
- `pc_matrix_transform_affine` applies the 3x4 affine map to a vector.

Layout of the model:

- `matrix_algebra.dfy` (module `MatrixAlgebra`):
  - vectors and 3x3 matrices as datatypes;
  - dot product, matrix-vector and matrix-matrix product, transpose;
  - the row-major layout in nine slots and in three slots, each with its
    inverse;
  - the fact that an orthogonal matrix is undone by its transpose and keeps
    lengths.
- `quaternion.dfy` (module `Quaternions`):
  - quaternions, the norm and the conjugate;
  - `Rotation`, the textbook rotation matrix of a quaternion.
- `rotation.dfy` (module `QuaternionRotation`) holds what the rotation matrix
  is worth:
  - the product R·Rᵀ worked out for an arbitrary quaternion;
  - orthogonality exactly for the unit quaternions and for the quaternions
    whose vector part is zero;
  - rotating back by the conjugate;
  - concrete turns about z.
- `affine.dfy` (module `AffineMaps`): affine maps as a linear part plus a
  translation, the twelve-slot layout and its inverse, and the identity and
  translation cases.
- `pc_matrix.dfy` (module `PcMatrix`): the four routines as methods on
  `array<real>`, statement for statement as in the C. Each postcondition gives
  the whole new contents of the buffer written, as a specification function of
  the inputs.

C `double`s are modelled as exact reals. The C lets the caller pass the same
buffer as `res` and `vec`. The model covers that case too: the result is then
`InPlaceMulVec` / `InPlaceApply`, in which each component is computed from the
components already overwritten. The model proves that it still agrees with
the true product when the entries below the diagonal are zero, and gives an
input where it does not.

## Model

| member | source | states |
|---|---|---|
| `Quaternions.Rotation` | lib/pc_matrix.c:41-51 | the rotation matrix of q; its symmetric part is 4 times the products of the vector part, its antisymmetric part is 4w times the vector part, and its trace is 3 − 4(x² + y² + z²) |
| `PcMatrix.SetFromQuaternion` | lib/pc_matrix.c:24-52 | all nine slots of `mat` become the row-major rotation matrix of (qw, qx, qy, qz); nothing else is written |
| `PcMatrix.DoubledProducts` | lib/pc_matrix.c:27-51 | the entries built from x = qx+qx, …, xx = qx·x, …, wz = qw·z equal the textbook formula, e.g. entry 1 is 2(qx·qy − qw·qz) |
| `Quaternions.IdentityQuaternionGivesIdentity` | lib/pc_matrix.c:41-51 | the identity quaternion (1, 0, 0, 0) gives the 3x3 identity matrix |
| `Quaternions.ConjugateGivesTranspose` | lib/pc_matrix.c:41-51 | the matrix of the conjugate (qw, −qx, −qy, −qz) is the transpose of the matrix of (qw, qx, qy, qz), for every quaternion |
| `QuaternionRotation.RotationGram` | lib/pc_matrix.c:41-51 | for every quaternion, R·Rᵀ = I + k·G with k = 4(N − 1), N the squared norm of q, and G built from the vector part |
| `QuaternionRotation.GramMatrixOfUnit` | lib/pc_matrix.c:20-22 | for a unit quaternion that Gram matrix is the identity |
| `QuaternionRotation.UnitRotationIsOrthogonal` | lib/pc_matrix.c:20-51 | under the documented unit-quaternion assumption the matrix is orthogonal on both sides: R·Rᵀ = Rᵀ·R = I |
| `QuaternionRotation.OrthogonalIff` | lib/pc_matrix.c:20-51 | the matrix is orthogonal if and only if the quaternion is a unit quaternion or its vector part is zero |
| `QuaternionRotation.IdentityGramOnlyIf` | lib/pc_matrix.c:20-51 | R·Rᵀ = I forces a unit quaternion or a zero vector part |
| `QuaternionRotation.ZeroVectorPartGivesIdentity` | lib/pc_matrix.c:41-51 | a quaternion (w, 0, 0, 0) gives the identity matrix whatever w is |
| `QuaternionRotation.NonUnitQuaternionIsNotOrthogonal` | lib/pc_matrix.c:20-22 | the non-unit quaternion (0, 0, 0, 2) gives diag(−7, −7, 1), which is not orthogonal |
| `QuaternionRotation.RotateBackRestores` | lib/pc_matrix.c:27-51 | for a unit quaternion, rotating by q and then by its conjugate gives back the vector, and rotating keeps the squared length |
| `QuaternionRotation.QuarterTurnAboutZ` | lib/pc_matrix.c:41-51 | (s, 0, 0, s) with s² = ½ turns (1, 0, 0) into (0, 1, 0) |
| `QuaternionRotation.HalfTurnAboutZ` | lib/pc_matrix.c:41-51 | (0, 0, 0, 1) maps (x, y, z) to (−x, −y, z) |
| `QuaternionRotation.ScaleVanishes` | lib/pc_matrix.c:20-51 | the step of `IdentityGramOnlyIf` on the diagonal of `GramMatrix`: if k times each pair sum of squares of the vector part is zero, then k is zero or the vector part is zero |
| `MatrixAlgebra.SeqOfMat` | lib/pc_matrix.c:41-51 | entry (r, c) of the 3x3 matrix sits in slot 3r + c |
| `MatrixAlgebra.MatOfSeq` | lib/pc_matrix.c:83-85 | reading nine slots gives the matrix whose entry (r, c) is slot 3r + c |
| `MatrixAlgebra.LayoutRoundTrip` | lib/pc_matrix.c:81-85 | the nine-slot and three-slot layouts are inverse to their readings, in both directions |
| `MatrixAlgebra.OrthogonalPreservesVectors` | lib/pc_matrix.c:20-22 | an orthogonal matrix is undone by its transpose and keeps squared lengths |
| `PcMatrix.SetAffine` | lib/pc_matrix.c:54-75 | all twelve slots of `mat` become the 3x4 layout of the linear part (a … i) and the offset (xoff, yoff, zoff) |
| `AffineMaps.SeqOfAffine` | lib/pc_matrix.c:61-74 | in the 3x4 layout, entry (r, c) of the linear part sits in slot 4r + c and offset component r in slot 4r + 3 |
| `AffineMaps.AffineOfSeq` | lib/pc_matrix.c:95-100 | reading twelve slots takes the linear part from slots 4r + c and the offset from slots 3, 7, 11 |
| `AffineMaps.AffineLayoutRoundTrip` | lib/pc_matrix.c:61-74 | the twelve-slot layout and its reading are inverse to each other, in both directions |
| `AffineMaps.IdentityLayout` | lib/pc_matrix.c:61-74 | the identity map is laid out as 1,0,0,0, 0,1,0,0, 0,0,1,0 |
| `AffineMaps.LinearPartOfLayout` | lib/pc_matrix.c:95-100 | the linear part is the 3x3 matrix of slots 0–2, 4–6 and 8–10, and the offset is slots 3, 7 and 11 |
| `MatrixAlgebra.MulVec` | lib/pc_matrix.c:83-85 | the product m·v; the unit vectors go to the columns of m |
| `MatrixAlgebra.MulVecByColumns` | lib/pc_matrix.c:83-85 | m·v is the combination of the columns of m weighted by the components of v |
| `PcMatrix.InPlaceMulVec` | lib/pc_matrix.c:83-85 | the result when `res` and `vec` are one buffer: component r is component r of the true product of m and the vector as it stands after components 0 … r−1 were overwritten |
| `PcMatrix.MultiplyVector` | lib/pc_matrix.c:80-86 | `res` becomes `mat`·`vec` (or the in-place result when `res` is `vec`); `mat` is unchanged, and so is `vec` unless it is `res` |
| `PcMatrix.MulVecOfSlots` | lib/pc_matrix.c:83-85 | component r of the product is mat[3r]·vec[0] + mat[3r+1]·vec[1] + mat[3r+2]·vec[2] |
| `PcMatrix.InPlaceMulVecOfSlots` | lib/pc_matrix.c:83-85 | the in-place product written out on the slots, each row reading the values already written |
| `PcMatrix.InPlaceMulVecUpperTriangular` | lib/pc_matrix.c:83-85 | in place, the product is still right when the entries below the diagonal are zero |
| `PcMatrix.InPlaceSwapLosesX` | lib/pc_matrix.c:83-85 | in place, the matrix swapping x and y yields (y, y, z) instead of (y, x, z) |
| `PcMatrix.IdentityBufferGivesVector` | lib/pc_matrix.c:83-85 | a buffer holding the identity matrix gives back the vector |
| `PcMatrix.QuaternionBufferRoundTrip` | lib/pc_matrix.c:24-86 | filling a buffer from a unit quaternion, multiplying by it, and multiplying by the buffer of the conjugate restores the vector |
| `PcMatrix.RotateAndRestore` | lib/pc_matrix.c:24-86 | on the library's buffers: filling a matrix from a unit quaternion, multiplying the vector by it, filling a second matrix from the conjugate and multiplying by that gives the vector back |
| `AffineMaps.Apply` | lib/pc_matrix.c:95-100 | the image of v: component r is row r of the linear part dotted with v plus translation component r; the origin goes to the translation |
| `PcMatrix.InPlaceApply` | lib/pc_matrix.c:95-100 | the result when `res` and `vec` are one buffer: component r is component r of the true image of the vector as it stands after components 0 … r−1 were overwritten |
| `PcMatrix.TransformAffine` | lib/pc_matrix.c:92-101 | `res` becomes the affine map laid out in `mat` applied to `vec` (or the in-place result when `res` is `vec`); `mat` is unchanged, and so is `vec` unless it is `res` |
| `PcMatrix.ApplyOfSlots` | lib/pc_matrix.c:95-100 | component r is mat[4r]·vec[0] + mat[4r+1]·vec[1] + mat[4r+2]·vec[2] + mat[4r+3] |
| `PcMatrix.InPlaceApplyOfSlots` | lib/pc_matrix.c:95-100 | the in-place transform written out on the slots |
| `PcMatrix.InPlaceApplyUpperTriangular` | lib/pc_matrix.c:95-100 | in place, the transform is still right when the linear part is upper triangular |
| `AffineMaps.ApplyComponent` | lib/pc_matrix.c:95-100 | component r of the image is row r of the linear part dotted with v, plus offset component r |
| `AffineMaps.ZeroOffsetIsLinear` | lib/pc_matrix.c:95-100 | with a zero translation the affine transform is the plain matrix product |
| `AffineMaps.IdentityAffine` | lib/pc_matrix.c:92-101 | the identity linear part with a zero translation is the identity map |
| `AffineMaps.PureTranslation` | lib/pc_matrix.c:92-101 | the identity linear part with translation o adds o to every vector |
| `AffineMaps.TranslationExample` | lib/pc_matrix.c:92-101 | the translation by (10, 0, 0) maps (0, 0, 0) to (10, 0, 0) and (1, 1, 1) to (11, 1, 1) |

## Left out

- `pgsql/pc_editor.c` is not part of this model. It registers the SQL
  functions and fetches their arguments. It also handles nulls, looks up the
  schema, deserialises and serialises the patch, reports errors and frees
  memory. None of this is matrix logic.
- `pc_patch_rotate_quaternion` and the per-point and per-patch rotation
  (dimension lookup, scale/offset decoding, bounds recomputation) are not
  part of this model. Their source file is not among the files modelled.
- IEEE-754 rounding, overflow and NaN are left out, because doubles are
  exact reals in the model. The orthogonality and round-trip lemmas hold
  exactly here, and only up to rounding in the C.
- Partial overlap is not modelled: a `res` pointer that points into the
  middle of `mat`. In the model, buffers of different lengths are distinct
  arrays. Full aliasing of `res` and `vec` is modelled.
- `QuaternionRotation.QuarterTurnAboutZ` takes s as a parameter with s² = ½.
  There is no square root in the model, and 0.7071 is only an approximation
  of √½.
- The determinant +1 of a rotation is not stated. Orthogonality is.
