/**
 * Affine maps of 3-space: a linear part and a translation. The library keeps
 * one (PCMAT43) in twelve doubles, three rows of four: row r holds row r of
 * the linear part in slots 4r .. 4r+2 and translation component r in slot
 * 4r + 3. SeqOfAffine / AffineOfSeq are that layout and its inverse.
 */
module AffineMaps {
  import opened MatrixAlgebra

  datatype Affine = Affine(linear: Mat33, offset: Vec3)

  const Origin := Vec3(0.0, 0.0, 0.0)

  /**
   * The image of v: the linear part applied to v, then the translation added.
   * Component r is row r of the linear part dotted with v plus translation
   * component r, and the origin goes to the translation.
   */
  function Apply(t: Affine, v: Vec3): (r: Vec3)
    ensures forall i: nat | i < 3 :: Component(r, i) == Dot(Row(t.linear, i), v) + Component(t.offset, i)
    ensures v == Origin ==> r == t.offset
  {
    Add(MulVec(t.linear, v), t.offset)
  }

  /** The 3x4 row-major layout: entry (r, c) at 4r + c, offset component r at 4r + 3. */
  function SeqOfAffine(t: Affine): (s: seq<real>)
    ensures |s| == 12
    ensures forall r: nat, c: nat | r < 3 && c < 3 :: s[4 * r + c] == Entry(t.linear, r, c)
    ensures forall r: nat | r < 3 :: s[4 * r + 3] == Component(t.offset, r)
  {
    var m, o := t.linear, t.offset;
    [m.m00, m.m01, m.m02, o.x,
     m.m10, m.m11, m.m12, o.y,
     m.m20, m.m21, m.m22, o.z]
  }

  /** Reads an affine map back from its 3x4 layout. */
  function AffineOfSeq(s: seq<real>): (t: Affine)
    requires |s| == 12
    ensures forall r: nat, c: nat | r < 3 && c < 3 :: Entry(t.linear, r, c) == s[4 * r + c]
    ensures forall r: nat | r < 3 :: Component(t.offset, r) == s[4 * r + 3]
  {
    Affine(Mat33(s[0], s[1], s[2], s[4], s[5], s[6], s[8], s[9], s[10]), Vec3(s[3], s[7], s[11]))
  }

  /** The layout and its reading are inverse to each other, in both directions. */
  lemma AffineLayoutRoundTrip(t: Affine, s: seq<real>)
    requires |s| == 12
    ensures AffineOfSeq(SeqOfAffine(t)) == t
    ensures SeqOfAffine(AffineOfSeq(s)) == s
  {
    var u := SeqOfAffine(AffineOfSeq(s));
    assert forall k | 0 <= k < 12 :: u[k] == s[k] by {
      forall k | 0 <= k < 12
        ensures u[k] == s[k]
      {
        var r, c := k / 4, k % 4;
        assert k == 4 * r + c;
      }
    }
  }

  /**
   * The linear part of a 3x4 layout is the 3x3 row-major matrix made of slots
   * 0-2, 4-6 and 8-10, and the translation is slots 3, 7 and 11.
   */
  lemma LinearPartOfLayout(s: seq<real>)
    requires |s| == 12
    ensures AffineOfSeq(s).linear == MatOfSeq(s[0..3] + s[4..7] + s[8..11])
    ensures AffineOfSeq(s).offset == Vec3(s[3], s[7], s[11])
  {
    var n := s[0..3] + s[4..7] + s[8..11];
    assert n == [s[0], s[1], s[2], s[4], s[5], s[6], s[8], s[9], s[10]];
  }

  /** Applying an affine map is its linear image shifted by the translation, componentwise. */
  lemma ApplyComponent(t: Affine, v: Vec3, r: nat)
    requires r < 3
    ensures Component(Apply(t, v), r)
         == Entry(t.linear, r, 0) * v.x + Entry(t.linear, r, 1) * v.y + Entry(t.linear, r, 2) * v.z
          + Component(t.offset, r)
  {
  }

  /** With no translation an affine map is its linear part. */
  lemma ZeroOffsetIsLinear(m: Mat33, v: Vec3)
    ensures Apply(Affine(m, Origin), v) == MulVec(m, v)
  {
  }

  /** The identity linear part with a zero translation is the identity map. */
  lemma IdentityAffine(v: Vec3)
    ensures Apply(Affine(Identity3, Origin), v) == v
  {
    MulVecIdentity(v);
  }

  /** The identity linear part with translation o adds o to every vector. */
  lemma PureTranslation(o: Vec3, v: Vec3)
    ensures Apply(Affine(Identity3, o), v) == Add(v, o)
  {
    MulVecIdentity(v);
  }

  /** The 3x4 layout of the identity map. */
  lemma IdentityLayout()
    ensures SeqOfAffine(Affine(Identity3, Origin))
         == [1.0, 0.0, 0.0, 0.0, 0.0, 1.0, 0.0, 0.0, 0.0, 0.0, 1.0, 0.0]
  {
  }

  /**
   * The translation by (10, 0, 0), read back from its twelve slots, moves the
   * origin to (10, 0, 0) and (1, 1, 1) to (11, 1, 1).
   */
  lemma TranslationExample()
    ensures var t := AffineOfSeq([1.0, 0.0, 0.0, 10.0, 0.0, 1.0, 0.0, 0.0, 0.0, 0.0, 1.0, 0.0]);
      Apply(t, Origin) == Vec3(10.0, 0.0, 0.0) && Apply(t, Vec3(1.0, 1.0, 1.0)) == Vec3(11.0, 1.0, 1.0)
  {
    var s := [1.0, 0.0, 0.0, 10.0, 0.0, 1.0, 0.0, 0.0, 0.0, 0.0, 1.0, 0.0];
    var o := Vec3(10.0, 0.0, 0.0);
    assert AffineOfSeq(s) == Affine(Identity3, o);
    PureTranslation(o, Origin);
    PureTranslation(o, Vec3(1.0, 1.0, 1.0));
    assert Add(Origin, o) == o;
  }
}
