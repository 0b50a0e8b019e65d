// The 3x4 affine matrices of src/lib/slicer/TransformationMatrix.ts: a
// linear 3x3 part m00..m22 and a translation column m03, m13, m23.

module Matrices {
  import opened Wrappers
  import opened Points

  /** The twelve entries of a TransformationMatrix, row by row. */
  datatype Mat = Mat(m00: real, m01: real, m02: real, m03: real,
                     m10: real, m11: real, m12: real, m13: real,
                     m20: real, m21: real, m22: real, m23: real)

  /** The constructor's defaults: the identity. */
  const Identity: Mat := Mat(1.0, 0.0, 0.0, 0.0, 0.0, 1.0, 0.0, 0.0, 0.0, 0.0, 1.0, 0.0)

  datatype Axis = X | Y | Z

  /** transform(p, w): the linear part applied to p, plus w times the translation column. */
  function Transform(m: Mat, p: Pointf3, w: real): Pointf3
  {
    Pointf3(p.x * m.m00 + p.y * m.m01 + p.z * m.m02 + m.m03 * w,
            p.x * m.m10 + p.y * m.m11 + p.z * m.m12 + m.m13 * w,
            p.x * m.m20 + p.y * m.m21 + p.z * m.m22 + m.m23 * w)
  }

  /** With w = 0 the translation column is ignored; with w = 1 it is added. */
  lemma TransformWeight(m: Mat, p: Pointf3)
    ensures var lin := Transform(m, p, 0.0);
            Transform(m, p, 1.0) == lin.Translate(m.m03, m.m13, m.m23)
    ensures Transform(m, p, 0.0) == Transform(m.(m03 := 0.0, m13 := 0.0, m23 := 0.0), p, 1.0)
  {
  }

  /** multiply(left, right): the product of the two affine maps, right applied first. */
  function Product(l: Mat, r: Mat): (m: Mat)
  {
    Mat(l.m00 * r.m00 + l.m01 * r.m10 + l.m02 * r.m20,
        l.m00 * r.m01 + l.m01 * r.m11 + l.m02 * r.m21,
        l.m00 * r.m02 + l.m01 * r.m12 + l.m02 * r.m22,
        l.m00 * r.m03 + l.m01 * r.m13 + l.m02 * r.m23 + l.m03,
        l.m10 * r.m00 + l.m11 * r.m10 + l.m12 * r.m20,
        l.m10 * r.m01 + l.m11 * r.m11 + l.m12 * r.m21,
        l.m10 * r.m02 + l.m11 * r.m12 + l.m12 * r.m22,
        l.m10 * r.m03 + l.m11 * r.m13 + l.m12 * r.m23 + l.m13,
        l.m20 * r.m00 + l.m21 * r.m10 + l.m22 * r.m20,
        l.m20 * r.m01 + l.m21 * r.m11 + l.m22 * r.m21,
        l.m20 * r.m02 + l.m21 * r.m12 + l.m22 * r.m22,
        l.m20 * r.m03 + l.m21 * r.m13 + l.m22 * r.m23 + l.m23)
  }

  /** The identity is neutral on both sides. */
  lemma ProductIdentity(m: Mat)
    ensures Product(Identity, m) == m
    ensures Product(m, Identity) == m
  {
  }

  /** One row of the composition: the row of l applied to the point r maps p to. */
  lemma RowCompose(px: real, py: real, pz: real, l0: real, l1: real, l2: real, l3: real,
                   r00: real, r01: real, r02: real, r03: real,
                   r10: real, r11: real, r12: real, r13: real,
                   r20: real, r21: real, r22: real, r23: real)
    ensures (px * r00 + py * r01 + pz * r02 + r03) * l0
            + (px * r10 + py * r11 + pz * r12 + r13) * l1
            + (px * r20 + py * r21 + pz * r22 + r23) * l2 + l3
         == px * (l0 * r00 + l1 * r10 + l2 * r20)
            + py * (l0 * r01 + l1 * r11 + l2 * r21)
            + pz * (l0 * r02 + l1 * r12 + l2 * r22)
            + (l0 * r03 + l1 * r13 + l2 * r23 + l3) * 1.0
  {
  }

  /** Transforming by a product is transforming by the right factor, then by the left one. */
  lemma TransformProduct(l: Mat, r: Mat, p: Pointf3)
    ensures Transform(Product(l, r), p, 1.0) == Transform(l, Transform(r, p, 1.0), 1.0)
  {
    RowCompose(p.x, p.y, p.z, l.m00, l.m01, l.m02, l.m03,
               r.m00, r.m01, r.m02, r.m03, r.m10, r.m11, r.m12, r.m13, r.m20, r.m21, r.m22, r.m23);
    RowCompose(p.x, p.y, p.z, l.m10, l.m11, l.m12, l.m13,
               r.m00, r.m01, r.m02, r.m03, r.m10, r.m11, r.m12, r.m13, r.m20, r.m21, r.m22, r.m23);
    RowCompose(p.x, p.y, p.z, l.m20, l.m21, l.m22, l.m23,
               r.m00, r.m01, r.m02, r.m03, r.m10, r.m11, r.m12, r.m13, r.m20, r.m21, r.m22, r.m23);
  }


  /** determinante(): the determinant of the linear part, expanded along the first row. */
  function Det(m: Mat): real
  {
    m.m00 * (m.m11 * m.m22 - m.m12 * m.m21)
    - m.m01 * (m.m10 * m.m22 - m.m12 * m.m20)
    + m.m02 * (m.m10 * m.m21 - m.m11 * m.m20)
  }

  /** mat_eye(): the default-constructed matrix. */
  function MatEye(): (r: Mat)
    ensures forall p :: Transform(r, p, 1.0) == p
    ensures Det(r) == 1.0
  {
    Identity
  }

  /** mat_translation(x, y, z) (and mat_translation(v) with v's coordinates). */
  function Translation(x: real, y: real, z: real): (r: Mat)
    ensures forall p :: Transform(r, p, 1.0) == p.Translate(x, y, z)
    ensures forall p :: Transform(r, p, 0.0) == p
  {
    Mat(1.0, 0.0, 0.0, x, 0.0, 1.0, 0.0, y, 0.0, 0.0, 1.0, z)
  }

  /** Two translations compose into their sum. */
  lemma TranslationsCompose(a: Pointf3, b: Pointf3)
    ensures Product(Translation(a.x, a.y, a.z), Translation(b.x, b.y, b.z)) == Translation(a.x + b.x, a.y + b.y, a.z + b.z)
  {
  }

  /** mat_scale(x, y, z). */
  function ScaleMat(x: real, y: real, z: real): (r: Mat)
    ensures forall p :: Transform(r, p, 1.0) == Pointf3(p.x * x, p.y * y, p.z * z)
  {
    Mat(x, 0.0, 0.0, 0.0, 0.0, y, 0.0, 0.0, 0.0, 0.0, z, 0.0)
  }

  lemma DetScale(x: real, y: real, z: real)
    ensures Det(ScaleMat(x, y, z)) == x * y * z
  {
  }

  /** mat_mirror(axis): the identity with the chosen diagonal entry set to -1. */
  function Mirror(axis: Axis): (r: Mat)
    ensures forall p :: Transform(r, p, 1.0) == match axis
                                                  case X => Pointf3(-p.x, p.y, p.z)
                                                  case Y => Pointf3(p.x, -p.y, p.z)
                                                  case Z => Pointf3(p.x, p.y, -p.z)
  {
    match axis
    case X => Identity.(m00 := -1.0)
    case Y => Identity.(m11 := -1.0)
    case Z => Identity.(m22 := -1.0)
  }

  /** A mirror reverses orientation and undoes itself. */
  lemma MirrorProperties(axis: Axis)
    ensures Det(Mirror(axis)) == -1.0
    ensures Product(Mirror(axis), Mirror(axis)) == Identity
  {
  }

  /** The adjugate of the linear part scaled by c, with a zero translation column: inverse()'s result for c = 1/det. */
  function LinearInverse(m: Mat, c: real): Mat
  {
    Mat((m.m11 * m.m22 - m.m12 * m.m21) * c, (m.m02 * m.m21 - m.m01 * m.m22) * c, (m.m01 * m.m12 - m.m02 * m.m11) * c, 0.0,
        (m.m12 * m.m20 - m.m10 * m.m22) * c, (m.m00 * m.m22 - m.m02 * m.m20) * c, (m.m02 * m.m10 - m.m00 * m.m12) * c, 0.0,
        (m.m10 * m.m21 - m.m11 * m.m20) * c, (m.m01 * m.m20 - m.m00 * m.m21) * c, (m.m00 * m.m11 - m.m01 * m.m10) * c, 0.0)
  }

  /**
   * inverse() as written: it throws on a zero determinant, otherwise it
   * returns the adjugate divided by the determinant with a zero
   * translation column.
   */
  function InverseAsWritten(m: Mat): (r: Result<Mat>)
    ensures r.Ok? <==> Det(m) != 0.0
    ensures r.Ok? ==> r.value.m03 == 0.0 && r.value.m13 == 0.0 && r.value.m23 == 0.0
  {
    var det := Det(m);
    if det == 0.0 then Err("Matrix is not invertible")
    else Ok(LinearInverse(m, 1.0 / det))
  }

  lemma InverseAsWrittenUnitDet(m: Mat)
    requires Det(m) == 1.0
    ensures InverseAsWritten(m) == Ok(LinearInverse(m, 1.0))
  {
  }

  /**
   * Inverting a translation as written gives the identity, so composing
   * the result with the translation leaves the translation in place
   * instead of cancelling it.
   */
  lemma InverseAsWrittenDropsTranslation(x: real, y: real, z: real)
    ensures InverseAsWritten(Translation(x, y, z)) == Ok(Identity)
    ensures Product(InverseAsWritten(Translation(x, y, z)).value, Translation(x, y, z)) == Translation(x, y, z)
  {
    var t := Translation(x, y, z);
    assert Det(t) == 1.0;
    InverseAsWrittenUnitDet(t);
    assert LinearInverse(t, 1.0) == Identity;
    ProductIdentity(t);
  }

  /** One entry of (c·adj m)·m, from the matching entry v of (adj m)·m. */
  lemma ScaledEntry(s0: real, s1: real, s2: real, x0: real, x1: real, x2: real,
                    a0: real, a1: real, a2: real, c: real, v: real, r: real)
    requires s0 == x0 * c && s1 == x1 * c && s2 == x2 * c
    requires x0 * a0 + x1 * a1 + x2 * a2 == v
    requires c * v == r
    ensures s0 * a0 + s1 * a1 + s2 * a2 == r
  {
    calc {
      s0 * a0 + s1 * a1 + s2 * a2;
      (x0 * c) * a0 + (x1 * c) * a1 + (x2 * c) * a2;
      c * (x0 * a0 + x1 * a1 + x2 * a2);
    }
  }

  /** Equal coefficients give equal combinations. */
  lemma SameRow(s0: real, s1: real, s2: real, t0: real, t1: real, t2: real, a0: real, a1: real, a2: real)
    requires s0 == t0 && s1 == t1 && s2 == t2
    ensures s0 * a0 + s1 * a1 + s2 * a2 == t0 * a0 + t1 * a1 + t2 * a2
  {
  }

  /** Row 0 of adj(a)/det(a) against the columns of a: row 0 of the identity. */
  lemma InverseRowEntries0(i0: real, i1: real, i2: real, a00: real, a01: real, a02: real, a10: real, a11: real, a12: real,
                     a20: real, a21: real, a22: real, c: real, d: real)
    requires i0 == (a11 * a22 - a12 * a21) * c && i1 == (a02 * a21 - a01 * a22) * c && i2 == (a01 * a12 - a02 * a11) * c
    requires d == a00 * (a11 * a22 - a12 * a21) - a01 * (a10 * a22 - a12 * a20) + a02 * (a10 * a21 - a11 * a20)
    requires c * d == 1.0
    ensures i0 * a00 + i1 * a10 + i2 * a20 == 1.0
    ensures i0 * a01 + i1 * a11 + i2 * a21 == 0.0
    ensures i0 * a02 + i1 * a12 + i2 * a22 == 0.0
  {
    ScaledEntry(i0, i1, i2, a11 * a22 - a12 * a21, a02 * a21 - a01 * a22, a01 * a12 - a02 * a11, a00, a10, a20, c, d, 1.0);
    ScaledEntry(i0, i1, i2, a11 * a22 - a12 * a21, a02 * a21 - a01 * a22, a01 * a12 - a02 * a11, a01, a11, a21, c, 0.0, 0.0);
    ScaledEntry(i0, i1, i2, a11 * a22 - a12 * a21, a02 * a21 - a01 * a22, a01 * a12 - a02 * a11, a02, a12, a22, c, 0.0, 0.0);
  }

  /** Row 1 of adj(a)/det(a) against the columns of a: row 1 of the identity. */
  lemma InverseRowEntries1(i0: real, i1: real, i2: real, a00: real, a01: real, a02: real, a10: real, a11: real, a12: real,
                     a20: real, a21: real, a22: real, c: real, d: real)
    requires i0 == (a12 * a20 - a10 * a22) * c && i1 == (a00 * a22 - a02 * a20) * c && i2 == (a02 * a10 - a00 * a12) * c
    requires d == a00 * (a11 * a22 - a12 * a21) - a01 * (a10 * a22 - a12 * a20) + a02 * (a10 * a21 - a11 * a20)
    requires c * d == 1.0
    ensures i0 * a00 + i1 * a10 + i2 * a20 == 0.0
    ensures i0 * a01 + i1 * a11 + i2 * a21 == 1.0
    ensures i0 * a02 + i1 * a12 + i2 * a22 == 0.0
  {
    ScaledEntry(i0, i1, i2, a12 * a20 - a10 * a22, a00 * a22 - a02 * a20, a02 * a10 - a00 * a12, a00, a10, a20, c, 0.0, 0.0);
    ScaledEntry(i0, i1, i2, a12 * a20 - a10 * a22, a00 * a22 - a02 * a20, a02 * a10 - a00 * a12, a01, a11, a21, c, d, 1.0);
    ScaledEntry(i0, i1, i2, a12 * a20 - a10 * a22, a00 * a22 - a02 * a20, a02 * a10 - a00 * a12, a02, a12, a22, c, 0.0, 0.0);
  }

  /** Row 2 of adj(a)/det(a) against the columns of a: row 2 of the identity. */
  lemma InverseRowEntries2(i0: real, i1: real, i2: real, a00: real, a01: real, a02: real, a10: real, a11: real, a12: real,
                     a20: real, a21: real, a22: real, c: real, d: real)
    requires i0 == (a10 * a21 - a11 * a20) * c && i1 == (a01 * a20 - a00 * a21) * c && i2 == (a00 * a11 - a01 * a10) * c
    requires d == a00 * (a11 * a22 - a12 * a21) - a01 * (a10 * a22 - a12 * a20) + a02 * (a10 * a21 - a11 * a20)
    requires c * d == 1.0
    ensures i0 * a00 + i1 * a10 + i2 * a20 == 0.0
    ensures i0 * a01 + i1 * a11 + i2 * a21 == 0.0
    ensures i0 * a02 + i1 * a12 + i2 * a22 == 1.0
  {
    ScaledEntry(i0, i1, i2, a10 * a21 - a11 * a20, a01 * a20 - a00 * a21, a00 * a11 - a01 * a10, a00, a10, a20, c, 0.0, 0.0);
    ScaledEntry(i0, i1, i2, a10 * a21 - a11 * a20, a01 * a20 - a00 * a21, a00 * a11 - a01 * a10, a01, a11, a21, c, 0.0, 0.0);
    ScaledEntry(i0, i1, i2, a10 * a21 - a11 * a20, a01 * a20 - a00 * a21, a00 * a11 - a01 * a10, a02, a12, a22, c, d, 1.0);
  }

  /** The corrected inverse for c = 1/det: linear part c·adj m, translation column -(c·adj m)·t. */
  function AffineInverse(m: Mat, c: real): Mat
  {
    var i00 := (m.m11 * m.m22 - m.m12 * m.m21) * c;
    var i01 := (m.m02 * m.m21 - m.m01 * m.m22) * c;
    var i02 := (m.m01 * m.m12 - m.m02 * m.m11) * c;
    var i10 := (m.m12 * m.m20 - m.m10 * m.m22) * c;
    var i11 := (m.m00 * m.m22 - m.m02 * m.m20) * c;
    var i12 := (m.m02 * m.m10 - m.m00 * m.m12) * c;
    var i20 := (m.m10 * m.m21 - m.m11 * m.m20) * c;
    var i21 := (m.m01 * m.m20 - m.m00 * m.m21) * c;
    var i22 := (m.m00 * m.m11 - m.m01 * m.m10) * c;
    Mat(i00, i01, i02, -(i00 * m.m03 + i01 * m.m13 + i02 * m.m23),
        i10, i11, i12, -(i10 * m.m03 + i11 * m.m13 + i12 * m.m23),
        i20, i21, i22, -(i20 * m.m03 + i21 * m.m13 + i22 * m.m23))
  }

  /** The entries of (c·adj a, -(c·adj a)·t) times a are those of the identity when c·det a = 1. */
  lemma InverseEntries(i00: real, i01: real, i02: real, i03: real, i10: real, i11: real, i12: real, i13: real, i20: real, i21: real, i22: real, i23: real,
                       a00: real, a01: real, a02: real, a03: real, a10: real, a11: real, a12: real, a13: real, a20: real, a21: real, a22: real, a23: real, c: real, d: real)
    requires i00 == (a11 * a22 - a12 * a21) * c && i01 == (a02 * a21 - a01 * a22) * c && i02 == (a01 * a12 - a02 * a11) * c &&
             i10 == (a12 * a20 - a10 * a22) * c && i11 == (a00 * a22 - a02 * a20) * c && i12 == (a02 * a10 - a00 * a12) * c &&
             i20 == (a10 * a21 - a11 * a20) * c && i21 == (a01 * a20 - a00 * a21) * c && i22 == (a00 * a11 - a01 * a10) * c
    requires i03 == -(((a11 * a22 - a12 * a21) * c) * a03 + ((a02 * a21 - a01 * a22) * c) * a13 + ((a01 * a12 - a02 * a11) * c) * a23) &&
             i13 == -(((a12 * a20 - a10 * a22) * c) * a03 + ((a00 * a22 - a02 * a20) * c) * a13 + ((a02 * a10 - a00 * a12) * c) * a23) &&
             i23 == -(((a10 * a21 - a11 * a20) * c) * a03 + ((a01 * a20 - a00 * a21) * c) * a13 + ((a00 * a11 - a01 * a10) * c) * a23)
    requires d == a00 * (a11 * a22 - a12 * a21) - a01 * (a10 * a22 - a12 * a20) + a02 * (a10 * a21 - a11 * a20)
    requires c * d == 1.0
    ensures i00 * a00 + i01 * a10 + i02 * a20 == 1.0 && i00 * a01 + i01 * a11 + i02 * a21 == 0.0 &&
            i00 * a02 + i01 * a12 + i02 * a22 == 0.0 && i00 * a03 + i01 * a13 + i02 * a23 + i03 == 0.0 &&
            i10 * a00 + i11 * a10 + i12 * a20 == 0.0 && i10 * a01 + i11 * a11 + i12 * a21 == 1.0 &&
            i10 * a02 + i11 * a12 + i12 * a22 == 0.0 && i10 * a03 + i11 * a13 + i12 * a23 + i13 == 0.0 &&
            i20 * a00 + i21 * a10 + i22 * a20 == 0.0 && i20 * a01 + i21 * a11 + i22 * a21 == 0.0 &&
            i20 * a02 + i21 * a12 + i22 * a22 == 1.0 && i20 * a03 + i21 * a13 + i22 * a23 + i23 == 0.0
  {
    InverseRowEntries0(i00, i01, i02, a00, a01, a02, a10, a11, a12, a20, a21, a22, c, d);
    SameRow(i00, i01, i02, (a11 * a22 - a12 * a21) * c, (a02 * a21 - a01 * a22) * c, (a01 * a12 - a02 * a11) * c,
            a03, a13, a23);
    InverseRowEntries1(i10, i11, i12, a00, a01, a02, a10, a11, a12, a20, a21, a22, c, d);
    SameRow(i10, i11, i12, (a12 * a20 - a10 * a22) * c, (a00 * a22 - a02 * a20) * c, (a02 * a10 - a00 * a12) * c,
            a03, a13, a23);
    InverseRowEntries2(i20, i21, i22, a00, a01, a02, a10, a11, a12, a20, a21, a22, c, d);
    SameRow(i20, i21, i22, (a10 * a21 - a11 * a20) * c, (a01 * a20 - a00 * a21) * c, (a00 * a11 - a01 * a10) * c,
            a03, a13, a23);
  }

  /** InverseEntries, read on the entries of two matrices. */
  lemma InverseCancelsEntries(m: Mat, inv: Mat, c: real, d: real)
    requires inv.m00 == (m.m11 * m.m22 - m.m12 * m.m21) * c && inv.m01 == (m.m02 * m.m21 - m.m01 * m.m22) * c && inv.m02 == (m.m01 * m.m12 - m.m02 * m.m11) * c &&
             inv.m10 == (m.m12 * m.m20 - m.m10 * m.m22) * c && inv.m11 == (m.m00 * m.m22 - m.m02 * m.m20) * c && inv.m12 == (m.m02 * m.m10 - m.m00 * m.m12) * c &&
             inv.m20 == (m.m10 * m.m21 - m.m11 * m.m20) * c && inv.m21 == (m.m01 * m.m20 - m.m00 * m.m21) * c && inv.m22 == (m.m00 * m.m11 - m.m01 * m.m10) * c
    requires inv.m03 == -(((m.m11 * m.m22 - m.m12 * m.m21) * c) * m.m03 + ((m.m02 * m.m21 - m.m01 * m.m22) * c) * m.m13 + ((m.m01 * m.m12 - m.m02 * m.m11) * c) * m.m23) &&
             inv.m13 == -(((m.m12 * m.m20 - m.m10 * m.m22) * c) * m.m03 + ((m.m00 * m.m22 - m.m02 * m.m20) * c) * m.m13 + ((m.m02 * m.m10 - m.m00 * m.m12) * c) * m.m23) &&
             inv.m23 == -(((m.m10 * m.m21 - m.m11 * m.m20) * c) * m.m03 + ((m.m01 * m.m20 - m.m00 * m.m21) * c) * m.m13 + ((m.m00 * m.m11 - m.m01 * m.m10) * c) * m.m23)
    requires d == Det(m) && c * d == 1.0
    ensures inv.m00 * m.m00 + inv.m01 * m.m10 + inv.m02 * m.m20 == 1.0 && inv.m00 * m.m01 + inv.m01 * m.m11 + inv.m02 * m.m21 == 0.0 &&
            inv.m00 * m.m02 + inv.m01 * m.m12 + inv.m02 * m.m22 == 0.0 && inv.m00 * m.m03 + inv.m01 * m.m13 + inv.m02 * m.m23 + inv.m03 == 0.0 &&
            inv.m10 * m.m00 + inv.m11 * m.m10 + inv.m12 * m.m20 == 0.0 && inv.m10 * m.m01 + inv.m11 * m.m11 + inv.m12 * m.m21 == 1.0 &&
            inv.m10 * m.m02 + inv.m11 * m.m12 + inv.m12 * m.m22 == 0.0 && inv.m10 * m.m03 + inv.m11 * m.m13 + inv.m12 * m.m23 + inv.m13 == 0.0 &&
            inv.m20 * m.m00 + inv.m21 * m.m10 + inv.m22 * m.m20 == 0.0 && inv.m20 * m.m01 + inv.m21 * m.m11 + inv.m22 * m.m21 == 0.0 &&
            inv.m20 * m.m02 + inv.m21 * m.m12 + inv.m22 * m.m22 == 1.0 && inv.m20 * m.m03 + inv.m21 * m.m13 + inv.m22 * m.m23 + inv.m23 == 0.0
  {
    InverseEntries(inv.m00, inv.m01, inv.m02, inv.m03, inv.m10, inv.m11, inv.m12, inv.m13, inv.m20, inv.m21, inv.m22, inv.m23,
                   m.m00, m.m01, m.m02, m.m03, m.m10, m.m11, m.m12, m.m13, m.m20, m.m21, m.m22, m.m23, c, d);
  }

  /** A product whose entries are the identity's is the identity. */
  lemma ProductIsIdentity(m: Mat, inv: Mat)
    requires inv.m00 * m.m00 + inv.m01 * m.m10 + inv.m02 * m.m20 == 1.0 && inv.m00 * m.m01 + inv.m01 * m.m11 + inv.m02 * m.m21 == 0.0 &&
            inv.m00 * m.m02 + inv.m01 * m.m12 + inv.m02 * m.m22 == 0.0 && inv.m00 * m.m03 + inv.m01 * m.m13 + inv.m02 * m.m23 + inv.m03 == 0.0 &&
            inv.m10 * m.m00 + inv.m11 * m.m10 + inv.m12 * m.m20 == 0.0 && inv.m10 * m.m01 + inv.m11 * m.m11 + inv.m12 * m.m21 == 1.0 &&
            inv.m10 * m.m02 + inv.m11 * m.m12 + inv.m12 * m.m22 == 0.0 && inv.m10 * m.m03 + inv.m11 * m.m13 + inv.m12 * m.m23 + inv.m13 == 0.0 &&
            inv.m20 * m.m00 + inv.m21 * m.m10 + inv.m22 * m.m20 == 0.0 && inv.m20 * m.m01 + inv.m21 * m.m11 + inv.m22 * m.m21 == 0.0 &&
            inv.m20 * m.m02 + inv.m21 * m.m12 + inv.m22 * m.m22 == 1.0 && inv.m20 * m.m03 + inv.m21 * m.m13 + inv.m22 * m.m23 + inv.m23 == 0.0
    ensures Product(inv, m) == Identity
  {
  }

  /** The corrected inverse times m is the identity. */
  lemma AffineInverseCancels(m: Mat)
    requires Det(m) != 0.0
    ensures Product(AffineInverse(m, 1.0 / Det(m)), m) == Identity
  {
    var d := Det(m);
    var c := 1.0 / d;
    var inv := AffineInverse(m, c);
    InverseCancelsEntries(m, inv, c, d);
    ProductIsIdentity(m, inv);
  }

  /**
   * inverse(), corrected: the linear part as written, and the translation
   * column -A⁻¹·t, so that the result undoes the whole affine map.
   */
  function Inverse(m: Mat): (r: Result<Mat>)
    ensures r.Ok? <==> Det(m) != 0.0
    ensures r.Ok? ==> Product(r.value, m) == Identity
  {
    var det := Det(m);
    if det == 0.0 then Err("Matrix is not invertible")
    else
      AffineInverseCancels(m);
      Ok(AffineInverse(m, 1.0 / det))
  }

  /** Both inverses share the linear part; they differ only in the translation column. */
  lemma InversesShareLinearPart(m: Mat)
    requires Det(m) != 0.0
    ensures Inverse(m).value.(m03 := 0.0, m13 := 0.0, m23 := 0.0) == InverseAsWritten(m).value
  {
  }

  /** The corrected inverse undoes the map on every point. */
  lemma InverseUndoesTransform(m: Mat, p: Pointf3)
    requires Det(m) != 0.0
    ensures Transform(Inverse(m).value, Transform(m, p, 1.0), 1.0) == p
  {
    TransformProduct(Inverse(m).value, m, p);
  }

  class TransformationMatrix {
    var m00: real
    var m01: real
    var m02: real
    var m03: real
    var m10: real
    var m11: real
    var m12: real
    var m13: real
    var m20: real
    var m21: real
    var m22: real
    var m23: real

    function Value(): Mat
      reads this
    {
      Mat(m00, m01, m02, m03, m10, m11, m12, m13, m20, m21, m22, m23)
    }

    /** The constructor: every entry defaults to the identity's. */
    constructor(a00: real := 1.0, a01: real := 0.0, a02: real := 0.0, a03: real := 0.0,
                a10: real := 0.0, a11: real := 1.0, a12: real := 0.0, a13: real := 0.0,
                a20: real := 0.0, a21: real := 0.0, a22: real := 1.0, a23: real := 0.0)
      ensures Value() == Mat(a00, a01, a02, a03, a10, a11, a12, a13, a20, a21, a22, a23)
    {
      m00, m01, m02, m03 := a00, a01, a02, a03;
      m10, m11, m12, m13 := a10, a11, a12, a13;
      m20, m21, m22, m23 := a20, a21, a22, a23;
    }

    function Determinante(): (r: real)
      reads this
      ensures r == Det(Value())
    {
      m00 * (m11 * m22 - m12 * m21) - m01 * (m10 * m22 - m12 * m20) + m02 * (m10 * m21 - m11 * m20)
    }

    /** inverse(), with the translation column corrected (see InverseAsWritten). */
    function InverseOf(): (r: Result<Mat>)
      reads this
      ensures r.Ok? <==> Determinante() != 0.0
      ensures r.Ok? ==> Product(r.value, Value()) == Identity
    {
      Inverse(Value())
    }

    /** copy(right): every entry is overwritten with right's. */
    method Copy(right: TransformationMatrix)
      modifies this
      ensures Value() == old(right.Value())
    {
      SetValue(right.Value());
    }

    method SetValue(m: Mat)
      modifies this
      ensures Value() == m
    {
      m00, m01, m02, m03 := m.m00, m.m01, m.m02, m.m03;
      m10, m11, m12, m13 := m.m10, m.m11, m.m12, m.m13;
      m20, m21, m22, m23 := m.m20, m.m21, m.m22, m.m23;
    }

    /** applyLeft(left): this becomes left · this. */
    method ApplyLeft(left: TransformationMatrix)
      modifies this
      ensures Value() == Product(old(left.Value()), old(Value()))
    {
      SetValue(Product(left.Value(), Value()));
    }

    /** applyRight(right): this becomes this · right. */
    method ApplyRight(right: TransformationMatrix)
      modifies this
      ensures Value() == Product(old(Value()), old(right.Value()))
    {
      SetValue(Product(Value(), right.Value()));
    }

    /** multiplyLeft(left): left · this, leaving this alone; it maps p to left(this(p)). */
    function MultiplyLeft(left: TransformationMatrix): (r: Mat)
      reads this, left
      ensures forall p :: Transform(r, p, 1.0) == Transform(left.Value(), Transform(Value(), p, 1.0), 1.0)
    {
      var r := Product(left.Value(), Value());
      assert forall p :: Transform(r, p, 1.0) == Transform(left.Value(), Transform(Value(), p, 1.0), 1.0) by {
        forall p {
          TransformProduct(left.Value(), Value(), p);
        }
      }
      r
    }

    /** multiplyRight(right): this · right, leaving this alone; it maps p to this(right(p)). */
    function MultiplyRight(right: TransformationMatrix): (r: Mat)
      reads this, right
      ensures forall p :: Transform(r, p, 1.0) == Transform(Value(), Transform(right.Value(), p, 1.0), 1.0)
    {
      var r := Product(Value(), right.Value());
      assert forall p :: Transform(r, p, 1.0) == Transform(Value(), Transform(right.Value(), p, 1.0), 1.0) by {
        forall p {
          TransformProduct(Value(), right.Value(), p);
        }
      }
      r
    }

    /** transform(point, w). */
    function TransformPoint(point: Pointf3, w: real): (r: Pointf3)
      reads this
      ensures r == Transform(Value(), point, w)
    {
      Pointf3(point.x * m00 + point.y * m01 + point.z * m02 + m03 * w,
              point.x * m10 + point.y * m11 + point.z * m12 + m13 * w,
              point.x * m20 + point.y * m21 + point.z * m22 + m23 * w)
    }
  }
}
