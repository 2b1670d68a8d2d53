/** The rank-2 parameterization of a fundamental matrix by nine numbers
    (libmv's FundamentalRank2Parameterization): F = U * diag(1, s, 0) * Vt with U
    and Vt given by unnormalized quaternions and s by one free parameter.

    Eigen's quaternion-to-rotation and rotation-to-quaternion conversions, its
    quaternion normalization, its SVD and the square root are parameters of the
    operations below; the lemmas state which of their properties they rely on. */
module FundamentalParameterization {
  import opened Linear

  /** A quaternion by its coefficients, in the order Eigen stores them
      (x, y, z, w). It need not have unit length. */
  datatype Quaternion = Quaternion(x: real, y: real, z: real, w: real)

  /** A singular value decomposition f = u * diag(sigma) * v^T. */
  datatype Svd = Svd(u: Mat3, sigma: Vec3, v: Mat3)

  /** The length of the parameter vector: u in p[0..3], s in p[4], vt in p[5..8]. */
  const ParameterCount := 9

  /** The coefficient vector of a quaternion, as Eigen's `coeffs()`. */
  function Coeffs(q: Quaternion): seq<real> {
    [q.x, q.y, q.z, q.w]
  }

  /** The quaternion whose coefficients are c, as assigning a 4-vector to an
      Eigen quaternion. */
  function QuaternionOf(c: seq<real>): Quaternion
    requires |c| == 4
  {
    Quaternion(c[0], c[1], c[2], c[3])
  }

  lemma CoeffsQuaternionOf(c: seq<real>)
    requires |c| == 4
    ensures Coeffs(QuaternionOf(c)) == c
  {
  }

  lemma QuaternionOfCoeffs(q: Quaternion)
    ensures QuaternionOf(Coeffs(q)) == q
  {
  }

  /** The second singular value that the parameter s stands for. */
  function SecondSingularValue(s: real): real {
    OnePlusSquare(s);
    1.0 / (1.0 + s * s)
  }

  lemma OnePlusSquare(s: real)
    ensures 1.0 <= 1.0 + s * s
  {
    if s < 0.0 {
      assert 0.0 <= (-s) * (-s);
    } else {
      assert 0.0 <= s * s;
    }
  }

  /** Whatever the parameter, the second singular value is positive and at most
      the first one, 1, so the singular values stay in decreasing order. */
  lemma SecondSingularValueRange(s: real)
    ensures 0.0 < SecondSingularValue(s) <= 1.0
  {
    OnePlusSquare(s);
  }

  /** The diagonal factor S = diag(1, s, 0) for the parameters p. */
  function SingularValues(p: seq<real>): Mat3
    requires |p| == ParameterCount
  {
    Diag(1.0, SecondSingularValue(p[4]), 0.0)
  }

  /** `To`: the matrix u.toRotationMatrix() * S * vt.toRotationMatrix(). */
  function To(p: seq<real>, toRot: Quaternion -> Mat3): (f: Mat3)
    requires |p| == ParameterCount
    ensures Det(f) == 0.0
  {
    var u := toRot(QuaternionOf(p[0..4]));
    var vt := toRot(QuaternionOf(p[5..9]));
    DetMul(u, SingularValues(p));
    DetMul(Mul(u, SingularValues(p)), vt);
    Mul(Mul(u, SingularValues(p)), vt)
  }

  function Outer(a: Vec3, b: Vec3): Mat3 {
    Mat3(a.x * b.x, a.x * b.y, a.x * b.z,
         a.y * b.x, a.y * b.y, a.y * b.z,
         a.z * b.x, a.z * b.y, a.z * b.z)
  }

  function MatAdd(a: Mat3, b: Mat3): Mat3 {
    Mat3(a.m00 + b.m00, a.m01 + b.m01, a.m02 + b.m02,
         a.m10 + b.m10, a.m11 + b.m11, a.m12 + b.m12,
         a.m20 + b.m20, a.m21 + b.m21, a.m22 + b.m22)
  }

  function Column(a: Mat3, j: int): Vec3
    requires 0 <= j < 3
  {
    Vec3(Get(a, 0, j), Get(a, 1, j), Get(a, 2, j))
  }

  function Row(a: Mat3, i: int): Vec3
    requires 0 <= i < 3
  {
    Vec3(Get(a, i, 0), Get(a, i, 1), Get(a, i, 2))
  }

  /** The matrix `To` builds is column 0 of U times row 0 of Vt plus s times
      column 1 of U times row 1 of Vt: a sum of two outer products, so of rank at
      most two. */
  lemma ToOuterProducts(p: seq<real>, toRot: Quaternion -> Mat3)
    requires |p| == ParameterCount
    ensures var u := toRot(QuaternionOf(p[0..4]));
            var vt := toRot(QuaternionOf(p[5..9]));
            To(p, toRot)
            == MatAdd(Outer(Column(u, 0), Row(vt, 0)),
                      Scale(SecondSingularValue(p[4]), Outer(Column(u, 1), Row(vt, 1))))
  {
    var u := toRot(QuaternionOf(p[0..4]));
    var vt := toRot(QuaternionOf(p[5..9]));
    var s := SecondSingularValue(p[4]);
    MulDiagRight(u, 1.0, s, 0.0);
    assert Mul(u, SingularValues(p)) == ColumnsScaled(u, s);
    ColumnsScaledProduct(u, s, vt);
  }

  /** U * diag(1, s, 0), written out. */
  function ColumnsScaled(u: Mat3, s: real): Mat3 {
    Mat3(u.m00 * 1.0, u.m01 * s, u.m02 * 0.0,
         u.m10 * 1.0, u.m11 * s, u.m12 * 0.0,
         u.m20 * 1.0, u.m21 * s, u.m22 * 0.0)
  }

  lemma ColumnsScaledProduct(u: Mat3, s: real, vt: Mat3)
    ensures Mul(ColumnsScaled(u, s), vt)
         == MatAdd(Outer(Column(u, 0), Row(vt, 0)), Scale(s, Outer(Column(u, 1), Row(vt, 1))))
  {
    var c0, c1 := Column(u, 0), Column(u, 1);
    var r0, r1 := Row(vt, 0), Row(vt, 1);
    assert c0 == Vec3(u.m00, u.m10, u.m20) && c1 == Vec3(u.m01, u.m11, u.m21);
    assert r0 == Vec3(vt.m00, vt.m01, vt.m02) && r1 == Vec3(vt.m10, vt.m11, vt.m12);
    ColumnsScaledEntries(u, s, vt);
    TwoOuterProducts(s, c0, r0, c1, r1);
  }

  /** The sum of two outer products, the second scaled by s, entry by entry. */
  function TwoOuterEntries(s: real, c0: Vec3, r0: Vec3, c1: Vec3, r1: Vec3): Mat3 {
    Mat3(c0.x * r0.x + s * (c1.x * r1.x), c0.x * r0.y + s * (c1.x * r1.y), c0.x * r0.z + s * (c1.x * r1.z),
         c0.y * r0.x + s * (c1.y * r1.x), c0.y * r0.y + s * (c1.y * r1.y), c0.y * r0.z + s * (c1.y * r1.z),
         c0.z * r0.x + s * (c1.z * r1.x), c0.z * r0.y + s * (c1.z * r1.y), c0.z * r0.z + s * (c1.z * r1.z))
  }

  lemma TwoOuterProducts(s: real, c0: Vec3, r0: Vec3, c1: Vec3, r1: Vec3)
    ensures MatAdd(Outer(c0, r0), Scale(s, Outer(c1, r1))) == TwoOuterEntries(s, c0, r0, c1, r1)
  {
    var o0, o1 := Outer(c0, r0), Outer(c1, r1);
    AddScaled(s, o0, o1);
    assert MatAdd(o0, Scale(s, o1))
        == Mat3(o0.m00 + s * o1.m00, o0.m01 + s * o1.m01, o0.m02 + s * o1.m02,
                o0.m10 + s * o1.m10, o0.m11 + s * o1.m11, o0.m12 + s * o1.m12,
                o0.m20 + s * o1.m20, o0.m21 + s * o1.m21, o0.m22 + s * o1.m22);
  }

  lemma ColumnsScaledEntries(u: Mat3, s: real, vt: Mat3)
    ensures Mul(ColumnsScaled(u, s), vt)
         == TwoOuterEntries(s, Vec3(u.m00, u.m10, u.m20), Vec3(vt.m00, vt.m01, vt.m02),
                            Vec3(u.m01, u.m11, u.m21), Vec3(vt.m10, vt.m11, vt.m12))
  {
    EntryProduct(u.m00, u.m01, u.m02, s, vt.m00, vt.m10, vt.m20);
    EntryProduct(u.m00, u.m01, u.m02, s, vt.m01, vt.m11, vt.m21);
    EntryProduct(u.m00, u.m01, u.m02, s, vt.m02, vt.m12, vt.m22);
    EntryProduct(u.m10, u.m11, u.m12, s, vt.m00, vt.m10, vt.m20);
    EntryProduct(u.m10, u.m11, u.m12, s, vt.m01, vt.m11, vt.m21);
    EntryProduct(u.m10, u.m11, u.m12, s, vt.m02, vt.m12, vt.m22);
    EntryProduct(u.m20, u.m21, u.m22, s, vt.m00, vt.m10, vt.m20);
    EntryProduct(u.m20, u.m21, u.m22, s, vt.m01, vt.m11, vt.m21);
    EntryProduct(u.m20, u.m21, u.m22, s, vt.m02, vt.m12, vt.m22);
  }

  /** a + s * b, entry by entry. */
  lemma AddScaled(s: real, a: Mat3, b: Mat3)
    ensures MatAdd(a, Scale(s, b))
         == Mat3(a.m00 + s * b.m00, a.m01 + s * b.m01, a.m02 + s * b.m02,
                 a.m10 + s * b.m10, a.m11 + s * b.m11, a.m12 + s * b.m12,
                 a.m20 + s * b.m20, a.m21 + s * b.m21, a.m22 + s * b.m22)
  {
    ScaleEntries(s, b);
  }

  /** Scaling a matrix scales every entry. */
  lemma ScaleEntries(k: real, a: Mat3)
    ensures Scale(k, a) == Mat3(k * a.m00, k * a.m01, k * a.m02,
                                k * a.m10, k * a.m11, k * a.m12,
                                k * a.m20, k * a.m21, k * a.m22)
  {
  }

  /** One entry of U * diag(1, s, 0) * Vt. */
  lemma EntryProduct(a: real, b: real, c: real, s: real, x: real, y: real, z: real)
    ensures Dot(a * 1.0, b * s, c * 0.0, x, y, z) == a * x + s * (b * y)
  {
  }

  /** A decomposition of f into orthogonal factors and decreasing non-negative
      singular values. */
  predicate IsSvdOf(d: Svd, f: Mat3) {
    f == Mul(Mul(d.u, Diag(d.sigma.x, d.sigma.y, d.sigma.z)), Transpose(d.v))
    && IsOrthogonal(d.u) && IsOrthogonal(d.v)
    && d.sigma.x >= d.sigma.y >= d.sigma.z >= 0.0
  }

  /** When the two quaternions stand for orthogonal matrices, the product `To`
      builds is already a singular value decomposition, with singular values
      1, s and 0. */
  lemma ToIsSvd(p: seq<real>, toRot: Quaternion -> Mat3)
    requires |p| == ParameterCount
    requires IsOrthogonal(toRot(QuaternionOf(p[0..4])))
    requires IsOrthogonal(toRot(QuaternionOf(p[5..9])))
    ensures var u := toRot(QuaternionOf(p[0..4]));
            var vt := toRot(QuaternionOf(p[5..9]));
            IsSvdOf(Svd(u, Vec3(1.0, SecondSingularValue(p[4]), 0.0), Transpose(vt)), To(p, toRot))
  {
    var vt := toRot(QuaternionOf(p[5..9]));
    assert Transpose(Transpose(vt)) == vt;
    OrthogonalTranspose(vt);
    SecondSingularValueRange(p[4]);
  }

  // ---------------------------------------------------------------------------
  // From

  /** The factor `From` turns into the first quaternion: U itself when its
      determinant is positive and -U otherwise. */
  function OrientedU(d: Svd): Mat3 {
    if Det(d.u) > 0.0 then d.u else Neg(d.u)
  }

  /** The factor `From` turns into the second quaternion: V^T when det(V) is
      positive and -V^T otherwise. */
  function OrientedVt(d: Svd): Mat3 {
    if Det(d.v) > 0.0 then Transpose(d.v) else Neg(Transpose(d.v))
  }

  /** `From`, on the decomposition f's SVD returns. The source divides by the
      second singular value without a check; here it must be nonzero. */
  function FromSvd(d: Svd, fromRot: Mat3 -> Quaternion, normalize: Quaternion -> Quaternion,
                   sqrt: real -> real): (p: seq<real>)
    requires d.sigma.y != 0.0
    ensures |p| == ParameterCount
  {
    var u := normalize(fromRot(OrientedU(d)));
    var vt := normalize(fromRot(OrientedVt(d)));
    Coeffs(u) + [sqrt(d.sigma.x / d.sigma.y - 1.0)] + Coeffs(vt)
  }

  /** `From(f)`: the parameters of f, by way of its SVD. */
  function From(f: Mat3, svd: Mat3 -> Svd, fromRot: Mat3 -> Quaternion,
                normalize: Quaternion -> Quaternion, sqrt: real -> real): (p: seq<real>)
    requires svd(f).sigma.y != 0.0
    ensures |p| == ParameterCount
  {
    FromSvd(svd(f), fromRot, normalize, sqrt)
  }

  /** `From` writes the quaternions and the scale where `To` reads them: the
      first four entries are U's normalized quaternion, entry 4 is
      sqrt(sigma0 / sigma1 - 1) and the last four are Vt's normalized quaternion. */
  lemma FromLayout(d: Svd, fromRot: Mat3 -> Quaternion, normalize: Quaternion -> Quaternion,
                   sqrt: real -> real)
    requires d.sigma.y != 0.0
    ensures var p := FromSvd(d, fromRot, normalize, sqrt);
            QuaternionOf(p[0..4]) == normalize(fromRot(OrientedU(d)))
            && p[4] == sqrt(d.sigma.x / d.sigma.y - 1.0)
            && QuaternionOf(p[5..9]) == normalize(fromRot(OrientedVt(d)))
  {
    var p := FromSvd(d, fromRot, normalize, sqrt);
    assert p[0..4] == Coeffs(normalize(fromRot(OrientedU(d))));
    assert p[5..9] == Coeffs(normalize(fromRot(OrientedVt(d))));
  }

  /** The third singular value plays no part in `From`. */
  lemma FromIgnoresThirdValue(d: Svd, sigma2: real, fromRot: Mat3 -> Quaternion,
                              normalize: Quaternion -> Quaternion, sqrt: real -> real)
    requires d.sigma.y != 0.0
    ensures FromSvd(d, fromRot, normalize, sqrt)
         == FromSvd(d.(sigma := d.sigma.(z := sigma2)), fromRot, normalize, sqrt)
  {
  }

  /** The only reals whose square is 1. */
  lemma UnitSquare(x: real)
    requires x * x == 1.0
    ensures x == 1.0 || x == -1.0
  {
    assert (x - 1.0) * (x + 1.0) == 0.0;
  }

  /** An orthogonal matrix has determinant 1 or -1. */
  lemma OrthogonalDet(a: Mat3)
    requires IsOrthogonal(a)
    ensures Det(a) == 1.0 || Det(a) == -1.0
  {
    DetMul(a, Transpose(a));
    DetTranspose(a);
    DetIdentity();
    UnitSquare(Det(a));
  }

  lemma OrthogonalNeg(a: Mat3)
    requires IsOrthogonal(a)
    ensures IsOrthogonal(Neg(a))
  {
    // -A is the product of the orthogonal matrix -I and A.
    var n := Diag(-1.0, -1.0, -1.0);
    assert IsOrthogonal(n);
    OrthogonalMul(n, a);
  }

  /** The sign choice in `From` turns an orthogonal factor, a rotation or a
      reflection, into a rotation: it stays orthogonal and has determinant +1. */
  lemma OrientedURotation(d: Svd)
    requires IsOrthogonal(d.u)
    ensures IsOrthogonal(OrientedU(d)) && Det(OrientedU(d)) == 1.0
    ensures OrientedU(d) == Scale(Det(d.u), d.u)
  {
    OrthogonalDet(d.u);
    DetNeg(d.u);
    OrthogonalNeg(d.u);
    ScaleOne(d.u);
  }

  lemma OrientedVtRotation(d: Svd)
    requires IsOrthogonal(d.v)
    ensures IsOrthogonal(OrientedVt(d)) && Det(OrientedVt(d)) == 1.0
    ensures OrientedVt(d) == Scale(Det(d.v), Transpose(d.v))
  {
    var vt := Transpose(d.v);
    OrthogonalDet(d.v);
    OrthogonalTranspose(d.v);
    DetTranspose(d.v);
    DetNeg(vt);
    OrthogonalNeg(vt);
    ScaleOne(vt);
  }

  /** The scale parameter round trip: for sigma0 >= sigma1 > 0, `From` stores
      sqrt(sigma0 / sigma1 - 1), which `To` maps back to sigma1 / sigma0. */
  lemma ScalarRoundTrip(sqrt: real -> real, sigma0: real, sigma1: real)
    requires IsSqrt(sqrt)
    requires sigma0 >= sigma1 > 0.0
    ensures SecondSingularValue(sqrt(sigma0 / sigma1 - 1.0)) == sigma1 / sigma0
  {
    var x := sigma0 / sigma1 - 1.0;
    assert 0.0 <= x;
    var r := sqrt(x);
    assert r * r == x;
    assert 1.0 + r * r == sigma0 / sigma1;
    assert 1.0 / (sigma0 / sigma1) == sigma1 / sigma0;
  }

  /** What the model asks of Eigen's conversions: converting a rotation to a
      quaternion, normalizing it and converting back gives the rotation. */
  ghost predicate RotationRoundTrip(toRot: Quaternion -> Mat3, fromRot: Mat3 -> Quaternion,
                                    normalize: Quaternion -> Quaternion) {
    forall m :: IsOrthogonal(m) && Det(m) == 1.0 ==> toRot(normalize(fromRot(m))) == m
  }

  lemma DivAsMul(x: real, y: real)
    requires y != 0.0
    ensures x * (1.0 / y) == x / y
  {
  }

  lemma ScaleMulMul(ka: real, a: Mat3, b: Mat3, kc: real, c: Mat3)
    ensures Mul(Mul(Scale(ka, a), b), Scale(kc, c)) == Scale(ka * kc, Mul(Mul(a, b), c))
  {
    MulScale(ka, a, b);
    MulScale(ka, Mul(a, b), Scale(kc, c));
    MulScale(kc, Mul(a, b), c);
    ScaleScale(ka, kc, Mul(Mul(a, b), c));
  }

  /** diag(1, sigma1 / sigma0, 0) is diag(sigma0, sigma1, 0) over sigma0. */
  lemma NormalizedSingularValues(sigma0: real, sigma1: real)
    requires sigma0 != 0.0
    ensures Diag(1.0, sigma1 / sigma0, 0.0) == Scale(1.0 / sigma0, Diag(sigma0, sigma1, 0.0))
  {
  }

  /** `To` reads back the two rotations `From` chose and the second singular
      value divided by the first. */
  lemma ToAfterFrom(d: Svd, toRot: Quaternion -> Mat3, fromRot: Mat3 -> Quaternion,
                    normalize: Quaternion -> Quaternion, sqrt: real -> real)
    requires IsSqrt(sqrt) && RotationRoundTrip(toRot, fromRot, normalize)
    requires IsOrthogonal(d.u) && IsOrthogonal(d.v) && d.sigma.x >= d.sigma.y > 0.0
    ensures To(FromSvd(d, fromRot, normalize, sqrt), toRot)
         == Mul(Mul(OrientedU(d), Diag(1.0, d.sigma.y / d.sigma.x, 0.0)), OrientedVt(d))
  {
    var p := FromSvd(d, fromRot, normalize, sqrt);
    FromLayout(d, fromRot, normalize, sqrt);
    OrientedURotation(d);
    OrientedVtRotation(d);
    assert toRot(QuaternionOf(p[0..4])) == OrientedU(d);
    assert toRot(QuaternionOf(p[5..9])) == OrientedVt(d);
    ScalarRoundTrip(sqrt, d.sigma.x, d.sigma.y);
  }

  /** The signs and the division by sigma0 come out as one scale factor. */
  lemma ScaledFactors(su: real, u: Mat3, sigma0: real, sigma1: real, sv: real, vt: Mat3)
    requires sigma0 != 0.0
    ensures Mul(Mul(Scale(su, u), Diag(1.0, sigma1 / sigma0, 0.0)), Scale(sv, vt))
         == Scale(su * sv / sigma0, Mul(Mul(u, Diag(sigma0, sigma1, 0.0)), vt))
  {
    var k := 1.0 / sigma0;
    var sigma := Diag(sigma0, sigma1, 0.0);
    NormalizedSingularValues(sigma0, sigma1);
    ScaleMulMul(su, u, Scale(k, sigma), sv, vt);
    MulScale(k, u, sigma);
    MulScale(k, Mul(u, sigma), vt);
    ScaleScale(su * sv, k, Mul(Mul(u, sigma), vt));
    DivAsMul(su * sv, sigma0);
  }

  /** `To` after `From` gives back a rank-2 F up to a nonzero scale: the signs
      `From` chooses for U and V (the determinants, each 1 or -1) and the division
      by the first singular value only rescale it, and a fundamental matrix is
      defined up to scale. */
  lemma RoundTrip(f: Mat3, d: Svd, toRot: Quaternion -> Mat3, fromRot: Mat3 -> Quaternion,
                  normalize: Quaternion -> Quaternion, sqrt: real -> real)
    requires IsSqrt(sqrt) && RotationRoundTrip(toRot, fromRot, normalize)
    requires IsSvdOf(d, f) && d.sigma.y > 0.0 && d.sigma.z == 0.0
    ensures Det(d.u) * Det(d.v) == 1.0 || Det(d.u) * Det(d.v) == -1.0
    ensures To(FromSvd(d, fromRot, normalize, sqrt), toRot) == Scale(Det(d.u) * Det(d.v) / d.sigma.x, f)
  {
    OrthogonalDet(d.u);
    OrthogonalDet(d.v);
    ToAfterFrom(d, toRot, fromRot, normalize, sqrt);
    OrientedURotation(d);
    OrientedVtRotation(d);
    ScaledFactors(Det(d.u), d.u, d.sigma.x, d.sigma.y, Det(d.v), Transpose(d.v));
  }
}
