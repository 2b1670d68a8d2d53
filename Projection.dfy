/** Projection-matrix algebra of libmv's multiview library: composing a camera
    P = K [R | t] and taking it apart again by an RQ decomposition, the index flip
    used to turn an absolute conic into an upper-triangular calibration matrix,
    the homogeneous/Euclidean conversions, projection and depth. */
module Projection {
  import opened Linear

  // ---------------------------------------------------------------------------
  // P = K [R | t]

  /** The camera matrix K [R | t]. Its leading block K R has determinant
      det K * det R, so a camera built from an invertible K and a rotation R has
      the invertible leading block that KRtFromP takes apart. */
  function PFromKRt(k: Mat3, r: Mat3, t: Vec3): (p: Mat34)
    ensures Det(p.block) == Det(k) * Det(r)
  {
    DetMul(k, r);
    Mul34(k, Mat34(r, t))
  }

  /** The camera K [R | t] sends a point X to K (R X + t). */
  lemma PFromKRtProjects(k: Mat3, r: Mat3, t: Vec3, x: Vec3)
    ensures Apply34(PFromKRt(k, r, t), EuclideanToHomogeneous3(x)) == Apply(k, Add(Apply(r, x), t))
  {
    Apply34Mul(k, Mat34(r, t), EuclideanToHomogeneous3(x));
    ScaleOneVec(t);
  }

  lemma ScaleOneVec(v: Vec3)
    ensures ScaleVec(1.0, v) == v
  {
  }

  // ---------------------------------------------------------------------------
  // RQ decomposition by Givens rotations.

  /** The rotation about the x axis used to zero K(2,1). */
  function RotX(c: real, s: real): Mat3 {
    Mat3(1.0, 0.0, 0.0,
         0.0, c, -s,
         0.0, s, c)
  }

  /** The rotation about the y axis used to zero K(2,0). */
  function RotY(c: real, s: real): Mat3 {
    Mat3(c, 0.0, s,
         0.0, 1.0, 0.0,
         -s, 0.0, c)
  }

  /** The rotation about the z axis used to zero K(1,0). */
  function RotZ(c: real, s: real): Mat3 {
    Mat3(c, -s, 0.0,
         s, c, 0.0,
         0.0, 0.0, 1.0)
  }

  /** The two diagonal sign matrices of the sign fixes. */
  function FlipY(): Mat3 { Diag(1.0, -1.0, 1.0) }
  function FlipX(): Mat3 { Diag(-1.0, 1.0, 1.0) }

  lemma SumOfSquaresPositive(c: real, s: real)
    requires s != 0.0
    ensures 0.0 < c * c + s * s
  {
    if s < 0.0 { assert 0.0 < (-s) * (-s); } else { assert 0.0 < s * s; }
    if c < 0.0 { assert 0.0 <= (-c) * (-c); } else { assert 0.0 <= c * c; }
  }

  /** The square root of c*c + s*s with s != 0 is positive. */
  lemma GivensLength(sqrt: real -> real, c: real, s: real)
    requires IsSqrt(sqrt)
    requires s != 0.0
    ensures 0.0 < sqrt(c * c + s * s)
    ensures sqrt(c * c + s * s) * sqrt(c * c + s * s) == c * c + s * s
  {
    SumOfSquaresPositive(c, s);
  }

  /** (c/l, s/l) is a unit vector when l is the length of (c, s). */
  lemma GivensUnit(c: real, s: real, l: real)
    requires 0.0 < l && l * l == c * c + s * s
    ensures (c / l) * (c / l) + (s / l) * (s / l) == 1.0
  {
    var w := 1.0 / l;
    assert l * w == 1.0;
    SquareEq(l * w, 1.0);
    MulEq(l * l, c * c + s * s, w * w);
    assert c / l == c * w;
    assert s / l == s * w;
  }

  lemma RotXIsRotation(c: real, s: real)
    requires c * c + s * s == 1.0
    ensures IsOrthogonal(RotX(c, s)) && Det(RotX(c, s)) == 1.0
  {
  }

  lemma RotYIsRotation(c: real, s: real)
    requires c * c + s * s == 1.0
    ensures IsOrthogonal(RotY(c, s)) && Det(RotY(c, s)) == 1.0
  {
  }

  lemma RotZIsRotation(c: real, s: real)
    requires c * c + s * s == 1.0
    ensures IsOrthogonal(RotZ(c, s)) && Det(RotZ(c, s)) == 1.0
  {
  }

  /** The first Givens step zeroes K(2,1). */
  lemma GivensX(k: Mat3, l: real)
    requires 0.0 < l && l * l == k.m22 * k.m22 + k.m21 * k.m21
    ensures Mul(k, RotX(-k.m22 / l, k.m21 / l)).m21 == 0.0
    ensures IsOrthogonal(RotX(-k.m22 / l, k.m21 / l)) && Det(RotX(-k.m22 / l, k.m21 / l)) == 1.0
  {
    var c, s := -k.m22 / l, k.m21 / l;
    assert Mul(k, RotX(c, s)).m21 == k.m21 * c + k.m22 * s;
    GivensUnit(-k.m22, k.m21, l);
    RotXIsRotation(c, s);
  }

  /** The second Givens step zeroes K(2,0) and keeps column 1. */
  lemma GivensY(k: Mat3, l: real)
    requires 0.0 < l && l * l == k.m22 * k.m22 + k.m20 * k.m20
    ensures Mul(k, RotY(k.m22 / l, k.m20 / l)).m20 == 0.0
    ensures Mul(k, RotY(k.m22 / l, k.m20 / l)).m21 == k.m21
    ensures IsOrthogonal(RotY(k.m22 / l, k.m20 / l)) && Det(RotY(k.m22 / l, k.m20 / l)) == 1.0
  {
    var c, s := k.m22 / l, k.m20 / l;
    assert Mul(k, RotY(c, s)).m20 == k.m20 * c - k.m22 * s;
    GivensUnit(k.m22, k.m20, l);
    RotYIsRotation(c, s);
  }

  /** The third Givens step zeroes K(1,0) and keeps a zero row-2 prefix. */
  lemma GivensZ(k: Mat3, l: real)
    requires 0.0 < l && l * l == k.m11 * k.m11 + k.m10 * k.m10
    ensures Mul(k, RotZ(-k.m11 / l, k.m10 / l)).m10 == 0.0
    ensures k.m20 == 0.0 && k.m21 == 0.0 ==>
              Mul(k, RotZ(-k.m11 / l, k.m10 / l)).m20 == 0.0 && Mul(k, RotZ(-k.m11 / l, k.m10 / l)).m21 == 0.0
    ensures IsOrthogonal(RotZ(-k.m11 / l, k.m10 / l)) && Det(RotZ(-k.m11 / l, k.m10 / l)) == 1.0
  {
    var c, s := -k.m11 / l, k.m10 / l;
    assert Mul(k, RotZ(c, s)).m10 == k.m10 * c + k.m11 * s;
    GivensUnit(-k.m11, k.m10, l);
    RotZIsRotation(c, s);
  }

  /** Replacing (K, Q) by (K G, G^T Q) for a rotation G keeps K Q, and keeps Q a
      rotation. */
  lemma RotationStep(k: Mat3, q: Mat3, g: Mat3)
    requires IsOrthogonal(g) && Det(g) == 1.0
    requires IsOrthogonal(q)
    ensures Mul(Mul(k, g), Mul(Transpose(g), q)) == Mul(k, q)
    ensures IsOrthogonal(Mul(Transpose(g), q))
    ensures Det(Mul(Transpose(g), q)) == Det(q)
  {
    var gt := Transpose(g);
    calc {
      Mul(Mul(k, g), Mul(gt, q));
      { MulAssoc(k, g, Mul(gt, q)); }
      Mul(k, Mul(g, Mul(gt, q)));
      { MulAssoc(g, gt, q); }
      Mul(k, Mul(Mul(g, gt), q));
      { MulIdentity(q); }
      Mul(k, q);
    }
    OrthogonalTranspose(g);
    OrthogonalMul(gt, q);
    DetMul(gt, q);
    DetTranspose(g);
  }

  /** Negating both K and R keeps K R, upper-triangularity and orthogonality, and
      flips the sign of det R. */
  lemma NegateStep(k: Mat3, r: Mat3)
    ensures Mul(Neg(k), Neg(r)) == Mul(k, r)
    ensures Neg(k).m22 == -k.m22 && Neg(k).m11 == -k.m11 && Neg(k).m00 == -k.m00
    ensures IsUpperTriangular(k) ==> IsUpperTriangular(Neg(k))
    ensures IsOrthogonal(r) ==> IsOrthogonal(Neg(r))
    ensures Det(Neg(r)) == -Det(r)
  {
    MulScale(-1.0, k, Neg(r));
    MulScale(-1.0, k, r);
    ScaleScale(-1.0, -1.0, Mul(k, r));
    ScaleOne(Mul(k, r));
    DetNeg(r);
    if IsOrthogonal(r) {
      var n := Diag(-1.0, -1.0, -1.0);
      assert IsOrthogonal(n);
      OrthogonalMul(n, r);
    }
  }

  /** Multiplying K on the right and R on the left by a diagonal sign matrix S
      (S S = I) keeps K R and orthogonality, and flips the sign of det R. */
  lemma SignStep(k: Mat3, r: Mat3, s: Mat3)
    requires s == FlipY() || s == FlipX()
    ensures Mul(Mul(k, s), Mul(s, r)) == Mul(k, r)
    ensures IsOrthogonal(r) ==> IsOrthogonal(Mul(s, r))
    ensures Det(Mul(s, r)) == -Det(r)
  {
    assert Mul(s, s) == Identity();
    calc {
      Mul(Mul(k, s), Mul(s, r));
      { MulAssoc(k, s, Mul(s, r)); }
      Mul(k, Mul(s, Mul(s, r)));
      { MulAssoc(s, s, r); }
      Mul(k, Mul(Mul(s, s), r));
      { MulIdentity(r); }
      Mul(k, r);
    }
    assert IsOrthogonal(s);
    if IsOrthogonal(r) {
      OrthogonalMul(s, r);
    }
    DetMul(s, r);
  }

  /** Rescaling K by 1 / K(2,2) after solving t = K^-1 p rescales the whole camera:
      K' [R | t] == P / K(2,2). */
  lemma RescaleStep(p: Mat34, k: Mat3, r: Mat3, t: Vec3)
    requires Mul(k, r) == p.block
    requires Det(k) != 0.0 && k.m22 != 0.0
    requires t == Apply(Inverse(k), p.last)
    ensures PFromKRt(Scale(1.0 / k.m22, k), r, t) == Scale34(1.0 / k.m22, p)
  {
    var f := 1.0 / k.m22;
    MulScale(f, k, r);
    ApplyScale(f, k, t);
    ApplyMul(k, Inverse(k), p.last);
    MulInverse(k);
    ApplyIdentity(p.last);
  }

  /** The first Givens block of KRt_From_P: when K(2,1) is non-zero, K := K Qx and
      Q := Qx^T Q for the rotation Qx that zeroes K(2,1). */
  method ZeroK21(k: Mat3, q: Mat3, sqrt: real -> real) returns (k1: Mat3, q1: Mat3)
    requires IsSqrt(sqrt) && IsOrthogonal(q)
    ensures k1.m21 == 0.0
    ensures Mul(k1, q1) == Mul(k, q) && IsOrthogonal(q1) && Det(q1) == Det(q)
  {
    k1, q1 := k, q;
    if k1.m21 != 0.0 {
      var c := -k1.m22;
      var s := k1.m21;
      GivensLength(sqrt, c, s);
      var l := sqrt(c * c + s * s);
      GivensX(k1, l);
      c, s := c / l, s / l;
      var qx := RotX(c, s);
      RotationStep(k1, q1, qx);
      k1 := Mul(k1, qx);
      q1 := Mul(Transpose(qx), q1);
    }
  }

  /** The second Givens block: zeroes K(2,0) and leaves K(2,1) as it was. */
  method ZeroK20(k: Mat3, q: Mat3, sqrt: real -> real) returns (k1: Mat3, q1: Mat3)
    requires IsSqrt(sqrt) && IsOrthogonal(q)
    ensures k1.m20 == 0.0 && k1.m21 == k.m21
    ensures Mul(k1, q1) == Mul(k, q) && IsOrthogonal(q1) && Det(q1) == Det(q)
  {
    k1, q1 := k, q;
    if k1.m20 != 0.0 {
      var c := k1.m22;
      var s := k1.m20;
      GivensLength(sqrt, c, s);
      var l := sqrt(c * c + s * s);
      GivensY(k1, l);
      c, s := c / l, s / l;
      var qy := RotY(c, s);
      RotationStep(k1, q1, qy);
      k1 := Mul(k1, qy);
      q1 := Mul(Transpose(qy), q1);
    }
  }

  /** The third Givens block: zeroes K(1,0) and keeps the zeros below the diagonal
      in row 2. */
  method ZeroK10(k: Mat3, q: Mat3, sqrt: real -> real) returns (k1: Mat3, q1: Mat3)
    requires IsSqrt(sqrt) && IsOrthogonal(q)
    ensures k1.m10 == 0.0
    ensures k.m20 == 0.0 && k.m21 == 0.0 ==> k1.m20 == 0.0 && k1.m21 == 0.0
    ensures Mul(k1, q1) == Mul(k, q) && IsOrthogonal(q1) && Det(q1) == Det(q)
  {
    k1, q1 := k, q;
    if k1.m10 != 0.0 {
      var c := -k1.m11;
      var s := k1.m10;
      GivensLength(sqrt, c, s);
      var l := sqrt(c * c + s * s);
      GivensZ(k1, l);
      c, s := c / l, s / l;
      var qz := RotZ(c, s);
      RotationStep(k1, q1, qz);
      k1 := Mul(k1, qz);
      q1 := Mul(Transpose(qz), q1);
    }
  }

  /** The sign fixes of KRt_From_P: make K(2,2), K(1,1) and K(0,0) non-negative in
      turn, each time changing R so that K R stays the same. */
  method FixSigns(k: Mat3, r: Mat3) returns (k1: Mat3, r1: Mat3)
    requires IsUpperTriangular(k) && IsOrthogonal(r)
    ensures IsUpperTriangular(k1) && 0.0 <= k1.m22 && 0.0 <= k1.m11 && 0.0 <= k1.m00
    ensures Mul(k1, r1) == Mul(k, r) && IsOrthogonal(r1) && (Det(r1) == Det(r) || Det(r1) == -Det(r))
  {
    k1, r1 := k, r;
    if k1.m22 < 0.0 {
      NegateStep(k1, r1);
      k1 := Neg(k1);
      r1 := Neg(r1);
    }
    if k1.m11 < 0.0 {
      SignStep(k1, r1, FlipY());
      MulDiagRight(k1, 1.0, -1.0, 1.0);
      k1 := Mul(k1, FlipY());
      r1 := Mul(FlipY(), r1);
    }
    if k1.m00 < 0.0 {
      SignStep(k1, r1, FlipX());
      MulDiagRight(k1, -1.0, 1.0, 1.0);
      k1 := Mul(k1, FlipX());
      r1 := Mul(FlipX(), r1);
    }
  }

  /** KRt_From_P: splits a camera with invertible leading block into K, R and t.
      K is upper triangular with K(2,2) = 1 and positive K(0,0) and K(1,1), R is
      orthogonal with determinant +1 or -1, and K [R | t] is P up to a positive
      factor. */
  method KRtFromP(p: Mat34, sqrt: real -> real) returns (k: Mat3, r: Mat3, t: Vec3)
    requires IsSqrt(sqrt)
    requires Det(p.block) != 0.0
    ensures IsUpperTriangular(k) && k.m22 == 1.0 && 0.0 < k.m11 && 0.0 < k.m00
    ensures IsOrthogonal(r) && (Det(r) == 1.0 || Det(r) == -1.0)
    ensures exists f :: 0.0 < f && PFromKRt(k, r, t) == Scale34(f, p)
  {
    k := p.block;
    var q := Identity();
    MulIdentity(k);
    DetIdentity();
    assert IsOrthogonal(q);
    k, q := ZeroK21(k, q, sqrt);
    k, q := ZeroK20(k, q, sqrt);
    k, q := ZeroK10(k, q, sqrt);
    r := q;
    k, r := FixSigns(k, r);

    // Compute the translation.
    CalibrationInvertible(p, k, r);
    t := Apply(Inverse(k), p.last);

    // Scale K so that K(2,2) = 1.
    var k22 := k.m22;
    RescaleStep(p, k, r, t);
    RescaledCalibration(k);
    k := Scale(1.0 / k22, k);
    assert 0.0 < 1.0 / k22 && PFromKRt(k, r, t) == Scale34(1.0 / k22, p);
  }

  /** An upper-triangular K with K R equal to an invertible block is invertible,
      so its diagonal has no zero, and a non-negative diagonal is then positive. */
  lemma CalibrationInvertible(p: Mat34, k: Mat3, r: Mat3)
    requires Det(p.block) != 0.0
    requires Mul(k, r) == p.block && IsUpperTriangular(k)
    requires 0.0 <= k.m22 && 0.0 <= k.m11 && 0.0 <= k.m00
    ensures Det(k) != 0.0 && 0.0 < k.m22 && 0.0 < k.m11 && 0.0 < k.m00
  {
    DetMul(k, r);
    NonZeroFactors(Det(k), Det(r));
    DetUpperTriangular(k);
    NonZeroFactors(k.m00 * k.m11, k.m22);
    NonZeroFactors(k.m00, k.m11);
  }

  lemma NonZeroFactors(a: real, b: real)
    requires a * b != 0.0
    ensures a != 0.0 && b != 0.0
  {
  }

  /** Dividing an upper-triangular K with a positive diagonal by K(2,2) keeps it
      upper triangular with a positive diagonal, and makes K(2,2) one. */
  lemma RescaledCalibration(k: Mat3)
    requires IsUpperTriangular(k) && 0.0 < k.m22 && 0.0 < k.m11 && 0.0 < k.m00
    ensures var k1 := Scale(1.0 / k.m22, k);
            IsUpperTriangular(k1) && k1.m22 == 1.0 && 0.0 < k1.m11 && 0.0 < k1.m00
  {
    var f := 1.0 / k.m22;
    assert Scale(f, k) == Mat3(f * k.m00, f * k.m01, f * k.m02, 0.0, f * k.m11, f * k.m12, 0.0, 0.0, f * k.m22);
    assert 0.0 < f;
    PositiveProduct(f, k.m00);
    PositiveProduct(f, k.m11);
  }

  lemma PositiveProduct(a: real, b: real)
    requires 0.0 < a && 0.0 < b
    ensures 0.0 < a * b
  {
  }

  // ---------------------------------------------------------------------------
  // The index flip of K_From_AbsoluteConic.

  /** The exchange matrix, which reverses the order of rows or columns. */
  function Exchange(): Mat3 {
    Mat3(0.0, 0.0, 1.0,
         0.0, 1.0, 0.0,
         1.0, 0.0, 0.0)
  }

  /** a(i, j) moved to (2 - i, 2 - j): J a J for the exchange matrix J. */
  function Flipped(a: Mat3): Mat3 {
    Mul(Mul(Exchange(), a), Exchange())
  }

  lemma FlippedEntries(a: Mat3)
    ensures forall i, j :: 0 <= i < 3 && 0 <= j < 3 ==> Get(Flipped(a), i, j) == Get(a, 2 - i, 2 - j)
  {
    assert Flipped(a) == Mat3(a.m22, a.m21, a.m20, a.m12, a.m11, a.m10, a.m02, a.m01, a.m00);
  }

  /** The flip loop: f(i, j) = a(2 - i, 2 - j) for every i and j. */
  method Flip(a: Mat3) returns (f: Mat3)
    ensures forall i, j :: 0 <= i < 3 && 0 <= j < 3 ==> Get(f, i, j) == Get(a, 2 - i, 2 - j)
    ensures f == Flipped(a)
  {
    f := Diag(0.0, 0.0, 0.0);
    for i := 0 to 3
      invariant forall i', j :: 0 <= i' < i && 0 <= j < 3 ==> Get(f, i', j) == Get(a, 2 - i', 2 - j)
    {
      for j := 0 to 3
        invariant forall i', j' :: 0 <= i' < i && 0 <= j' < 3 ==> Get(f, i', j') == Get(a, 2 - i', 2 - j')
        invariant forall j' :: 0 <= j' < j ==> Get(f, i, j') == Get(a, 2 - i, 2 - j')
      {
        f := Set(f, i, j, Get(a, 2 - i, 2 - j));
      }
    }
    FlippedEntries(a);
    MatEq(f, Flipped(a));
  }

  lemma ExchangeSquare()
    ensures Mul(Exchange(), Exchange()) == Identity()
  {
  }

  /** Flipping twice gives the matrix back. */
  lemma FlippedInvolution(a: Mat3)
    ensures Flipped(Flipped(a)) == a
  {
    var e := Exchange();
    ExchangeSquare();
    calc {
      Flipped(Flipped(a));
      Mul(Mul(e, Mul(Mul(e, a), e)), e);
      { MulAssoc(e, Mul(e, a), e); }
      Mul(Mul(Mul(e, Mul(e, a)), e), e);
      { MulAssoc(e, e, a); MulIdentity(a); }
      Mul(Mul(a, e), e);
      { MulAssoc(a, e, e); MulIdentity(a); }
      a;
    }
  }

  /** The flip turns a lower-triangular matrix into an upper-triangular one. */
  lemma FlippedLowerIsUpper(a: Mat3)
    requires IsLowerTriangular(a)
    ensures IsUpperTriangular(Flipped(a))
  {
    FlippedEntries(a);
    assert Get(Flipped(a), 1, 0) == Get(a, 1, 2);
    assert Get(Flipped(a), 2, 0) == Get(a, 0, 2);
    assert Get(Flipped(a), 2, 1) == Get(a, 0, 1);
  }

  /** The flip commutes with products and with transposition. */
  lemma FlippedMul(a: Mat3, b: Mat3)
    ensures Flipped(Mul(a, b)) == Mul(Flipped(a), Flipped(b))
  {
    var e := Exchange();
    ExchangeSquare();
    calc {
      Mul(Flipped(a), Flipped(b));
      { MulAssoc(Mul(e, a), e, Mul(Mul(e, b), e)); }
      Mul(Mul(e, a), Mul(e, Mul(Mul(e, b), e)));
      { MulAssoc(e, Mul(e, b), e); }
      Mul(Mul(e, a), Mul(Mul(e, Mul(e, b)), e));
      { MulAssoc(e, e, b); MulIdentity(b); }
      Mul(Mul(e, a), Mul(b, e));
      { MulAssoc(Mul(e, a), b, e); }
      Mul(Mul(Mul(e, a), b), e);
      { MulAssoc(e, a, b); }
      Flipped(Mul(a, b));
    }
  }

  lemma FlippedTranspose(a: Mat3)
    ensures Transpose(Flipped(a)) == Flipped(Transpose(a))
  {
    FlippedEntries(a);
    FlippedEntries(Transpose(a));
    assert Flipped(a) == Mat3(a.m22, a.m21, a.m20, a.m12, a.m11, a.m10, a.m02, a.m01, a.m00);
    assert Flipped(Transpose(a)) == Mat3(a.m22, a.m12, a.m02, a.m21, a.m11, a.m01, a.m20, a.m10, a.m00);
  }

  /** K_From_AbsoluteConic: the upper-triangular K with K K^T = W^-1, obtained by
      flipping W^-1, taking the lower-triangular Cholesky factor `llt` of the result
      and flipping back. Whenever `llt` returns a lower-triangular L with
      L L^T equal to its argument, K is upper triangular with K K^T = W^-1. */
  method KFromAbsoluteConic(w: Mat3, llt: Mat3 -> Mat3) returns (k: Mat3)
    requires Det(w) != 0.0
    ensures k == Flipped(llt(Flipped(Inverse(w))))
    ensures var l := llt(Flipped(Inverse(w)));
            IsLowerTriangular(l) && Mul(l, Transpose(l)) == Flipped(Inverse(w)) ==>
              IsUpperTriangular(k) && Mul(k, Transpose(k)) == Inverse(w)
  {
    var dual := Inverse(w);
    var flippedDual := Flip(dual);
    var l := llt(flippedDual);
    k := Flip(l);
    if IsLowerTriangular(l) && Mul(l, Transpose(l)) == flippedDual {
      FlippedLowerIsUpper(l);
      FlippedTranspose(l);
      FlippedMul(l, Transpose(l));
      FlippedInvolution(dual);
    }
  }

  // ---------------------------------------------------------------------------
  // Homogeneous and Euclidean coordinates.

  /** HomogeneousToEuclidean for a Vec3: divides by the last coordinate, so
      the point scaled back by that coordinate is the first two coordinates. */
  function HomogeneousToEuclidean3(h: Vec3): (x: Vec2)
    requires h.z != 0.0
    ensures x.x * h.z == h.x && x.y * h.z == h.y
  {
    Vec2(h.x / h.z, h.y / h.z)
  }

  /** HomogeneousToEuclidean for a Vec4: the point scaled back by the last
      coordinate is the first three coordinates. */
  function HomogeneousToEuclidean4(h: Vec4): (x: Vec3)
    requires h.w != 0.0
    ensures x.x * h.w == h.x && x.y * h.w == h.y && x.z * h.w == h.z
  {
    Vec3(h.x / h.w, h.y / h.w, h.z / h.w)
  }

  /** EuclideanToHomogeneous for a Vec2: appends a 1, and converting back is the
      identity. */
  function EuclideanToHomogeneous2(x: Vec2): (h: Vec3)
    ensures h.z == 1.0 && HomogeneousToEuclidean3(h) == x
  {
    Vec3(x.x, x.y, 1.0)
  }

  /** EuclideanToHomogeneous for a Vec3. */
  function EuclideanToHomogeneous3(x: Vec3): (h: Vec4)
    ensures h.w == 1.0 && HomogeneousToEuclidean4(h) == x
  {
    Vec4(x.x, x.y, x.z, 1.0)
  }

  /** Lifting a dehomogenised point back gives the homogeneous point scaled by one
      over its last coordinate. */
  lemma HomogeneousLift3(h: Vec3)
    requires h.z != 0.0
    ensures EuclideanToHomogeneous2(HomogeneousToEuclidean3(h)) == ScaleVec(1.0 / h.z, h)
  {
    ScaleVecEntries(1.0 / h.z, h);
    assert h.z / h.z == 1.0;
  }

  lemma HomogeneousLift4(h: Vec4)
    requires h.w != 0.0
    ensures EuclideanToHomogeneous3(HomogeneousToEuclidean4(h)) == Vec4(h.x / h.w, h.y / h.w, h.z / h.w, 1.0)
  {
  }

  /** A homogeneous point and any non-zero multiple of it are the same Euclidean
      point. */
  lemma HomogeneousScaleInvariant3(h: Vec3, f: real)
    requires h.z != 0.0 && f != 0.0
    ensures ScaleVec(f, h).z != 0.0
    ensures HomogeneousToEuclidean3(ScaleVec(f, h)) == HomogeneousToEuclidean3(h)
  {
    var g := ScaleVec(f, h);
    assert g == Vec3(f * h.x, f * h.y, f * h.z);
    assert (f * h.x) / (f * h.z) == h.x / h.z;
    assert (f * h.y) / (f * h.z) == h.y / h.z;
  }

  lemma HomogeneousScaleInvariant4(h: Vec4, f: real)
    requires h.w != 0.0 && f != 0.0
    ensures f * h.w != 0.0
    ensures HomogeneousToEuclidean4(Vec4(f * h.x, f * h.y, f * h.z, f * h.w)) == HomogeneousToEuclidean4(h)
  {
    assert (f * h.x) / (f * h.w) == h.x / h.w;
    assert (f * h.y) / (f * h.w) == h.y / h.w;
    assert (f * h.z) / (f * h.w) == h.z / h.w;
  }

  /** The last entry of column i. */
  function LastEntry(h: array2<real>, i: int): real
    reads h
    requires 1 <= h.Length0 && 0 <= i < h.Length1
  {
    h[h.Length0 - 1, i]
  }

  /** HomogeneousToEuclidean for a matrix of column points: a (d+1) x n matrix
      becomes the d x n matrix of its columns divided by their last entries. */
  method HomogeneousToEuclidean(h: array2<real>) returns (x: array2<real>)
    requires 1 <= h.Length0
    requires 1 < h.Length0 ==> forall i :: 0 <= i < h.Length1 ==> LastEntry(h, i) != 0.0
    ensures fresh(x)
    ensures x.Length0 == h.Length0 - 1 && x.Length1 == h.Length1
    ensures forall j, i :: 0 <= j < x.Length0 && 0 <= i < x.Length1 ==> x[j, i] == h[j, i] / LastEntry(h, i)
  {
    var d := h.Length0 - 1;
    var n := h.Length1;
    x := new real[d, n];
    for i := 0 to n
      invariant forall j, i' :: 0 <= j < d && 0 <= i' < i ==> x[j, i'] == h[j, i'] / LastEntry(h, i')
    {
      var w := h[d, i];
      assert w == LastEntry(h, i);
      for j := 0 to d
        invariant forall j', i' :: 0 <= j' < d && 0 <= i' < i ==> x[j', i'] == h[j', i'] / LastEntry(h, i')
        invariant forall j' :: 0 <= j' < j ==> x[j', i] == h[j', i] / w
      {
        x[j, i] := h[j, i] / w;
      }
    }
  }

  /** EuclideanToHomogeneous for a matrix of column points: appends a row of ones. */
  method EuclideanToHomogeneous(x: array2<real>) returns (h: array2<real>)
    ensures fresh(h)
    ensures h.Length0 == x.Length0 + 1 && h.Length1 == x.Length1
    ensures forall j, i :: 0 <= j < x.Length0 && 0 <= i < x.Length1 ==> h[j, i] == x[j, i]
    ensures forall i :: 0 <= i < x.Length1 ==> h[x.Length0, i] == 1.0
  {
    var d := x.Length0;
    var n := x.Length1;
    h := new real[d + 1, n];
    for i := 0 to n
      invariant forall j, i' :: 0 <= j < d && 0 <= i' < i ==> h[j, i'] == x[j, i']
      invariant forall i' :: 0 <= i' < i ==> h[d, i'] == 1.0
    {
      for j := 0 to d
        invariant forall j', i' :: 0 <= j' < d && 0 <= i' < i ==> h[j', i'] == x[j', i']
        invariant forall i' :: 0 <= i' < i ==> h[d, i'] == 1.0
        invariant forall j' :: 0 <= j' < j ==> h[j', i] == x[j', i]
      {
        h[j, i] := x[j, i];
      }
      h[d, i] := 1.0;
    }
  }

  /** Converting to homogeneous coordinates and back gives the input. */
  method EuclideanRoundTrip(x: array2<real>) returns (y: array2<real>)
    ensures fresh(y)
    ensures y.Length0 == x.Length0 && y.Length1 == x.Length1
    ensures forall j, i :: 0 <= j < x.Length0 && 0 <= i < x.Length1 ==> y[j, i] == x[j, i]
  {
    var h := EuclideanToHomogeneous(x);
    y := HomogeneousToEuclidean(h);
  }

  /** The product P * M of a 3x4 camera and a 4 x n matrix of column points. */
  method MulColumns(p: Mat34, m: array2<real>) returns (r: array2<real>)
    requires m.Length0 == 4
    ensures fresh(r)
    ensures r.Length0 == 3 && r.Length1 == m.Length1
    ensures forall i :: 0 <= i < m.Length1 ==>
              Vec3(r[0, i], r[1, i], r[2, i]) == Apply34(p, Vec4(m[0, i], m[1, i], m[2, i], m[3, i]))
  {
    var n := m.Length1;
    r := new real[3, n];
    for i := 0 to n
      invariant forall i' :: 0 <= i' < i ==>
                  Vec3(r[0, i'], r[1, i'], r[2, i']) == Apply34(p, Vec4(m[0, i'], m[1, i'], m[2, i'], m[3, i']))
    {
      var v := Apply34(p, Vec4(m[0, i], m[1, i], m[2, i], m[3, i]));
      r[0, i] := v.x;
      r[1, i] := v.y;
      r[2, i] := v.z;
    }
  }

  /** Project: the image of every column of X under P, each mapped to homogeneous
      coordinates, multiplied by P and divided by its last coordinate. */
  method Project(p: Mat34, x: array2<real>) returns (y: array2<real>)
    requires x.Length0 == 3
    requires forall i :: 0 <= i < x.Length1 ==> Apply34(p, Vec4(x[0, i], x[1, i], x[2, i], 1.0)).z != 0.0
    ensures fresh(y)
    ensures y.Length0 == 2 && y.Length1 == x.Length1
    ensures forall i :: 0 <= i < x.Length1 ==>
              Vec2(y[0, i], y[1, i]) == HomogeneousToEuclidean3(Apply34(p, EuclideanToHomogeneous3(Vec3(x[0, i], x[1, i], x[2, i]))))
  {
    var xx := EuclideanToHomogeneous(x);
    var px := MulColumns(p, xx);
    y := HomogeneousToEuclidean(px);
    forall i | 0 <= i < x.Length1
      ensures Vec2(y[0, i], y[1, i]) == HomogeneousToEuclidean3(Apply34(p, EuclideanToHomogeneous3(Vec3(x[0, i], x[1, i], x[2, i]))))
    {
      assert Vec4(xx[0, i], xx[1, i], xx[2, i], xx[3, i]) == EuclideanToHomogeneous3(Vec3(x[0, i], x[1, i], x[2, i]));
    }
  }

  /** Scaling a camera by a non-zero factor does not change where it projects a
      point; with KRtFromP this makes the recovered K [R | t] project as P does. */
  lemma ProjectScaleInvariant(p: Mat34, f: real, x: Vec3)
    requires f != 0.0
    requires Apply34(p, EuclideanToHomogeneous3(x)).z != 0.0
    ensures Apply34(Scale34(f, p), EuclideanToHomogeneous3(x)).z != 0.0
    ensures HomogeneousToEuclidean3(Apply34(Scale34(f, p), EuclideanToHomogeneous3(x)))
         == HomogeneousToEuclidean3(Apply34(p, EuclideanToHomogeneous3(x)))
  {
    var v := EuclideanToHomogeneous3(x);
    Apply34Scale(f, p, v);
    HomogeneousScaleInvariant3(Apply34(p, v), f);
  }

  lemma Apply34Scale(f: real, p: Mat34, v: Vec4)
    ensures Apply34(Scale34(f, p), v) == ScaleVec(f, Apply34(p, v))
  {
    var xyz := Vec3(v.x, v.y, v.z);
    ApplyScale(f, p.block, xyz);
    ScaleVecCommute(v.w, f, p.last);
    ScaleVecAdd(f, Apply(p.block, xyz), ScaleVec(v.w, p.last));
  }

  /** Depth: the z coordinate of X in the camera frame, which is the third
      coordinate of [R | t] (X, 1). */
  function Depth(r: Mat3, t: Vec3, x: Vec3): (d: real)
    ensures d == Apply34(Mat34(r, t), EuclideanToHomogeneous3(x)).z
  {
    Apply(r, x).z + t.z
  }

  /** For a calibration matrix whose last row is (0, 0, 1), such as the K that
      KRtFromP returns, the depth is the third homogeneous coordinate of the
      projected point, so a point has positive depth exactly when it projects with
      a positive last coordinate. */
  lemma DepthIsProjectedScale(k: Mat3, r: Mat3, t: Vec3, x: Vec3)
    requires k.m20 == 0.0 && k.m21 == 0.0 && k.m22 == 1.0
    ensures Apply34(PFromKRt(k, r, t), EuclideanToHomogeneous3(x)).z == Depth(r, t, x)
  {
    PFromKRtProjects(k, r, t, x);
  }
}
