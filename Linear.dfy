/** Fixed-size vectors and matrices over exact reals. They stand in for the Eigen
    types Vec2, Vec3, Vec4, Mat3 and Mat34 that the libmv geometry code is written
    with; doubles become `real`, so every identity below is exact. */
module Linear {

  datatype Vec2 = Vec2(x: real, y: real)
  datatype Vec3 = Vec3(x: real, y: real, z: real)
  datatype Vec4 = Vec4(x: real, y: real, z: real, w: real)

  /** A 3x3 matrix, entry `mij` in row i and column j. */
  datatype Mat3 = Mat3(m00: real, m01: real, m02: real,
                       m10: real, m11: real, m12: real,
                       m20: real, m21: real, m22: real)

  /** A 3x4 matrix as its leading 3x3 block and its last column. */
  datatype Mat34 = Mat34(block: Mat3, last: Vec3)

  /** The dot product of (x0, x1, x2) and (y0, y1, y2). Every matrix product below
      is written through it, which keeps the algebra lemmas cheap for the solver. */
  function Dot(x0: real, x1: real, x2: real, y0: real, y1: real, y2: real): real {
    x0 * y0 + x1 * y1 + x2 * y2
  }

  function Identity(): Mat3 {
    Mat3(1.0, 0.0, 0.0,
         0.0, 1.0, 0.0,
         0.0, 0.0, 1.0)
  }

  function Diag(d0: real, d1: real, d2: real): Mat3 {
    Mat3(d0, 0.0, 0.0,
         0.0, d1, 0.0,
         0.0, 0.0, d2)
  }

  /** The matrix product a * b. */
  function Mul(a: Mat3, b: Mat3): Mat3 {
    Mat3(Dot(a.m00, a.m01, a.m02, b.m00, b.m10, b.m20),
         Dot(a.m00, a.m01, a.m02, b.m01, b.m11, b.m21),
         Dot(a.m00, a.m01, a.m02, b.m02, b.m12, b.m22),
         Dot(a.m10, a.m11, a.m12, b.m00, b.m10, b.m20),
         Dot(a.m10, a.m11, a.m12, b.m01, b.m11, b.m21),
         Dot(a.m10, a.m11, a.m12, b.m02, b.m12, b.m22),
         Dot(a.m20, a.m21, a.m22, b.m00, b.m10, b.m20),
         Dot(a.m20, a.m21, a.m22, b.m01, b.m11, b.m21),
         Dot(a.m20, a.m21, a.m22, b.m02, b.m12, b.m22))
  }

  /** The matrix-vector product a * v. */
  function Apply(a: Mat3, v: Vec3): Vec3 {
    Vec3(Dot(a.m00, a.m01, a.m02, v.x, v.y, v.z),
         Dot(a.m10, a.m11, a.m12, v.x, v.y, v.z),
         Dot(a.m20, a.m21, a.m22, v.x, v.y, v.z))
  }

  function Transpose(a: Mat3): Mat3 {
    Mat3(a.m00, a.m10, a.m20,
         a.m01, a.m11, a.m21,
         a.m02, a.m12, a.m22)
  }

  /** The scalar multiple k * a, written as the product with k * I so that its
      algebra follows from that of Mul. */
  function Scale(k: real, a: Mat3): Mat3 {
    Mul(Diag(k, k, k), a)
  }

  /** The negation -a, as Eigen's unary minus. */
  function Neg(a: Mat3): Mat3 {
    Scale(-1.0, a)
  }

  function ScaleVec(k: real, v: Vec3): Vec3 {
    Apply(Diag(k, k, k), v)
  }

  /** The 3x3 determinant expanded along the first row, on scalars. */
  function Det3(a00: real, a01: real, a02: real,
                a10: real, a11: real, a12: real,
                a20: real, a21: real, a22: real): real {
    a00 * (a11 * a22 - a12 * a21)
    - a01 * (a10 * a22 - a12 * a20)
    + a02 * (a10 * a21 - a11 * a20)
  }

  function Det(a: Mat3): real {
    Det3(a.m00, a.m01, a.m02, a.m10, a.m11, a.m12, a.m20, a.m21, a.m22)
  }

  /** The transposed matrix of cofactors, so that a * Adjugate(a) == Det(a) * I. */
  function Adjugate(a: Mat3): Mat3 {
    Mat3(a.m11 * a.m22 - a.m12 * a.m21, a.m02 * a.m21 - a.m01 * a.m22, a.m01 * a.m12 - a.m02 * a.m11,
         a.m12 * a.m20 - a.m10 * a.m22, a.m00 * a.m22 - a.m02 * a.m20, a.m02 * a.m10 - a.m00 * a.m12,
         a.m10 * a.m21 - a.m11 * a.m20, a.m01 * a.m20 - a.m00 * a.m21, a.m00 * a.m11 - a.m01 * a.m10)
  }

  /** The inverse of a 3x3 matrix by cofactors, which is how Eigen inverts a fixed
      3x3 matrix. A singular matrix has no inverse here (Eigen returns infinities);
      MulInverse states the defining property. */
  function Inverse(a: Mat3): Mat3
    requires Det(a) != 0.0
  {
    Scale(1.0 / Det(a), Adjugate(a))
  }

  predicate IsOrthogonal(a: Mat3) {
    Mul(a, Transpose(a)) == Identity() && Mul(Transpose(a), a) == Identity()
  }

  predicate IsUpperTriangular(a: Mat3) {
    a.m10 == 0.0 && a.m20 == 0.0 && a.m21 == 0.0
  }

  predicate IsLowerTriangular(a: Mat3) {
    a.m01 == 0.0 && a.m02 == 0.0 && a.m12 == 0.0
  }

  /** What the model assumes of the square root it is given: a non-negative root of
      every non-negative argument, positive for a positive argument. (The last part
      follows from the first two; it is stated because the solver does not derive
      it.) */
  ghost predicate IsSqrt(sqrt: real -> real) {
    forall x :: 0.0 <= x ==> 0.0 <= sqrt(x) && sqrt(x) * sqrt(x) == x && (0.0 < x ==> 0.0 < sqrt(x))
  }

  // ---------------------------------------------------------------------------
  // Scalar identities behind the matrix lemmas. Each one is stated over plain
  // reals so that the solver sees a single polynomial identity.

  lemma DotAssoc(a0: real, a1: real, a2: real,
                 b00: real, b01: real, b02: real, b10: real, b11: real, b12: real,
                 b20: real, b21: real, b22: real,
                 c0: real, c1: real, c2: real,
                 ab0: real, ab1: real, ab2: real, bc0: real, bc1: real, bc2: real)
    requires ab0 == Dot(a0, a1, a2, b00, b10, b20)
    requires ab1 == Dot(a0, a1, a2, b01, b11, b21)
    requires ab2 == Dot(a0, a1, a2, b02, b12, b22)
    requires bc0 == Dot(b00, b01, b02, c0, c1, c2)
    requires bc1 == Dot(b10, b11, b12, c0, c1, c2)
    requires bc2 == Dot(b20, b21, b22, c0, c1, c2)
    ensures Dot(ab0, ab1, ab2, c0, c1, c2) == Dot(a0, a1, a2, bc0, bc1, bc2)
  {
  }

  /** Squaring, or multiplying both sides of, an equation. The solver does not do
      this on its own once other non-linear facts are around. */
  lemma SquareEq(u: real, v: real)
    requires u == v
    ensures u * u == v * v
  {
  }

  lemma MulEq(x: real, y: real, z: real)
    requires x == y
    ensures x * z == y * z
  {
  }

  lemma DotComm(x0: real, x1: real, x2: real, y0: real, y1: real, y2: real)
    ensures Dot(x0, x1, x2, y0, y1, y2) == Dot(y0, y1, y2, x0, x1, x2)
  {
  }

  lemma Det3MulSums(a00: real, a01: real, a02: real, a10: real, a11: real, a12: real, a20: real, a21: real, a22: real,
                    b00: real, b01: real, b02: real, b10: real, b11: real, b12: real, b20: real, b21: real, b22: real)
    ensures Det3(a00 * b00 + a01 * b10 + a02 * b20, a00 * b01 + a01 * b11 + a02 * b21, a00 * b02 + a01 * b12 + a02 * b22, a10 * b00 + a11 * b10 + a12 * b20, a10 * b01 + a11 * b11 + a12 * b21, a10 * b02 + a11 * b12 + a12 * b22, a20 * b00 + a21 * b10 + a22 * b20, a20 * b01 + a21 * b11 + a22 * b21, a20 * b02 + a21 * b12 + a22 * b22)
         == Det3(a00, a01, a02, a10, a11, a12, a20, a21, a22) * Det3(b00, b01, b02, b10, b11, b12, b20, b21, b22)
  {
  }

  lemma Det3Mul(a00: real, a01: real, a02: real, a10: real, a11: real, a12: real, a20: real, a21: real, a22: real,
                b00: real, b01: real, b02: real, b10: real, b11: real, b12: real, b20: real, b21: real, b22: real,
                p00: real, p01: real, p02: real, p10: real, p11: real, p12: real, p20: real, p21: real, p22: real)
    requires p00 == Dot(a00, a01, a02, b00, b10, b20)
    requires p01 == Dot(a00, a01, a02, b01, b11, b21)
    requires p02 == Dot(a00, a01, a02, b02, b12, b22)
    requires p10 == Dot(a10, a11, a12, b00, b10, b20)
    requires p11 == Dot(a10, a11, a12, b01, b11, b21)
    requires p12 == Dot(a10, a11, a12, b02, b12, b22)
    requires p20 == Dot(a20, a21, a22, b00, b10, b20)
    requires p21 == Dot(a20, a21, a22, b01, b11, b21)
    requires p22 == Dot(a20, a21, a22, b02, b12, b22)
    ensures Det3(p00, p01, p02, p10, p11, p12, p20, p21, p22) == Det3(a00, a01, a02, a10, a11, a12, a20, a21, a22) * Det3(b00, b01, b02, b10, b11, b12, b20, b21, b22)
  {
    assert p00 == a00 * b00 + a01 * b10 + a02 * b20;
    assert p01 == a00 * b01 + a01 * b11 + a02 * b21;
    assert p02 == a00 * b02 + a01 * b12 + a02 * b22;
    assert p10 == a10 * b00 + a11 * b10 + a12 * b20;
    assert p11 == a10 * b01 + a11 * b11 + a12 * b21;
    assert p12 == a10 * b02 + a11 * b12 + a12 * b22;
    assert p20 == a20 * b00 + a21 * b10 + a22 * b20;
    assert p21 == a20 * b01 + a21 * b11 + a22 * b21;
    assert p22 == a20 * b02 + a21 * b12 + a22 * b22;
    Det3MulSums(a00, a01, a02, a10, a11, a12, a20, a21, a22, b00, b01, b02, b10, b11, b12, b20, b21, b22);
  }

  lemma AdjugateRightRow0(a00: real, a01: real, a02: real, a10: real, a11: real, a12: real, a20: real, a21: real, a22: real)
    ensures Dot(a00, a01, a02, a11 * a22 - a12 * a21, a12 * a20 - a10 * a22, a10 * a21 - a11 * a20)
         == Det3(a00, a01, a02, a10, a11, a12, a20, a21, a22)
    ensures Dot(a00, a01, a02, a02 * a21 - a01 * a22, a00 * a22 - a02 * a20, a01 * a20 - a00 * a21)
         == 0.0
    ensures Dot(a00, a01, a02, a01 * a12 - a02 * a11, a02 * a10 - a00 * a12, a00 * a11 - a01 * a10)
         == 0.0
  {
  }

  lemma AdjugateRightRow1(a00: real, a01: real, a02: real, a10: real, a11: real, a12: real, a20: real, a21: real, a22: real)
    ensures Dot(a10, a11, a12, a11 * a22 - a12 * a21, a12 * a20 - a10 * a22, a10 * a21 - a11 * a20)
         == 0.0
    ensures Dot(a10, a11, a12, a02 * a21 - a01 * a22, a00 * a22 - a02 * a20, a01 * a20 - a00 * a21)
         == Det3(a00, a01, a02, a10, a11, a12, a20, a21, a22)
    ensures Dot(a10, a11, a12, a01 * a12 - a02 * a11, a02 * a10 - a00 * a12, a00 * a11 - a01 * a10)
         == 0.0
  {
  }

  lemma AdjugateRightRow2(a00: real, a01: real, a02: real, a10: real, a11: real, a12: real, a20: real, a21: real, a22: real)
    ensures Dot(a20, a21, a22, a11 * a22 - a12 * a21, a12 * a20 - a10 * a22, a10 * a21 - a11 * a20)
         == 0.0
    ensures Dot(a20, a21, a22, a02 * a21 - a01 * a22, a00 * a22 - a02 * a20, a01 * a20 - a00 * a21)
         == 0.0
    ensures Dot(a20, a21, a22, a01 * a12 - a02 * a11, a02 * a10 - a00 * a12, a00 * a11 - a01 * a10)
         == Det3(a00, a01, a02, a10, a11, a12, a20, a21, a22)
  {
  }

  lemma AdjugateLeftRow0(a00: real, a01: real, a02: real, a10: real, a11: real, a12: real, a20: real, a21: real, a22: real)
    ensures Dot(a11 * a22 - a12 * a21, a02 * a21 - a01 * a22, a01 * a12 - a02 * a11, a00, a10, a20)
         == Det3(a00, a01, a02, a10, a11, a12, a20, a21, a22)
    ensures Dot(a11 * a22 - a12 * a21, a02 * a21 - a01 * a22, a01 * a12 - a02 * a11, a01, a11, a21)
         == 0.0
    ensures Dot(a11 * a22 - a12 * a21, a02 * a21 - a01 * a22, a01 * a12 - a02 * a11, a02, a12, a22)
         == 0.0
  {
  }

  lemma AdjugateLeftRow1(a00: real, a01: real, a02: real, a10: real, a11: real, a12: real, a20: real, a21: real, a22: real)
    ensures Dot(a12 * a20 - a10 * a22, a00 * a22 - a02 * a20, a02 * a10 - a00 * a12, a00, a10, a20)
         == 0.0
    ensures Dot(a12 * a20 - a10 * a22, a00 * a22 - a02 * a20, a02 * a10 - a00 * a12, a01, a11, a21)
         == Det3(a00, a01, a02, a10, a11, a12, a20, a21, a22)
    ensures Dot(a12 * a20 - a10 * a22, a00 * a22 - a02 * a20, a02 * a10 - a00 * a12, a02, a12, a22)
         == 0.0
  {
  }

  lemma AdjugateLeftRow2(a00: real, a01: real, a02: real, a10: real, a11: real, a12: real, a20: real, a21: real, a22: real)
    ensures Dot(a10 * a21 - a11 * a20, a01 * a20 - a00 * a21, a00 * a11 - a01 * a10, a00, a10, a20)
         == 0.0
    ensures Dot(a10 * a21 - a11 * a20, a01 * a20 - a00 * a21, a00 * a11 - a01 * a10, a01, a11, a21)
         == 0.0
    ensures Dot(a10 * a21 - a11 * a20, a01 * a20 - a00 * a21, a00 * a11 - a01 * a10, a02, a12, a22)
         == Det3(a00, a01, a02, a10, a11, a12, a20, a21, a22)
  {
  }

  // ---------------------------------------------------------------------------
  // Matrix algebra.

  lemma {:induction false} MulAssoc(a: Mat3, b: Mat3, c: Mat3)
    ensures Mul(Mul(a, b), c) == Mul(a, Mul(b, c))
  {
    var ab, bc := Mul(a, b), Mul(b, c);
    DotAssoc(a.m00, a.m01, a.m02, b.m00, b.m01, b.m02, b.m10, b.m11, b.m12, b.m20, b.m21, b.m22, c.m00, c.m10, c.m20, ab.m00, ab.m01, ab.m02, bc.m00, bc.m10, bc.m20);
    DotAssoc(a.m00, a.m01, a.m02, b.m00, b.m01, b.m02, b.m10, b.m11, b.m12, b.m20, b.m21, b.m22, c.m01, c.m11, c.m21, ab.m00, ab.m01, ab.m02, bc.m01, bc.m11, bc.m21);
    DotAssoc(a.m00, a.m01, a.m02, b.m00, b.m01, b.m02, b.m10, b.m11, b.m12, b.m20, b.m21, b.m22, c.m02, c.m12, c.m22, ab.m00, ab.m01, ab.m02, bc.m02, bc.m12, bc.m22);
    DotAssoc(a.m10, a.m11, a.m12, b.m00, b.m01, b.m02, b.m10, b.m11, b.m12, b.m20, b.m21, b.m22, c.m00, c.m10, c.m20, ab.m10, ab.m11, ab.m12, bc.m00, bc.m10, bc.m20);
    DotAssoc(a.m10, a.m11, a.m12, b.m00, b.m01, b.m02, b.m10, b.m11, b.m12, b.m20, b.m21, b.m22, c.m01, c.m11, c.m21, ab.m10, ab.m11, ab.m12, bc.m01, bc.m11, bc.m21);
    DotAssoc(a.m10, a.m11, a.m12, b.m00, b.m01, b.m02, b.m10, b.m11, b.m12, b.m20, b.m21, b.m22, c.m02, c.m12, c.m22, ab.m10, ab.m11, ab.m12, bc.m02, bc.m12, bc.m22);
    DotAssoc(a.m20, a.m21, a.m22, b.m00, b.m01, b.m02, b.m10, b.m11, b.m12, b.m20, b.m21, b.m22, c.m00, c.m10, c.m20, ab.m20, ab.m21, ab.m22, bc.m00, bc.m10, bc.m20);
    DotAssoc(a.m20, a.m21, a.m22, b.m00, b.m01, b.m02, b.m10, b.m11, b.m12, b.m20, b.m21, b.m22, c.m01, c.m11, c.m21, ab.m20, ab.m21, ab.m22, bc.m01, bc.m11, bc.m21);
    DotAssoc(a.m20, a.m21, a.m22, b.m00, b.m01, b.m02, b.m10, b.m11, b.m12, b.m20, b.m21, b.m22, c.m02, c.m12, c.m22, ab.m20, ab.m21, ab.m22, bc.m02, bc.m12, bc.m22);
  }

  lemma MulIdentity(a: Mat3)
    ensures Mul(Identity(), a) == a && Mul(a, Identity()) == a
  {
  }

  /** Applying a product is applying its factors in turn. */
  lemma {:induction false} ApplyMul(a: Mat3, b: Mat3, v: Vec3)
    ensures Apply(Mul(a, b), v) == Apply(a, Apply(b, v))
  {
    var ab, bv := Mul(a, b), Apply(b, v);
    DotAssoc(a.m00, a.m01, a.m02, b.m00, b.m01, b.m02, b.m10, b.m11, b.m12, b.m20, b.m21, b.m22, v.x, v.y, v.z, ab.m00, ab.m01, ab.m02, bv.x, bv.y, bv.z);
    DotAssoc(a.m10, a.m11, a.m12, b.m00, b.m01, b.m02, b.m10, b.m11, b.m12, b.m20, b.m21, b.m22, v.x, v.y, v.z, ab.m10, ab.m11, ab.m12, bv.x, bv.y, bv.z);
    DotAssoc(a.m20, a.m21, a.m22, b.m00, b.m01, b.m02, b.m10, b.m11, b.m12, b.m20, b.m21, b.m22, v.x, v.y, v.z, ab.m20, ab.m21, ab.m22, bv.x, bv.y, bv.z);
  }

  lemma ApplyIdentity(v: Vec3)
    ensures Apply(Identity(), v) == v
  {
  }

  /** A scalar matrix commutes with every matrix. */
  lemma ScalarCommutes(k: real, a: Mat3)
    ensures Mul(a, Diag(k, k, k)) == Mul(Diag(k, k, k), a)
  {
  }

  lemma MulScale(k: real, a: Mat3, b: Mat3)
    ensures Mul(Scale(k, a), b) == Scale(k, Mul(a, b))
    ensures Mul(a, Scale(k, b)) == Scale(k, Mul(a, b))
  {
    var d := Diag(k, k, k);
    MulAssoc(d, a, b);
    MulAssoc(a, d, b);
    ScalarCommutes(k, a);
  }

  lemma ApplyScale(k: real, a: Mat3, v: Vec3)
    ensures Apply(Scale(k, a), v) == ScaleVec(k, Apply(a, v))
    ensures Apply(a, ScaleVec(k, v)) == ScaleVec(k, Apply(a, v))
  {
    var d := Diag(k, k, k);
    ApplyMul(d, a, v);
    ApplyMul(a, d, v);
    ScalarCommutes(k, a);
  }

  lemma ScaleScale(k: real, m: real, a: Mat3)
    ensures Scale(k, Scale(m, a)) == Scale(k * m, a)
  {
    MulAssoc(Diag(k, k, k), Diag(m, m, m), a);
    assert Mul(Diag(k, k, k), Diag(m, m, m)) == Diag(k * m, k * m, k * m);
  }

  lemma {:induction false} TransposeMul(a: Mat3, b: Mat3)
    ensures Transpose(Mul(a, b)) == Mul(Transpose(b), Transpose(a))
  {
    DotComm(a.m00, a.m01, a.m02, b.m00, b.m10, b.m20);
    DotComm(a.m00, a.m01, a.m02, b.m01, b.m11, b.m21);
    DotComm(a.m00, a.m01, a.m02, b.m02, b.m12, b.m22);
    DotComm(a.m10, a.m11, a.m12, b.m00, b.m10, b.m20);
    DotComm(a.m10, a.m11, a.m12, b.m01, b.m11, b.m21);
    DotComm(a.m10, a.m11, a.m12, b.m02, b.m12, b.m22);
    DotComm(a.m20, a.m21, a.m22, b.m00, b.m10, b.m20);
    DotComm(a.m20, a.m21, a.m22, b.m01, b.m11, b.m21);
    DotComm(a.m20, a.m21, a.m22, b.m02, b.m12, b.m22);
  }

  lemma {:induction false} DetMul(a: Mat3, b: Mat3)
    ensures Det(Mul(a, b)) == Det(a) * Det(b)
  {
    var ab := Mul(a, b);
    Det3Mul(a.m00, a.m01, a.m02, a.m10, a.m11, a.m12, a.m20, a.m21, a.m22,
            b.m00, b.m01, b.m02, b.m10, b.m11, b.m12, b.m20, b.m21, b.m22,
            ab.m00, ab.m01, ab.m02, ab.m10, ab.m11, ab.m12, ab.m20, ab.m21, ab.m22);
  }

  lemma DetTranspose(a: Mat3)
    ensures Det(Transpose(a)) == Det(a)
  {
  }

  lemma DetIdentity()
    ensures Det(Identity()) == 1.0
  {
  }

  lemma DetNeg(a: Mat3)
    ensures Det(Neg(a)) == -Det(a)
  {
  }

  /** An upper-triangular determinant is the product of the diagonal. */
  lemma DetUpperTriangular(a: Mat3)
    requires IsUpperTriangular(a)
    ensures Det(a) == a.m00 * a.m11 * a.m22
  {
  }

  lemma AdjugateRightEntries0(a: Mat3)
    ensures Mul(a, Adjugate(a)).m00 == Det(a)
    ensures Mul(a, Adjugate(a)).m01 == 0.0
    ensures Mul(a, Adjugate(a)).m02 == 0.0
  {
    AdjugateRightRow0(a.m00, a.m01, a.m02, a.m10, a.m11, a.m12, a.m20, a.m21, a.m22);
    assert Adjugate(a).m00 == a.m11 * a.m22 - a.m12 * a.m21;
    assert Adjugate(a).m01 == a.m02 * a.m21 - a.m01 * a.m22;
    assert Adjugate(a).m02 == a.m01 * a.m12 - a.m02 * a.m11;
    assert Adjugate(a).m10 == a.m12 * a.m20 - a.m10 * a.m22;
    assert Adjugate(a).m11 == a.m00 * a.m22 - a.m02 * a.m20;
    assert Adjugate(a).m12 == a.m02 * a.m10 - a.m00 * a.m12;
    assert Adjugate(a).m20 == a.m10 * a.m21 - a.m11 * a.m20;
    assert Adjugate(a).m21 == a.m01 * a.m20 - a.m00 * a.m21;
    assert Adjugate(a).m22 == a.m00 * a.m11 - a.m01 * a.m10;
  }

  lemma AdjugateRightEntries1(a: Mat3)
    ensures Mul(a, Adjugate(a)).m10 == 0.0
    ensures Mul(a, Adjugate(a)).m11 == Det(a)
    ensures Mul(a, Adjugate(a)).m12 == 0.0
  {
    AdjugateRightRow1(a.m00, a.m01, a.m02, a.m10, a.m11, a.m12, a.m20, a.m21, a.m22);
    assert Adjugate(a).m00 == a.m11 * a.m22 - a.m12 * a.m21;
    assert Adjugate(a).m01 == a.m02 * a.m21 - a.m01 * a.m22;
    assert Adjugate(a).m02 == a.m01 * a.m12 - a.m02 * a.m11;
    assert Adjugate(a).m10 == a.m12 * a.m20 - a.m10 * a.m22;
    assert Adjugate(a).m11 == a.m00 * a.m22 - a.m02 * a.m20;
    assert Adjugate(a).m12 == a.m02 * a.m10 - a.m00 * a.m12;
    assert Adjugate(a).m20 == a.m10 * a.m21 - a.m11 * a.m20;
    assert Adjugate(a).m21 == a.m01 * a.m20 - a.m00 * a.m21;
    assert Adjugate(a).m22 == a.m00 * a.m11 - a.m01 * a.m10;
  }

  lemma AdjugateRightEntries2(a: Mat3)
    ensures Mul(a, Adjugate(a)).m20 == 0.0
    ensures Mul(a, Adjugate(a)).m21 == 0.0
    ensures Mul(a, Adjugate(a)).m22 == Det(a)
  {
    AdjugateRightRow2(a.m00, a.m01, a.m02, a.m10, a.m11, a.m12, a.m20, a.m21, a.m22);
    assert Adjugate(a).m00 == a.m11 * a.m22 - a.m12 * a.m21;
    assert Adjugate(a).m01 == a.m02 * a.m21 - a.m01 * a.m22;
    assert Adjugate(a).m02 == a.m01 * a.m12 - a.m02 * a.m11;
    assert Adjugate(a).m10 == a.m12 * a.m20 - a.m10 * a.m22;
    assert Adjugate(a).m11 == a.m00 * a.m22 - a.m02 * a.m20;
    assert Adjugate(a).m12 == a.m02 * a.m10 - a.m00 * a.m12;
    assert Adjugate(a).m20 == a.m10 * a.m21 - a.m11 * a.m20;
    assert Adjugate(a).m21 == a.m01 * a.m20 - a.m00 * a.m21;
    assert Adjugate(a).m22 == a.m00 * a.m11 - a.m01 * a.m10;
  }

  lemma AdjugateRight(a: Mat3)
    ensures Mul(a, Adjugate(a)) == Diag(Det(a), Det(a), Det(a))
  {
    AdjugateRightEntries0(a);
    AdjugateRightEntries1(a);
    AdjugateRightEntries2(a);
  }

  lemma AdjugateLeftEntries0(a: Mat3)
    ensures Mul(Adjugate(a), a).m00 == Det(a)
    ensures Mul(Adjugate(a), a).m01 == 0.0
    ensures Mul(Adjugate(a), a).m02 == 0.0
  {
    AdjugateLeftRow0(a.m00, a.m01, a.m02, a.m10, a.m11, a.m12, a.m20, a.m21, a.m22);
    assert Adjugate(a).m00 == a.m11 * a.m22 - a.m12 * a.m21;
    assert Adjugate(a).m01 == a.m02 * a.m21 - a.m01 * a.m22;
    assert Adjugate(a).m02 == a.m01 * a.m12 - a.m02 * a.m11;
  }

  lemma AdjugateLeftEntries1(a: Mat3)
    ensures Mul(Adjugate(a), a).m10 == 0.0
    ensures Mul(Adjugate(a), a).m11 == Det(a)
    ensures Mul(Adjugate(a), a).m12 == 0.0
  {
    AdjugateLeftRow1(a.m00, a.m01, a.m02, a.m10, a.m11, a.m12, a.m20, a.m21, a.m22);
    assert Adjugate(a).m10 == a.m12 * a.m20 - a.m10 * a.m22;
    assert Adjugate(a).m11 == a.m00 * a.m22 - a.m02 * a.m20;
    assert Adjugate(a).m12 == a.m02 * a.m10 - a.m00 * a.m12;
  }

  lemma AdjugateLeftEntries2(a: Mat3)
    ensures Mul(Adjugate(a), a).m20 == 0.0
    ensures Mul(Adjugate(a), a).m21 == 0.0
    ensures Mul(Adjugate(a), a).m22 == Det(a)
  {
    AdjugateLeftRow2(a.m00, a.m01, a.m02, a.m10, a.m11, a.m12, a.m20, a.m21, a.m22);
    assert Adjugate(a).m20 == a.m10 * a.m21 - a.m11 * a.m20;
    assert Adjugate(a).m21 == a.m01 * a.m20 - a.m00 * a.m21;
    assert Adjugate(a).m22 == a.m00 * a.m11 - a.m01 * a.m10;
  }

  lemma AdjugateLeft(a: Mat3)
    ensures Mul(Adjugate(a), a) == Diag(Det(a), Det(a), Det(a))
  {
    AdjugateLeftEntries0(a);
    AdjugateLeftEntries1(a);
    AdjugateLeftEntries2(a);
  }

  /** a * Adjugate(a) and Adjugate(a) * a are both Det(a) * I. */
  lemma MulAdjugate(a: Mat3)
    ensures Mul(a, Adjugate(a)) == Diag(Det(a), Det(a), Det(a))
    ensures Mul(Adjugate(a), a) == Diag(Det(a), Det(a), Det(a))
  {
    AdjugateRight(a);
    AdjugateLeft(a);
  }

  /** Inverse is a two-sided inverse. */
  lemma MulInverse(a: Mat3)
    requires Det(a) != 0.0
    ensures Mul(a, Inverse(a)) == Identity() && Mul(Inverse(a), a) == Identity()
  {
    var d := Det(a);
    MulAdjugate(a);
    MulScale(1.0 / d, a, Adjugate(a));
    MulScale(1.0 / d, Adjugate(a), a);
    assert Scale(1.0 / d, Diag(d, d, d)) == Identity();
  }

  /** An inverse has a non-zero determinant, and inverting twice gives the matrix back. */
  lemma InverseInverse(a: Mat3)
    requires Det(a) != 0.0
    ensures Det(Inverse(a)) != 0.0 && Inverse(Inverse(a)) == a
  {
    var b := Inverse(a);
    MulInverse(a);
    DetMul(a, b);
    DetIdentity();
    MulInverse(b);
    calc {
      Inverse(b);
      { MulIdentity(Inverse(b)); }
      Mul(Inverse(b), Identity());
      Mul(Inverse(b), Mul(b, a));
      { MulAssoc(Inverse(b), b, a); }
      Mul(Mul(Inverse(b), b), a);
      { MulIdentity(a); }
      a;
    }
  }

  // ---------------------------------------------------------------------------
  // Vectors, orthogonal matrices and 3x4 matrices.

  function Add(u: Vec3, v: Vec3): Vec3 {
    Vec3(u.x + v.x, u.y + v.y, u.z + v.z)
  }

  lemma ScaleVecEntries(k: real, v: Vec3)
    ensures ScaleVec(k, v) == Vec3(k * v.x, k * v.y, k * v.z)
  {
  }

  lemma ScaleVecAdd(k: real, u: Vec3, v: Vec3)
    ensures ScaleVec(k, Add(u, v)) == Add(ScaleVec(k, u), ScaleVec(k, v))
  {
    ApplyAdd(Diag(k, k, k), u, v);
  }

  lemma ScaleVecCommute(k: real, m: real, v: Vec3)
    ensures ScaleVec(k, ScaleVec(m, v)) == ScaleVec(m, ScaleVec(k, v))
  {
    ApplyMul(Diag(k, k, k), Diag(m, m, m), v);
    ApplyMul(Diag(m, m, m), Diag(k, k, k), v);
    ScalarCommutes(k, Diag(m, m, m));
  }

  lemma ScaleOne(a: Mat3)
    ensures Scale(1.0, a) == a
  {
    MulIdentity(a);
  }

  lemma ApplyAdd(a: Mat3, u: Vec3, v: Vec3)
    ensures Apply(a, Add(u, v)) == Add(Apply(a, u), Apply(a, v))
  {
  }

  /** A product of orthogonal matrices is orthogonal. */
  lemma OrthogonalMul(a: Mat3, b: Mat3)
    requires IsOrthogonal(a) && IsOrthogonal(b)
    ensures IsOrthogonal(Mul(a, b))
  {
    var at, bt := Transpose(a), Transpose(b);
    TransposeMul(a, b);
    calc {
      Mul(Mul(a, b), Mul(bt, at));
      { MulAssoc(a, b, Mul(bt, at)); }
      Mul(a, Mul(b, Mul(bt, at)));
      { MulAssoc(b, bt, at); }
      Mul(a, Mul(Mul(b, bt), at));
      { MulIdentity(at); }
      Mul(a, at);
    }
    calc {
      Mul(Mul(bt, at), Mul(a, b));
      { MulAssoc(bt, at, Mul(a, b)); }
      Mul(bt, Mul(at, Mul(a, b)));
      { MulAssoc(at, a, b); }
      Mul(bt, Mul(Mul(at, a), b));
      { MulIdentity(b); }
      Mul(bt, b);
    }
  }

  lemma OrthogonalTranspose(a: Mat3)
    requires IsOrthogonal(a)
    ensures IsOrthogonal(Transpose(a))
  {
    assert Transpose(Transpose(a)) == a;
  }

  /** k * P for a 3x4 matrix P. */
  function Scale34(k: real, p: Mat34): Mat34 {
    Mat34(Scale(k, p.block), ScaleVec(k, p.last))
  }

  /** The product a * P of a 3x3 and a 3x4 matrix. */
  function Mul34(a: Mat3, p: Mat34): Mat34 {
    Mat34(Mul(a, p.block), Apply(a, p.last))
  }

  /** The product P * v of a 3x4 matrix and a 4-vector. */
  function Apply34(p: Mat34, v: Vec4): Vec3 {
    Add(Apply(p.block, Vec3(v.x, v.y, v.z)), ScaleVec(v.w, p.last))
  }

  lemma Apply34Mul(a: Mat3, p: Mat34, v: Vec4)
    ensures Apply34(Mul34(a, p), v) == Apply(a, Apply34(p, v))
  {
    ApplyMul(a, p.block, Vec3(v.x, v.y, v.z));
    ApplyScale(v.w, a, p.last);
    ApplyAdd(a, Apply(p.block, Vec3(v.x, v.y, v.z)), ScaleVec(v.w, p.last));
  }

  /** Entry (i, j), as Eigen's `a(i, j)`. */
  function Get(a: Mat3, i: int, j: int): real
    requires 0 <= i < 3 && 0 <= j < 3
  {
    if i == 0 then (if j == 0 then a.m00 else if j == 1 then a.m01 else a.m02)
    else if i == 1 then (if j == 0 then a.m10 else if j == 1 then a.m11 else a.m12)
    else (if j == 0 then a.m20 else if j == 1 then a.m21 else a.m22)
  }

  /** The matrix with entry (i, j) replaced by v, as the assignment `a(i, j) = v`. */
  function Set(a: Mat3, i: int, j: int, v: real): (r: Mat3)
    requires 0 <= i < 3 && 0 <= j < 3
    ensures Get(r, i, j) == v
    ensures forall i', j' :: 0 <= i' < 3 && 0 <= j' < 3 && (i', j') != (i, j) ==> Get(r, i', j') == Get(a, i', j')
  {
    if i == 0 then (if j == 0 then a.(m00 := v) else if j == 1 then a.(m01 := v) else a.(m02 := v))
    else if i == 1 then (if j == 0 then a.(m10 := v) else if j == 1 then a.(m11 := v) else a.(m12 := v))
    else (if j == 0 then a.(m20 := v) else if j == 1 then a.(m21 := v) else a.(m22 := v))
  }

  /** Two matrices with the same entries are equal. */
  lemma MatEq(a: Mat3, b: Mat3)
    requires forall i, j :: 0 <= i < 3 && 0 <= j < 3 ==> Get(a, i, j) == Get(b, i, j)
    ensures a == b
  {
    assert Get(a, 0, 0) == Get(b, 0, 0) && Get(a, 0, 1) == Get(b, 0, 1) && Get(a, 0, 2) == Get(b, 0, 2);
    assert Get(a, 1, 0) == Get(b, 1, 0) && Get(a, 1, 1) == Get(b, 1, 1) && Get(a, 1, 2) == Get(b, 1, 2);
    assert Get(a, 2, 0) == Get(b, 2, 0) && Get(a, 2, 1) == Get(b, 2, 1) && Get(a, 2, 2) == Get(b, 2, 2);
  }

  /** Multiplying on the right by a diagonal matrix scales the columns. */
  lemma MulDiagRight(a: Mat3, d0: real, d1: real, d2: real)
    ensures Mul(a, Diag(d0, d1, d2))
         == Mat3(a.m00 * d0, a.m01 * d1, a.m02 * d2,
                 a.m10 * d0, a.m11 * d1, a.m12 * d2,
                 a.m20 * d0, a.m21 * d1, a.m22 * d2)
  {
  }
}
