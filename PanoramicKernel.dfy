/** The pieces of libmv's panoramic two-point kernel that are written out: the
    minimal sample size, the asymmetric and symmetric transfer errors of a
    homography H and the de-normalisation of an H estimated on normalised
    points. The two-point solver itself is not part of this model. */
module PanoramicKernel {
  import opened Linear
  import opened Projection

  /** TwoPointSolver::MINIMUM_SAMPLES: two correspondences determine H. */
  const MinimumSamples := 2

  /** H * (x1, 1), the homogeneous point H predicts for x1. */
  function Predicted(h: Mat3, x1: Vec2): Vec3 {
    Apply(h, EuclideanToHomogeneous2(x1))
  }

  function Sub(a: Vec2, b: Vec2): Vec2 {
    Vec2(a.x - b.x, a.y - b.y)
  }

  /** Two points differ exactly when their difference has a nonzero coordinate. */
  lemma SubNonZero(a: Vec2, b: Vec2)
    ensures a != b <==> Sub(a, b).x != 0.0 || Sub(a, b).y != 0.0
  {
  }

  /** The sign facts about a sum of squares are stated through these two
      predicates: the solver matches them by congruence, where it does not carry
      a bare comparison across the equation that names the sum. */
  predicate Positive(x: real) { 0.0 < x }
  predicate NonNegative(x: real) { 0.0 <= x }

  /** A sum of two squares is non-negative, and positive exactly when one of the
      two is nonzero. */
  lemma SumOfSquares(a: real, b: real)
    ensures NonNegative(a * a + b * b)
    ensures Positive(a * a + b * b) <==> a != 0.0 || b != 0.0
  {
    if b < 0.0 { assert 0.0 < (-b) * (-b); } else if b > 0.0 { assert 0.0 < b * b; }
    if a < 0.0 { assert 0.0 < (-a) * (-a); } else if a > 0.0 { assert 0.0 < a * a; }
  }

  /** The squared Euclidean distance, as Eigen's `(a - b).squaredNorm()`: never
      negative, and positive exactly when the points differ. */
  function SquaredDistance(a: Vec2, b: Vec2): (e: real)
    ensures 0.0 <= e
    ensures 0.0 < e <==> a != b
  {
    var d := Sub(a, b);
    SubNonZero(a, b);
    SumOfSquares(d.x, d.y);
    d.x * d.x + d.y * d.y
  }

  /** AsymmetricError::Error: the squared distance between x2 and H's prediction
      for x1. The source divides by the third coordinate of H * (x1, 1) without a
      check; here it must be nonzero. The error is non-negative and is positive
      exactly when H does not map x1 onto x2. */
  function AsymmetricError(h: Mat3, x1: Vec2, x2: Vec2): (e: real)
    requires Predicted(h, x1).z != 0.0
    ensures 0.0 <= e
    ensures 0.0 < e <==> x2 != HomogeneousToEuclidean3(Predicted(h, x1))
  {
    SquaredDistance(x2, HomogeneousToEuclidean3(Predicted(h, x1)))
  }

  /** H is a homography, defined up to scale: a nonzero multiple of H predicts
      the same points and so has the same error. */
  lemma AsymmetricErrorScaleInvariant(h: Mat3, k: real, x1: Vec2, x2: Vec2)
    requires Predicted(h, x1).z != 0.0 && k != 0.0
    ensures Predicted(Scale(k, h), x1).z != 0.0
    ensures AsymmetricError(Scale(k, h), x1, x2) == AsymmetricError(h, x1, x2)
  {
    ApplyScale(k, h, EuclideanToHomogeneous2(x1));
    HomogeneousScaleInvariant3(Predicted(h, x1), k);
  }

  /** The identity maps every point onto itself with no error. */
  lemma AsymmetricErrorIdentity(x: Vec2)
    ensures Predicted(Identity(), x).z != 0.0
    ensures AsymmetricError(Identity(), x, x) == 0.0
  {
    ApplyIdentity(EuclideanToHomogeneous2(x));
  }

  /** What SymmetricError::Error needs: an invertible H, and no point at
      infinity among the two predictions. */
  predicate SymmetricErrorDefined(h: Mat3, x1: Vec2, x2: Vec2) {
    Det(h) != 0.0 && Predicted(h, x1).z != 0.0 && Predicted(Inverse(h), x2).z != 0.0
  }

  /** SymmetricError::Error: the transfer error of H from x1 to x2 plus that of
      H's inverse from x2 to x1. It is non-negative, and positive exactly when H
      does not map x1 onto x2 or its inverse does not map x2 onto x1. */
  function SymmetricError(h: Mat3, x1: Vec2, x2: Vec2): (e: real)
    requires SymmetricErrorDefined(h, x1, x2)
    ensures 0.0 <= e
    ensures 0.0 < e <==> x2 != HomogeneousToEuclidean3(Predicted(h, x1))
                         || x1 != HomogeneousToEuclidean3(Predicted(Inverse(h), x2))
  {
    AsymmetricError(h, x1, x2) + AsymmetricError(Inverse(h), x2, x1)
  }

  /** The symmetric error does not care which view is first: it is the same for
      H from x1 to x2 as for H's inverse from x2 to x1. */
  lemma SymmetricErrorSwap(h: Mat3, x1: Vec2, x2: Vec2)
    requires SymmetricErrorDefined(h, x1, x2)
    ensures SymmetricErrorDefined(Inverse(h), x2, x1)
    ensures SymmetricError(Inverse(h), x2, x1) == SymmetricError(h, x1, x2)
  {
    InverseInverse(h);
  }

  /** Unnormalizer::Unnormalize: H := T2^-1 * H * T1. The source inverts T2
      without a check; here T2 must be invertible. The result G is the matrix
      with T2 G = H T1: normalising x1 and applying H is the same as applying G
      and normalising the result. */
  function Unnormalize(t1: Mat3, t2: Mat3, h: Mat3): (g: Mat3)
    requires Det(t2) != 0.0
    ensures Mul(t2, g) == Mul(h, t1)
  {
    var ti := Inverse(t2);
    MulAssoc(ti, h, t1);
    MulAssoc(t2, ti, Mul(h, t1));
    MulInverse(t2);
    MulIdentity(Mul(h, t1));
    Mul(Mul(ti, h), t1)
  }

  /** If H maps T1 * x1 to a multiple of T2 * x2, the de-normalised H maps x1 to
      the same multiple of x2. */
  lemma UnnormalizeMaps(t1: Mat3, t2: Mat3, h: Mat3, x1: Vec3, x2: Vec3, lambda: real)
    requires Det(t2) != 0.0
    requires Apply(h, Apply(t1, x1)) == ScaleVec(lambda, Apply(t2, x2))
    ensures Apply(Unnormalize(t1, t2, h), x1) == ScaleVec(lambda, x2)
  {
    var ti := Inverse(t2);
    ApplyMul(Mul(ti, h), t1, x1);
    ApplyMul(ti, h, Apply(t1, x1));
    ApplyScale(lambda, ti, Apply(t2, x2));
    ApplyMul(ti, t2, x2);
    MulInverse(t2);
    ApplyIdentity(x2);
  }

  /** An H that fits a correspondence exactly in normalised coordinates fits it
      exactly once de-normalised. */
  lemma UnnormalizeKeepsExactFit(t1: Mat3, t2: Mat3, h: Mat3, x1: Vec2, x2: Vec2, lambda: real)
    requires Det(t2) != 0.0 && lambda != 0.0
    requires Apply(h, Apply(t1, EuclideanToHomogeneous2(x1)))
          == ScaleVec(lambda, Apply(t2, EuclideanToHomogeneous2(x2)))
    ensures Predicted(Unnormalize(t1, t2, h), x1).z != 0.0
    ensures AsymmetricError(Unnormalize(t1, t2, h), x1, x2) == 0.0
  {
    var x2h := EuclideanToHomogeneous2(x2);
    UnnormalizeMaps(t1, t2, h, EuclideanToHomogeneous2(x1), x2h, lambda);
    HomogeneousScaleInvariant3(x2h, lambda);
  }
}
