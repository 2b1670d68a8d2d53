# libmv planar and projective geometry, modelled in Dafny

This project models four pieces of libmv's multiview geometry over exact
reals, and proves what each piece computes.

- **Mosaicing** (`module Mosaicing`). The video mosaicing tool does four things:
  - It estimates one relative transform for each consecutive image pair that has enough matches.
  - It chains the relative transforms into absolute ones, `H := Hs[i] * H`.
  - It builds the global bounding box from the four mapped and rounded corners of every image.
  - It registers that box at the origin with `Hreg` and warps image i with `Hreg * H`.
- **Projection algebra** (`module Projection`):
  - `P_From_KRt`, and `KRt_From_P`. The latter is the RQ decomposition by three conditional Givens rotations (Hartley and Zisserman, appendix A4.1.1), followed by sign fixes, the translation solve and the rescale.
  - The index flips of `K_From_AbsoluteConic`.
  - Every `HomogeneousToEuclidean` / `EuclideanToHomogeneous` overload, `Project` and `Depth`.
- **Rank-2 fundamental parameterisation** (`module FundamentalParameterization`):
  - `FundamentalRank2Parameterization::To` and `::From`.
  - The parameter layout (u quaternion, s, vt quaternion).
  - `S = diag(1, 1/(1+s^2), 0)`.
  - The determinant-based sign choice.
  - The scalar round trip `sqrt(sigma0/sigma1 - 1)`.
- **Panoramic kernel** (`module PanoramicKernel`):
  - The asymmetric and symmetric transfer errors of a homography.
  - The de-normalisation `T2^-1 * H * T1`.
  - The two-point solver's minimal sample size, the constant `MinimumSamples`.

`module Linear` holds the 3x3 matrix and vector algebra the others need:
- products, determinants, the adjugate and the inverse;
- transposition, orthogonality and triangularity.

It proves these facts:
- associativity of products;
- `det(AB) = det A det B`;
- `A * inv(A) = I`;
- `inv(inv(A)) = A`.

Library operations whose code is not part of this model become function-typed parameters:
- the square root;
- `ceil0`;
- Eigen's SVD, the quaternion–rotation conversions, quaternion `normalize` and the Cholesky factor;
- the robust estimators and the per-pair match counts.

Where a property needs one of them to behave, a predicate states what is assumed: `IsSqrt`, `RotationRoundTrip`, or the hypotheses of a lemma.

`ComputeGlobalBoundingBox`, `ComputeRelative*Matrices`, the warp schedule of `BuildMosaic`, the flip loops of `K_From_AbsoluteConic` and the `HomogeneousToEuclidean` / `EuclideanToHomogeneous` / `Project` conversions of whole matrices work in loops, so they are methods with loops. The Givens blocks, the sign fixes and the whole of `KRt_From_P` update K and R step by step without a loop, so they are straight-line methods. Each method is proved against a specification function or states its result outright. The remaining members are functions and lemmas.

## Model

| member | source | states |
|---|---|---|
| Mosaicing.ComputeRelativeMatrices | trunk/src/tools/mosaicing_video.cc:86-104 | The pair walk, which needs at least one image, returns exactly `RelativeMatrices`: one estimate per consecutive pair with at least `minMatches` matches, in pair order. |
| Mosaicing.ComputeRelativeAffineMatrices | trunk/src/tools/mosaicing_video.cc:82-105 | The affine variant estimates only pairs with at least 2 matches. |
| Mosaicing.ComputeRelativeHomographyMatrices | trunk/src/tools/mosaicing_video.cc:120-143 | The homography variant estimates only pairs with at least 4 matches. |
| Mosaicing.RelativeMatricesLength | trunk/src/tools/mosaicing_video.cc:86-104 | There are at most `NumImages - 1` relative matrices. |
| Mosaicing.RelativeMatricesAllPairs | trunk/src/tools/mosaicing_video.cc:93-104 | When every pair has enough matches, there are exactly `NumImages - 1` matrices, and matrix i is the estimate for images i and i+1. |
| Mosaicing.RelativeMatricesFromPairs | trunk/src/tools/mosaicing_video.cc:93-104 | Every output matrix is the estimate for some consecutive pair that has enough matches. |
| Mosaicing.RelativeMatricesCount | trunk/src/tools/mosaicing_video.cc:93-104 | The number of relative matrices is exactly the number of consecutive pairs with at least `minMatches` matches, counted from the first pair on. |
| Mosaicing.QualifyingPairsLast | trunk/src/tools/mosaicing_video.cc:93-104 | Counting the qualifying pairs from the last pair back, the order the walk appends in, gives the same number as counting from the first. |
| Mosaicing.RelativeMatricesNoPairs | trunk/src/tools/mosaicing_video.cc:95-101 | Pairs with too few matches are dropped, so with no such pair the output is empty. |
| Mosaicing.AbsoluteSplit | trunk/src/tools/mosaicing_video.cc:157-167 | The running transform `Hs[n-1]...Hs[0]` factors through every earlier running transform. |
| Mosaicing.AbsoluteOfIdentities | trunk/src/tools/mosaicing_video.cc:157-167 | A chain of identities gives the identity. |
| Mosaicing.ComputeGlobalBoundingBox | trunk/src/tools/mosaicing_video.cc:154-184 | The method keeps `H == Hs[i-1]...Hs[0]`, newest on the left. It maps the corners (0,0), (0,h), (w,h), (w,0) through H, divides by the third coordinate, rounds with `ceil0` and applies the `else if` updates. The result equals `BoundingBox`. |
| Mosaicing.BoxAfterXMin | trunk/src/tools/mosaicing_video.cc:164-175 | The final xmin is the minimum of the width and every rounded mapped x. |
| Mosaicing.BoxAfterYMin | trunk/src/tools/mosaicing_video.cc:164-179 | The final ymin is the minimum of the height and every rounded mapped y. |
| Mosaicing.BoundingBoxMinima | trunk/src/tools/mosaicing_video.cc:164-181 | xmin is at most the width and every mapped x, and equals one of them. The same holds for ymin, the height and the mapped y. |
| Mosaicing.BoxAfterWidens | trunk/src/tools/mosaicing_video.cc:166-181 | From any image to a later one the box only widens: xmin and ymin never increase, and xmax and ymax never decrease. |
| Mosaicing.WidenNewMinimumSkipsMaximum | trunk/src/tools/mosaicing_video.cc:174-177 | A coordinate that sets a new minimum is not compared with the maximum. |
| Mosaicing.BoundingBoxMissesCorner | trunk/src/tools/mosaicing_video.cc:164-181 | For one affine transform of a 10x10 image, the computed box (2, 7, 5, 5) excludes a mapped corner at x = 8. |
| Mosaicing.CoveringBoundingBoxContainsCorners | trunk/src/tools/mosaicing_video.cc:164-181 | The corrected box, which compares each coordinate with both bounds, contains every rounded mapped corner of every image. |
| Mosaicing.CoveringBoundingBoxKeepsCorner | trunk/src/tools/mosaicing_video.cc:164-181 | On the same input as BoundingBoxMissesCorner, the corrected box is (2, 8, 5, 5). |
| Mosaicing.BoundingBoxEmpty | trunk/src/tools/mosaicing_video.cc:164-166 | With no relative transforms the box stays (w, 0, h, 0). The first image's own corners are never mapped. |
| Mosaicing.BoxAfterIdentities | trunk/src/tools/mosaicing_video.cc:157-181 | A non-empty chain of identities on a w x h image with w, h > 0 gives (0, w, 0, h), provided `ceil0` fixes 0, w and h. |
| Mosaicing.RegistrationMapsBox | trunk/src/tools/mosaicing_video.cc:231-234 | `Hreg` maps (xmin, ymin, 1) to (0, 0, 1) and (xmax, ymax, 1) to (xmax - xmin, ymax - ymin, 1). |
| Mosaicing.MosaicWidthWraps | trunk/src/tools/mosaicing_video.cc:223-224 | The unsigned width and height are exact for a box of fewer than 2^32 columns or rows. An inverted box wraps to 2^32 plus the (negative) difference. |
| Mosaicing.WarpTransforms | trunk/src/tools/mosaicing_video.cc:221-240 | Image 0 is warped with `Hreg * I`, and image i with `Hreg * Hs[i-1]...Hs[0]`: the same chain as the bounding box. The method needs `Hs[i-1]` to exist for every image after the first. |
| Mosaicing.WarpMapsCorners | trunk/src/tools/mosaicing_video.cc:239-250 | Warping a corner with `Hreg * H` is mapping it by H, as the bounding box does, and then moving it by `Hreg`. |
| Projection.PFromKRt | trunk/src/libmv/multiview/projection.cc:25-29 | The leading block of `K [R \| t]` has determinant det K * det R, so an invertible K and a rotation R give a camera that `KRt_From_P` accepts. |
| Projection.PFromKRtProjects | trunk/src/libmv/multiview/projection.cc:25-29 | `K [R \| t]` sends X to K (R X + t): the left block is K R and the last column is K t. |
| Projection.GivensLength | trunk/src/libmv/multiview/projection.cc:42 | The length `sqrt(c^2 + s^2)` is positive when s is nonzero. |
| Projection.GivensUnit | trunk/src/libmv/multiview/projection.cc:43 | (c/l, s/l) is a unit vector. |
| Projection.GivensX | trunk/src/libmv/multiview/projection.cc:38-49 | `K * Qx` has K(2,1) = 0, and Qx is a rotation. |
| Projection.GivensY | trunk/src/libmv/multiview/projection.cc:51-62 | `K * Qy` has K(2,0) = 0, keeps K(2,1), and Qy is a rotation. |
| Projection.GivensZ | trunk/src/libmv/multiview/projection.cc:64-75 | `K * Qz` has K(1,0) = 0 and keeps zeros at K(2,0) and K(2,1). Qz is a rotation. |
| Projection.RotationStep | trunk/src/libmv/multiview/projection.cc:48-49 | `(K G)(G^T Q) = K Q`, and `G^T Q` stays orthogonal with the same determinant. |
| Projection.ZeroK21 | trunk/src/libmv/multiview/projection.cc:38-50 | The first block zeroes K(2,1), keeps `K Q` and keeps Q orthogonal with the same determinant. |
| Projection.ZeroK20 | trunk/src/libmv/multiview/projection.cc:51-63 | The second block zeroes K(2,0), keeps K(2,1) and keeps `K Q`. |
| Projection.ZeroK10 | trunk/src/libmv/multiview/projection.cc:64-76 | The third block zeroes K(1,0), keeps the row-2 zeros and keeps `K Q`. |
| Projection.NegateStep | trunk/src/libmv/multiview/projection.cc:85-88 | `(-K)(-R) = K R`. Negation keeps triangularity and orthogonality and flips det R. |
| Projection.SignStep | trunk/src/libmv/multiview/projection.cc:89-104 | `(K S)(S R) = K R` for both sign matrices, and det R flips. |
| Projection.FixSigns | trunk/src/libmv/multiview/projection.cc:85-104 | After the sign fixes, K is upper triangular with K(2,2), K(1,1) and K(0,0) all non-negative. K R is unchanged and R stays orthogonal. |
| Projection.RescaleStep | trunk/src/libmv/multiview/projection.cc:107-114 | Solving `t = K^-1 p` first and then dividing K by K(2,2) gives `K [R \| t] = P / K(2,2)`. |
| Projection.KRtFromP | trunk/src/libmv/multiview/projection.cc:31-119 | For an invertible leading block: K is upper triangular with K(2,2) = 1 and K(0,0), K(1,1) positive, R is orthogonal with det ±1, and `K [R \| t]` is P times a positive factor. |
| Projection.CalibrationInvertible | trunk/src/libmv/multiview/projection.cc:111-114 | After the sign fixes the triangular K is invertible and its whole diagonal is positive, so the solve and the division by K(2,2) are defined. |
| Projection.RescaledCalibration | trunk/src/libmv/multiview/projection.cc:113-114 | The rescaled K is upper triangular, has K(2,2) = 1 and keeps a positive diagonal. |
| Projection.Flip | trunk/src/libmv/multiview/projection.cc:125-129 | The flip loop fills f(i,j) = a(2-i, 2-j), which is `Flipped(a)`. |
| Projection.FlippedInvolution | trunk/src/libmv/multiview/projection.cc:125-138 | Flipping twice gives the matrix back. |
| Projection.FlippedLowerIsUpper | trunk/src/libmv/multiview/projection.cc:134-138 | The flip of a lower-triangular matrix is upper triangular. |
| Projection.FlippedMul | trunk/src/libmv/multiview/projection.cc:121-138 | The flip commutes with products. |
| Projection.FlippedTranspose | trunk/src/libmv/multiview/projection.cc:121-138 | The flip commutes with transposition. |
| Projection.KFromAbsoluteConic | trunk/src/libmv/multiview/projection.cc:121-148 | K is the flip of `llt(flip(W^-1))`. When the factor L is lower triangular with `L L^T = flip(W^-1)`, K is upper triangular and `K K^T = W^-1`. |
| Projection.EuclideanToHomogeneous2 | trunk/src/libmv/multiview/projection.cc:185-187 | Appends a 1, and HomogeneousToEuclidean gives the point back. |
| Projection.EuclideanToHomogeneous3 | trunk/src/libmv/multiview/projection.cc:189-191 | Appends a 1, and HomogeneousToEuclidean gives the point back. |
| Projection.HomogeneousToEuclidean3 | trunk/src/libmv/multiview/projection.cc:163-166 | The Euclidean point times the last coordinate H(2) gives back H(0) and H(1). |
| Projection.HomogeneousToEuclidean4 | trunk/src/libmv/multiview/projection.cc:168-171 | The Euclidean point times the last coordinate H(3) gives back H(0), H(1) and H(2). |
| Projection.HomogeneousLift3 | trunk/src/libmv/multiview/projection.cc:163-166 | Lifting the dehomogenised Vec3 back gives h / h.z. |
| Projection.HomogeneousLift4 | trunk/src/libmv/multiview/projection.cc:168-171 | Lifting the dehomogenised Vec4 back gives h / h.w. |
| Projection.HomogeneousScaleInvariant3 | trunk/src/libmv/multiview/projection.cc:163-166 | A nonzero multiple of a homogeneous Vec3 is the same Euclidean point. |
| Projection.HomogeneousScaleInvariant4 | trunk/src/libmv/multiview/projection.cc:168-171 | A nonzero multiple of a homogeneous Vec4 is the same Euclidean point. |
| Projection.HomogeneousToEuclidean | trunk/src/libmv/multiview/projection.cc:151-161 | A (d+1) x n matrix becomes a newly allocated d x n matrix, with each column divided by its last entry. |
| Projection.EuclideanToHomogeneous | trunk/src/libmv/multiview/projection.cc:173-183 | A d x n matrix becomes a newly allocated (d+1) x n matrix: the same entries plus a row of ones. |
| Projection.EuclideanRoundTrip | trunk/src/libmv/multiview/projection.cc:151-183 | EuclideanToHomogeneous followed by HomogeneousToEuclidean returns the input matrix. |
| Projection.MulColumns | trunk/src/libmv/multiview/projection.cc:196 | `P * XX`, column by column, in a newly allocated matrix. |
| Projection.Project | trunk/src/libmv/multiview/projection.cc:193-197 | Column i of the newly allocated result is H2E(P * E2H(X_i)). |
| Projection.ProjectScaleInvariant | trunk/src/libmv/multiview/projection.cc:193-197 | A nonzero multiple of P projects every point to the same place. |
| Projection.Depth | trunk/src/libmv/multiview/projection.cc:199-201 | `(R X)(2) + t(2)` is the third coordinate of `[R \| t] (X, 1)`, the depth of X in the camera frame. |
| Projection.DepthIsProjectedScale | trunk/src/libmv/multiview/projection.cc:199-201 | For K with last row (0, 0, 1), `Depth = (R X)_z + t_z` is the third coordinate of `K [R \| t] (X, 1)`. |
| FundamentalParameterization.CoeffsQuaternionOf | trunk/src/libmv/multiview/fundamental_parameterization.h:56-58 | Reading a quaternion from 4 coefficients and writing its coefficients back gives them unchanged. |
| FundamentalParameterization.QuaternionOfCoeffs | trunk/src/libmv/multiview/fundamental_parameterization.h:116-118 | Writing a quaternion's coefficients and reading them back gives the quaternion. |
| FundamentalParameterization.SecondSingularValueRange | trunk/src/libmv/multiview/fundamental_parameterization.h:60-65 | `1/(1+s^2)` lies in (0, 1] for every s, so the singular values stay in decreasing order. |
| FundamentalParameterization.To | trunk/src/libmv/multiview/fundamental_parameterization.h:53-83 | `u.toRotationMatrix() * S * vt.toRotationMatrix()` has determinant 0. |
| FundamentalParameterization.ToOuterProducts | trunk/src/libmv/multiview/fundamental_parameterization.h:67-74 | f = U_0 Vt_0 + s U_1 Vt_1, a sum of two outer products, so of rank at most two. |
| FundamentalParameterization.ToIsSvd | trunk/src/libmv/multiview/fundamental_parameterization.h:34-38 | For orthogonal factors, `U S Vt` is an SVD of f with singular values 1, s and 0. |
| FundamentalParameterization.FromSvd | trunk/src/libmv/multiview/fundamental_parameterization.h:85-119 | `From` writes nine parameters. |
| FundamentalParameterization.From | trunk/src/libmv/multiview/fundamental_parameterization.h:85-119 | `From(f)`, computed on Eigen's SVD of f, writes nine parameters. |
| FundamentalParameterization.FromLayout | trunk/src/libmv/multiview/fundamental_parameterization.h:40-44 | p[0..3] is U's normalized quaternion, p[4] = sqrt(sigma0/sigma1 - 1), and p[5..8] is Vt's normalized quaternion. These are the positions `To` reads. |
| FundamentalParameterization.FromIgnoresThirdValue | trunk/src/libmv/multiview/fundamental_parameterization.h:86-89 | The third singular value does not affect `From`. |
| FundamentalParameterization.OrthogonalDet | trunk/src/libmv/multiview/fundamental_parameterization.h:95-97 | An orthogonal matrix has determinant ±1. |
| FundamentalParameterization.OrientedURotation | trunk/src/libmv/multiview/fundamental_parameterization.h:99-101 | U, or -U when det U is not positive, is a rotation: orthogonal with det +1, and equal to det(U) * U. |
| FundamentalParameterization.OrientedVtRotation | trunk/src/libmv/multiview/fundamental_parameterization.h:103-105 | V^T, or -V^T when det V is not positive, is a rotation equal to det(V) * V^T. |
| FundamentalParameterization.ScalarRoundTrip | trunk/src/libmv/multiview/fundamental_parameterization.h:65 | For sigma0 >= sigma1 > 0, `To` maps the stored `sqrt(sigma0/sigma1 - 1)` back to sigma1/sigma0. |
| FundamentalParameterization.ToAfterFrom | trunk/src/libmv/multiview/fundamental_parameterization.h:53-119 | `To(From(...))` is the two chosen rotations around diag(1, sigma1/sigma0, 0). |
| FundamentalParameterization.RoundTrip | trunk/src/libmv/multiview/fundamental_parameterization.h:85-119 | For an SVD with sigma1 > 0 and sigma2 = 0, `To(From(f)) = det(U) det(V) / sigma0 * f`: f up to a nonzero scale. |
| PanoramicKernel.SquaredDistance | src/libmv/multiview/minimalPanoramic_kernel.h:44 | `squaredNorm` of a difference is non-negative and is positive exactly when the two points differ. |
| PanoramicKernel.AsymmetricError | src/libmv/multiview/minimalPanoramic_kernel.h:40-46 | The error is non-negative, and positive exactly when the dehomogenised `H (x1, 1)` differs from x2. |
| PanoramicKernel.AsymmetricErrorScaleInvariant | src/libmv/multiview/minimalPanoramic_kernel.h:42-43 | A nonzero multiple of H has the same error. |
| PanoramicKernel.AsymmetricErrorIdentity | src/libmv/multiview/minimalPanoramic_kernel.h:41-45 | With H = I and x1 = x2 the error is 0. |
| PanoramicKernel.SymmetricError | src/libmv/multiview/minimalPanoramic_kernel.h:49-57 | The sum is non-negative, and positive exactly when H misses x2 or H^-1 misses x1. |
| PanoramicKernel.SymmetricErrorSwap | src/libmv/multiview/minimalPanoramic_kernel.h:53-55 | For invertible H, `SymmetricError(H, x1, x2) = SymmetricError(H^-1, x2, x1)`. |
| PanoramicKernel.Unnormalize | src/libmv/multiview/minimalPanoramic_kernel.h:59-64 | The de-normalised G = `T2^-1 H T1` satisfies `T2 G = H T1`. |
| PanoramicKernel.UnnormalizeMaps | src/libmv/multiview/minimalPanoramic_kernel.h:59-64 | If H maps T1 x1 to lambda T2 x2, then `T2^-1 H T1` maps x1 to lambda x2. |
| PanoramicKernel.UnnormalizeKeepsExactFit | src/libmv/multiview/minimalPanoramic_kernel.h:59-64 | A correspondence fitted exactly in normalised coordinates has asymmetric error 0 after `Unnormalize`. |

## Left out

- Image and match I/O, the command line, logging, `DrawLine` and the pixel warp `WarpImageBlend` are left out. They are I/O and rendering, and the model keeps only the transforms they are given.
- Two things become parameters because their code is not part of this model: the robust estimators (`AffineFromCorrespondences2PointRobust`, `HomographyFromCorrespondences4PointRobust`) and `TwoViewPointMatchMatrices`. An estimate is `estimate(prev, cur)`, and the column count of the match matrix is `matchCount(prev, cur)`.
- The body of `TwoPointSolver::Solve` and the `two_view::kernel` templates are not part of this model. Only `MINIMUM_SAMPLES` is kept, as `PanoramicKernel.MinimumSamples`.
- Eigen's SVD, quaternion-rotation conversions, quaternion `normalize` and Cholesky factor become parameters, with assumptions stated where a lemma needs them. Eigen's `inverse()` is modelled concretely as adjugate over determinant.
- Floating point is left out: every double is an exact real, and rounding and conditioning are not modelled.
- `ceil0` is not part of this model. It is a parameter `real -> int`, which also covers the conversion to the `Vec4i` box.
- Mosaicing.ComputeGlobalBoundingBox: int32 overflow of the box and an out-of-range double-to-int conversion are not modelled.
- Mosaicing.ComputeRelativeMatrices requires at least one image. The source advances the iterator past `begin()` without a check, which is undefined for an empty set.
- The source divides without a check in several places, yielding inf or NaN on a zero divisor. The model requires the divisor to be nonzero instead:
  - the third coordinate in `ComputeGlobalBoundingBox`, `AsymmetricError` and `Project`;
  - the last entries in `HomogeneousToEuclidean`;
  - sigma1 in `From`;
  - the inverses in `SymmetricError`, `Unnormalize` and `K_From_AbsoluteConic`;
  - the inverse of K and the division by K(2,2) in `KRt_From_P`, so `Projection.KRtFromP` requires the leading 3x3 block of P to be invertible.
- Projection.KRtFromP: det(R) = +1 is not guaranteed, only ±1. The source notes this as a TODO, and `R = -R` can flip the sign.
- The `bbox(1) < bbox(0)` and `bbox(3) < bbox(2)` assertions of `BuildMosaic` are not modelled. The box starts at (w, 0, h, 0), so they fail as soon as the box grows past that start in an axis, which is the usual case (`Mosaicing.BoxAfterIdentities` gives (0, w, 0, h)). More precisely, `bbox(1) < bbox(0)` fails once a rounded x raises xmax or xmin drops to 0 or below, and it stays failed, since xmin never increases and xmax never decreases (`Mosaicing.BoxAfterWidens`). It can hold, for instance when every rounded x sets a new positive minimum. The same goes for y. `MosaicWidthWraps` states what the unsigned width becomes for an inverted box.
- The `image_files.size() == Hs.size() - 1` assertion of `BuildMosaic` is not modelled. `Mosaicing.WarpTransforms` instead asks for what the loop reads, `Hs[i-1]` for every image i > 0.
- `BuildMosaic` skips the warp when an image cannot be read or decoded. The model lists every image's transform.
- Projection (the `Qz` matrix): `Mat Qz;` is declared without a size, and the model takes it to be the 3x3 matrix its initializer writes.
- FundamentalParameterization.To: the header comment of `fundamental_parameterization.h` calls the middle value `1/s^2`. The model follows the code, which computes `1/(1+s^2)`.
- FundamentalParameterization.RoundTrip: F is recovered only up to the scale det(U) det(V) / sigma0. This is what the code can promise, since F is defined up to scale. It also assumes that the quaternion conversions round-trip rotations.
- PanoramicKernel.AsymmetricError: "the error is zero exactly when the prediction is x2" is stated as `0 <= e` together with `0 < e` exactly when they differ. The two forms are equivalent.

## Findings

| source | as written | input that shows it | evidently intended | confidence | as-written member | corrected member |
|---|---|---|---|---|---|---|
| trunk/src/tools/mosaicing_video.cc:174-181 | A rounded x (or y) below xmin (ymin) updates only the minimum (`else if`), and the box starts inverted at (w, 0, h, 0). | A 10x10 image and `Hs = [[-0.1, -0.5, 8], [0, 0, 5], [0, 0, 1]]`. The corners map to x = 8, 3, 2, 7 and the box is (2, 7, 5, 5), which excludes x = 8. | A box containing every mapped corner: (2, 8, 5, 5). | medium, not executed | Mosaicing.BoundingBoxMissesCorner | Mosaicing.CoveringBoundingBoxContainsCorners |
