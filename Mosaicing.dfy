/** The geometry of libmv's video mosaicing tool: relative transforms between
    consecutive images, their chaining into absolute transforms, the global
    bounding box of the warped images and the registration of that box at the
    origin. Reading images, matching features, robust estimation and warping
    the pixels are not part of this model; the estimator, the match counts and
    the rounding function `ceil0` are parameters. */
module Mosaicing {
  import opened Linear

  // ---------------------------------------------------------------------------
  // Relative transforms between consecutive images.

  /** ComputeRelativeAffineMatrices estimates a pair only with at least two
      matches, ComputeRelativeHomographyMatrices only with at least four. */
  const AffineMinMatches := 2
  const HomographyMinMatches := 4

  /** The relative matrices for the consecutive pairs of `images` (the image
      identifiers in increasing order): one estimate per pair with at least
      `minMatches` common matches, in pair order; other pairs contribute nothing. */
  function RelativeMatrices(images: seq<int>, matchCount: (int, int) -> nat,
                            estimate: (int, int) -> Mat3, minMatches: nat): seq<Mat3>
  {
    if |images| < 2 then []
    else
      var prev, cur := images[|images| - 2], images[|images| - 1];
      RelativeMatrices(images[..|images| - 1], matchCount, estimate, minMatches)
      + (if matchCount(prev, cur) >= minMatches then [estimate(prev, cur)] else [])
  }

  /** The pair walk of ComputeRelative*Matrices: for each image after the first,
      the matches with its predecessor are counted and, when there are enough,
      the estimated matrix is appended. The source increments the iterator past
      the first image unconditionally, so it needs at least one image. */
  method ComputeRelativeMatrices(images: seq<int>, matchCount: (int, int) -> nat,
                                 estimate: (int, int) -> Mat3, minMatches: nat)
    returns (hs: seq<Mat3>)
    requires 1 <= |images|
    ensures hs == RelativeMatrices(images, matchCount, estimate, minMatches)
  {
    hs := [];
    var prev := 0;
    var cur := 1;
    while cur < |images|
      invariant 1 <= cur <= |images| && prev == cur - 1
      invariant hs == RelativeMatrices(images[..cur], matchCount, estimate, minMatches)
    {
      assert images[..cur + 1][..cur] == images[..cur];
      if matchCount(images[prev], images[cur]) >= minMatches {
        hs := hs + [estimate(images[prev], images[cur])];
      }
      prev := prev + 1;
      cur := cur + 1;
    }
    assert images[..cur] == images;
  }

  method ComputeRelativeAffineMatrices(images: seq<int>, matchCount: (int, int) -> nat,
                                       estimate: (int, int) -> Mat3)
    returns (hs: seq<Mat3>)
    requires 1 <= |images|
    ensures hs == RelativeMatrices(images, matchCount, estimate, AffineMinMatches)
  {
    hs := ComputeRelativeMatrices(images, matchCount, estimate, AffineMinMatches);
  }

  method ComputeRelativeHomographyMatrices(images: seq<int>, matchCount: (int, int) -> nat,
                                           estimate: (int, int) -> Mat3)
    returns (hs: seq<Mat3>)
    requires 1 <= |images|
    ensures hs == RelativeMatrices(images, matchCount, estimate, HomographyMinMatches)
  {
    hs := ComputeRelativeMatrices(images, matchCount, estimate, HomographyMinMatches);
  }

  /** There is at most one matrix per consecutive pair. */
  lemma {:induction false} RelativeMatricesLength(images: seq<int>, matchCount: (int, int) -> nat,
                                                  estimate: (int, int) -> Mat3, minMatches: nat)
    requires 1 <= |images|
    ensures |RelativeMatrices(images, matchCount, estimate, minMatches)| <= |images| - 1
  {
    if 2 <= |images| {
      RelativeMatricesLength(images[..|images| - 1], matchCount, estimate, minMatches);
    }
  }

  /** When every consecutive pair has enough matches, matrix i is the estimate
      for images i and i + 1. */
  lemma {:induction false} RelativeMatricesAllPairs(images: seq<int>, matchCount: (int, int) -> nat,
                                                    estimate: (int, int) -> Mat3, minMatches: nat)
    requires 1 <= |images|
    requires forall i :: 0 <= i < |images| - 1 ==> matchCount(images[i], images[i + 1]) >= minMatches
    ensures |RelativeMatrices(images, matchCount, estimate, minMatches)| == |images| - 1
    ensures forall i :: 0 <= i < |images| - 1 ==>
              RelativeMatrices(images, matchCount, estimate, minMatches)[i] == estimate(images[i], images[i + 1])
  {
    if 2 <= |images| {
      var init := images[..|images| - 1];
      assert forall i :: 0 <= i < |init| ==> init[i] == images[i];
      RelativeMatricesAllPairs(init, matchCount, estimate, minMatches);
    }
  }

  /** Every matrix in the output is the estimate for some consecutive pair with
      enough matches. */
  lemma {:induction false} RelativeMatricesFromPairs(images: seq<int>, matchCount: (int, int) -> nat,
                                                     estimate: (int, int) -> Mat3, minMatches: nat, k: int)
    requires 0 <= k < |RelativeMatrices(images, matchCount, estimate, minMatches)|
    ensures exists i :: 0 <= i < |images| - 1
              && matchCount(images[i], images[i + 1]) >= minMatches
              && RelativeMatrices(images, matchCount, estimate, minMatches)[k] == estimate(images[i], images[i + 1])
  {
    var init := images[..|images| - 1];
    var rest := RelativeMatrices(init, matchCount, estimate, minMatches);
    if k < |rest| {
      RelativeMatricesFromPairs(init, matchCount, estimate, minMatches, k);
      var i :| 0 <= i < |init| - 1
               && matchCount(init[i], init[i + 1]) >= minMatches
               && rest[k] == estimate(init[i], init[i + 1]);
      assert init[i] == images[i] && init[i + 1] == images[i + 1];
    } else {
      var i := |images| - 2;
      assert matchCount(images[i], images[i + 1]) >= minMatches;
    }
  }

  /** When no consecutive pair has enough matches the output is empty. */
  lemma {:induction false} RelativeMatricesNoPairs(images: seq<int>, matchCount: (int, int) -> nat,
                                                   estimate: (int, int) -> Mat3, minMatches: nat)
    requires forall i :: 0 <= i < |images| - 1 ==> matchCount(images[i], images[i + 1]) < minMatches
    ensures RelativeMatrices(images, matchCount, estimate, minMatches) == []
  {
    if 2 <= |images| {
      var init := images[..|images| - 1];
      assert forall i :: 0 <= i < |init| ==> init[i] == images[i];
      RelativeMatricesNoPairs(init, matchCount, estimate, minMatches);
      assert matchCount(images[|images| - 2], images[|images| - 1]) < minMatches;
    }
  }

  /** The number of consecutive pairs of `images` with at least `minMatches`
      matches, counted from the first pair on. */
  function QualifyingPairs(images: seq<int>, matchCount: (int, int) -> nat, minMatches: nat): nat
  {
    if |images| < 2 then 0
    else (if matchCount(images[0], images[1]) >= minMatches then 1 else 0)
         + QualifyingPairs(images[1..], matchCount, minMatches)
  }

  /** Counting from the last pair gives the same number. */
  lemma {:induction false} QualifyingPairsLast(images: seq<int>, matchCount: (int, int) -> nat, minMatches: nat)
    requires 2 <= |images|
    ensures QualifyingPairs(images, matchCount, minMatches)
         == QualifyingPairs(images[..|images| - 1], matchCount, minMatches)
            + (if matchCount(images[|images| - 2], images[|images| - 1]) >= minMatches then 1 else 0)
  {
    var n := |images|;
    if 2 < n {
      var tail := images[1..];
      QualifyingPairsLast(tail, matchCount, minMatches);
      assert tail[..|tail| - 1] == images[..n - 1][1..];
      assert tail[|tail| - 2] == images[n - 2] && tail[|tail| - 1] == images[n - 1];
      assert images[..n - 1][0] == images[0] && images[..n - 1][1] == images[1];
    } else {
      assert |images[1..]| < 2 && |images[..n - 1]| < 2;
    }
  }

  /** There is exactly one relative matrix per consecutive pair with enough
      matches. */
  lemma {:induction false} RelativeMatricesCount(images: seq<int>, matchCount: (int, int) -> nat,
                                                 estimate: (int, int) -> Mat3, minMatches: nat)
    ensures |RelativeMatrices(images, matchCount, estimate, minMatches)|
         == QualifyingPairs(images, matchCount, minMatches)
  {
    if 2 <= |images| {
      RelativeMatricesCount(images[..|images| - 1], matchCount, estimate, minMatches);
      QualifyingPairsLast(images, matchCount, minMatches);
    }
  }

  // ---------------------------------------------------------------------------
  // Chaining relative transforms.

  /** The absolute transform of image n: Hs[n-1] * ... * Hs[0], newest on the
      left, the identity for n == 0. */
  function Absolute(hs: seq<Mat3>, n: nat): Mat3
    requires n <= |hs|
  {
    if n == 0 then Identity() else Mul(hs[n - 1], Absolute(hs, n - 1))
  }

  /** Chaining is associative: the transform that takes image m to image n,
      composed with the absolute transform of image m, is that of image n. */
  lemma {:induction false} AbsoluteSplit(hs: seq<Mat3>, m: nat, n: nat)
    requires m <= n <= |hs|
    ensures Absolute(hs, n) == Mul(Between(hs, m, n), Absolute(hs, m))
    decreases n - m
  {
    if m == n {
      MulIdentity(Absolute(hs, m));
    } else {
      AbsoluteSplit(hs, m, n - 1);
      MulAssoc(hs[n - 1], Between(hs, m, n - 1), Absolute(hs, m));
    }
  }

  /** Hs[n-1] * ... * Hs[m]. */
  function Between(hs: seq<Mat3>, m: nat, n: nat): Mat3
    requires m <= n <= |hs|
    decreases n - m
  {
    if m == n then Identity() else Mul(hs[n - 1], Between(hs, m, n - 1))
  }

  /** A chain of identities is the identity. */
  lemma {:induction false} AbsoluteOfIdentities(hs: seq<Mat3>, n: nat)
    requires n <= |hs|
    requires forall i :: 0 <= i < |hs| ==> hs[i] == Identity()
    ensures Absolute(hs, n) == Identity()
  {
    if n > 0 {
      AbsoluteOfIdentities(hs, n - 1);
      MulIdentity(Identity());
    }
  }

  // ---------------------------------------------------------------------------
  // The global bounding box.

  /** The common image size (width, height) in pixels. */
  datatype ImageSize = ImageSize(width: nat, height: nat)

  /** A box (xmin, xmax, ymin, ymax), in the order of the source's Vec4i. */
  datatype Box = Box(xmin: int, xmax: int, ymin: int, ymax: int)

  /** The starting box (width, 0, height, 0). */
  function InitialBox(size: ImageSize): Box {
    Box(size.width, 0, size.height, 0)
  }

  /** Column c of the corner matrix: (0, 0), (0, h), (w, h) and (w, 0), each with a
      third coordinate 1. */
  function Corner(size: ImageSize, c: int): Vec3
    requires 0 <= c < 4
  {
    var w, h := size.width as real, size.height as real;
    if c == 0 then Vec3(0.0, 0.0, 1.0)
    else if c == 1 then Vec3(0.0, h, 1.0)
    else if c == 2 then Vec3(w, h, 1.0)
    else Vec3(w, 0.0, 1.0)
  }

  /** H maps no image corner to a point at infinity. The source divides by the
      third coordinate without a check. */
  predicate CornersFinite(h: Mat3, size: ImageSize) {
    forall c :: 0 <= c < 4 ==> Apply(h, Corner(size, c)).z != 0.0
  }

  /** Every absolute transform the bounding box uses keeps the corners finite. */
  predicate AllCornersFinite(size: ImageSize, hs: seq<Mat3>) {
    forall n :: 1 <= n <= |hs| ==> CornersFinite(Absolute(hs, n), size)
  }

  /** Corner c mapped by H, divided by its third coordinate and rounded. */
  function MappedX(h: Mat3, size: ImageSize, ceil0: real -> int, c: int): int
    requires 0 <= c < 4 && Apply(h, Corner(size, c)).z != 0.0
  {
    var q := Apply(h, Corner(size, c));
    ceil0(q.x / q.z)
  }

  function MappedY(h: Mat3, size: ImageSize, ceil0: real -> int, c: int): int
    requires 0 <= c < 4 && Apply(h, Corner(size, c)).z != 0.0
  {
    var q := Apply(h, Corner(size, c));
    ceil0(q.y / q.z)
  }

  /** The update of the box with one rounded point, as the source writes it: a
      new minimum is not compared with the maximum (`else if`). */
  function Widen(b: Box, x: int, y: int): Box {
    var bx := if x < b.xmin then b.(xmin := x) else if x > b.xmax then b.(xmax := x) else b;
    if y < bx.ymin then bx.(ymin := y) else if y > bx.ymax then bx.(ymax := y) else bx
  }

  /** The box after the first c corners mapped by H. */
  function WidenCorners(b: Box, h: Mat3, size: ImageSize, ceil0: real -> int, c: nat): Box
    requires c <= 4 && CornersFinite(h, size)
  {
    if c == 0 then b
    else Widen(WidenCorners(b, h, size, ceil0, c - 1),
               MappedX(h, size, ceil0, c - 1), MappedY(h, size, ceil0, c - 1))
  }

  /** The box after the first n images of the chain. */
  function BoxAfter(size: ImageSize, hs: seq<Mat3>, ceil0: real -> int, n: nat): Box
    requires n <= |hs| && AllCornersFinite(size, hs)
  {
    if n == 0 then InitialBox(size)
    else WidenCorners(BoxAfter(size, hs, ceil0, n - 1), Absolute(hs, n), size, ceil0, 4)
  }

  function BoundingBox(size: ImageSize, hs: seq<Mat3>, ceil0: real -> int): Box
    requires AllCornersFinite(size, hs)
  {
    BoxAfter(size, hs, ceil0, |hs|)
  }

  /** ComputeGlobalBoundingBox: chains the relative transforms, maps the four
      corners through each absolute transform and widens the box with every
      rounded corner. */
  method ComputeGlobalBoundingBox(size: ImageSize, hs: seq<Mat3>, ceil0: real -> int)
    returns (bbox: Box)
    requires AllCornersFinite(size, hs)
    ensures bbox == BoundingBox(size, hs, ceil0)
  {
    var h := Identity();
    bbox := InitialBox(size);
    var i := 0;
    while i < |hs|
      invariant 0 <= i <= |hs|
      invariant h == Absolute(hs, i)
      invariant bbox == BoxAfter(size, hs, ceil0, i)
    {
      h := Mul(hs[i], h);
      assert h == Absolute(hs, i + 1);
      assert CornersFinite(h, size);
      ghost var start := bbox;
      var c := 0;
      while c < 4
        invariant 0 <= c <= 4
        invariant bbox == WidenCorners(start, h, size, ceil0, c)
      {
        var q := Apply(h, Corner(size, c));
        q := Vec3(q.x / q.z, q.y / q.z, q.z / q.z);
        var qx := ceil0(q.x);
        var qy := ceil0(q.y);
        if qx < bbox.xmin {
          bbox := bbox.(xmin := qx);
        } else if qx > bbox.xmax {
          bbox := bbox.(xmax := qx);
        }
        if qy < bbox.ymin {
          bbox := bbox.(ymin := qy);
        } else if qy > bbox.ymax {
          bbox := bbox.(ymax := qy);
        }
        c := c + 1;
      }
      i := i + 1;
    }
  }

  /** The minimum of m and the elements of s. */
  function MinOf(m: int, s: seq<int>): (r: int)
    ensures r <= m && forall k :: 0 <= k < |s| ==> r <= s[k]
    ensures r == m || exists k :: 0 <= k < |s| && r == s[k]
  {
    if |s| == 0 then m
    else
      var r := MinOf(m, s[..|s| - 1]);
      if s[|s| - 1] < r then s[|s| - 1] else r
  }

  /** The rounded x coordinates of the four corners mapped by H, in corner order. */
  function CornerXs(h: Mat3, size: ImageSize, ceil0: real -> int, c: nat): seq<int>
    requires c <= 4 && CornersFinite(h, size)
  {
    if c == 0 then [] else CornerXs(h, size, ceil0, c - 1) + [MappedX(h, size, ceil0, c - 1)]
  }

  function CornerYs(h: Mat3, size: ImageSize, ceil0: real -> int, c: nat): seq<int>
    requires c <= 4 && CornersFinite(h, size)
  {
    if c == 0 then [] else CornerYs(h, size, ceil0, c - 1) + [MappedY(h, size, ceil0, c - 1)]
  }

  /** Every rounded x coordinate the box update sees for the first n images, in
      processing order. */
  function MappedXs(size: ImageSize, hs: seq<Mat3>, ceil0: real -> int, n: nat): seq<int>
    requires n <= |hs| && AllCornersFinite(size, hs)
  {
    if n == 0 then [] else MappedXs(size, hs, ceil0, n - 1) + CornerXs(Absolute(hs, n), size, ceil0, 4)
  }

  function MappedYs(size: ImageSize, hs: seq<Mat3>, ceil0: real -> int, n: nat): seq<int>
    requires n <= |hs| && AllCornersFinite(size, hs)
  {
    if n == 0 then [] else MappedYs(size, hs, ceil0, n - 1) + CornerYs(Absolute(hs, n), size, ceil0, 4)
  }

  /** Folding the minimum over a concatenation. */
  lemma {:induction false} MinOfAppend(m: int, s: seq<int>, t: seq<int>)
    ensures MinOf(m, s + t) == MinOf(MinOf(m, s), t)
    decreases |t|
  {
    if |t| == 0 {
      assert s + t == s;
    } else {
      assert (s + t)[..|s + t| - 1] == s + t[..|t| - 1];
      MinOfAppend(m, s, t[..|t| - 1]);
    }
  }

  /** An update records a new minimum in each coordinate. */
  lemma WidenMinima(b: Box, x: int, y: int)
    ensures Widen(b, x, y).xmin == (if x < b.xmin then x else b.xmin)
    ensures Widen(b, x, y).ymin == (if y < b.ymin then y else b.ymin)
  {
  }

  lemma {:induction false} WidenCornersXMin(b: Box, h: Mat3, size: ImageSize, ceil0: real -> int, c: nat)
    requires c <= 4 && CornersFinite(h, size)
    ensures WidenCorners(b, h, size, ceil0, c).xmin == MinOf(b.xmin, CornerXs(h, size, ceil0, c))
  {
    if c > 0 {
      WidenCornersXMin(b, h, size, ceil0, c - 1);
      var xs := CornerXs(h, size, ceil0, c);
      assert xs[..|xs| - 1] == CornerXs(h, size, ceil0, c - 1);
      WidenMinima(WidenCorners(b, h, size, ceil0, c - 1),
                  MappedX(h, size, ceil0, c - 1), MappedY(h, size, ceil0, c - 1));
    }
  }

  lemma {:induction false} WidenCornersYMin(b: Box, h: Mat3, size: ImageSize, ceil0: real -> int, c: nat)
    requires c <= 4 && CornersFinite(h, size)
    ensures WidenCorners(b, h, size, ceil0, c).ymin == MinOf(b.ymin, CornerYs(h, size, ceil0, c))
  {
    if c > 0 {
      WidenCornersYMin(b, h, size, ceil0, c - 1);
      var ys := CornerYs(h, size, ceil0, c);
      assert ys[..|ys| - 1] == CornerYs(h, size, ceil0, c - 1);
      WidenMinima(WidenCorners(b, h, size, ceil0, c - 1),
                  MappedX(h, size, ceil0, c - 1), MappedY(h, size, ceil0, c - 1));
    }
  }

  /** The final xmin is the minimum of the width and every rounded mapped x. A
      new minimum is always recorded, whatever the `else if` does to the maximum. */
  lemma {:induction false} BoxAfterXMin(size: ImageSize, hs: seq<Mat3>, ceil0: real -> int, n: nat)
    requires n <= |hs| && AllCornersFinite(size, hs)
    ensures BoxAfter(size, hs, ceil0, n).xmin == MinOf(size.width, MappedXs(size, hs, ceil0, n))
  {
    if n > 0 {
      BoxAfterXMin(size, hs, ceil0, n - 1);
      var h := Absolute(hs, n);
      assert CornersFinite(h, size);
      var b := BoxAfter(size, hs, ceil0, n - 1);
      var prev, cur := MappedXs(size, hs, ceil0, n - 1), CornerXs(h, size, ceil0, 4);
      assert BoxAfter(size, hs, ceil0, n) == WidenCorners(b, h, size, ceil0, 4);
      assert MappedXs(size, hs, ceil0, n) == prev + cur;
      WidenCornersXMin(b, h, size, ceil0, 4);
      MinOfAppend(size.width, prev, cur);
    }
  }

  /** The final ymin is the minimum of the height and every rounded mapped y. */
  lemma {:induction false} BoxAfterYMin(size: ImageSize, hs: seq<Mat3>, ceil0: real -> int, n: nat)
    requires n <= |hs| && AllCornersFinite(size, hs)
    ensures BoxAfter(size, hs, ceil0, n).ymin == MinOf(size.height, MappedYs(size, hs, ceil0, n))
  {
    if n > 0 {
      BoxAfterYMin(size, hs, ceil0, n - 1);
      var h := Absolute(hs, n);
      assert CornersFinite(h, size);
      var b := BoxAfter(size, hs, ceil0, n - 1);
      var prev, cur := MappedYs(size, hs, ceil0, n - 1), CornerYs(h, size, ceil0, 4);
      assert BoxAfter(size, hs, ceil0, n) == WidenCorners(b, h, size, ceil0, 4);
      assert MappedYs(size, hs, ceil0, n) == prev + cur;
      WidenCornersYMin(b, h, size, ceil0, 4);
      MinOfAppend(size.height, prev, cur);
    }
  }

  /** The bounding box's minima: xmin lies at or below the width and every
      rounded mapped x and is one of them; likewise ymin for the height and the
      mapped y. */
  lemma BoundingBoxMinima(size: ImageSize, hs: seq<Mat3>, ceil0: real -> int)
    requires AllCornersFinite(size, hs)
    ensures var b, xs := BoundingBox(size, hs, ceil0), MappedXs(size, hs, ceil0, |hs|);
            b.xmin <= size.width && (forall k :: 0 <= k < |xs| ==> b.xmin <= xs[k])
            && (b.xmin == size.width || exists k :: 0 <= k < |xs| && b.xmin == xs[k])
    ensures var b, ys := BoundingBox(size, hs, ceil0), MappedYs(size, hs, ceil0, |hs|);
            b.ymin <= size.height && (forall k :: 0 <= k < |ys| ==> b.ymin <= ys[k])
            && (b.ymin == size.height || exists k :: 0 <= k < |ys| && b.ymin == ys[k])
  {
    BoxAfterXMin(size, hs, ceil0, |hs|);
    BoxAfterYMin(size, hs, ceil0, |hs|);
  }

  /** A box contains another. */
  predicate Contains(outer: Box, inner: Box) {
    outer.xmin <= inner.xmin && inner.xmax <= outer.xmax
    && outer.ymin <= inner.ymin && inner.ymax <= outer.ymax
  }

  /** An update only widens the box. */
  lemma WidenWidens(b: Box, x: int, y: int)
    ensures Contains(Widen(b, x, y), b)
  {
  }

  lemma {:induction false} WidenCornersWidens(b: Box, h: Mat3, size: ImageSize, ceil0: real -> int, c: nat)
    requires c <= 4 && CornersFinite(h, size)
    ensures Contains(WidenCorners(b, h, size, ceil0, c), b)
  {
    if c > 0 {
      WidenCornersWidens(b, h, size, ceil0, c - 1);
      WidenWidens(WidenCorners(b, h, size, ceil0, c - 1),
                  MappedX(h, size, ceil0, c - 1), MappedY(h, size, ceil0, c - 1));
    }
  }

  /** The box only widens from one image to a later one: xmin and ymin never
      increase, xmax and ymax never decrease. */
  lemma {:induction false} BoxAfterWidens(size: ImageSize, hs: seq<Mat3>, ceil0: real -> int, m: nat, n: nat)
    requires m <= n <= |hs| && AllCornersFinite(size, hs)
    ensures Contains(BoxAfter(size, hs, ceil0, n), BoxAfter(size, hs, ceil0, m))
    decreases n - m
  {
    if m < n {
      BoxAfterWidens(size, hs, ceil0, m, n - 1);
      assert CornersFinite(Absolute(hs, n), size);
      WidenCornersWidens(BoxAfter(size, hs, ceil0, n - 1), Absolute(hs, n), size, ceil0, 4);
    }
  }

  /** The `else if`: a point that sets a new xmin leaves xmax alone even when it
      lies above xmax (possible while the box is still the inverted start box). */
  lemma WidenNewMinimumSkipsMaximum(b: Box, x: int, y: int)
    requires x < b.xmin
    ensures Widen(b, x, y).xmin == x && Widen(b, x, y).xmax == b.xmax
  {
  }

  /** A concrete case: a single affine transform of a 10 x 10 image whose four
      corners land at x = 8, 3, 2 and 7 (and y = 5). The first three each set a
      new xmin, so xmax is only updated by the fourth: the result is (2, 7, 5, 5),
      which leaves out the first corner at x = 8. */
  lemma BoundingBoxMissesCorner(ceil0: real -> int)
    requires ceil0(8.0) == 8 && ceil0(3.0) == 3 && ceil0(2.0) == 2 && ceil0(7.0) == 7 && ceil0(5.0) == 5
    ensures var hs := [Mat3(-0.1, -0.5, 8.0, 0.0, 0.0, 5.0, 0.0, 0.0, 1.0)];
            AllCornersFinite(ImageSize(10, 10), hs)
            && MappedX(hs[0], ImageSize(10, 10), ceil0, 0) == 8
            && BoundingBox(ImageSize(10, 10), hs, ceil0) == Box(2, 7, 5, 5)
  {
    var h := Mat3(-0.1, -0.5, 8.0, 0.0, 0.0, 5.0, 0.0, 0.0, 1.0);
    var hs := [h];
    var size := ImageSize(10, 10);
    MulIdentity(h);
    assert Absolute(hs, 1) == h;
    assert Apply(h, Corner(size, 0)) == Vec3(8.0, 5.0, 1.0);
    assert Apply(h, Corner(size, 1)) == Vec3(3.0, 5.0, 1.0);
    assert Apply(h, Corner(size, 2)) == Vec3(2.0, 5.0, 1.0);
    assert Apply(h, Corner(size, 3)) == Vec3(7.0, 5.0, 1.0);
    assert AllCornersFinite(size, hs);
    assert MappedX(h, size, ceil0, 0) == 8 && MappedY(h, size, ceil0, 0) == 5;
    assert MappedX(h, size, ceil0, 1) == 3 && MappedY(h, size, ceil0, 1) == 5;
    assert MappedX(h, size, ceil0, 2) == 2 && MappedY(h, size, ceil0, 2) == 5;
    assert MappedX(h, size, ceil0, 3) == 7 && MappedY(h, size, ceil0, 3) == 5;
    var start := InitialBox(size);
    assert BoxAfter(size, hs, ceil0, 0) == Box(10, 0, 10, 0);
    assert WidenCorners(start, h, size, ceil0, 1) == Box(8, 0, 5, 0);
    assert WidenCorners(start, h, size, ceil0, 2) == Box(3, 0, 5, 5);
    assert WidenCorners(start, h, size, ceil0, 3) == Box(2, 0, 5, 5);
    assert WidenCorners(start, h, size, ceil0, 4) == Box(2, 7, 5, 5);
  }

  /** The evidently intended update: each coordinate is compared with both
      bounds, so a point below the minimum can still raise the maximum of a box
      that is inverted (as the start box is). */
  function CoveringWiden(b: Box, x: int, y: int): Box {
    Box(if x < b.xmin then x else b.xmin, if x > b.xmax then x else b.xmax,
        if y < b.ymin then y else b.ymin, if y > b.ymax then y else b.ymax)
  }

  function CoveringCorners(b: Box, h: Mat3, size: ImageSize, ceil0: real -> int, c: nat): Box
    requires c <= 4 && CornersFinite(h, size)
  {
    if c == 0 then b
    else CoveringWiden(CoveringCorners(b, h, size, ceil0, c - 1),
                       MappedX(h, size, ceil0, c - 1), MappedY(h, size, ceil0, c - 1))
  }

  function CoveringBoxAfter(size: ImageSize, hs: seq<Mat3>, ceil0: real -> int, n: nat): Box
    requires n <= |hs| && AllCornersFinite(size, hs)
  {
    if n == 0 then InitialBox(size)
    else CoveringCorners(CoveringBoxAfter(size, hs, ceil0, n - 1), Absolute(hs, n), size, ceil0, 4)
  }

  function CoveringBoundingBox(size: ImageSize, hs: seq<Mat3>, ceil0: real -> int): Box
    requires AllCornersFinite(size, hs)
  {
    CoveringBoxAfter(size, hs, ceil0, |hs|)
  }

  /** The maximum of m and the elements of s. */
  function MaxOf(m: int, s: seq<int>): (r: int)
    ensures m <= r && forall k :: 0 <= k < |s| ==> s[k] <= r
    ensures r == m || exists k :: 0 <= k < |s| && r == s[k]
  {
    if |s| == 0 then m
    else
      var r := MaxOf(m, s[..|s| - 1]);
      if s[|s| - 1] > r then s[|s| - 1] else r
  }

  lemma {:induction false} MaxOfAppend(m: int, s: seq<int>, t: seq<int>)
    ensures MaxOf(m, s + t) == MaxOf(MaxOf(m, s), t)
    decreases |t|
  {
    if |t| == 0 {
      assert s + t == s;
    } else {
      assert (s + t)[..|s + t| - 1] == s + t[..|t| - 1];
      MaxOfAppend(m, s, t[..|t| - 1]);
    }
  }

  /** The x bounds of the corrected box after the corners of one image. */
  lemma {:induction false} CoveringCornersX(b: Box, h: Mat3, size: ImageSize, ceil0: real -> int, c: nat)
    requires c <= 4 && CornersFinite(h, size)
    ensures var r, xs := CoveringCorners(b, h, size, ceil0, c), CornerXs(h, size, ceil0, c);
            r.xmin == MinOf(b.xmin, xs) && r.xmax == MaxOf(b.xmax, xs)
  {
    if c > 0 {
      CoveringCornersX(b, h, size, ceil0, c - 1);
      var xs := CornerXs(h, size, ceil0, c);
      assert xs[..|xs| - 1] == CornerXs(h, size, ceil0, c - 1);
    }
  }

  /** The y bounds of the corrected box after the corners of one image. */
  lemma {:induction false} CoveringCornersY(b: Box, h: Mat3, size: ImageSize, ceil0: real -> int, c: nat)
    requires c <= 4 && CornersFinite(h, size)
    ensures var r, ys := CoveringCorners(b, h, size, ceil0, c), CornerYs(h, size, ceil0, c);
            r.ymin == MinOf(b.ymin, ys) && r.ymax == MaxOf(b.ymax, ys)
  {
    if c > 0 {
      CoveringCornersY(b, h, size, ceil0, c - 1);
      var ys := CornerYs(h, size, ceil0, c);
      assert ys[..|ys| - 1] == CornerYs(h, size, ceil0, c - 1);
    }
  }

  /** The corrected box's x bounds are the minimum and the maximum of the start
      box's x bounds and every rounded mapped x. */
  lemma {:induction false} CoveringBoxAfterX(size: ImageSize, hs: seq<Mat3>, ceil0: real -> int, n: nat)
    requires n <= |hs| && AllCornersFinite(size, hs)
    ensures var b, xs := CoveringBoxAfter(size, hs, ceil0, n), MappedXs(size, hs, ceil0, n);
            b.xmin == MinOf(size.width, xs) && b.xmax == MaxOf(0, xs)
  {
    if n > 0 {
      CoveringBoxAfterX(size, hs, ceil0, n - 1);
      var h := Absolute(hs, n);
      assert CornersFinite(h, size);
      var b := CoveringBoxAfter(size, hs, ceil0, n - 1);
      var px, cx := MappedXs(size, hs, ceil0, n - 1), CornerXs(h, size, ceil0, 4);
      assert CoveringBoxAfter(size, hs, ceil0, n) == CoveringCorners(b, h, size, ceil0, 4);
      assert MappedXs(size, hs, ceil0, n) == px + cx;
      CoveringCornersX(b, h, size, ceil0, 4);
      MinOfAppend(size.width, px, cx);
      MaxOfAppend(0, px, cx);
      assert b.xmin == MinOf(size.width, px) && b.xmax == MaxOf(0, px);
    }
  }

  /** Likewise the y bounds, from the height and every rounded mapped y. */
  lemma {:induction false} CoveringBoxAfterY(size: ImageSize, hs: seq<Mat3>, ceil0: real -> int, n: nat)
    requires n <= |hs| && AllCornersFinite(size, hs)
    ensures var b, ys := CoveringBoxAfter(size, hs, ceil0, n), MappedYs(size, hs, ceil0, n);
            b.ymin == MinOf(size.height, ys) && b.ymax == MaxOf(0, ys)
  {
    if n > 0 {
      CoveringBoxAfterY(size, hs, ceil0, n - 1);
      var h := Absolute(hs, n);
      assert CornersFinite(h, size);
      var b := CoveringBoxAfter(size, hs, ceil0, n - 1);
      var py, cy := MappedYs(size, hs, ceil0, n - 1), CornerYs(h, size, ceil0, 4);
      assert CoveringBoxAfter(size, hs, ceil0, n) == CoveringCorners(b, h, size, ceil0, 4);
      assert MappedYs(size, hs, ceil0, n) == py + cy;
      CoveringCornersY(b, h, size, ceil0, 4);
      MinOfAppend(size.height, py, cy);
      MaxOfAppend(0, py, cy);
      assert b.ymin == MinOf(size.height, py) && b.ymax == MaxOf(0, py);
    }
  }

  /** The corrected box contains every rounded mapped corner of every image. */
  lemma CoveringBoundingBoxContainsCorners(size: ImageSize, hs: seq<Mat3>, ceil0: real -> int)
    requires AllCornersFinite(size, hs)
    ensures var b, xs := CoveringBoundingBox(size, hs, ceil0), MappedXs(size, hs, ceil0, |hs|);
            forall k :: 0 <= k < |xs| ==> b.xmin <= xs[k] <= b.xmax
    ensures var b, ys := CoveringBoundingBox(size, hs, ceil0), MappedYs(size, hs, ceil0, |hs|);
            forall k :: 0 <= k < |ys| ==> b.ymin <= ys[k] <= b.ymax
  {
    CoveringBoxAfterX(size, hs, ceil0, |hs|);
    CoveringBoxAfterY(size, hs, ceil0, |hs|);
  }

  /** On the case where the source's box misses a corner, the corrected box is
      (2, 8, 5, 5). */
  lemma CoveringBoundingBoxKeepsCorner(ceil0: real -> int)
    requires ceil0(8.0) == 8 && ceil0(3.0) == 3 && ceil0(2.0) == 2 && ceil0(7.0) == 7 && ceil0(5.0) == 5
    ensures var hs := [Mat3(-0.1, -0.5, 8.0, 0.0, 0.0, 5.0, 0.0, 0.0, 1.0)];
            AllCornersFinite(ImageSize(10, 10), hs)
            && CoveringBoundingBox(ImageSize(10, 10), hs, ceil0) == Box(2, 8, 5, 5)
  {
    var h := Mat3(-0.1, -0.5, 8.0, 0.0, 0.0, 5.0, 0.0, 0.0, 1.0);
    var hs := [h];
    var size := ImageSize(10, 10);
    MulIdentity(h);
    assert Absolute(hs, 1) == h;
    assert Apply(h, Corner(size, 0)) == Vec3(8.0, 5.0, 1.0);
    assert Apply(h, Corner(size, 1)) == Vec3(3.0, 5.0, 1.0);
    assert Apply(h, Corner(size, 2)) == Vec3(2.0, 5.0, 1.0);
    assert Apply(h, Corner(size, 3)) == Vec3(7.0, 5.0, 1.0);
    assert AllCornersFinite(size, hs);
    assert MappedX(h, size, ceil0, 0) == 8 && MappedY(h, size, ceil0, 0) == 5;
    assert MappedX(h, size, ceil0, 1) == 3 && MappedY(h, size, ceil0, 1) == 5;
    assert MappedX(h, size, ceil0, 2) == 2 && MappedY(h, size, ceil0, 2) == 5;
    assert MappedX(h, size, ceil0, 3) == 7 && MappedY(h, size, ceil0, 3) == 5;
    var start := InitialBox(size);
    assert CoveringBoxAfter(size, hs, ceil0, 0) == Box(10, 0, 10, 0);
    assert CoveringCorners(start, h, size, ceil0, 1) == Box(8, 8, 5, 5);
    assert CoveringCorners(start, h, size, ceil0, 2) == Box(3, 8, 5, 5);
    assert CoveringCorners(start, h, size, ceil0, 3) == Box(2, 8, 5, 5);
    assert CoveringCorners(start, h, size, ceil0, 4) == Box(2, 8, 5, 5);
  }

  /** With no relative transforms the box keeps its start value (width, 0,
      height, 0): the first image's own corners are never mapped. */
  lemma BoundingBoxEmpty(size: ImageSize, ceil0: real -> int)
    ensures AllCornersFinite(size, [])
    ensures BoundingBox(size, [], ceil0) == InitialBox(size)
  {
  }

  /** Whether `ceil0` leaves the three integers the identity chain produces
      unchanged. */
  predicate FixesCorners(ceil0: real -> int, size: ImageSize) {
    ceil0(0.0) == 0 && ceil0(size.width as real) == size.width && ceil0(size.height as real) == size.height
  }

  lemma IdentityCorners(size: ImageSize, ceil0: real -> int, c: int)
    requires 0 <= c < 4 && FixesCorners(ceil0, size)
    ensures Apply(Identity(), Corner(size, c)).z == 1.0
    ensures MappedX(Identity(), size, ceil0, c) == (if c < 2 then 0 else size.width)
    ensures MappedY(Identity(), size, ceil0, c) == (if c == 0 || c == 3 then 0 else size.height)
  {
    ApplyIdentity(Corner(size, c));
  }

  /** One identity step takes the start box to (0, width, 0, height) and leaves
      that box unchanged. */
  lemma IdentityStep(b: Box, size: ImageSize, ceil0: real -> int)
    requires 0 < size.width && 0 < size.height && FixesCorners(ceil0, size)
    requires b == InitialBox(size) || b == Box(0, size.width, 0, size.height)
    ensures CornersFinite(Identity(), size)
    ensures WidenCorners(b, Identity(), size, ceil0, 4) == Box(0, size.width, 0, size.height)
  {
    var w, ht := size.width, size.height;
    IdentityCorners(size, ceil0, 0);
    IdentityCorners(size, ceil0, 1);
    IdentityCorners(size, ceil0, 2);
    IdentityCorners(size, ceil0, 3);
    var i := Identity();
    assert WidenCorners(b, i, size, ceil0, 1) == Box(0, b.xmax, 0, b.ymax);
    assert WidenCorners(b, i, size, ceil0, 2) == Box(0, b.xmax, 0, ht);
    assert WidenCorners(b, i, size, ceil0, 3) == Box(0, w, 0, ht);
  }

  /** A non-empty chain of identities on a non-empty image gives the box of the
      image itself, (0, width, 0, height), when `ceil0` fixes integers. */
  lemma {:induction false} BoxAfterIdentities(size: ImageSize, hs: seq<Mat3>, ceil0: real -> int, n: nat)
    requires 0 < size.width && 0 < size.height && FixesCorners(ceil0, size)
    requires forall i :: 0 <= i < |hs| ==> hs[i] == Identity()
    requires 1 <= n <= |hs|
    ensures AllCornersFinite(size, hs)
    ensures BoxAfter(size, hs, ceil0, n) == Box(0, size.width, 0, size.height)
  {
    IdentityStep(InitialBox(size), size, ceil0);
    forall m | 1 <= m <= |hs|
      ensures CornersFinite(Absolute(hs, m), size)
    {
      AbsoluteOfIdentities(hs, m);
    }
    AbsoluteOfIdentities(hs, n);
    if n > 1 {
      BoxAfterIdentities(size, hs, ceil0, n - 1);
      IdentityStep(Box(0, size.width, 0, size.height), size, ceil0);
    }
  }

  // ---------------------------------------------------------------------------
  // Registration and the per-image warps of BuildMosaic.

  /** Hreg, the translation that moves (xmin, ymin) to the origin. */
  function Registration(b: Box): Mat3 {
    Mat3(1.0, 0.0, -(b.xmin as real),
         0.0, 1.0, -(b.ymin as real),
         0.0, 0.0, 1.0)
  }

  /** Hreg maps (xmin, ymin, 1) to (0, 0, 1) and (xmax, ymax, 1) to
      (xmax - xmin, ymax - ymin, 1). */
  lemma RegistrationMapsBox(b: Box)
    ensures Apply(Registration(b), Vec3(b.xmin as real, b.ymin as real, 1.0)) == Vec3(0.0, 0.0, 1.0)
    ensures Apply(Registration(b), Vec3(b.xmax as real, b.ymax as real, 1.0))
         == Vec3((b.xmax - b.xmin) as real, (b.ymax - b.ymin) as real, 1.0)
  {
  }

  /** The mosaic width and height, `bbox(1) - bbox(0)` and `bbox(3) - bbox(2)`
      stored in an `unsigned int`: the difference modulo 2^32. */
  const UintModulus := 0x1_0000_0000

  function MosaicWidth(b: Box): nat {
    (b.xmax - b.xmin) % UintModulus
  }

  function MosaicHeight(b: Box): nat {
    (b.ymax - b.ymin) % UintModulus
  }

  /** A box of fewer than 2^32 columns gets its true width; an inverted box
      (xmax < xmin, what the assertion in BuildMosaic demands) wraps around to
      2^32 minus the difference. */
  lemma MosaicWidthWraps(b: Box)
    ensures 0 <= b.xmax - b.xmin < UintModulus ==> MosaicWidth(b) == b.xmax - b.xmin
    ensures -UintModulus < b.xmax - b.xmin < 0 ==> MosaicWidth(b) == UintModulus + (b.xmax - b.xmin)
    ensures 0 <= b.ymax - b.ymin < UintModulus ==> MosaicHeight(b) == b.ymax - b.ymin
    ensures -UintModulus < b.ymax - b.ymin < 0 ==> MosaicHeight(b) == UintModulus + (b.ymax - b.ymin)
  {
  }

  /** The transforms BuildMosaic warps the images with: H starts as the
      identity, is left-multiplied by Hs[i-1] before every image i > 0, and image
      i is warped with Hreg * H. Hs[i-1] must exist for every image but the first. */
  method WarpTransforms(hs: seq<Mat3>, imageCount: nat, bbox: Box) returns (warps: seq<Mat3>)
    requires imageCount <= |hs| + 1
    ensures |warps| == imageCount
    ensures forall i :: 0 <= i < imageCount ==> i <= |hs| && warps[i] == Mul(Registration(bbox), Absolute(hs, i))
  {
    var h := Identity();
    var hreg := Registration(bbox);
    warps := [];
    var i := 0;
    while i < imageCount
      invariant 0 <= i <= imageCount
      invariant h == Absolute(hs, if i == 0 then 0 else i - 1)
      invariant |warps| == i
      invariant forall k :: 0 <= k < i ==> k <= |hs| && warps[k] == Mul(hreg, Absolute(hs, k))
    {
      if i > 0 {
        h := Mul(hs[i - 1], h);
      }
      warps := warps + [Mul(hreg, h)];
      i := i + 1;
    }
  }

  /** The warp of image i is the registration after the same chain the bounding
      box uses, so the mapped corners of image i are the box's points moved by
      Hreg. */
  lemma WarpMapsCorners(hs: seq<Mat3>, bbox: Box, i: nat, size: ImageSize, c: int)
    requires i <= |hs| && 0 <= c < 4
    ensures Apply(Mul(Registration(bbox), Absolute(hs, i)), Corner(size, c))
         == Apply(Registration(bbox), Apply(Absolute(hs, i), Corner(size, c)))
  {
    ApplyMul(Registration(bbox), Absolute(hs, i), Corner(size, c));
  }
}
