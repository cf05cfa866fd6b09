/**
 * The sample-size arithmetic of Picasso's decode planner: from the dimensions a
 * bounds-only probe reported and the requested target box, the integer factor by
 * which the platform decoder subsamples the image.
 *
 * Widths and heights reported by the decoder are Java `int`s (the platform reports
 * -1 when it cannot read the header); targets are non-negative, with 0 meaning
 * "this axis is unconstrained".  The source computes each ratio as
 * `(int) Math.floor((float) n / (float) d)` with `d > 0`; Dafny's `/` on `int` with
 * a positive divisor rounds towards negative infinity, so it is exactly that floor.
 */
module Sizing {

  /** `q` is the floor of `n / d`: the largest integer whose multiple of `d` is at most `n`. */
  predicate IsFloorRatio(q: int, n: int, d: int) {
    d > 0 && q * d <= n < (q + 1) * d
  }

  /**
   * Subsampling by `k` still leaves the image at least as large as the target box
   * on both axes, so a centre crop can cover the box without upscaling.  This is what
   * every request that is not centre-inside (centre crop or a plain resize) gets.
   */
  predicate CoversBox(k: int, reqWidth: nat, reqHeight: nat, width: int, height: int) {
    k * reqWidth <= width && k * reqHeight <= height
  }

  /**
   * Subsampling by `k` leaves the image at least as large as the target box on at
   * least one axis, so fitting it inside the box never upscales both axes.
   */
  predicate ReachesBox(k: int, reqWidth: nat, reqHeight: nat, width: int, height: int) {
    k * reqWidth <= width || k * reqHeight <= height
  }

  /** Floor division by a positive divisor, with its defining inequalities. */
  function FloorRatio(n: int, d: int): (q: int)
    requires d > 0
    ensures IsFloorRatio(q, n, d)
  {
    n / d
  }

  /** Multiplying by a non-negative factor keeps an inequality. */
  lemma MulMonotone(a: int, b: int, c: nat)
    requires a <= b
    ensures a * c <= b * c
  {
    assert b * c - a * c == (b - a) * c;
  }

  /** The floor ratio is the only integer with the floor's defining inequalities. */
  lemma {:induction false} FloorRatioUnique(q: int, p: int, n: int, d: int)
    requires IsFloorRatio(q, n, d) && IsFloorRatio(p, n, d)
    ensures q == p
  {
    if q < p {
      MulMonotone(q + 1, p, d);
    } else if p < q {
      MulMonotone(p + 1, q, d);
    }
  }

  /** Monotonicity of the two box predicates: a smaller factor keeps what a larger one has. */
  lemma BoxesDownwardClosed(j: int, k: int, reqWidth: nat, reqHeight: nat, width: int, height: int)
    requires j <= k
    ensures CoversBox(k, reqWidth, reqHeight, width, height) ==> CoversBox(j, reqWidth, reqHeight, width, height)
    ensures ReachesBox(k, reqWidth, reqHeight, width, height) ==> ReachesBox(j, reqWidth, reqHeight, width, height)
  {
    MulMonotone(j, k, reqWidth);
    MulMonotone(j, k, reqHeight);
  }

  /**
   * `BitmapUtils.calculateInSampleSize`'s arithmetic.  When the source fits the box
   * the result is 1.  When it exceeds the target on some axis: with one axis
   * unconstrained the result is the floor ratio of the other axis; with both
   * constrained it is the largest factor that still covers the box (any request that
   * is not centre-inside: centre crop or a plain resize) or still reaches it on one
   * axis (centre inside).  The result is not clamped: a source smaller than the
   * target on the constrained axis gives 0.
   * Both targets 0 would divide by zero; the planner only asks when a target is set.
   */
  function SampleSize(reqWidth: nat, reqHeight: nat, width: int, height: int, centerInside: bool): (r: int)
    requires reqWidth != 0 || reqHeight != 0
    ensures height <= reqHeight && width <= reqWidth ==> r == 1
    ensures (height > reqHeight || width > reqWidth) && reqHeight == 0 ==> IsFloorRatio(r, width, reqWidth)
    ensures (height > reqHeight || width > reqWidth) && reqHeight != 0 && reqWidth == 0 ==>
      IsFloorRatio(r, height, reqHeight)
    ensures (height > reqHeight || width > reqWidth) && reqHeight != 0 && reqWidth != 0 && !centerInside ==>
      CoversBox(r, reqWidth, reqHeight, width, height) && !CoversBox(r + 1, reqWidth, reqHeight, width, height)
    ensures (height > reqHeight || width > reqWidth) && reqHeight != 0 && reqWidth != 0 && centerInside ==>
      ReachesBox(r, reqWidth, reqHeight, width, height) && !ReachesBox(r + 1, reqWidth, reqHeight, width, height)
  {
    if height > reqHeight || width > reqWidth then
      if reqHeight == 0 then
        FloorRatio(width, reqWidth)
      else if reqWidth == 0 then
        FloorRatio(height, reqHeight)
      else
        var heightRatio := FloorRatio(height, reqHeight);
        var widthRatio := FloorRatio(width, reqWidth);
        var r := if centerInside then Max(heightRatio, widthRatio) else Min(heightRatio, widthRatio);
        BothAxesRatio(reqWidth, reqHeight, width, height, heightRatio, widthRatio);
        r
    else
      1
  }

  function Max(a: int, b: int): int { if a < b then b else a }
  function Min(a: int, b: int): int { if a < b then a else b }

  /**
   * The max of the two floor ratios is the largest factor that reaches the box,
   * and their min the largest that covers it.
   */
  lemma BothAxesRatio(reqWidth: nat, reqHeight: nat, width: int, height: int, heightRatio: int, widthRatio: int)
    requires reqWidth > 0 && reqHeight > 0
    requires IsFloorRatio(heightRatio, height, reqHeight) && IsFloorRatio(widthRatio, width, reqWidth)
    ensures ReachesBox(Max(heightRatio, widthRatio), reqWidth, reqHeight, width, height)
    ensures !ReachesBox(Max(heightRatio, widthRatio) + 1, reqWidth, reqHeight, width, height)
    ensures CoversBox(Min(heightRatio, widthRatio), reqWidth, reqHeight, width, height)
    ensures !CoversBox(Min(heightRatio, widthRatio) + 1, reqWidth, reqHeight, width, height)
  {
    var hi, lo := Max(heightRatio, widthRatio), Min(heightRatio, widthRatio);
    MulMonotone(heightRatio + 1, hi + 1, reqHeight);
    MulMonotone(widthRatio + 1, hi + 1, reqWidth);
    MulMonotone(lo, heightRatio, reqHeight);
    MulMonotone(lo, widthRatio, reqWidth);
  }

  /**
   * For the same inputs, a request that is not centre-inside (centre crop or plain
   * resize) never subsamples more than a centre-inside one: covering the box is the
   * stricter requirement.
   */
  lemma {:induction false} CropNotAboveInside(reqWidth: nat, reqHeight: nat, width: int, height: int)
    requires reqWidth != 0 || reqHeight != 0
    ensures SampleSize(reqWidth, reqHeight, width, height, false) <= SampleSize(reqWidth, reqHeight, width, height, true)
  {
    var crop := SampleSize(reqWidth, reqHeight, width, height, false);
    var inside := SampleSize(reqWidth, reqHeight, width, height, true);
    if (height > reqHeight || width > reqWidth) && reqHeight != 0 && reqWidth != 0 && inside < crop {
      // crop covers the box, so it reaches it; inside + 1 <= crop then reaches it too.
      BoxesDownwardClosed(inside + 1, crop, reqWidth, reqHeight, width, height);
      assert false;
    }
  }

  /**
   * The fit characterisations determine the result: any factor that covers the box
   * while its successor does not is the sample size when not centre-inside, and any
   * factor that reaches the box while its successor does not is the centre-inside
   * sample size.
   */
  lemma {:induction false} SampleSizeIsLargestFit(reqWidth: nat, reqHeight: nat, width: int, height: int, k: int)
    requires reqWidth != 0 && reqHeight != 0 && (height > reqHeight || width > reqWidth)
    ensures CoversBox(k, reqWidth, reqHeight, width, height) && !CoversBox(k + 1, reqWidth, reqHeight, width, height)
      ==> k == SampleSize(reqWidth, reqHeight, width, height, false)
    ensures ReachesBox(k, reqWidth, reqHeight, width, height) && !ReachesBox(k + 1, reqWidth, reqHeight, width, height)
      ==> k == SampleSize(reqWidth, reqHeight, width, height, true)
  {
    var crop := SampleSize(reqWidth, reqHeight, width, height, false);
    var inside := SampleSize(reqWidth, reqHeight, width, height, true);
    if k < crop {
      BoxesDownwardClosed(k + 1, crop, reqWidth, reqHeight, width, height);
    } else if crop < k {
      BoxesDownwardClosed(crop + 1, k, reqWidth, reqHeight, width, height);
    }
    if k < inside {
      BoxesDownwardClosed(k + 1, inside, reqWidth, reqHeight, width, height);
    } else if inside < k {
      BoxesDownwardClosed(inside + 1, k, reqWidth, reqHeight, width, height);
    }
  }

  /** For a positive divisor, `k * d <= n` exactly when `k` is at most the floor of `n / d`. */
  lemma {:induction false} BelowFloorRatio(k: int, n: int, d: int)
    requires d > 0
    ensures k * d <= n <==> k <= n / d
  {
    var q := FloorRatio(n, d);
    if k <= q {
      MulMonotone(k, q, d);
    } else {
      MulMonotone(q + 1, k, d);
    }
  }

  /** The box predicates read on the subsampled dimensions, for a positive factor. */
  lemma {:induction false} BoxesOnDecodedSize(k: int, reqWidth: nat, reqHeight: nat, width: int, height: int)
    requires k >= 1
    ensures CoversBox(k, reqWidth, reqHeight, width, height) <==> width / k >= reqWidth && height / k >= reqHeight
    ensures ReachesBox(k, reqWidth, reqHeight, width, height) <==> width / k >= reqWidth || height / k >= reqHeight
  {
    BelowFloorRatio(reqWidth, width, k);
    BelowFloorRatio(reqHeight, height, k);
  }

  /**
   * Not centre-inside (centre crop or plain resize), both axes constrained, the source
   * at least the target on both: the
   * sample size is at least 1, the image subsampled by it is still at least the
   * target on both axes, and subsampling by one more would fall short on one of them.
   */
  lemma {:induction false} CropDecodeCoversBox(reqWidth: nat, reqHeight: nat, width: int, height: int)
    requires reqWidth != 0 && reqHeight != 0 && (height > reqHeight || width > reqWidth)
    requires width >= reqWidth && height >= reqHeight
    ensures var r := SampleSize(reqWidth, reqHeight, width, height, false);
      r >= 1
      && width / r >= reqWidth && height / r >= reqHeight
      && (width / (r + 1) < reqWidth || height / (r + 1) < reqHeight)
  {
    var r := SampleSize(reqWidth, reqHeight, width, height, false);
    assert CoversBox(1, reqWidth, reqHeight, width, height);
    if r < 1 {
      // then r + 1 <= 1 would cover the box, as 1 does
      BoxesDownwardClosed(r + 1, 1, reqWidth, reqHeight, width, height);
      assert false;
    }
    BoxesOnDecodedSize(r, reqWidth, reqHeight, width, height);
    BoxesOnDecodedSize(r + 1, reqWidth, reqHeight, width, height);
  }

  /**
   * Centre inside, both axes constrained: the sample size is at least 1, the image
   * subsampled by it is at least the target on one axis, and subsampling by one more
   * would leave it smaller than the target on both.
   */
  lemma {:induction false} InsideDecodeReachesBox(reqWidth: nat, reqHeight: nat, width: int, height: int)
    requires reqWidth != 0 && reqHeight != 0 && (height > reqHeight || width > reqWidth)
    ensures var r := SampleSize(reqWidth, reqHeight, width, height, true);
      r >= 1
      && (width / r >= reqWidth || height / r >= reqHeight)
      && width / (r + 1) < reqWidth && height / (r + 1) < reqHeight
  {
    var r := SampleSize(reqWidth, reqHeight, width, height, true);
    assert ReachesBox(1, reqWidth, reqHeight, width, height);
    if r < 1 {
      // then r + 1 <= 1 would reach the box, as 1 does
      BoxesDownwardClosed(r + 1, 1, reqWidth, reqHeight, width, height);
      assert false;
    }
    BoxesOnDecodedSize(r, reqWidth, reqHeight, width, height);
    BoxesOnDecodedSize(r + 1, reqWidth, reqHeight, width, height);
  }

  /** One axis unconstrained: the result is the exact floor ratio of the other axis. */
  lemma {:induction false} SingleAxisSampleSize(reqWidth: nat, reqHeight: nat, width: int, height: int, centerInside: bool)
    requires reqWidth != 0 || reqHeight != 0
    requires height > reqHeight || width > reqWidth
    ensures reqHeight == 0 ==> SampleSize(reqWidth, reqHeight, width, height, centerInside) == width / reqWidth
    ensures reqHeight != 0 && reqWidth == 0 ==>
      SampleSize(reqWidth, reqHeight, width, height, centerInside) == height / reqHeight
  {
    var r := SampleSize(reqWidth, reqHeight, width, height, centerInside);
    if reqHeight == 0 {
      FloorRatioUnique(r, width / reqWidth, width, reqWidth);
    } else if reqWidth == 0 {
      FloorRatioUnique(r, height / reqHeight, height, reqHeight);
    }
  }

  /**
   * There is no clamp to 1: with the height unconstrained and the source narrower
   * than the target width, the sample size is 0.
   */
  lemma SampleSizeCanBeZero()
    ensures SampleSize(1000, 0, 500, 400, true) == 0
  {
    assert IsFloorRatio(0, 500, 1000);
    FloorRatioUnique(SampleSize(1000, 0, 500, 400, true), 0, 500, 1000);
  }

  /** 4000x3000 into a 1000x1000 box: 4 for centre inside, 3 otherwise (centre crop or plain resize). */
  lemma LandscapeIntoSquare()
    ensures SampleSize(1000, 1000, 4000, 3000, true) == 4
    ensures SampleSize(1000, 1000, 4000, 3000, false) == 3
  {
    SampleSizeIsLargestFit(1000, 1000, 4000, 3000, 4);
    SampleSizeIsLargestFit(1000, 1000, 4000, 3000, 3);
  }

  /** 800x600 with only the height constrained to 300: the height ratio, 2. */
  lemma HeightOnlyTarget(centerInside: bool)
    ensures SampleSize(0, 300, 800, 600, centerInside) == 2
  {
    SingleAxisSampleSize(0, 300, 800, 600, centerInside);
  }
}
