/**
 * `ImageManager.calculateInSampleSize` and the guard in `loadBitmapScaled`
 * that decides whether it runs. The Kotlin and Java twins have the same
 * body, so one method models both.
 *
 * The sample size starts at `BITMAP_SAMPLE_SIZE_MIN` and doubles while both
 * halved image dimensions, divided by it, still reach the requested ones.
 * Everything is JVM `int` arithmetic: the division truncates (`JavaDiv`) and
 * the contract shows the doubling never leaves the `int` range.
 */
module ImageManager {
  import opened Bits

  /** `Constants.ImageConfig.BITMAP_SAMPLE_SIZE_MIN`. */
  const BITMAP_SAMPLE_SIZE_MIN := 1

  /** `n` is 1, 2, 4, 8, ... */
  predicate IsPowerOfTwo(n: int)
    decreases if n > 0 then n else 0
  {
    n == 1 || (n > 1 && n % 2 == 0 && IsPowerOfTwo(n / 2))
  }

  /** The image already fits the request, so no subsampling is attempted. */
  predicate Fits(height: int, width: int, reqWidth: int, reqHeight: int) {
    height <= reqHeight && width <= reqWidth
  }

  /** The loop condition at sample size `q`: both halved dimensions divided by `q` still reach the request. */
  predicate Keeps(halfHeight: int, halfWidth: int, reqWidth: int, reqHeight: int, q: int)
    requires q > 0
  {
    JavaDiv(halfHeight, q) >= reqHeight && JavaDiv(halfWidth, q) >= reqWidth
  }

  /**
   * What `calculateInSampleSize` promises, independently of its loop: a power
   * of two, 1 for an image that fits, and otherwise the smallest power of two
   * at which the halved dimensions stop reaching the request.
   */
  ghost predicate IsSampleSize(height: int, width: int, reqWidth: int, reqHeight: int, r: int) {
    && r >= BITMAP_SAMPLE_SIZE_MIN && IsPowerOfTwo(r)
    && (Fits(height, width, reqWidth, reqHeight) ==> r == BITMAP_SAMPLE_SIZE_MIN)
    && (!Fits(height, width, reqWidth, reqHeight) ==>
          var halfHeight := JavaDiv(height, 2);
          var halfWidth := JavaDiv(width, 2);
          && !Keeps(halfHeight, halfWidth, reqWidth, reqHeight, r)
          && forall q | 0 < q < r && IsPowerOfTwo(q) :: Keeps(halfHeight, halfWidth, reqWidth, reqHeight, q))
  }

  /**
   * `calculateInSampleSize(options, reqWidth, reqHeight)` with the decoded
   * bounds `options.outHeight` and `options.outWidth` passed in directly.
   * Its only caller runs it with positive requested dimensions, which is what
   * makes the loop terminate.
   */
  method CalculateInSampleSize(height: Int32, width: Int32, reqWidth: Int32, reqHeight: Int32) returns (r: Int32)
    requires reqWidth > 0 && reqHeight > 0
    ensures IsSampleSize(height, width, reqWidth, reqHeight, r)
    ensures r > 1 ==> Keeps(JavaDiv(height, 2), JavaDiv(width, 2), reqWidth, reqHeight, r / 2)
  {
    r := BITMAP_SAMPLE_SIZE_MIN;
    if height > reqHeight || width > reqWidth {
      var halfHeight := JavaDiv(height, 2);
      var halfWidth := JavaDiv(width, 2);
      while JavaDiv(halfHeight, r) >= reqHeight && JavaDiv(halfWidth, r) >= reqWidth
        invariant r >= 1 && IsPowerOfTwo(r)
        invariant forall q | 0 < q < r && IsPowerOfTwo(q) :: Keeps(halfHeight, halfWidth, reqWidth, reqHeight, q)
        decreases halfHeight - r
      {
        Doubling(height, halfHeight, halfWidth, reqWidth, reqHeight, r);
        r := 2 * r;
      }
      if r > 1 {
        HalfIsPower(r);
      }
    }
  }

  /**
   * `loadBitmapScaled`'s use of the calculation: the sample size is set only
   * when both requested dimensions are positive, and is otherwise left as the
   * decoder's default (`None` here).
   */
  method ScaledSampleSize(height: Int32, width: Int32, reqWidth: Int32, reqHeight: Int32) returns (inSampleSize: Option<Int32>)
    ensures inSampleSize.Some? <==> reqWidth > 0 && reqHeight > 0
    ensures inSampleSize.Some? ==> IsSampleSize(height, width, reqWidth, reqHeight, inSampleSize.value)
  {
    if reqWidth > 0 && reqHeight > 0 {
      var size := CalculateInSampleSize(height, width, reqWidth, reqHeight);
      inSampleSize := Some(size);
    } else {
      inSampleSize := None;
    }
  }

  /**
   * One turn of the loop: doubling a sample size that keeps the request
   * stays inside the JVM `int` range, still leaves every smaller power of two
   * keeping the request, and brings the sample size closer to the halved
   * height.
   */
  lemma Doubling(height: Int32, halfHeight: int, halfWidth: int, reqWidth: int, reqHeight: int, r: int)
    requires reqWidth > 0 && reqHeight > 0 && halfHeight == JavaDiv(height, 2)
    requires r >= 1 && IsPowerOfTwo(r) && Keeps(halfHeight, halfWidth, reqWidth, reqHeight, r)
    requires forall q | 0 < q < r && IsPowerOfTwo(q) :: Keeps(halfHeight, halfWidth, reqWidth, reqHeight, q)
    ensures 2 * r < 0x8000_0000 && IsPowerOfTwo(2 * r) && r <= halfHeight
    ensures forall q | 0 < q < 2 * r && IsPowerOfTwo(q) :: Keeps(halfHeight, halfWidth, reqWidth, reqHeight, q)
  {
    QuotientReachesDivisor(halfHeight, r, reqHeight);
    assert (2 * r) / 2 == r;
    forall q | 0 < q < 2 * r && IsPowerOfTwo(q)
      ensures Keeps(halfHeight, halfWidth, reqWidth, reqHeight, q)
    {
      PowerBelowDouble(q, r);
    }
  }

  /** A truncated quotient that reaches a positive target means the dividend is at least the divisor. */
  lemma QuotientReachesDivisor(a: int, q: int, target: int)
    requires q > 0 && target > 0 && JavaDiv(a, q) >= target
    ensures q <= a
  {
  }

  /** A multiple of `s` that stays within `a` is at most `a / s` times `s`. */
  lemma MultipleBelowQuotient(d: int, s: int, a: int)
    requires s > 0 && a >= 0 && d * s <= a
    ensures d <= a / s
  {
    if d > a / s {
      MulMonotone(a / s + 1, d, s);
      assert false;
    }
  }

  /** Multiplying by a non-negative factor keeps order. */
  lemma MulMonotone(x: int, y: int, s: int)
    requires x <= y && s >= 0
    ensures x * s <= y * s
  {
    assert y * s - x * s == (y - x) * s;
  }

  /** Half of a power of two above 1 is a power of two. */
  lemma HalfIsPower(n: int)
    requires IsPowerOfTwo(n) && n > 1
    ensures IsPowerOfTwo(n / 2) && 2 * (n / 2) == n
  {
  }

  /** No power of two lies strictly between `r` and `2 * r`. */
  lemma {:induction false} PowerBelowDouble(q: int, r: int)
    requires IsPowerOfTwo(q) && IsPowerOfTwo(r) && q < 2 * r
    ensures q <= r
    decreases r
  {
    if q > 1 && r > 1 {
      PowerBelowDouble(q / 2, r / 2);
    }
  }

  /** A larger sample size never keeps what a smaller one loses. */
  lemma KeepsAntitone(halfHeight: int, halfWidth: int, reqWidth: int, reqHeight: int, small: int, large: int)
    requires reqWidth > 0 && reqHeight > 0 && 0 < small <= large
    requires Keeps(halfHeight, halfWidth, reqWidth, reqHeight, large)
    ensures Keeps(halfHeight, halfWidth, reqWidth, reqHeight, small)
  {
    QuotientReachesDivisor(halfHeight, large, reqHeight);
    QuotientReachesDivisor(halfWidth, large, reqWidth);
    DivisionAntitone(halfHeight, small, large);
    DivisionAntitone(halfWidth, small, large);
  }

  /** Dividing a non-negative number by more gives no more. */
  lemma DivisionAntitone(a: int, small: int, large: int)
    requires a >= 0 && 0 < small <= large
    ensures a / large <= a / small
  {
    var d := a / large;
    assert d >= 0;
    assert d * large <= a;
    assert d * small <= d * large by {
      assert d * large - d * small == d * (large - small);
    }
    MultipleBelowQuotient(d, small, a);
  }

  /**
   * For an image that does not fit, the sample size is the largest power of
   * two `p` such that the halved dimensions divided by `p / 2` still reach the
   * request: every sample size from the result on loses the request.
   */
  lemma SampleSizeIsLargest(height: int, width: int, reqWidth: int, reqHeight: int, r: int, q: int)
    requires reqWidth > 0 && reqHeight > 0
    requires IsSampleSize(height, width, reqWidth, reqHeight, r)
    requires !Fits(height, width, reqWidth, reqHeight) && q >= r
    ensures !Keeps(JavaDiv(height, 2), JavaDiv(width, 2), reqWidth, reqHeight, q)
  {
    if Keeps(JavaDiv(height, 2), JavaDiv(width, 2), reqWidth, reqHeight, q) {
      KeepsAntitone(JavaDiv(height, 2), JavaDiv(width, 2), reqWidth, reqHeight, r, q);
      assert false;
    }
  }

  /** The promise pins the sample size down: two values meeting it are equal. */
  lemma SampleSizeIsUnique(height: int, width: int, reqWidth: int, reqHeight: int, r1: int, r2: int)
    requires reqWidth > 0 && reqHeight > 0
    requires IsSampleSize(height, width, reqWidth, reqHeight, r1)
    requires IsSampleSize(height, width, reqWidth, reqHeight, r2)
    ensures r1 == r2
  {
  }

  /**
   * An image that does not fit but whose halved dimensions already miss the
   * request at 1 keeps sample size 1: a 3-pixel-high image asked for 2 pixels.
   */
  lemma SmallOversizeKeepsOne()
    ensures IsSampleSize(3, 1, 1, 2, 1)
  {
  }

  /** A 4000 by 3000 image asked for 1000 by 1000 is sampled by 2: halving once still leaves 1500 rows. */
  lemma PhotoSampledByTwo()
    ensures IsSampleSize(3000, 4000, 1000, 1000, 2)
  {
    assert IsPowerOfTwo(2);
    forall q | 0 < q < 2 && IsPowerOfTwo(q)
      ensures Keeps(1500, 2000, 1000, 1000, q)
    {
      assert q == 1;
    }
  }
}
