/**
 * Values shared by both resizers: the image types the constructor admits, the
 * box and rectangle values that stand for the arguments handed to GD, the two
 * scale factors and their three-way comparison, and the "needs resize" test.
 *
 * A bound that was never set is PHP `null`; in every expression the resizers
 * evaluate (`null > 0`, `null / x`, `x > null`) it behaves as the integer 0,
 * so an unset bound is modelled as 0.
 */
module ResizerBase {

  datatype Option<+T> = None | Some(value: T)

  /** The three types admitted by the constructor's `supportTypes` check. */
  datatype ImageType = Gif | Jpeg | Png {
    /** The types whose canvas is made transparent before the copy. */
    predicate HasAlpha() {
      this == Png || this == Gif
    }
  }

  /** A box of (possibly fractional) width and height, as PHP computes it. */
  datatype Size = Size(width: real, height: real)

  /** A rectangle: origin and extent, as passed to `imagecopyresampled`. */
  datatype Rect = Rect(x: real, y: real, width: real, height: real)

  /**
   * Two corners, as passed to `imagefilledrectangle`: the near corner
   * (x1, y1) and the far corner (x2, y2), both filled (GD's range is inclusive).
   */
  datatype Corners = Corners(x1: real, y1: real, x2: real, y2: real)

  /**
   * The GD work of one `resize` call, recorded as the arguments it passes:
   * `imagecreatetruecolor(canvasWidth, canvasHeight)`, the transparent
   * `imagefilledrectangle` between two corners (present for alpha types only), and
   * `imagecopyresampled` with destination `dst` and source `src`.
   */
  datatype CopyPlan = CopyPlan(
    canvasWidth: int,
    canvasHeight: int,
    transparentFill: Option<Corners>,
    dst: Rect,
    src: Rect)

  /** The rectangle covering the whole original image. */
  function WholeImage(originalWidth: int, originalHeight: int): (r: Rect) {
    Rect(0.0, 0.0, originalWidth as real, originalHeight as real)
  }

  /** `width_scale` / `height_scale`: a bound divided by the original extent. */
  function Scale(bound: int, original: int): (r: real)
    requires original > 0
    ensures r * original as real == bound as real
    ensures r > 1.0 <==> bound > original
    ensures r == 1.0 <==> bound == original
  {
    bound as real / original as real
  }

  /** The outcome of comparing `width_scale` with `height_scale`. */
  datatype Dominance = WidthDominant | HeightDominant | Balanced

  /**
   * The three-way comparison of the sizing code: `width_scale > height_scale`,
   * else `height_scale > width_scale`, else `width_scale == height_scale`.
   * Under exact arithmetic the last test always holds when reached, so exactly
   * one branch fires; each outcome is characterised by cross-multiplication.
   */
  function Compare(originalWidth: int, originalHeight: int, maxWidth: int, maxHeight: int): (d: Dominance)
    requires originalWidth > 0 && originalHeight > 0
    ensures d == WidthDominant <==> maxWidth * originalHeight > maxHeight * originalWidth
    ensures d == HeightDominant <==> maxHeight * originalWidth > maxWidth * originalHeight
    ensures d == Balanced <==> maxWidth * originalHeight == maxHeight * originalWidth
  {
    var widthScale := Scale(maxWidth, originalWidth);
    var heightScale := Scale(maxHeight, originalHeight);
    ScalesCrossMultiplied(maxWidth, originalWidth, maxHeight, originalHeight);
    ScalesCrossMultiplied(maxHeight, originalHeight, maxWidth, originalWidth);
    if widthScale > heightScale then WidthDominant
    else if heightScale > widthScale then HeightDominant
    else Balanced
  }

  /** Comparing two scales is comparing the cross products of their terms. */
  lemma ScalesCrossMultiplied(b1: int, o1: int, b2: int, o2: int)
    requires o1 > 0 && o2 > 0
    ensures Scale(b1, o1) > Scale(b2, o2) <==> b1 * o2 > b2 * o1
  {
    var s1, s2 := Scale(b1, o1), Scale(b2, o2);
    var p := o1 as real * o2 as real;
    assert (b1 * o2) as real == s1 * p by {
      assert s1 * o1 as real == b1 as real;
      assert s1 * p == (s1 * o1 as real) * o2 as real;
    }
    assert (b2 * o1) as real == s2 * p by {
      assert s2 * o2 as real == b2 as real;
      assert s2 * p == (s2 * o2 as real) * o1 as real;
    }
    ScaleByPositive(s1, s2, p);
  }

  /** Multiplying both sides by a positive factor keeps a strict order. */
  lemma ScaleByPositive(a: real, b: real, p: real)
    requires p > 0.0
    ensures a > b <==> a * p > b * p
  {
    if a > b {
      assert (a - b) * p > 0.0;
    } else {
      assert (b - a) * p >= 0.0;
    }
  }

  /**
   * `_needsResize`: a bound is violated when it is set (`> 0`) and the original
   * extent on its axis exceeds it; the width test is made first. A resize is
   * never needed while both bounds are unset.
   */
  predicate NeedsResize(originalWidth: int, originalHeight: int, maxWidth: int, maxHeight: int): (r: bool)
    ensures r ==> maxWidth > 0 || maxHeight > 0
    ensures r ==> originalWidth > maxWidth || originalHeight > maxHeight
  {
    if maxWidth > 0 && originalWidth > maxWidth then true
    else if maxHeight > 0 && originalHeight > maxHeight then true
    else false
  }

  /**
   * GD takes integer arguments; PHP hands it a float by truncating toward zero.
   */
  function TruncateToInt(r: real): (n: int)
    ensures r >= 0.0 ==> n as real <= r < n as real + 1.0
    ensures r < 0.0 ==> n as real - 1.0 < r <= n as real
  {
    if r >= 0.0 then r.Floor else -((-r).Floor)
  }

  /** Truncation toward zero never reverses an order. */
  lemma TruncateMonotone(a: real, b: real)
    requires a <= b
    ensures TruncateToInt(a) <= TruncateToInt(b)
  {
  }

  /** An integer argument reaches GD unchanged. */
  lemma TruncateKeepsIntegers(n: int)
    ensures TruncateToInt(n as real) == n
  {
  }
}
