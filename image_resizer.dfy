/**
 * The crop-to-fill sizing of `ImageResizer`: the image is scaled by the larger
 * of the two scale factors so that it covers the bounding box, and the copy is
 * centred on the canvas with the overflow cut off on both sides.
 *
 * The sizing code also narrows the stored bound on the dominant axis to the
 * original extent when that axis would be enlarged; `Sizing` carries those
 * maxima next to the box, and the class in module Resizer writes them back.
 */
module ImageResizer {
  import opened ResizerBase

  /** What `_calculateNewSizeByMaxSize` yields: the box and the bounds it leaves. */
  datatype Sizing = Sizing(size: Size, maxWidth: int, maxHeight: int)

  /**
   * `_calculateNewSizeByMaxSize` of the cropping resizer, on values: the scaled
   * box, computed with the source's own formulas (`originalHeight /
   * originalWidth * maxWidth` and its mirror), and the bounds after narrowing.
   * The aspect ratio of the original is kept in every branch, the one of
   * equal scales included.
   */
  function NewSizeByMaxSize(originalWidth: int, originalHeight: int, maxWidth: int, maxHeight: int): (r: Sizing)
    requires originalWidth > 0 && originalHeight > 0
    ensures r.size.width * originalHeight as real == r.size.height * originalWidth as real
  {
    var ow, oh := originalWidth as real, originalHeight as real;
    match Compare(originalWidth, originalHeight, maxWidth, maxHeight)
    case WidthDominant =>
      if Scale(maxWidth, originalWidth) <= 1.0 then
        Sizing(Size(maxWidth as real, oh / ow * maxWidth as real), maxWidth, maxHeight)
      else
        Sizing(Size(ow, oh / ow * ow), originalWidth, maxHeight)
    case HeightDominant =>
      if Scale(maxHeight, originalHeight) <= 1.0 then
        Sizing(Size(ow / oh * maxHeight as real, maxHeight as real), maxWidth, maxHeight)
      else
        Sizing(Size(ow / oh * oh, oh), maxWidth, originalHeight)
    case Balanced =>
      Sizing(Size(maxWidth as real, maxHeight as real), maxWidth, maxHeight)
  }

  /**
   * Reference for the scaled box: the factor applied to both axes is the larger
   * scale, except that it is 1 (no enlargement) when the two scales differ and
   * the larger one exceeds 1.
   */
  function ScaleFactor(originalWidth: int, originalHeight: int, maxWidth: int, maxHeight: int): (f: real)
    requires originalWidth > 0 && originalHeight > 0
  {
    var widthScale, heightScale := Scale(maxWidth, originalWidth), Scale(maxHeight, originalHeight);
    var larger := if widthScale >= heightScale then widthScale else heightScale;
    if widthScale != heightScale && larger > 1.0 then 1.0 else larger
  }

  /** Both axes of the box are the original extents times one common factor. */
  lemma ScaledByLargerFactor(originalWidth: int, originalHeight: int, maxWidth: int, maxHeight: int)
    requires originalWidth > 0 && originalHeight > 0
    ensures var f := ScaleFactor(originalWidth, originalHeight, maxWidth, maxHeight);
      NewSizeByMaxSize(originalWidth, originalHeight, maxWidth, maxHeight).size
        == Size(f * originalWidth as real, f * originalHeight as real)
  {
    var ow, oh := originalWidth as real, originalHeight as real;
    var widthScale, heightScale := Scale(maxWidth, originalWidth), Scale(maxHeight, originalHeight);
    assert oh / ow * maxWidth as real == widthScale * oh;
    assert ow / oh * maxHeight as real == heightScale * ow;
    assert oh / ow * ow == oh;
    assert ow / oh * oh == ow;
  }

  /**
   * Narrowing: the width bound changes exactly when width dominates with a
   * scale above 1, and then becomes the original width (the height bound
   * likewise); a bound never grows, at most one of them changes, and when one
   * does the box is the original size.
   */
  lemma NarrowsOnlyEnlargedAxis(originalWidth: int, originalHeight: int, maxWidth: int, maxHeight: int)
    requires originalWidth > 0 && originalHeight > 0
    ensures var s := NewSizeByMaxSize(originalWidth, originalHeight, maxWidth, maxHeight);
      var d := Compare(originalWidth, originalHeight, maxWidth, maxHeight);
      && (s.maxWidth != maxWidth <==> d == WidthDominant && Scale(maxWidth, originalWidth) > 1.0)
      && (s.maxHeight != maxHeight <==> d == HeightDominant && Scale(maxHeight, originalHeight) > 1.0)
      && (s.maxWidth != maxWidth ==> s.maxWidth == originalWidth)
      && (s.maxHeight != maxHeight ==> s.maxHeight == originalHeight)
      && s.maxWidth <= maxWidth && s.maxHeight <= maxHeight
      && (s.maxWidth == maxWidth || s.maxHeight == maxHeight)
      && ((s.maxWidth, s.maxHeight) != (maxWidth, maxHeight)
          ==> s.size == Size(originalWidth as real, originalHeight as real))
  {
    ScaledByLargerFactor(originalWidth, originalHeight, maxWidth, maxHeight);
  }

  /**
   * When a bound is violated, the scaled box covers the canvas, whose extents
   * are the bounds after narrowing: nothing of the canvas is left uncovered.
   */
  lemma CoversCanvas(originalWidth: int, originalHeight: int, maxWidth: int, maxHeight: int)
    requires originalWidth > 0 && originalHeight > 0
    requires NeedsResize(originalWidth, originalHeight, maxWidth, maxHeight)
    ensures var s := NewSizeByMaxSize(originalWidth, originalHeight, maxWidth, maxHeight);
      s.size.width >= s.maxWidth as real && s.size.height >= s.maxHeight as real
  {
    var ow, oh := originalWidth as real, originalHeight as real;
    var widthScale, heightScale := Scale(maxWidth, originalWidth), Scale(maxHeight, originalHeight);
    ScaledByLargerFactor(originalWidth, originalHeight, maxWidth, maxHeight);
    if widthScale > heightScale {
      assert widthScale * oh >= heightScale * oh;
    } else if heightScale > widthScale {
      assert heightScale * ow >= widthScale * ow;
    }
  }

  /**
   * `resize`'s GD arguments once a resize is needed: the canvas is the narrowed
   * bounds, the transparent fill (alpha types) and the copy destination have
   * the scaled size, the destination origin is `-(scaled - max) / 2` on each
   * axis, and the copy reads the whole original image.
   */
  function Plan(imageType: ImageType, originalWidth: int, originalHeight: int, maxWidth: int, maxHeight: int): (p: CopyPlan)
    requires originalWidth > 0 && originalHeight > 0
    ensures var s := NewSizeByMaxSize(originalWidth, originalHeight, maxWidth, maxHeight);
      p.canvasWidth == s.maxWidth && p.canvasHeight == s.maxHeight
    ensures p.src == WholeImage(originalWidth, originalHeight)
    ensures p.transparentFill.Some? <==> imageType.HasAlpha()
    ensures p.transparentFill.Some? ==>
      p.transparentFill.value == Corners(0.0, 0.0, p.dst.width, p.dst.height)
    ensures p.dst.width * originalHeight as real == p.dst.height * originalWidth as real
  {
    var s := NewSizeByMaxSize(originalWidth, originalHeight, maxWidth, maxHeight);
    var w, h := s.size.width, s.size.height;
    CopyPlan(
      s.maxWidth, s.maxHeight,
      if imageType.HasAlpha() then Some(Corners(0.0, 0.0, w, h)) else None,
      Rect(0.0 - (w - s.maxWidth as real) / 2.0, 0.0 - (h - s.maxHeight as real) / 2.0, w, h),
      WholeImage(originalWidth, originalHeight))
  }

  /**
   * The copy is centred and crops: both destination offsets are at most 0,
   * at least one is exactly 0, the overflow is split evenly between the two
   * sides of each axis, and the transparent fill (when present) reaches the
   * far edges of the canvas, so the whole canvas is cleared.
   */
  lemma PlanCentresAndCrops(imageType: ImageType, originalWidth: int, originalHeight: int, maxWidth: int, maxHeight: int)
    requires originalWidth > 0 && originalHeight > 0
    requires NeedsResize(originalWidth, originalHeight, maxWidth, maxHeight)
    ensures var p := Plan(imageType, originalWidth, originalHeight, maxWidth, maxHeight);
      && p.dst.x <= 0.0 && p.dst.y <= 0.0
      && (p.dst.x == 0.0 || p.dst.y == 0.0)
      && 0.0 - p.dst.x == p.dst.x + p.dst.width - p.canvasWidth as real
      && 0.0 - p.dst.y == p.dst.y + p.dst.height - p.canvasHeight as real
      && (p.transparentFill.Some? ==>
            p.transparentFill.value.x2 >= p.canvasWidth as real
            && p.transparentFill.value.y2 >= p.canvasHeight as real)
  {
    CoversCanvas(originalWidth, originalHeight, maxWidth, maxHeight);
    ScaledByLargerFactor(originalWidth, originalHeight, maxWidth, maxHeight);
  }

  /**
   * The same holds of the integers GD receives: truncating the destination
   * offsets toward zero keeps them at most 0, and the truncated copy size
   * still covers the canvas.
   */
  lemma TruncatedPlanStillCrops(imageType: ImageType, originalWidth: int, originalHeight: int, maxWidth: int, maxHeight: int)
    requires originalWidth > 0 && originalHeight > 0
    requires NeedsResize(originalWidth, originalHeight, maxWidth, maxHeight)
    ensures var p := Plan(imageType, originalWidth, originalHeight, maxWidth, maxHeight);
      && TruncateToInt(p.dst.x) <= 0 && TruncateToInt(p.dst.y) <= 0
      && TruncateToInt(p.dst.width) >= p.canvasWidth
      && TruncateToInt(p.dst.height) >= p.canvasHeight
  {
    var p := Plan(imageType, originalWidth, originalHeight, maxWidth, maxHeight);
    PlanCentresAndCrops(imageType, originalWidth, originalHeight, maxWidth, maxHeight);
    TruncateMonotone(p.dst.x, 0.0);
    TruncateMonotone(p.dst.y, 0.0);
    TruncateKeepsIntegers(0);
    TruncateMonotone(p.canvasWidth as real, p.dst.width);
    TruncateMonotone(p.canvasHeight as real, p.dst.height);
    TruncateKeepsIntegers(p.canvasWidth);
    TruncateKeepsIntegers(p.canvasHeight);
  }

  /**
   * An 800x600 image bounded by 400x400 becomes a 533.33x400 copy centred on a
   * 400x400 canvas, 66.67 pixels to the left (GD receives -66).
   */
  lemma LandscapeIntoSquare()
    ensures var p := Plan(Png, 800, 600, 400, 400);
      && p.canvasWidth == 400 && p.canvasHeight == 400
      && p.dst == Rect(-200.0 / 3.0, 0.0, 1600.0 / 3.0, 400.0)
      && TruncateToInt(p.dst.x) == -66
  {
  }

  /**
   * A 100x500 image bounded by 400x400 would be enlarged in width, so the
   * width bound narrows to 100: the full-size copy is centred on a 100x400
   * canvas, 50 pixels up.
   */
  lemma NarrowTallImage()
    ensures var p := Plan(Jpeg, 100, 500, 400, 400);
      && p.canvasWidth == 100 && p.canvasHeight == 400
      && p.dst == Rect(0.0, -50.0, 100.0, 500.0)
      && p.transparentFill == None
  {
  }
}
