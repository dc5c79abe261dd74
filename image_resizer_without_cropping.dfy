/**
 * The sizing of `ImageResizerWithoutCropping`: the same three-way comparison
 * of the scale factors as the cropping resizer, but the box is the bounds
 * themselves, except that the dominant axis keeps its original extent when its
 * scale exceeds 1. Nothing is narrowed and the copy is placed at (0, 0).
 */
module ImageResizerWithoutCropping {
  import opened ResizerBase

  /**
   * `_calculateNewSizeByMaxSize` of the non-cropping resizer. The width is the
   * original width exactly when width dominates with a scale above 1 and the
   * width bound otherwise; the height likewise.
   */
  function NewSizeByMaxSize(originalWidth: int, originalHeight: int, maxWidth: int, maxHeight: int): (r: Size)
    requires originalWidth > 0 && originalHeight > 0
    ensures var d := Compare(originalWidth, originalHeight, maxWidth, maxHeight);
      r.width == if d == WidthDominant && Scale(maxWidth, originalWidth) > 1.0
                 then originalWidth as real else maxWidth as real
    ensures var d := Compare(originalWidth, originalHeight, maxWidth, maxHeight);
      r.height == if d == HeightDominant && Scale(maxHeight, originalHeight) > 1.0
                  then originalHeight as real else maxHeight as real
  {
    var widthScale := Scale(maxWidth, originalWidth);
    var heightScale := Scale(maxHeight, originalHeight);
    match Compare(originalWidth, originalHeight, maxWidth, maxHeight)
    case WidthDominant =>
      if widthScale <= 1.0 then Size(maxWidth as real, maxHeight as real)
      else Size(originalWidth as real, maxHeight as real)
    case HeightDominant =>
      if heightScale <= 1.0 then Size(maxWidth as real, maxHeight as real)
      else Size(maxWidth as real, originalHeight as real)
    case Balanced =>
      Size(maxWidth as real, maxHeight as real)
  }

  /**
   * The box fits in the bounds on both axes; an axis that keeps its original
   * extent does so only because that extent is strictly below its bound.
   */
  lemma FitsBounds(originalWidth: int, originalHeight: int, maxWidth: int, maxHeight: int)
    requires originalWidth > 0 && originalHeight > 0
    ensures var r := NewSizeByMaxSize(originalWidth, originalHeight, maxWidth, maxHeight);
      && r.width <= maxWidth as real && r.height <= maxHeight as real
      && (r.width != maxWidth as real ==> originalWidth < maxWidth)
      && (r.height != maxHeight as real ==> originalHeight < maxHeight)
  {
  }

  /**
   * At most one axis departs from its bound: the box is the bounds themselves
   * unless one scale strictly dominates and exceeds 1.
   */
  lemma DepartsOnOneAxisAtMost(originalWidth: int, originalHeight: int, maxWidth: int, maxHeight: int)
    requires originalWidth > 0 && originalHeight > 0
    ensures var r := NewSizeByMaxSize(originalWidth, originalHeight, maxWidth, maxHeight);
      r.width == maxWidth as real || r.height == maxHeight as real
  {
  }

  /**
   * `resize`'s GD arguments once a resize is needed: the canvas is the bounds
   * as set, the transparent fill (alpha types) and the copy destination have
   * the computed size, and the copy starts at (0, 0) and reads the whole image.
   */
  function Plan(imageType: ImageType, originalWidth: int, originalHeight: int, maxWidth: int, maxHeight: int): (p: CopyPlan)
    requires originalWidth > 0 && originalHeight > 0
    ensures p.canvasWidth == maxWidth && p.canvasHeight == maxHeight
    ensures p.dst.x == 0.0 && p.dst.y == 0.0
    ensures p.src == WholeImage(originalWidth, originalHeight)
    ensures p.transparentFill.Some? <==> imageType.HasAlpha()
  {
    var r := NewSizeByMaxSize(originalWidth, originalHeight, maxWidth, maxHeight);
    CopyPlan(
      maxWidth, maxHeight,
      if imageType.HasAlpha() then Some(Corners(0.0, 0.0, r.width, r.height)) else None,
      Rect(0.0, 0.0, r.width, r.height),
      WholeImage(originalWidth, originalHeight))
  }

  /**
   * The copy lies inside the canvas, and the transparent fill (when present)
   * spans from (0, 0) to the copy's far corner. GD fills that corner too, so
   * the fill reaches one column (one row) past a copy narrower (lower) than
   * the canvas.
   */
  lemma CopyInsideCanvas(imageType: ImageType, originalWidth: int, originalHeight: int, maxWidth: int, maxHeight: int)
    requires originalWidth > 0 && originalHeight > 0
    ensures var p := Plan(imageType, originalWidth, originalHeight, maxWidth, maxHeight);
      && p.dst.x + p.dst.width <= p.canvasWidth as real
      && p.dst.y + p.dst.height <= p.canvasHeight as real
      && (p.transparentFill.Some? ==>
            p.transparentFill.value == Corners(0.0, 0.0, p.dst.x + p.dst.width, p.dst.y + p.dst.height))
  {
    FitsBounds(originalWidth, originalHeight, maxWidth, maxHeight);
  }

  /** An 800x600 image bounded by 400x400 is stretched onto the whole 400x400 canvas. */
  lemma LandscapeStretchedIntoSquare()
    ensures var p := Plan(Gif, 800, 600, 400, 400);
      p.canvasWidth == 400 && p.canvasHeight == 400 && p.dst == Rect(0.0, 0.0, 400.0, 400.0)
  {
  }

  /**
   * A 100x500 image bounded by 400x400 keeps its width of 100 (it would
   * otherwise be enlarged) on a 400x400 canvas.
   */
  lemma TallImageKeepsWidth()
    ensures var p := Plan(Png, 100, 500, 400, 400);
      p.canvasWidth == 400 && p.canvasHeight == 400 && p.dst == Rect(0.0, 0.0, 100.0, 400.0)
  {
  }
}
