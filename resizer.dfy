/**
 * The resizer object. One class stands for both PHP classes: `variant` records
 * which of the two was constructed (`ImageResizerWithoutCropping` inherits the
 * fields, the setters and `_needsResize`, and overrides `resize` and
 * `_calculateNewSizeByMaxSize`). The decoded raster, the GD calls and the file
 * are not modelled; `Resize` returns the arguments of the GD calls instead.
 */
module Resizer {
  import opened ResizerBase
  import Cropped = ImageResizer
  import Uncropped = ImageResizerWithoutCropping

  datatype Variant = CropToFill | WithoutCropping

  /** The GD arguments `resize` would use, for either variant, on values. */
  function PlanFor(variant: Variant, imageType: ImageType, originalWidth: int, originalHeight: int,
                   maxWidth: int, maxHeight: int): (p: CopyPlan)
    requires originalWidth > 0 && originalHeight > 0
  {
    match variant
    case CropToFill => Cropped.Plan(imageType, originalWidth, originalHeight, maxWidth, maxHeight)
    case WithoutCropping => Uncropped.Plan(imageType, originalWidth, originalHeight, maxWidth, maxHeight)
  }

  /**
   * A resized image written back has the canvas size, so a new resizer built
   * on the rewritten file with the same bounds has nothing to do. (A second
   * call on the same object is another matter: see SecondResizeReplansStaleExtents.)
   */
  lemma ResizedImageNeedsNoResize(variant: Variant, imageType: ImageType, originalWidth: int, originalHeight: int,
                                  maxWidth: int, maxHeight: int)
    requires originalWidth > 0 && originalHeight > 0
    ensures var p := PlanFor(variant, imageType, originalWidth, originalHeight, maxWidth, maxHeight);
      !NeedsResize(p.canvasWidth, p.canvasHeight, maxWidth, maxHeight)
  {
    if variant == CropToFill {
      Cropped.NarrowsOnlyEnlargedAxis(originalWidth, originalHeight, maxWidth, maxHeight);
    }
  }

  /**
   * A second `resize` on the same object does not see the rewritten file: the
   * original extents are constants recorded by the constructor, and they still
   * exceed the bounds the first call left behind (whose values are the first
   * canvas). So the second call plans again, and plans the very same copy,
   * reading the whole original extent although the file now has the canvas size.
   */
  lemma SecondResizeReplansStaleExtents(variant: Variant, imageType: ImageType, originalWidth: int, originalHeight: int,
                                        maxWidth: int, maxHeight: int)
    requires originalWidth > 0 && originalHeight > 0
    requires NeedsResize(originalWidth, originalHeight, maxWidth, maxHeight)
    ensures var p := PlanFor(variant, imageType, originalWidth, originalHeight, maxWidth, maxHeight);
      && NeedsResize(originalWidth, originalHeight, p.canvasWidth, p.canvasHeight)
      && PlanFor(variant, imageType, originalWidth, originalHeight, p.canvasWidth, p.canvasHeight) == p
      && p.src == WholeImage(originalWidth, originalHeight)
  {
    if variant == CropToFill {
      Cropped.NarrowsOnlyEnlargedAxis(originalWidth, originalHeight, maxWidth, maxHeight);
      var s := Cropped.NewSizeByMaxSize(originalWidth, originalHeight, maxWidth, maxHeight);
      if s.maxWidth != maxWidth {
        assert Compare(originalWidth, originalHeight, originalWidth, maxHeight) == WidthDominant;
      } else if s.maxHeight != maxHeight {
        assert Compare(originalWidth, originalHeight, maxWidth, originalHeight) == HeightDominant;
      }
    }
  }

  /**
   * With only the height bound set (the width bound left at `null`, that is
   * 0), a needed resize yields a canvas whose width is that unset bound, for
   * both variants; the width case is symmetric.
   */
  lemma UnsetWidthBoundIsCanvasWidth(variant: Variant, imageType: ImageType, originalWidth: int, originalHeight: int,
                                     maxHeight: int)
    requires originalWidth > 0 && originalHeight > 0
    requires NeedsResize(originalWidth, originalHeight, 0, maxHeight)
    ensures PlanFor(variant, imageType, originalWidth, originalHeight, 0, maxHeight).canvasWidth == 0
  {
    if variant == CropToFill {
      Cropped.NarrowsOnlyEnlargedAxis(originalWidth, originalHeight, 0, maxHeight);
      assert Scale(0, originalWidth) == 0.0;
    }
  }

  class ImageResizer {
    const originalWidth: int
    const originalHeight: int
    const imageType: ImageType
    const variant: Variant
    /** The width bound; 0 stands for the initial `null` (unset). */
    var maxWidth: int
    /** The height bound; 0 stands for the initial `null` (unset). */
    var maxHeight: int

    /** The constructor admits only images with positive extents. */
    predicate Valid() {
      originalWidth > 0 && originalHeight > 0
    }

    /**
     * The state after a successful constructor: the image's metadata is
     * recorded and neither bound is set.
     */
    constructor (originalWidth: int, originalHeight: int, imageType: ImageType, variant: Variant)
      requires originalWidth > 0 && originalHeight > 0
      ensures Valid()
      ensures this.originalWidth == originalWidth && this.originalHeight == originalHeight
      ensures this.imageType == imageType && this.variant == variant
      ensures maxWidth == 0 && maxHeight == 0
    {
      this.originalWidth := originalWidth;
      this.originalHeight := originalHeight;
      this.imageType := imageType;
      this.variant := variant;
      maxWidth := 0;
      maxHeight := 0;
    }

    /** `maxWidth($width)`: sets the width bound only and returns the object itself. */
    method MaxWidth(width: int) returns (self: ImageResizer)
      modifies this`maxWidth
      ensures self == this
      ensures maxWidth == width && maxHeight == old(maxHeight)
    {
      maxWidth := width;
      self := this;
    }

    /** `maxHeight($height)`: sets the height bound only and returns the object itself. */
    method MaxHeight(height: int) returns (self: ImageResizer)
      modifies this`maxHeight
      ensures self == this
      ensures maxHeight == height && maxWidth == old(maxWidth)
    {
      maxHeight := height;
      self := this;
    }

    /** `_needsResize` on the current bounds. */
    predicate NeedsResize()
      reads this
    {
      ResizerBase.NeedsResize(originalWidth, originalHeight, maxWidth, maxHeight)
    }

    /**
     * `_calculateNewSizeByMaxSize`, dispatched on the variant. The cropping
     * variant narrows the dominant bound in place, part way through, and
     * derives the other extent from the narrowed bound; the other variant
     * only reads the bounds.
     */
    method CalculateNewSize() returns (newSize: Size)
      requires Valid()
      modifies this`maxWidth, this`maxHeight
      ensures variant == CropToFill ==>
        var s := Cropped.NewSizeByMaxSize(originalWidth, originalHeight, old(maxWidth), old(maxHeight));
        newSize == s.size && maxWidth == s.maxWidth && maxHeight == s.maxHeight
      ensures variant == WithoutCropping ==>
        && newSize == Uncropped.NewSizeByMaxSize(originalWidth, originalHeight, maxWidth, maxHeight)
        && maxWidth == old(maxWidth) && maxHeight == old(maxHeight)
    {
      if variant == WithoutCropping {
        newSize := Uncropped.NewSizeByMaxSize(originalWidth, originalHeight, maxWidth, maxHeight);
        return;
      }
      var widthScale := Scale(maxWidth, originalWidth);
      var heightScale := Scale(maxHeight, originalHeight);
      var scaledWidth, scaledHeight;
      if widthScale > heightScale {
        if widthScale <= 1.0 {
          scaledWidth := maxWidth as real;
          scaledHeight := originalHeight as real / originalWidth as real * maxWidth as real;
        } else {
          scaledWidth := originalWidth as real;
          maxWidth := originalWidth;
          scaledHeight := originalHeight as real / originalWidth as real * maxWidth as real;
        }
      } else if heightScale > widthScale {
        if heightScale <= 1.0 {
          scaledWidth := originalWidth as real / originalHeight as real * maxHeight as real;
          scaledHeight := maxHeight as real;
        } else {
          scaledHeight := originalHeight as real;
          maxHeight := originalHeight;
          scaledWidth := originalWidth as real / originalHeight as real * maxHeight as real;
        }
      } else {
        // the source's third test, widthScale == heightScale, holds here
        scaledHeight := maxHeight as real;
        scaledWidth := maxWidth as real;
      }
      newSize := Size(scaledWidth, scaledHeight);
    }

    /**
     * `resize`. When no bound is violated it returns true and changes nothing.
     * Otherwise it computes the new size (which may narrow a bound), builds the
     * canvas from the bounds as they then are, and records the fill and copy
     * arguments; the result is the copy's success, `copySucceeds`, which GD
     * decides. The image file is rewritten exactly when a plan is returned
     * together with true.
     */
    method Resize(copySucceeds: bool) returns (ok: bool, plan: Option<CopyPlan>)
      requires Valid()
      modifies this`maxWidth, this`maxHeight
      ensures !old(NeedsResize()) ==>
        ok && plan == None && maxWidth == old(maxWidth) && maxHeight == old(maxHeight)
      ensures old(NeedsResize()) ==>
        && ok == copySucceeds
        && plan == Some(PlanFor(variant, imageType, originalWidth, originalHeight, old(maxWidth), old(maxHeight)))
        && plan.value.canvasWidth == maxWidth && plan.value.canvasHeight == maxHeight
      ensures variant == CropToFill && old(NeedsResize()) ==>
        var s := Cropped.NewSizeByMaxSize(originalWidth, originalHeight, old(maxWidth), old(maxHeight));
        maxWidth == s.maxWidth && maxHeight == s.maxHeight
      ensures variant == WithoutCropping ==> maxWidth == old(maxWidth) && maxHeight == old(maxHeight)
    {
      if !NeedsResize() {
        return true, None;
      }
      var newSize := CalculateNewSize();
      var fill := if imageType.HasAlpha() then Some(Corners(0.0, 0.0, newSize.width, newSize.height)) else None;
      var dst;
      if variant == CropToFill {
        dst := Rect(0.0 - (newSize.width - maxWidth as real) / 2.0, 0.0 - (newSize.height - maxHeight as real) / 2.0,
                    newSize.width, newSize.height);
      } else {
        dst := Rect(0.0, 0.0, newSize.width, newSize.height);
      }
      plan := Some(CopyPlan(maxWidth, maxHeight, fill, dst, WholeImage(originalWidth, originalHeight)));
      ok := copySucceeds;
    }
  }

  /**
   * A caller's view of the chained setters and of `resize` on a 100x500 PNG
   * bounded by 400x400 with cropping: the width bound narrows to 100, and the
   * image written back fits the bounds.
   */
  method ResizeTallImage() returns (ok: bool, plan: Option<CopyPlan>)
    ensures ok && plan.Some?
    ensures plan.value.canvasWidth == 100 && plan.value.canvasHeight == 400
    ensures plan.value.dst == Rect(0.0, -50.0, 100.0, 500.0)
  {
    var resizer := new ImageResizer(100, 500, Png, CropToFill);
    var r := resizer.MaxWidth(400);
    r := r.MaxHeight(400);
    assert resizer.NeedsResize();
    ok, plan := resizer.Resize(true);
    assert plan.value == Cropped.Plan(Png, 100, 500, 400, 400);
    Cropped.NarrowTallImage();
  }

  /**
   * Resizing the same 100x500 cropping resizer twice: the second call still
   * needs a resize and returns the same plan, which reads a 100x500 source.
   */
  method ResizeTallImageTwice() returns (first: Option<CopyPlan>, second: Option<CopyPlan>)
    ensures first.Some? && second == first
    ensures second.value.src == Rect(0.0, 0.0, 100.0, 500.0)
  {
    var resizer := new ImageResizer(100, 500, Png, CropToFill);
    var r := resizer.MaxWidth(400);
    r := r.MaxHeight(400);
    var ok;
    ok, first := resizer.Resize(true);
    SecondResizeReplansStaleExtents(CropToFill, Png, 100, 500, 400, 400);
    ok, second := resizer.Resize(true);
  }
}
