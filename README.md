# Image resizer sizing and placement, in Dafny

This project models the sizing and placement rules of the PHP library
`Suin\ImageResizer`. The library has two resizer classes:

- `ImageResizer` scales the image to cover a bounding box and crops the
  overflow. The scaled copy is centred on a canvas of the bounds, with offsets
  of at most 0.
- `ImageResizerWithoutCropping` uses the same three-way comparison of the scale
  factors `maxWidth / originalWidth` and `maxHeight / originalHeight`. It copies
  onto a canvas of the bounds at (0, 0), with a box made of the bounds or the
  original extents.

Modules:

- `ResizerBase` (`resizer_base.dfy`) holds the shared values. These are the
  image types, the box, rectangle and GD-argument records, the scale factors
  and their comparison, `_needsResize` on values, and PHP's truncation of float
  arguments to GD integers.
- `ImageResizer` (`image_resizer.dfy`) holds the cropping sizing as a function.
  Its result carries the bounds after narrowing. The module also has the GD
  arguments of `resize` and the lemmas about both.
- `ImageResizerWithoutCropping` (`image_resizer_without_cropping.dfy`) holds
  the non-cropping sizing and its GD arguments.
- `Resizer` (`resizer.dfy`) holds the object. The class `ImageResizer` stores
  the original extents and image type as constants and the bounds as mutable
  fields. It has the chained setters, `_needsResize`, the sizing method and
  `resize`. The sizing method narrows a bound in place part way through, as the
  source does, and is proved equal to the module functions. The PHP subclass
  inherits the fields, the setters and `_needsResize`, and overrides sizing and
  `resize`. It also redeclares `__construct`, but only to call the parent's, so
  construction behaves the same. Both PHP classes are therefore one Dafny class whose
  constant `variant` says which one was constructed.

An unset bound is PHP `null`. In every expression the code evaluates
(`null > 0`, `null / x`), `null` behaves as 0, so 0 stands for "unset". The
bounds are `int`, as the setters' `@param int` docblocks say. The setters do
not check their argument.
Scales are compared with exact `real` arithmetic. PHP would use doubles.

The cropping class does not letterbox. The scaled box covers the canvas
(`ImageResizer.CoversCanvas`), and the offsets `-(scaled - max) / 2` are at
most 0, so the overflow is cut off. Aspect ratio is kept in every branch,
including equal scales (`ImageResizer.NewSizeByMaxSize`).

The original extents are recorded once, by the constructor. A second `resize`
on the same object therefore plans the same copy again from those extents,
although the file now has the canvas size
(`Resizer.SecondResizeReplansStaleExtents`).

Both variants behave the same way when only one bound is set. The canvas
extent on the unset axis is that bound, which is 0
(`Resizer.UnsetWidthBoundIsCanvasWidth`). This is what `imagecreatetruecolor`
receives at `ImageResizer.php:123`.

## Model

| member | source | states |
|---|---|---|
| `ResizerBase.Scale` | Source/Suin/ImageResizer/ImageResizer.php:184-185 | a scale times the original extent is the bound; it exceeds 1 exactly when the bound exceeds the original, and is 1 exactly when they are equal |
| `ResizerBase.Compare` | Source/Suin/ImageResizer/ImageResizer.php:187-215 | the three-way comparison of the scales is exhaustive; each outcome holds exactly when the matching cross-multiplied inequality or equality of the integer terms holds |
| `ResizerBase.ScalesCrossMultiplied` | Source/Suin/ImageResizer/ImageResizer.php:187 | `maxW/origW > maxH/origH` holds exactly when `maxW*origH > maxH*origW`, for positive originals |
| `ResizerBase.NeedsResize` | Source/Suin/ImageResizer/ImageResizer.php:162-175 | a resize is needed only when some bound is set and some original extent exceeds its bound; its defining property, that the rewritten image needs no resize, is `Resizer.ResizedImageNeedsNoResize` |
| `ResizerBase.TruncateToInt` | Source/Suin/ImageResizer/ImageResizer.php:134 | a float argument reaches GD as the integer next to it toward zero |
| `ImageResizer.ScaledByLargerFactor` | Source/Suin/ImageResizer/ImageResizer.php:184-215 | the scaled box is the original size times one factor: the larger scale, or 1 when the scales differ and the larger exceeds 1 |
| `ImageResizer.NewSizeByMaxSize` | Source/Suin/ImageResizer/ImageResizer.php:181-221 | in every branch, equal scales included, `scaledW * origH == scaledH * origW`; its other properties are `ImageResizer.ScaledByLargerFactor`, `ImageResizer.NarrowsOnlyEnlargedAxis` and `ImageResizer.CoversCanvas` |
| `ImageResizer.NarrowsOnlyEnlargedAxis` | Source/Suin/ImageResizer/ImageResizer.php:187-215 | the width bound changes exactly when width dominates with scale > 1 and then becomes the original width, and the height bound likewise; bounds never grow, at most one changes, and when one changes the box is the original size |
| `ImageResizer.CoversCanvas` | Source/Suin/ImageResizer/ImageResizer.php:187-215 | when a resize is needed, the scaled box is at least the narrowed bounds on both axes |
| `ImageResizer.Plan` | Source/Suin/ImageResizer/ImageResizer.php:123-134 | the canvas is the narrowed bounds; the copy reads the whole source and keeps the aspect ratio; the transparent fill appears exactly for PNG/GIF and spans from (0, 0) to the copy's far corner |
| `ImageResizer.PlanCentresAndCrops` | Source/Suin/ImageResizer/ImageResizer.php:123-134 | when a resize is needed, both destination offsets are at most 0 and one is 0; the overflow is split evenly on each axis; the fill's far corner reaches the canvas's far edges, so the whole canvas is cleared |
| `ImageResizer.TruncatedPlanStillCrops` | Source/Suin/ImageResizer/ImageResizer.php:134 | after truncation to GD integers the offsets are still at most 0 and the copy size still covers the canvas |
| `ImageResizer.LandscapeIntoSquare` | Source/Suin/ImageResizer/ImageResizer.php:184-203 | 800x600 bounded by 400x400 gives a 1600/3 x 400 copy at x = -200/3 (GD gets -66) on a 400x400 canvas |
| `ImageResizer.NarrowTallImage` | Source/Suin/ImageResizer/ImageResizer.php:192-197 | 100x500 bounded by 400x400 narrows the width bound to 100 and gives a 100x500 copy at y = -50 on a 100x400 canvas, with no fill for JPEG |
| `ImageResizerWithoutCropping.NewSizeByMaxSize` | Source/Suin/ImageResizer/ImageResizerWithoutCropping.php:74-112 | the width is the original width when width dominates with scale > 1, and the width bound otherwise; the height likewise |
| `ImageResizerWithoutCropping.FitsBounds` | Source/Suin/ImageResizer/ImageResizerWithoutCropping.php:80-106 | the box fits within the bounds; an axis that keeps its original extent has that extent strictly below its bound |
| `ImageResizerWithoutCropping.DepartsOnOneAxisAtMost` | Source/Suin/ImageResizer/ImageResizerWithoutCropping.php:80-106 | at least one extent of the box equals its bound |
| `ImageResizerWithoutCropping.Plan` | Source/Suin/ImageResizer/ImageResizerWithoutCropping.php:39-50 | the canvas is the bounds as set; the copy starts at (0, 0) and reads the whole original; the transparent fill appears exactly for PNG/GIF |
| `ImageResizerWithoutCropping.CopyInsideCanvas` | Source/Suin/ImageResizer/ImageResizerWithoutCropping.php:39-50 | the copied region lies inside the canvas, and the fill spans from (0, 0) to the copy's far corner; GD fills that corner inclusively, so the fill reaches one column or row past a copy smaller than the canvas |
| `ImageResizerWithoutCropping.LandscapeStretchedIntoSquare` | Source/Suin/ImageResizer/ImageResizerWithoutCropping.php:91-96 | 800x600 bounded by 400x400 is stretched onto the whole 400x400 canvas |
| `ImageResizerWithoutCropping.TallImageKeepsWidth` | Source/Suin/ImageResizer/ImageResizerWithoutCropping.php:80-89 | 100x500 bounded by 400x400 gives a 100x400 copy at (0, 0) on a 400x400 canvas |
| `Resizer.ResizedImageNeedsNoResize` | Source/Suin/ImageResizer/ImageResizer.php:162-175 | for both variants, an image of the canvas size does not need resizing under the same bounds, so a new resizer built on the rewritten file with the same bounds has nothing to do |
| `Resizer.SecondResizeReplansStaleExtents` | Source/Suin/ImageResizer/ImageResizer.php:65-66 | for both variants, after a needed resize the constructor's extents still exceed the bounds left behind, and a second call on the same object plans the same copy from the whole original extent |
| `Resizer.UnsetWidthBoundIsCanvasWidth` | Source/Suin/ImageResizer/ImageResizer.php:123 | for both variants, when only the height bound is set, a needed resize builds a canvas of width 0 |
| `Resizer.ImageResizer.constructor` | Source/Suin/ImageResizer/ImageResizer.php:35-69 | records the original extents, type and variant; both bounds start unset |
| `Resizer.ImageResizer.MaxWidth` | Source/Suin/ImageResizer/ImageResizer.php:76-80 | sets only the width bound and returns the same object |
| `Resizer.ImageResizer.MaxHeight` | Source/Suin/ImageResizer/ImageResizer.php:87-91 | sets only the height bound and returns the same object |
| `Resizer.ImageResizer.CalculateNewSize` | Source/Suin/ImageResizer/ImageResizer.php:181-221 | cropping: the returned box and the bounds left in the object are those of `ImageResizer.NewSizeByMaxSize`, so only the enlarged dominant bound is narrowed; without cropping: the box of `ImageResizerWithoutCropping.NewSizeByMaxSize` and both bounds untouched |
| `Resizer.ImageResizer.Resize` | Source/Suin/ImageResizer/ImageResizer.php:98-156 | with no bound violated it returns true, plans nothing and changes nothing; otherwise it returns the copy's success and the GD arguments of the variant's plan on the bounds before the call, and the canvas is the bounds left in the object, which for cropping are the narrowed bounds of `ImageResizer.NewSizeByMaxSize`; without cropping the bounds never change (ImageResizerWithoutCropping.php:14-72) |
| `Resizer.ResizeTallImage` | Source/Suin/ImageResizer/ImageResizer.php:76-134 | chaining both setters to 400 on a 100x500 PNG with cropping and resizing gives a 100x400 canvas with the copy at y = -50 |
| `Resizer.ResizeTallImageTwice` | Source/Suin/ImageResizer/ImageResizer.php:98-134 | resizing that resizer twice gives the same plan both times, and the second still reads a 100x500 source |

## Left out

- File checks in the constructor (`is_file`, `is_readable`, `is_writable`) and `getimagesize` are filesystem I/O. The constructor takes the extents and type as parameters, and the type is an enumeration of GIF, JPEG and PNG. The `default:` throws of `resize` cannot be reached and are not modelled.
- The file name and MIME type fields are used only for I/O, so they are not modelled.
- GD calls (`imagecreatefrom*`, `imagecreatetruecolor`, alpha blending, `imagecopyresampled`, the encoders) are a foreign raster library. Only their arguments are recorded, in `CopyPlan`. What GD does with a canvas of non-positive size is not modelled.
- The success of `imagecopyresampled` is decided by GD. It is the parameter `copySucceeds` of `Resize`. The encode and write that follow a successful copy are I/O.
- PHP's floating-point rounding in the scale comparison and in the scaled extents is not modelled: exact `real` arithmetic replaces doubles. Truncation of the float arguments to GD integers is modelled only in `ImageResizer.TruncatedPlanStillCrops` and the scenario lemmas.
- An original width or height of 0 makes PHP divide by zero. The constructor requires both to be positive.
- The bounds are integers, as the `@param int` docblocks say. Fractional or string bounds, which the untyped setters accept, are not modelled.
