# Gradient-blur vision simulator, modelled in Dafny

The application shows three views of one image: what an uncorrected eye sees,
what the eye sees after a correction, and normal vision. Each view is drawn by
a gradient-blur renderer. The renderer sizes a canvas to the image, draws the
image, and, unless the strength is zero or the direction is `none`, cuts the
height into ten horizontal bands. Each band is overwritten with the same rows
of a copy of the image blurred at that band's own radius. A small orchestrator
turns the two signed slider values (prescription and correction) into the
three renderer calls.

The model has six modules:

- `Raster` (raster.dfy): images as values (`Image`, rows of pixels) and the
  platform blur filter as the subset type `Filter`. A filter keeps an image's
  dimensions, and radius 0 leaves the image unchanged. Nothing else about the
  blur kernel is assumed.
- `Bands` (bands.dfy): the band boundaries `floor(i * H / 10)` and a
  closed-form band index `BandOf(y, H) = (10y + 9) / H`. Lemmas show the
  bands tile `[0, H)` and differ in height by at most one row.
- `BlurLevels` (levels.dfy): the per-band radius for each direction, with
  its end points, bounds and strict monotonicity.
- `GradientBlur` (gradient_blur.dfy): `Rendered`, the finished raster as a
  function of (image, strength, direction, filter) alone, and lemmas about it.
- `Drawing` (canvas.dfy): the `Canvas` class. Its bitmap is an array of rows.
  Its methods resize, clear, draw and copy strips in place. Its method
  `RenderGradientBlur` runs the band loop and is proved to leave exactly
  `Rendered(...)` on the canvas.
- `Views` (views.dfy): the orchestrator `RenderImages`, the sign and
  magnitude rule, and the nearsighted/farsighted label.

The model follows what the code computes, not its comments. The comments at
src/App.jsx:72 and :75 describe the opposite of the formulas. In the code,
bottom-to-top gives the TOP band (band 0, rows from 0) the full strength,
falling to a tenth of it at the bottom band. Top-to-bottom leaves the top band
unblurred and reaches nine tenths of the strength at the bottom band, never
the full strength.

The renderer does not require a non-negative strength, because the code does
not. A negative strength gives every band a radius of at most zero. The filter
is then skipped everywhere and the image is drawn unchanged
(`GradientBlur.NotPositiveIsSource`).

## Model

| member | source | states |
|---|---|---|
| `Bands.BandEndpoints` | src/App.jsx:79-80 | the first band starts at row 0, the last ends at the full height, and each band ends where the next starts |
| `Bands.BandStartMonotone` | src/App.jsx:79-80 | band boundaries never decrease with the band index and never pass the height |
| `Bands.BandWithinImage` | src/App.jsx:79-80 | every band satisfies yStart <= yEnd <= height |
| `Bands.BandHeight` | src/App.jsx:79-80 | every band holds height/10 rows or one more |
| `Bands.BandMembership` | src/App.jsx:79-80 | a row of the image lies in band i exactly when i is its closed-form band index, and that index is below 10; so the ten bands tile [0, height) |
| `Bands.BandsCover` | src/App.jsx:79-80 | every row of the image is in some band |
| `Bands.BandsDisjoint` | src/App.jsx:79-80 | no row is in two different bands |
| `BlurLevels.LevelEndpoints` | src/App.jsx:71-77 | bottom-to-top gives band 0 maxBlur and band 9 maxBlur/10; top-to-bottom gives band 0 zero and band 9 nine tenths of maxBlur |
| `BlurLevels.LevelStrictlyMonotone` | src/App.jsx:71-77 | for maxBlur > 0 the radius strictly falls with the band index bottom-to-top and strictly rises top-to-bottom |
| `BlurLevels.LevelBounds` | src/App.jsx:71-77 | for maxBlur >= 0 every radius is in [0, maxBlur]; bottom-to-top never reaches 0 and top-to-bottom never reaches maxBlur when maxBlur > 0 |
| `BlurLevels.LevelNotPositive` | src/App.jsx:71-77 | a strength <= 0 gives no band a positive radius |
| `GradientBlur.BandSource` | src/App.jsx:83-95 | the scratch canvas of a band has the image's dimensions |
| `GradientBlur.Rendered` | src/App.jsx:49-56 | the finished raster has the image's height and every row the image's width |
| `GradientBlur.SkipIsOnlyAnOptimization` | src/App.jsx:91-95 | skipping the filter at radius 0 gives the same scratch canvas as filtering |
| `GradientBlur.ShortCircuitIsSource` | src/App.jsx:56-58 | strength 0 or direction none renders the unmodified image |
| `GradientBlur.RenderedBand` | src/App.jsx:68-103 | every row of band i equals that row of the image blurred at band i's radius, or of the unfiltered image when that radius is not positive |
| `GradientBlur.NotPositiveIsSource` | src/App.jsx:58-95 | a strength <= 0 renders the unmodified image in every direction |
| `GradientBlur.TopBand` | src/App.jsx:71-80 | for a positive strength the top band is sharp top-to-bottom and blurred at the full strength bottom-to-top |
| `GradientBlur.HundredSquareScenario` | src/App.jsx:68-103 | on a 100-row image at strength 5 top-to-bottom, rows 0-9 are the source and rows 90-99 are the source blurred at radius 4.5 |
| `Drawing.Canvas.constructor` | src/App.jsx:136-140 | a new canvas has the given size and a transparent bitmap |
| `Drawing.Canvas.Resize` | src/App.jsx:49-50 | setting the size gives a fresh transparent bitmap of that size |
| `Drawing.Canvas.Clear` | src/App.jsx:53 | clearing makes every pixel transparent and keeps the size |
| `Drawing.Canvas.DrawImage` | src/App.jsx:56 | drawing an image of the canvas's size makes the bitmap equal to the image |
| `Drawing.Canvas.CopyStrip` | src/App.jsx:98-102 | rows [yStart, yEnd) become the scratch raster's rows and every other row is unchanged |
| `Drawing.Canvas.PaintBand` | src/App.jsx:69-102 | one turn of the band loop extends the finished prefix of rows from band i's start to band i+1's start and leaves the rows below it at the base image |
| `Drawing.Canvas.RenderGradientBlur` | src/App.jsx:45-103 | the canvas ends with the image's size and exactly Rendered(image, maxBlur, direction, filter), whatever it held before |
| `Drawing.RenderGradientBlurImage` | src/App.jsx:42-43 | an absent canvas or an unloaded image leaves the canvas's size and bitmap unchanged; otherwise the canvas is valid, sized to the image and holds the rendered raster |
| `Drawing.RenderTwice` | src/App.jsx:49-56 | (a client, not an application operation) two canvases with different prior contents end with the same rendered bitmap |
| `Views.CallFor` | src/App.jsx:29-36 | the strength passed is non-negative and zero exactly when the input is zero; the direction is never none |
| `Views.CallRoundTrip` | src/App.jsx:29-36 | the signed input is recovered from (strength, direction); bottom-to-top exactly when the input is <= 0 |
| `Views.DiagnosisMatchesDirection` | src/App.jsx:110 | the label says farsighted exactly when the uncorrected view blurs top-to-bottom, nearsighted exactly when bottom-to-top |
| `Views.NormalViewIsSource` | src/App.jsx:39 | the normal view is always the unmodified image |
| `Views.CancelledCorrectionIsNormal` | src/App.jsx:34-39 | when prescription + correction = 0 the corrected view is the unmodified image, the same as the normal view |
| `Views.NoCorrectionChangesNothing` | src/App.jsx:29-36 | with correction 0 the corrected view's call and raster equal the uncorrected one's |
| `Views.RenderImages` | src/App.jsx:27-40 | with no image every canvas keeps its size and bitmap; otherwise every present canvas is valid and sized to the image, and the three hold the uncorrected view of the prescription, the corrected view of the sum, and the unmodified image |

## Left out

- React state, effects and refs (src/App.jsx:7-25) are not modelled. `RenderImages` is a plain method called with the two slider values and the three canvases.
- Asynchronous image loading through `img.onload` (src/App.jsx:12-19) is I/O. An image that has not loaded yet is `None`.
- The blur kernel itself (the canvas filter `blur(<r>px)`, src/App.jsx:93) is a platform call. It is the `Filter` parameter. The model assumes only that it keeps dimensions and that radius 0 changes nothing.
- Alpha compositing by `drawImage` is not modelled. Pixels are taken as opaque, so drawing a raster replaces the pixels under it. The blurred redraw over the unblurred scratch image and every strip copy are row assignments.
- RenderGradientBlurImage, RenderImages: an image with zero width or zero height is not treated as an error. If such an image gets a non-zero strength and a real direction, the source's first strip copy (src/App.jsx:98-102) draws from a scratch canvas with a zero dimension. The platform's `drawImage` throws on that canvas, so `renderImages` stops and the later views keep their old size and bitmap. The model instead completes every band and renders all three views. Platform exceptions are not modelled, and the bundled image always has positive dimensions.
- `drawImage` scaling is not modelled. Every draw in the renderer maps a raster onto a surface of the same size, so only that identity case is modelled.
- The scratch canvas created for each band (src/App.jsx:83-86) is a fresh `Image` value per band, not a canvas object.
- Floating point is not modelled. Band boundaries use exact integer division, floor(i * H / 10). The source computes Math.floor((i / 10) * H) in doubles, which can be one row lower for some heights where the double product rounds just below an integer. Blur radii are exact reals, not doubles.
- The page layout, labels and sliders (src/App.jsx:106-161) are UI. The slider range [-10, 10] with step 0.01 is not a precondition, because no proved property needs it.
