/** Rasters as values: the loaded source image, the scratch surfaces of the
    renderer, and the platform blur filter that maps one raster to another. */
module Raster {

  /** One opaque pixel, its RGBA colour packed into an integer. */
  type Pixel = int

  /** Transparent black: what a freshly sized or cleared canvas holds. */
  const Transparent: Pixel := 0

  /** One row of pixels, left to right. */
  type Row = seq<Pixel>

  /** A raster of `height` rows, top to bottom, each `width` pixels long. */
  datatype Image = Image(width: nat, height: nat, rows: seq<Row>)
  {
    ghost predicate Valid() {
      |rows| == height && forall y :: 0 <= y < |rows| ==> |rows[y]| == width
    }
  }

  /** A value that may be absent, as a not-yet-loaded image is. */
  datatype Option<T> = None | Some(value: T)

  /** `height` rows of `width` transparent pixels. */
  function BlankRows(width: nat, height: nat): seq<Row> {
    seq(height, _ => seq(width, _ => Transparent))
  }

  /** What the model knows of the platform's blur filter: it keeps the
      raster's dimensions, and a radius of zero changes nothing. */
  ghost predicate IsFilter(f: (Image, real) -> Image) {
    (forall img: Image, radius: real ::
       img.Valid() ==> f(img, radius).Valid()
                       && f(img, radius).width == img.width
                       && f(img, radius).height == img.height)
    && (forall img: Image :: f(img, 0.0) == img)
  }

  /** The filter that never blurs; it only witnesses that filters exist. */
  function Unfiltered(img: Image, radius: real): Image { img }

  /** The canvas `blur(<radius>px)` filter, left abstract: every property the
      model proves holds for any function with the two properties above. */
  type Filter = f: (Image, real) -> Image | IsFilter(f) witness Unfiltered
}
