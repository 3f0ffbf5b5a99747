/** What renderGradientBlurImage draws (src/App.jsx:42-104), as a function of
    the source image, the strength and the direction alone. */
module GradientBlur {
  import opened Raster
  import opened Bands
  import opened BlurLevels

  /** The scratch canvas of one band (src/App.jsx:83-95): the source image
      drawn unfiltered, then drawn again through the blur filter when the
      band's radius is positive. Pixels are opaque, so the second drawing
      replaces the first. */
  function BandSource(src: Image, level: real, blur: Filter): (scratch: Image)
    requires src.Valid()
    ensures scratch.Valid() && scratch.width == src.width && scratch.height == src.height
  {
    if level > 0.0 then blur(src, level) else src
  }

  /** The finished raster. With no strength or no direction it is the source
      itself; otherwise row `y` is row `y` of the scratch canvas of the band
      that contains `y`. */
  function Rendered(src: Image, maxBlur: real, direction: Direction, blur: Filter): (out: seq<Row>)
    requires src.Valid()
    ensures |out| == src.height
    ensures forall y :: 0 <= y < |out| ==> |out[y]| == src.width
  {
    if maxBlur == 0.0 || direction == NoGradient then src.rows
    else
      seq(src.height, y requires 0 <= y < src.height =>
        BandSource(src, BlurLevel(direction, BandOf(y, src.height), maxBlur), blur).rows[y])
  }

  /** Skipping the filter for a zero radius (src/App.jsx:92) changes nothing:
      for every radius the filter is given, the scratch canvas is the
      filter's output. */
  lemma SkipIsOnlyAnOptimization(src: Image, level: real, blur: Filter)
    requires src.Valid() && level >= 0.0
    ensures BandSource(src, level, blur) == blur(src, level)
  {
    assert IsFilter(blur);
  }

  /** The short circuit (src/App.jsx:58): no strength or no direction leaves
      the source image unchanged. */
  lemma ShortCircuitIsSource(src: Image, maxBlur: real, direction: Direction, blur: Filter)
    requires src.Valid() && (maxBlur == 0.0 || direction == NoGradient)
    ensures Rendered(src, maxBlur, direction, blur) == src.rows
  {
  }

  /** Every row of band `i` is that row of the source blurred at band `i`'s
      radius, or of the unfiltered source when that radius is not positive. */
  lemma RenderedBand(src: Image, maxBlur: real, direction: Direction, blur: Filter, i: nat, y: nat)
    requires src.Valid() && maxBlur != 0.0 && direction != NoGradient
    requires i < Steps && InBand(y, i, src.height)
    ensures y < src.height
    ensures Rendered(src, maxBlur, direction, blur)[y]
            == if BlurLevel(direction, i, maxBlur) > 0.0
               then blur(src, BlurLevel(direction, i, maxBlur)).rows[y]
               else src.rows[y]
  {
    BandWithinImage(i, src.height);
    BandMembership(y, i, src.height);
  }

  /** A strength that is not positive renders the unmodified source, whatever
      the direction: every band's radius is then at most zero and the filter
      is skipped for all of them. */
  lemma NotPositiveIsSource(src: Image, maxBlur: real, direction: Direction, blur: Filter)
    requires src.Valid() && maxBlur <= 0.0
    ensures Rendered(src, maxBlur, direction, blur) == src.rows
  {
    if maxBlur != 0.0 && direction != NoGradient {
      var out := Rendered(src, maxBlur, direction, blur);
      forall y | 0 <= y < src.height
        ensures out[y] == src.rows[y]
      {
        BandMembership(y, 0, src.height);
        LevelNotPositive(direction, BandOf(y, src.height), maxBlur);
      }
    }
  }

  /** A top-to-bottom gradient leaves the top band sharp, and a bottom-to-top
      gradient of positive strength blurs every band, the top one at the full
      strength. */
  lemma TopBand(src: Image, maxBlur: real, blur: Filter, y: nat)
    requires src.Valid() && maxBlur > 0.0 && InBand(y, 0, src.height)
    ensures y < src.height
    ensures Rendered(src, maxBlur, TopToBottom, blur)[y] == src.rows[y]
    ensures Rendered(src, maxBlur, BottomToTop, blur)[y] == blur(src, maxBlur).rows[y]
  {
    LevelEndpoints(maxBlur);
    RenderedBand(src, maxBlur, TopToBottom, blur, 0, y);
    RenderedBand(src, maxBlur, BottomToTop, blur, 0, y);
  }

  /** A 100 x 100 image blurred top-to-bottom at strength 5: band 0 is rows
      0-9 and is drawn with no filter; band 9 is rows 90-99 at radius 4.5. */
  lemma HundredSquareScenario(src: Image, blur: Filter)
    requires src.Valid() && src.height == 100
    ensures BandStart(0, 100) == 0 && BandEnd(0, 100) == 10
    ensures BandStart(9, 100) == 90 && BandEnd(9, 100) == 100
    ensures BlurLevel(TopToBottom, 0, 5.0) == 0.0 && BlurLevel(TopToBottom, 9, 5.0) == 4.5
    ensures forall y :: 0 <= y < 10 ==> Rendered(src, 5.0, TopToBottom, blur)[y] == src.rows[y]
    ensures forall y :: 90 <= y < 100 ==> Rendered(src, 5.0, TopToBottom, blur)[y] == blur(src, 4.5).rows[y]
  {
    forall y | 0 <= y < 10
      ensures Rendered(src, 5.0, TopToBottom, blur)[y] == src.rows[y]
    {
      RenderedBand(src, 5.0, TopToBottom, blur, 0, y);
    }
    forall y | 90 <= y < 100
      ensures Rendered(src, 5.0, TopToBottom, blur)[y] == blur(src, 4.5).rows[y]
    {
      RenderedBand(src, 5.0, TopToBottom, blur, 9, y);
    }
  }
}
