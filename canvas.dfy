/** The drawing target: a canvas whose bitmap the renderer overwrites in
    place (src/App.jsx:42-104). */
module Drawing {
  import opened Raster
  import opened Bands
  import opened BlurLevels
  import opened GradientBlur

  /** A 2D canvas: its size and its bitmap, one array slot per row. */
  class Canvas {
    var width: nat
    var height: nat
    var rows: array<Row>

    ghost predicate Valid()
      reads this, rows
    {
      rows.Length == height && forall y :: 0 <= y < rows.Length ==> |rows[y]| == width
    }

    /** The bitmap, top row first. */
    function Contents(): seq<Row>
      reads this, rows
    {
      rows[..]
    }

    /** A blank canvas of the given size. */
    constructor (w: nat, h: nat)
      ensures Valid() && fresh(rows)
      ensures width == w && height == h && Contents() == BlankRows(w, h)
    {
      width, height := w, h;
      rows := new Row[h](_ => seq(w, _ => Transparent));
    }

    /** Setting a canvas's width and height (src/App.jsx:49-50) replaces its
        bitmap with a transparent one of the new size. */
    method Resize(w: nat, h: nat)
      modifies this
      ensures Valid() && fresh(rows)
      ensures width == w && height == h && Contents() == BlankRows(w, h)
    {
      width, height := w, h;
      rows := new Row[h](_ => seq(w, _ => Transparent));
    }

    /** clearRect over the whole canvas (src/App.jsx:53). */
    method Clear()
      requires Valid()
      modifies rows
      ensures Valid() && Contents() == BlankRows(width, height)
    {
      for y := 0 to rows.Length
        invariant forall k :: 0 <= k < y ==> rows[k] == seq(width, _ => Transparent)
      {
        rows[y] := seq(width, _ => Transparent);
      }
    }

    /** drawImage of an image of the canvas's own size at the origin
        (src/App.jsx:56): with opaque pixels every row becomes the image's. */
    method DrawImage(img: Image)
      requires Valid() && img.Valid()
      requires img.width == width && img.height == height
      modifies rows
      ensures Valid() && Contents() == img.rows
    {
      for y := 0 to rows.Length
        invariant forall k :: 0 <= k < y ==> rows[k] == img.rows[k]
        invariant forall k :: y <= k < rows.Length ==> |rows[k]| == width
      {
        rows[y] := img.rows[y];
      }
    }

    /** The strip copy of one band (src/App.jsx:98-102): rows [yStart, yEnd)
        of the scratch raster replace the same rows of the canvas, and no
        other row changes. An empty strip draws nothing. */
    method CopyStrip(scratch: Image, yStart: nat, yEnd: nat)
      requires Valid() && scratch.Valid()
      requires scratch.width == width && scratch.height == height
      requires yStart <= yEnd <= height
      modifies rows
      ensures Valid()
      ensures forall y :: yStart <= y < yEnd ==> rows[y] == scratch.rows[y]
      ensures forall y :: 0 <= y < rows.Length && !(yStart <= y < yEnd) ==> rows[y] == old(rows[y])
    {
      for y := yStart to yEnd
        invariant forall k :: yStart <= k < y ==> rows[k] == scratch.rows[k]
        invariant forall k :: 0 <= k < rows.Length && !(yStart <= k < y) ==> rows[k] == old(rows[k])
      {
        rows[y] := scratch.rows[y];
      }
    }

    /** renderGradientBlurImage on a present canvas and a loaded image
        (src/App.jsx:45-103). The canvas ends up the image's size holding
        exactly Rendered(img, maxBlur, direction, blur): the result depends on
        the arguments alone and not on what the canvas held before. */
    method RenderGradientBlur(img: Image, maxBlur: real, direction: Direction, blur: Filter)
      requires img.Valid()
      modifies this
      ensures Valid() && fresh(rows)
      ensures width == img.width && height == img.height
      ensures Contents() == Rendered(img, maxBlur, direction, blur)
    {
      Resize(img.width, img.height);
      Clear();
      DrawImage(img);
      if maxBlur == 0.0 || direction == NoGradient {
        return;
      }
      for i := 0 to Steps
        invariant Valid() && fresh(rows)
        invariant width == img.width && height == img.height
        invariant Painted(img, maxBlur, direction, blur, BandStart(i, height))
      {
        PaintBand(img, maxBlur, direction, blur, i);
      }
      BandEndpoints(height);
      assert rows[..] == Rendered(img, maxBlur, direction, blur);
    }

    /** The bands above row `boundary` hold the finished rows and the rows from
        `boundary` down still hold the base image. */
    ghost predicate Painted(img: Image, maxBlur: real, direction: Direction, blur: Filter, boundary: nat)
      requires img.Valid()
      reads this, rows
    {
      var want := Rendered(img, maxBlur, direction, blur);
      rows.Length == |want| == |img.rows|
      && (forall y :: 0 <= y < boundary && y < rows.Length ==> rows[y] == want[y])
      && (forall y :: boundary <= y < rows.Length ==> rows[y] == img.rows[y])
    }

    /** One turn of the band loop (src/App.jsx:69-102): band `i`'s radius, its
        rows, its scratch canvas, and the strip copy. */
    method PaintBand(img: Image, maxBlur: real, direction: Direction, blur: Filter, i: nat)
      requires Valid() && img.Valid() && i < Steps
      requires maxBlur != 0.0 && direction != NoGradient
      requires width == img.width && height == img.height
      requires Painted(img, maxBlur, direction, blur, BandStart(i, height))
      modifies rows
      ensures Valid() && Painted(img, maxBlur, direction, blur, BandStart(i + 1, height))
    {
      var level := BlurLevel(direction, i, maxBlur);
      var yStart, yEnd := BandStart(i, height), BandEnd(i, height);
      var scratch := BandSource(img, level, blur);
      BandWithinImage(i, height);
      CopyStrip(scratch, yStart, yEnd);
      forall y | yStart <= y < yEnd
        ensures rows[y] == Rendered(img, maxBlur, direction, blur)[y]
      {
        RenderedBand(img, maxBlur, direction, blur, i, y);
      }
    }
  }

  /** renderGradientBlurImage with its guard (src/App.jsx:42-43): an absent
      canvas or an image not yet loaded makes the call do nothing. */
  method RenderGradientBlurImage(canvas: Canvas?, img: Option<Image>,
                                 maxBlur: real, direction: Direction, blur: Filter)
    requires img.Some? ==> img.value.Valid()
    modifies canvas
    ensures canvas != null && img.None? ==>
              canvas.width == old(canvas.width) && canvas.height == old(canvas.height)
              && canvas.rows == old(canvas.rows) && canvas.Contents() == old(canvas.Contents())
    ensures canvas != null && img.Some? ==>
              canvas.Valid() && fresh(canvas.rows)
              && canvas.width == img.value.width && canvas.height == img.value.height
              && canvas.Contents() == Rendered(img.value, maxBlur, direction, blur)
  {
    if canvas == null || img.None? {
      return;
    }
    canvas.RenderGradientBlur(img.value, maxBlur, direction, blur);
  }

  /** A client of RenderGradientBlur, not an operation of the application.
      Rendering never accumulates: two canvases with any prior contents end
      up with the same bitmap. That rendering the same canvas twice changes
      nothing is the assertion in the body, which follows from
      RenderGradientBlur's postcondition alone. */
  method RenderTwice(c: Canvas, d: Canvas, img: Image, maxBlur: real, direction: Direction, blur: Filter)
    requires img.Valid() && c != d
    modifies c, d
    ensures c.Contents() == d.Contents() == Rendered(img, maxBlur, direction, blur)
  {
    c.RenderGradientBlur(img, maxBlur, direction, blur);
    var first := c.Contents();
    c.RenderGradientBlur(img, maxBlur, direction, blur);
    assert c.Contents() == first;
    d.RenderGradientBlur(img, maxBlur, direction, blur);
  }
}
