/** The view orchestrator, renderImages (src/App.jsx:27-40), and the
    diagnosis label (src/App.jsx:110). */
module Views {
  import opened Raster
  import opened BlurLevels
  import opened GradientBlur
  import opened Drawing

  /** The (maxBlur, direction) arguments of one renderer call. */
  datatype RenderCall = RenderCall(maxBlur: real, direction: Direction)

  /** The three calls renderImages makes, one per view. */
  datatype ViewCalls = ViewCalls(uncorrected: RenderCall, corrected: RenderCall, normal: RenderCall)

  /** Math.abs. */
  function Abs(v: real): real {
    if v < 0.0 then -v else v
  }

  /** A signed slider value as a renderer call: `v <= 0` picks bottom-to-top
      and the strength is |v| (src/App.jsx:29, 35). */
  function CallFor(v: real): (c: RenderCall)
    ensures c.maxBlur >= 0.0 && c.direction != NoGradient
    ensures c.maxBlur == 0.0 <==> v == 0.0
  {
    RenderCall(Abs(v), if v <= 0.0 then BottomToTop else TopToBottom)
  }

  /** The signed value a call stands for; the inverse of CallFor. */
  function SignedValue(c: RenderCall): real {
    if c.direction == BottomToTop then -c.maxBlur else c.maxBlur
  }

  /** Direction and strength together lose nothing: the signed input is
      recovered from them, and the sign rule is closed at zero. */
  lemma CallRoundTrip(v: real)
    ensures SignedValue(CallFor(v)) == v
    ensures CallFor(v).direction == BottomToTop <==> v <= 0.0
    ensures CallFor(v).direction == TopToBottom <==> v > 0.0
  {
  }

  /** The arguments of the three renders for prescription `a` and correction
      `b`: the uncorrected view from `a`, the corrected view from `a + b`,
      the normal view with no blur (src/App.jsx:29-39). */
  function ViewsFor(a: real, b: real): ViewCalls {
    ViewCalls(CallFor(a), CallFor(a + b), RenderCall(0.0, NoGradient))
  }

  /** The label above the sliders (src/App.jsx:110). */
  datatype Diagnosis = Farsighted | Nearsighted

  function DiagnosisOf(a: real): Diagnosis {
    if a > 0.0 then Farsighted else Nearsighted
  }

  /** The label and the uncorrected view agree: farsighted exactly when the
      uncorrected blur grows top-to-bottom, nearsighted exactly when it grows
      bottom-to-top, including at zero. */
  lemma DiagnosisMatchesDirection(a: real, b: real)
    ensures DiagnosisOf(a) == Farsighted <==> ViewsFor(a, b).uncorrected.direction == TopToBottom
    ensures DiagnosisOf(a) == Nearsighted <==> ViewsFor(a, b).uncorrected.direction == BottomToTop
  {
  }

  /** What a call draws on a target once the image is loaded. */
  function Draws(src: Image, c: RenderCall, blur: Filter): seq<Row>
    requires src.Valid()
  {
    Rendered(src, c.maxBlur, c.direction, blur)
  }

  /** The normal view is always the unmodified source image. */
  lemma NormalViewIsSource(src: Image, a: real, b: real, blur: Filter)
    requires src.Valid()
    ensures Draws(src, ViewsFor(a, b).normal, blur) == src.rows
  {
    ShortCircuitIsSource(src, 0.0, NoGradient, blur);
  }

  /** A correction that cancels the prescription makes the corrected view
      the unmodified source, the same as the normal view. */
  lemma CancelledCorrectionIsNormal(src: Image, a: real, b: real, blur: Filter)
    requires src.Valid() && a + b == 0.0
    ensures Draws(src, ViewsFor(a, b).corrected, blur) == src.rows
    ensures Draws(src, ViewsFor(a, b).corrected, blur) == Draws(src, ViewsFor(a, b).normal, blur)
  {
    ShortCircuitIsSource(src, 0.0, BottomToTop, blur);
    NormalViewIsSource(src, a, b, blur);
  }

  /** Without a correction the corrected view is the uncorrected one. */
  lemma NoCorrectionChangesNothing(src: Image, a: real, blur: Filter)
    requires src.Valid()
    ensures ViewsFor(a, 0.0).corrected == ViewsFor(a, 0.0).uncorrected
    ensures Draws(src, ViewsFor(a, 0.0).corrected, blur) == Draws(src, ViewsFor(a, 0.0).uncorrected, blur)
  {
  }

  /** renderImages: with no image loaded nothing is drawn; otherwise each
      present canvas gets its own view and nothing else. The three canvases
      are the page's three distinct canvas elements. */
  method RenderImages(uncorrected: Canvas?, corrected: Canvas?, normal: Canvas?,
                      img: Option<Image>, a: real, b: real, blur: Filter)
    requires img.Some? ==> img.value.Valid()
    requires uncorrected != null && corrected != null ==> uncorrected != corrected
    requires uncorrected != null && normal != null ==> uncorrected != normal
    requires corrected != null && normal != null ==> corrected != normal
    modifies uncorrected, corrected, normal
    ensures img.None? ==> forall c :: c in [uncorrected, corrected, normal] && c != null ==>
              c.width == old(c.width) && c.height == old(c.height)
              && c.rows == old(c.rows) && c.Contents() == old(c.Contents())
    ensures img.Some? ==> forall c :: c in [uncorrected, corrected, normal] && c != null ==>
              c.Valid() && c.width == img.value.width && c.height == img.value.height
    ensures img.Some? && uncorrected != null ==>
              uncorrected.Contents() == Draws(img.value, ViewsFor(a, b).uncorrected, blur)
    ensures img.Some? && corrected != null ==>
              corrected.Contents() == Draws(img.value, ViewsFor(a, b).corrected, blur)
    ensures img.Some? && normal != null ==> normal.Contents() == img.value.rows
  {
    if img.None? {
      return;
    }
    var direction1 := if a <= 0.0 then BottomToTop else TopToBottom;
    RenderGradientBlurImage(uncorrected, img, Abs(a), direction1, blur);
    var combined := a + b;
    var direction := if combined <= 0.0 then BottomToTop else TopToBottom;
    RenderGradientBlurImage(corrected, img, Abs(combined), direction, blur);
    RenderGradientBlurImage(normal, img, 0.0, NoGradient, blur);
    NormalViewIsSource(img.value, a, b, blur);
  }
}
