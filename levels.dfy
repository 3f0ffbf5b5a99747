/** Gradient directions and the blur radius each band receives
    (src/App.jsx:69-77). */
module BlurLevels {
  import opened Bands

  /** The renderer's `direction` argument: 'bottom-to-top', 'top-to-bottom'
      or 'none'. */
  datatype Direction = BottomToTop | TopToBottom | NoGradient

  /** Blur radius of band `i` for a gradient of strength `maxBlur`. Band 0 is
      the top of the image. Any direction other than bottom-to-top takes the
      second formula, as the source's `else` does. The source computes these
      in double precision; the model uses exact reals. */
  function BlurLevel(direction: Direction, i: nat, maxBlur: real): real {
    if direction == BottomToTop then
      ((Steps - i) as real / Steps as real) * maxBlur
    else
      (i as real / Steps as real) * maxBlur
  }

  /** Where the two gradients start and end: bottom-to-top gives the top band
      the full radius and the bottom band a tenth of it; top-to-bottom leaves
      the top band unblurred and gives the bottom band nine tenths. */
  lemma LevelEndpoints(maxBlur: real)
    ensures BlurLevel(BottomToTop, 0, maxBlur) == maxBlur
    ensures BlurLevel(BottomToTop, Steps - 1, maxBlur) == maxBlur / 10.0
    ensures BlurLevel(TopToBottom, 0, maxBlur) == 0.0
    ensures BlurLevel(TopToBottom, Steps - 1, maxBlur) == 9.0 * maxBlur / 10.0
  {
    assert (0 as real / Steps as real) == 0.0;
  }

  /** For a positive strength the radius falls strictly from band to band
      bottom-to-top, and rises strictly top-to-bottom. */
  lemma LevelStrictlyMonotone(i: nat, j: nat, maxBlur: real)
    requires i < j && maxBlur > 0.0
    ensures BlurLevel(BottomToTop, i, maxBlur) > BlurLevel(BottomToTop, j, maxBlur)
    ensures BlurLevel(TopToBottom, i, maxBlur) < BlurLevel(TopToBottom, j, maxBlur)
  {
    var d := (j - i) as real / Steps as real;
    assert d > 0.0;
    assert BlurLevel(BottomToTop, i, maxBlur) - BlurLevel(BottomToTop, j, maxBlur) == d * maxBlur;
    assert BlurLevel(TopToBottom, j, maxBlur) - BlurLevel(TopToBottom, i, maxBlur) == d * maxBlur;
  }

  /** Every band's radius lies in [0, maxBlur]; bottom-to-top never reaches
      zero and top-to-bottom never reaches maxBlur when maxBlur is positive. */
  lemma LevelBounds(direction: Direction, i: nat, maxBlur: real)
    requires i < Steps && maxBlur >= 0.0
    ensures 0.0 <= BlurLevel(direction, i, maxBlur) <= maxBlur
    ensures maxBlur > 0.0 && direction == BottomToTop ==> BlurLevel(direction, i, maxBlur) > 0.0
    ensures maxBlur > 0.0 && direction != BottomToTop ==> BlurLevel(direction, i, maxBlur) < maxBlur
  {
    var f := if direction == BottomToTop then (Steps - i) as real / Steps as real
             else i as real / Steps as real;
    assert BlurLevel(direction, i, maxBlur) == f * maxBlur;
    ScaleBounds(f, maxBlur);
  }

  /** Scaling a non-negative strength by a fraction in [0, 1]. */
  lemma ScaleBounds(f: real, m: real)
    requires 0.0 <= f <= 1.0 && m >= 0.0
    ensures 0.0 <= f * m <= m
    ensures f > 0.0 && m > 0.0 ==> f * m > 0.0
    ensures f < 1.0 && m > 0.0 ==> f * m < m
  {
    assert m - f * m == (1.0 - f) * m;
  }

  /** A strength that is not positive gives no band a positive radius. */
  lemma LevelNotPositive(direction: Direction, i: nat, maxBlur: real)
    requires i <= Steps && maxBlur <= 0.0
    ensures BlurLevel(direction, i, maxBlur) <= 0.0
  {
    var f := if direction == BottomToTop then (Steps - i) as real / Steps as real
             else i as real / Steps as real;
    assert f >= 0.0;
    assert BlurLevel(direction, i, maxBlur) == f * maxBlur;
  }
}
