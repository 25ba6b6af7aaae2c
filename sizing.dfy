/** Slider percentages and the sizes derived from them (src/App.jsx, lines 65-70).
    JavaScript computes with doubles; this model computes with exact reals. */
module Sizing {

  /** A range input with min="0" and max="100", read back through parseInt. */
  type Percent = p: int | 0 <= p <= 100

  const TextFontMin: real := 14.0
  const TextFontMax: real := 32.0
  const ImageWidthMin: real := 20.0
  const ImageWidthMax: real := 40.0

  /** The slider default for both text size and image size. */
  const DefaultPercent: Percent := 50

  /** Linear interpolation of a percentage `value` into the interval from `min` to `max`. */
  function CalculateSize(value: real, min: real, max: real): (r: real)
    ensures value == 0.0 ==> r == min
    ensures value == 100.0 ==> r == max
    ensures min <= max && 0.0 <= value <= 100.0 ==> min <= r <= max
  {
    var f, d := value / 100.0, max - min;
    ScaleFacts(f, d);
    min + f * d
  }

  /** The facts about a fraction `f` of a span `d` that interpolation relies on. */
  lemma ScaleFacts(f: real, d: real)
    ensures f == 0.0 ==> f * d == 0.0
    ensures f == 1.0 ==> f * d == d
    ensures 0.0 <= f <= 1.0 && 0.0 <= d ==> 0.0 <= f * d <= d
  {
    if 0.0 <= f <= 1.0 && 0.0 <= d {
      assert (1.0 - f) * d >= 0.0;
      assert d - f * d == (1.0 - f) * d;
    }
  }

  /** With `min <= max`, a larger percentage never gives a smaller size. */
  lemma CalculateSizeMonotonic(v1: real, v2: real, min: real, max: real)
    requires min <= max && v1 <= v2
    ensures CalculateSize(v1, min, max) <= CalculateSize(v2, min, max)
  {
    var d := max - min;
    assert (v2 / 100.0 - v1 / 100.0) * d >= 0.0 by {
      assert v2 / 100.0 - v1 / 100.0 >= 0.0;
    }
    assert (v2 / 100.0) * d - (v1 / 100.0) * d == (v2 / 100.0 - v1 / 100.0) * d;
  }

  /** With `min < max`, a larger percentage gives a strictly larger size. */
  lemma CalculateSizeStrictlyIncreasing(v1: real, v2: real, min: real, max: real)
    requires min < max && v1 < v2
    ensures CalculateSize(v1, min, max) < CalculateSize(v2, min, max)
  {
    var d := max - min;
    var g := v2 / 100.0 - v1 / 100.0;
    var a, b := (v1 / 100.0) * d, (v2 / 100.0) * d;
    assert g > 0.0 && d > 0.0;
    assert g * d > 0.0;
    assert b - a == g * d;
    assert a < b;
    assert CalculateSize(v1, min, max) == min + a;
    assert CalculateSize(v2, min, max) == min + b;
  }

  /** The font size of the text overlay, in pixels. */
  function TextFontSize(textSize: Percent): (px: real)
    ensures TextFontMin <= px <= TextFontMax
    ensures px == 14.0 + (textSize as real) * 18.0 / 100.0
  {
    CalculateSize(textSize as real, TextFontMin, TextFontMax)
  }

  /** The width of the image overlay, as a percentage of the preview's width. */
  function ImageWidthPercentage(imageSize: Percent): (w: real)
    ensures ImageWidthMin <= w <= ImageWidthMax
    ensures w == 20.0 + (imageSize as real) * 20.0 / 100.0
  {
    CalculateSize(imageSize as real, ImageWidthMin, ImageWidthMax)
  }

  /** The slider's two ends reach exactly the two ends of each derived range. */
  lemma SliderEndpoints()
    ensures TextFontSize(0) == TextFontMin && TextFontSize(100) == TextFontMax
    ensures ImageWidthPercentage(0) == ImageWidthMin && ImageWidthPercentage(100) == ImageWidthMax
  {
  }

  /** Both derived sizes grow strictly with their slider. */
  lemma DerivedSizesStrictlyIncreasing(p: Percent, q: Percent)
    requires p < q
    ensures TextFontSize(p) < TextFontSize(q)
    ensures ImageWidthPercentage(p) < ImageWidthPercentage(q)
  {
    CalculateSizeStrictlyIncreasing(p as real, q as real, TextFontMin, TextFontMax);
    CalculateSizeStrictlyIncreasing(p as real, q as real, ImageWidthMin, ImageWidthMax);
  }

  /** At the slider default the text is 23px and the image is 30% wide. */
  lemma DefaultSizes()
    ensures TextFontSize(DefaultPercent) == 23.0
    ensures ImageWidthPercentage(DefaultPercent) == 30.0
  {
  }
}
