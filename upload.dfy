/**
 * The 2048-pixel cap applied to an uploaded image (src/components/ImageCanvas.tsx:165-185).
 */
module Upload {

  /** The largest width or height an uploaded image keeps. */
  const MaxDimension: int := 2048

  datatype Dimensions = Dimensions(width: int, height: int)

  /** JavaScript's `Math.round`: the nearest integer, halves rounded up. */
  function Round(r: real): (n: int)
    ensures r - 0.5 < n as real <= r + 0.5
  {
    (r + 0.5).Floor
  }

  function MinReal(a: real, b: real): real { if a <= b then a else b }

  /** The scale factor of ImageCanvas.tsx:168: the smaller of the two axes' ratios to the cap. */
  function Ratio(width: int, height: int): (ratio: real)
    requires width > 0 && height > 0
    ensures ratio * width as real <= MaxDimension as real && ratio * height as real <= MaxDimension as real
    ensures ratio * width as real == MaxDimension as real || ratio * height as real == MaxDimension as real
  {
    MinReal(MaxDimension as real / width as real, MaxDimension as real / height as real)
  }

  /**
   * The dimensions an uploaded image ends up with. An image that does not exceed
   * the cap on either axis, or one for which no drawing context is available,
   * is kept at its own size. Otherwise both sides are scaled by `Ratio` and
   * rounded: neither exceeds 2048, at least one is exactly 2048, and each is
   * within half a pixel of the exact scaled side.
   */
  function CappedDimensions(width: int, height: int, hasContext: bool): (d: Dimensions)
    requires width > 0 && height > 0
    ensures (width <= MaxDimension && height <= MaxDimension) || !hasContext ==> d == Dimensions(width, height)
    ensures (width > MaxDimension || height > MaxDimension) && hasContext ==>
              && d.width <= MaxDimension && d.height <= MaxDimension
              && (d.width == MaxDimension || d.height == MaxDimension)
              && Ratio(width, height) * width as real - 0.5 < d.width as real <= Ratio(width, height) * width as real + 0.5
              && Ratio(width, height) * height as real - 0.5 < d.height as real <= Ratio(width, height) * height as real + 0.5
  {
    if (width > MaxDimension || height > MaxDimension) && hasContext then
      var ratio := Ratio(width, height);
      Dimensions(Round(width as real * ratio), Round(height as real * ratio))
    else
      Dimensions(width, height)
  }

  /**
   * As written, a very elongated upload loses its short side: an 8193 by 1
   * image is capped to 2048 by 0, an empty canvas.
   */
  lemma ElongatedImageCollapses()
    ensures CappedDimensions(8193, 1, true) == Dimensions(2048, 0)
  {
    assert Ratio(8193, 1) == 2048.0 / 8193.0;
    assert Round(8193.0 * (2048.0 / 8193.0)) == 2048;
    assert Round(1.0 * (2048.0 / 8193.0)) == 0;
  }

  /**
   * The cap with each rounded side kept at least one pixel: the same dimensions
   * as `CappedDimensions` except that a side rounded to 0 becomes 1, so the
   * result is never empty and still within the cap.
   */
  function CappedDimensionsNonEmpty(width: int, height: int, hasContext: bool): (d: Dimensions)
    requires width > 0 && height > 0
    ensures 1 <= d.width && 1 <= d.height
    ensures (width > MaxDimension || height > MaxDimension) && hasContext ==>
              d.width <= MaxDimension && d.height <= MaxDimension && (d.width == MaxDimension || d.height == MaxDimension)
    ensures var c := CappedDimensions(width, height, hasContext);
            (c.width >= 1 ==> d.width == c.width) && (c.height >= 1 ==> d.height == c.height)
  {
    var c := CappedDimensions(width, height, hasContext);
    Dimensions(if c.width < 1 then 1 else c.width, if c.height < 1 then 1 else c.height)
  }
}
