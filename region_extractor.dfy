/**
 * Region extraction of `handleErase` (src/components/ImageCanvas.tsx): the scan of
 * the mask's RGBA data for the tight box of painted pixels, the padding, and the
 * square-biased extraction rectangle clamped to the image.
 */
module RegionExtractor {
  import opened Wrappers
  import Raster

  /** A rectangle in full-image pixel coordinates (the crop box). */
  datatype Rect = Rect(x: int, y: int, w: int, h: int)

  /** The least padding, in pixels, put around even the smallest stroke. */
  const MinPadding: real := 30.0
  /** The padding as a fraction of the tight box's extent. */
  const PaddingFraction: real := 0.15

  /** A pixel counts as painted when its alpha byte is above zero. */
  predicate Painted(data: seq<int>, width: int, x: int, y: int) {
    Raster.Alpha(data, width, x, y) > 0
  }

  ghost predicate AnyPainted(data: seq<int>, width: int, height: int) {
    exists x, y :: 0 <= x < width && 0 <= y < height && Painted(data, width, x, y)
  }

  /**
   * `minX..maxX` by `minY..maxY` is the tight box of the painted pixels: it lies in
   * the image, holds every painted pixel, and each of its four bounds is attained
   * by a painted pixel.
   */
  ghost predicate TightBox(data: seq<int>, width: int, height: int,
                           minX: int, minY: int, maxX: int, maxY: int)
  {
    && 0 <= minX <= maxX < width && 0 <= minY <= maxY < height
    && (forall x, y :: 0 <= x < width && 0 <= y < height && Painted(data, width, x, y) ==>
          minX <= x <= maxX && minY <= y <= maxY)
    && (exists y :: 0 <= y < height && Painted(data, width, minX, y))
    && (exists y :: 0 <= y < height && Painted(data, width, maxX, y))
    && (exists x :: 0 <= x < width && Painted(data, width, x, minY))
    && (exists x :: 0 <= x < width && Painted(data, width, x, maxY))
  }

  /** Pixel (px, py) comes before (x, y) in the scan's row-major order. */
  predicate Before(px: int, py: int, x: int, y: int) {
    py < y || (py == y && px < x)
  }

  /**
   * What the scan knows once it has visited every pixel before (x, y): `found`
   * says whether one of them is painted; if none is, the bounds still hold their
   * initial values; if one is, the bounds are the tight box of those visited and
   * the ghost witnesses name painted pixels attaining them.
   */
  ghost predicate Scanned(data: seq<int>, width: int, height: int, x: int, y: int,
                          found: bool, minX: int, minY: int, maxX: int, maxY: int,
                          rowOfMinX: int, rowOfMaxX: int, colOfMinY: int, colOfMaxY: int)
  {
    && (!found ==>
          && minX == width && minY == height && maxX == 0 && maxY == 0
          && forall px, py :: 0 <= px < width && 0 <= py < height && Before(px, py, x, y) ==>
               !Painted(data, width, px, py))
    && (found ==>
          && 0 <= minX <= maxX < width && 0 <= minY <= maxY < height
          && (forall px, py ::
                0 <= px < width && 0 <= py < height && Before(px, py, x, y) && Painted(data, width, px, py)
                ==> minX <= px <= maxX && minY <= py <= maxY)
          && 0 <= rowOfMinX < height && Painted(data, width, minX, rowOfMinX)
          && 0 <= rowOfMaxX < height && Painted(data, width, maxX, rowOfMaxX)
          && 0 <= colOfMinY < width && Painted(data, width, colOfMinY, minY)
          && 0 <= colOfMaxY < width && Painted(data, width, colOfMaxY, maxY))
  }

  /**
   * The nested scan of ImageCanvas.tsx:253-271: `found` tells whether any pixel
   * is painted; if so the returned bounds are exactly the tight box, and if not
   * they keep their initial values (`width`, `height`, 0, 0).
   */
  method ScanMask(data: seq<int>, width: nat, height: nat)
    returns (found: bool, minX: int, minY: int, maxX: int, maxY: int)
    ensures found <==> AnyPainted(data, width, height)
    ensures found ==> TightBox(data, width, height, minX, minY, maxX, maxY)
    ensures !found ==> minX == width && minY == height && maxX == 0 && maxY == 0
  {
    minX, minY, maxX, maxY := width, height, 0, 0;
    found := false;
    ghost var rowOfMinX, rowOfMaxX, colOfMinY, colOfMaxY := 0, 0, 0, 0;
    var y := 0;
    while y < height
      invariant 0 <= y <= height
      invariant Scanned(data, width, height, 0, y, found, minX, minY, maxX, maxY,
                        rowOfMinX, rowOfMaxX, colOfMinY, colOfMaxY)
    {
      var x := 0;
      while x < width
        invariant 0 <= x <= width
        invariant Scanned(data, width, height, x, y, found, minX, minY, maxX, maxY,
                          rowOfMinX, rowOfMaxX, colOfMinY, colOfMaxY)
      {
        var alpha := Raster.Alpha(data, width, x, y);
        if alpha > 0 {
          if x < minX { minX := x; rowOfMinX := y; }
          if x > maxX { maxX := x; rowOfMaxX := y; }
          if y < minY { minY := y; colOfMinY := x; }
          if y > maxY { maxY := y; colOfMaxY := x; }
          if !found {
            // The first painted pixel attains all four bounds, even a bound it
            // leaves at its initial 0.
            rowOfMaxX, colOfMaxY := y, x;
          }
          found := true;
        }
        x := x + 1;
      }
      y := y + 1;
    }
  }

  function Max(a: real, b: real): real { if a >= b then a else b }
  function MaxInt(a: int, b: int): int { if a >= b then a else b }
  function MinInt(a: int, b: int): int { if a <= b then a else b }

  /** JavaScript's `Math.ceil`, from Dafny's floor. */
  function Ceil(r: real): (n: int)
    ensures r <= n as real < r + 1.0
  {
    -((-r).Floor)
  }

  /**
   * The padding of ImageCanvas.tsx:276: the least value that is at least 30 pixels
   * and at least 15% of the tight box's extent on either axis.
   */
  function Padding(minX: int, minY: int, maxX: int, maxY: int): (p: real)
    ensures p >= MinPadding
    ensures p >= PaddingFraction * (maxX - minX) as real
    ensures p >= PaddingFraction * (maxY - minY) as real
    ensures p == MinPadding || p == PaddingFraction * (maxX - minX) as real
            || p == PaddingFraction * (maxY - minY) as real
  {
    Max(Max(PaddingFraction * (maxX - minX) as real, PaddingFraction * (maxY - minY) as real), MinPadding)
  }

  /**
   * The padded origin on one axis (ImageCanvas.tsx:277-278): at least 0, never
   * past the tight box, and within one pixel plus the padding of it.
   */
  function BoxOrigin(min: int, padding: real): (o: int)
    requires 0 <= min && padding >= 0.0
    ensures 0 <= o <= min
    ensures o == 0 || o as real <= min as real - padding
    ensures o == 0 ==> min as real - padding < 1.0
    ensures o == 0 || min as real - padding - 1.0 < o as real
  {
    MaxInt(0, (min as real - padding).Floor)
  }

  /** The padded extent on one axis, cut at the image edge (ImageCanvas.tsx:279-280). */
  function BoxExtent(dim: int, origin: int, min: int, max: int, padding: real): int {
    MinInt(dim - origin, Ceil((max - min) as real + padding * 2.0))
  }

  /** The side of the square the rectangle is biased towards (ImageCanvas.tsx:283). */
  function SquareSide(width: int, height: int, minX: int, minY: int, maxX: int, maxY: int): int
    requires 0 <= minX && 0 <= minY
  {
    var padding := Padding(minX, minY, maxX, maxY);
    var boxX := BoxOrigin(minX, padding);
    var boxY := BoxOrigin(minY, padding);
    MaxInt(BoxExtent(width, boxX, minX, maxX, padding), BoxExtent(height, boxY, minY, maxY, padding))
  }

  /**
   * The extraction rectangle of ImageCanvas.tsx:276-285 for the tight box
   * `minX..maxX` by `minY..maxY`. It is inside the image and non-empty, it holds
   * the whole tight box, it is the square of side `SquareSide` whenever the image
   * has room for that square right and below its origin, and when it is not a
   * square its shorter side ends at the image edge.
   */
  function ExtractionRect(width: int, height: int, minX: int, minY: int, maxX: int, maxY: int): (r: Rect)
    requires 0 <= minX <= maxX < width && 0 <= minY <= maxY < height
    ensures 0 <= r.x <= minX && 0 <= r.y <= minY
    ensures 1 <= r.w && r.x + r.w <= width
    ensures 1 <= r.h && r.y + r.h <= height
    ensures maxX < r.x + r.w && maxY < r.y + r.h
    ensures var size := SquareSide(width, height, minX, minY, maxX, maxY);
            width - r.x >= size && height - r.y >= size ==> r.w == size && r.h == size
    ensures r.w == r.h || (r.w < r.h && r.x + r.w == width) || (r.h < r.w && r.y + r.h == height)
    ensures var p := Padding(minX, minY, maxX, maxY);
            && (r.x == 0 || r.x as real <= minX as real - p)
            && (r.y == 0 || r.y as real <= minY as real - p)
            && (r.x == 0 ==> minX as real - p < 1.0)
            && (r.y == 0 ==> minY as real - p < 1.0)
    ensures var p := Padding(minX, minY, maxX, maxY);
            && (r.x + r.w == width || (r.x + r.w) as real > maxX as real + p - 1.0)
            && (r.y + r.h == height || (r.y + r.h) as real > maxY as real + p - 1.0)
  {
    var padding := Padding(minX, minY, maxX, maxY);
    var boxX := BoxOrigin(minX, padding);
    var boxY := BoxOrigin(minY, padding);
    var size := SquareSide(width, height, minX, minY, maxX, maxY);
    Rect(boxX, boxY, MinInt(size, width - boxX), MinInt(size, height - boxY))
  }

  /** Pixel (x, y) lies in rectangle `r`. */
  predicate InRect(r: Rect, x: int, y: int) {
    r.x <= x < r.x + r.w && r.y <= y < r.y + r.h
  }

  /**
   * `handleErase` up to `setCropBox` (ImageCanvas.tsx:245-288), once the canvas
   * and context guards of :246 and :250 have passed: `None` (return without a
   * crop box and without a request) exactly when nothing is painted;
   * otherwise a non-empty rectangle inside the image that holds every painted
   * pixel and is the extraction rectangle of the mask's tight box.
   */
  method HandleErase(data: seq<int>, width: nat, height: nat) returns (crop: Option<Rect>)
    ensures crop.None? <==> !AnyPainted(data, width, height)
    ensures crop.Some? ==>
              && 0 <= crop.value.x && 1 <= crop.value.w && crop.value.x + crop.value.w <= width
              && 0 <= crop.value.y && 1 <= crop.value.h && crop.value.y + crop.value.h <= height
              && forall x, y :: 0 <= x < width && 0 <= y < height && Painted(data, width, x, y) ==>
                   InRect(crop.value, x, y)
    ensures crop.Some? ==>
              exists minX, minY, maxX, maxY :: TightBox(data, width, height, minX, minY, maxX, maxY) &&
                crop.value == ExtractionRect(width, height, minX, minY, maxX, maxY)
  {
    var found, minX, minY, maxX, maxY := ScanMask(data, width, height);
    if !found {
      return None;
    }
    crop := Some(ExtractionRect(width, height, minX, minY, maxX, maxY));
  }

  /**
   * The tight box is unique, so the extraction rectangle is a function of the
   * mask alone: two tight boxes of the same mask agree.
   */
  lemma TightBoxUnique(data: seq<int>, width: int, height: int,
                       minX: int, minY: int, maxX: int, maxY: int,
                       minX': int, minY': int, maxX': int, maxY': int)
    requires TightBox(data, width, height, minX, minY, maxX, maxY)
    requires TightBox(data, width, height, minX', minY', maxX', maxY')
    ensures minX == minX' && minY == minY' && maxX == maxX' && maxY == maxY'
  {
    var a :| 0 <= a < height && Painted(data, width, minX, a);
    var a' :| 0 <= a' < height && Painted(data, width, minX', a');
    var b :| 0 <= b < height && Painted(data, width, maxX, b);
    var b' :| 0 <= b' < height && Painted(data, width, maxX', b');
    var c :| 0 <= c < width && Painted(data, width, c, minY);
    var c' :| 0 <= c' < width && Painted(data, width, c', minY');
    var d :| 0 <= d < width && Painted(data, width, d, maxY);
    var d' :| 0 <= d' < width && Painted(data, width, d', maxY');
  }

  /**
   * A tight box no wider or taller than 200 pixels gets the minimum padding of 30,
   * and its rectangle has a side of at least 60 on each axis unless that axis
   * reaches the image edge.
   */
  lemma SmallMaskGetsMinimumPadding(width: int, height: int, minX: int, minY: int, maxX: int, maxY: int)
    requires 0 <= minX <= maxX < width && 0 <= minY <= maxY < height
    requires maxX - minX <= 200 && maxY - minY <= 200
    ensures Padding(minX, minY, maxX, maxY) == MinPadding
    ensures var r := ExtractionRect(width, height, minX, minY, maxX, maxY);
            (r.w >= 60 || r.x + r.w == width) && (r.h >= 60 || r.y + r.h == height)
  {
  }

  /**
   * The worked example: a 200 by 200 mask painted over 95..105 on both axes gives
   * the 70 by 70 rectangle at (65, 65).
   */
  lemma WorkedExample()
    ensures ExtractionRect(200, 200, 95, 95, 105, 105) == Rect(65, 65, 70, 70)
  {
    assert Padding(95, 95, 105, 105) == 30.0;
    assert (95 as real - 30.0).Floor == 65;
  }
}
