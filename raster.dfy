/**
 * RGBA byte rasters as the browser hands them out through `getImageData`:
 * four bytes per pixel, row-major, `width` pixels to a row.
 */
module Raster {

  /** Index of channel `c` (0 red, 1 green, 2 blue, 3 alpha) of pixel (x, y). */
  function ByteIndex(width: int, x: int, y: int, c: int): int {
    (y * width + x) * 4 + c
  }

  /**
   * The alpha byte of pixel (x, y). A pixel outside the raster reads as
   * transparent, which is both what a canvas draw sees outside its source and
   * what an out-of-range typed-array read (`undefined`) amounts to in a `> 0` test.
   */
  function Alpha(data: seq<int>, width: int, x: int, y: int): int {
    var k := ByteIndex(width, x, y, 3);
    if 0 <= x < width && 0 <= y && k < |data| then data[k] else 0
  }

  /** The bytes of a raster are bytes. */
  ghost predicate Bytes(data: seq<int>) {
    forall k :: 0 <= k < |data| ==> 0 <= data[k] <= 255
  }

  /** Multiplication of naturals is monotone in its first factor. */
  lemma {:induction false} MulMonotone(a: nat, b: nat, c: nat)
    requires a <= b
    ensures a * c <= b * c
  {
    if c > 0 {
      MulMonotone(a, b, c - 1);
      assert a * c == a * (c - 1) + a;
      assert b * c == b * (c - 1) + b;
    }
  }

  /** A pixel of a `width` by `height` grid has a row-major index below `width * height`. */
  lemma PixelIndexInGrid(width: nat, height: nat, x: nat, y: nat)
    requires x < width && y < height
    ensures 0 <= y * width + x < width * height
  {
    MulMonotone(y + 1, height, width);
    assert (y + 1) * width == y * width + width;
  }

  /** Finishing a row of `width` pixels moves the row-major index to the start of the next row. */
  lemma NextRow(width: nat, y: nat)
    ensures y * width + width == (y + 1) * width
  {
  }
}
