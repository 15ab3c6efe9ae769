/**
 * The compositing effect of src/components/ImageCanvas.tsx:106-150 and `clearMask`
 * (ImageCanvas.tsx:65-70). Canvas pixels are premultiplied, as in a 2D canvas
 * backing store, and the two operators are the Porter-Duff `destination-in` and
 * `source-over` of section 9.1 of W3C Compositing and Blending Level 1.
 */
module Compositor {
  import opened Wrappers
  import Raster
  import opened RegionExtractor

  /** A canvas pixel: premultiplied red, green and blue, and alpha, as reals in [0, 1]. */
  datatype Px = Px(r: real, g: real, b: real, a: real)

  ghost predicate ValidPx(p: Px) {
    0.0 <= p.a <= 1.0 && 0.0 <= p.r <= p.a && 0.0 <= p.g <= p.a && 0.0 <= p.b <= p.a
  }

  /** Destination-in: Fa = 0, Fb = alpha of the source; only the source's alpha matters. */
  function DestinationIn(dst: Px, srcAlpha: real): Px {
    Px(dst.r * srcAlpha, dst.g * srcAlpha, dst.b * srcAlpha, dst.a * srcAlpha)
  }

  /** Source-over: Fa = 1, Fb = 1 - alpha of the source. */
  function SourceOver(src: Px, dst: Px): Px {
    var fb := 1.0 - src.a;
    Px(src.r + dst.r * fb, src.g + dst.g * fb, src.b + dst.b * fb, src.a + dst.a * fb)
  }

  /** The mask's alpha at image pixel (x, y), as a fraction of full coverage. */
  function Coverage(mask: seq<int>, maskWidth: int, x: int, y: int): real {
    Raster.Alpha(mask, maskWidth, x, y) as real / 255.0
  }

  /**
   * One image pixel after the effect: the patch pixel kept in proportion to the
   * mask's alpha (`destination-in`), then drawn over the original (`source-over`).
   */
  function CompositePixel(original: Px, patch: Px, maskAlpha: int): Px {
    SourceOver(DestinationIn(patch, maskAlpha as real / 255.0), original)
  }

  /** Where the mask is transparent the original pixel survives unchanged. */
  lemma UnpaintedPixelKept(original: Px, patch: Px)
    ensures CompositePixel(original, patch, 0) == original
  {
  }

  /** Where the mask is fully opaque an opaque patch pixel replaces the original. */
  lemma PaintedPixelReplaced(original: Px, patch: Px)
    requires patch.a == 1.0
    ensures CompositePixel(original, patch, 255) == patch
  {
  }

  /** The product of non-negative reals is non-negative. */
  lemma MulNonNegative(a: real, b: real)
    requires 0.0 <= a && 0.0 <= b
    ensures 0.0 <= a * b
  {
  }

  /** Scaling by a non-negative real preserves order. */
  lemma MulMonotone(a: real, b: real, c: real)
    requires a <= b && 0.0 <= c
    ensures a * c <= b * c
  {
    MulNonNegative(b - a, c);
    assert b * c - a * c == (b - a) * c;
  }

  /** Scaling by a non-negative real keeps channel below alpha and both non-negative. */
  lemma ScaleChannel(ch: real, alpha: real, k: real)
    requires 0.0 <= ch <= alpha && 0.0 <= k
    ensures 0.0 <= ch * k <= alpha * k
  {
    MulNonNegative(ch, k);
    MulMonotone(ch, alpha, k);
  }

  /** Destination-in by a coverage in [0, 1] keeps a pixel valid. */
  lemma DestinationInValid(dst: Px, srcAlpha: real)
    requires ValidPx(dst) && 0.0 <= srcAlpha <= 1.0
    ensures ValidPx(DestinationIn(dst, srcAlpha))
  {
    var d := DestinationIn(dst, srcAlpha);
    assert d.a == dst.a * srcAlpha;
    ScaleChannel(dst.a, 1.0, srcAlpha);
    assert 1.0 * srcAlpha == srcAlpha;
    assert 0.0 <= d.a <= 1.0;
    assert 0.0 <= d.r <= d.a by { ScaleChannel(dst.r, dst.a, srcAlpha); }
    assert 0.0 <= d.g <= d.a by { ScaleChannel(dst.g, dst.a, srcAlpha); }
    assert 0.0 <= d.b <= d.a by { ScaleChannel(dst.b, dst.a, srcAlpha); }
  }

  /** One channel of source-over: a channel below its alpha stays non-negative and below the resulting alpha, which is at most 1. */
  lemma ChannelOver(sc: real, sa: real, dc: real, da: real)
    requires 0.0 <= sc <= sa <= 1.0 && 0.0 <= dc <= da <= 1.0
    ensures 0.0 <= sc + dc * (1.0 - sa)
    ensures sc + dc * (1.0 - sa) <= sa + da * (1.0 - sa)
    ensures sa + da * (1.0 - sa) <= 1.0
  {
    var k := 1.0 - sa;
    ScaleChannel(dc, da, k);
    MulMonotone(da, 1.0, k);
    assert 0.0 <= dc * k <= da * k <= k;
    assert sc + dc * k <= sa + da * k;
  }

  /** Source-over of two valid pixels is a valid pixel. */
  lemma SourceOverValid(src: Px, dst: Px)
    requires ValidPx(src) && ValidPx(dst)
    ensures ValidPx(SourceOver(src, dst))
  {
    ChannelOver(src.r, src.a, dst.r, dst.a);
    ChannelOver(src.g, src.a, dst.g, dst.a);
    ChannelOver(src.b, src.a, dst.b, dst.a);
  }

  /** Compositing valid pixels under a mask byte yields a valid pixel. */
  lemma CompositeValid(original: Px, patch: Px, maskAlpha: int)
    requires ValidPx(original) && ValidPx(patch) && 0 <= maskAlpha <= 255
    ensures ValidPx(CompositePixel(original, patch, maskAlpha))
  {
    DestinationInValid(patch, maskAlpha as real / 255.0);
    SourceOverValid(DestinationIn(patch, maskAlpha as real / 255.0), original);
  }

  /** For an opaque patch the result is the linear blend of original and patch by the mask's coverage. */
  lemma CompositeIsBlend(original: Px, patch: Px, maskAlpha: int)
    requires patch.a == 1.0
    ensures var m := maskAlpha as real / 255.0;
            var p := CompositePixel(original, patch, maskAlpha);
            p.r == m * patch.r + (1.0 - m) * original.r && p.g == m * patch.g + (1.0 - m) * original.g &&
            p.b == m * patch.b + (1.0 - m) * original.b && p.a == m + (1.0 - m) * original.a
  {
  }

  /** Pixel (x, y) of the canvas is covered by the cutout drawn with its corner at (`box.x`, `box.y`). */
  predicate Covered(cut: array2<Px>, box: Rect, x: int, y: int) {
    box.x <= x < box.x + cut.Length1 && box.y <= y < box.y + cut.Length0
  }

  /**
   * ImageCanvas.tsx:132-137: the mask's sub-rectangle at `box`, drawn one to one
   * over the cutout with `destination-in`, keeps each cutout pixel in proportion
   * to the mask's alpha at the matching image pixel, and changes nothing else.
   */
  method MaskCutout(cut: array2<Px>, mask: seq<int>, maskWidth: int, box: Rect)
    requires cut.Length0 == box.h && cut.Length1 == box.w
    modifies cut
    ensures forall i, j :: 0 <= i < cut.Length0 && 0 <= j < cut.Length1 ==>
              cut[i, j] == DestinationIn(old(cut[i, j]), Coverage(mask, maskWidth, box.x + j, box.y + i))
  {
    var i := 0;
    while i < cut.Length0
      invariant 0 <= i <= cut.Length0
      invariant forall i', j' :: 0 <= i' < cut.Length0 && 0 <= j' < cut.Length1 ==>
                  cut[i', j'] == if i' < i then DestinationIn(old(cut[i', j']), Coverage(mask, maskWidth, box.x + j', box.y + i'))
                                 else old(cut[i', j'])
    {
      var j := 0;
      while j < cut.Length1
        invariant 0 <= j <= cut.Length1
        invariant forall i', j' :: 0 <= i' < cut.Length0 && 0 <= j' < cut.Length1 ==>
                    cut[i', j'] == if Before(j', i', j, i) then DestinationIn(old(cut[i', j']), Coverage(mask, maskWidth, box.x + j', box.y + i'))
                                   else old(cut[i', j'])
      {
        cut[i, j] := DestinationIn(cut[i, j], Coverage(mask, maskWidth, box.x + j, box.y + i));
        j := j + 1;
      }
      i := i + 1;
    }
  }

  /**
   * ImageCanvas.tsx:140: the cutout drawn `source-over` at (`box.x`, `box.y`), at
   * its own size and clipped to the canvas. Pixels it covers become the cutout
   * pixel over the old one; every other canvas pixel is unchanged.
   */
  method PasteCutout(canvas: array2<Px>, cut: array2<Px>, box: Rect)
    requires canvas != cut && 0 <= box.x && 0 <= box.y
    modifies canvas
    ensures forall y, x :: 0 <= y < canvas.Length0 && 0 <= x < canvas.Length1 ==>
              canvas[y, x] == if Covered(cut, box, x, y) then SourceOver(cut[y - box.y, x - box.x], old(canvas[y, x]))
                              else old(canvas[y, x])
  {
    var i := 0;
    while i < cut.Length0
      invariant 0 <= i <= cut.Length0
      invariant forall y, x :: 0 <= y < canvas.Length0 && 0 <= x < canvas.Length1 ==>
                  canvas[y, x] == if Covered(cut, box, x, y) && y - box.y < i
                                  then SourceOver(cut[y - box.y, x - box.x], old(canvas[y, x]))
                                  else old(canvas[y, x])
    {
      var j := 0;
      while j < cut.Length1
        invariant 0 <= j <= cut.Length1
        invariant forall y, x :: 0 <= y < canvas.Length0 && 0 <= x < canvas.Length1 ==>
                    canvas[y, x] == if Covered(cut, box, x, y) && Before(x - box.x, y - box.y, j, i)
                                    then SourceOver(cut[y - box.y, x - box.x], old(canvas[y, x]))
                                    else old(canvas[y, x])
      {
        var y, x := box.y + i, box.x + j;
        if y < canvas.Length0 && x < canvas.Length1 {
          canvas[y, x] := SourceOver(cut[i, j], canvas[y, x]);
        }
        j := j + 1;
      }
      i := i + 1;
    }
  }

  /**
   * The composite of ImageCanvas.tsx:118-140, given the canvas holding the
   * original image and the cutout holding the result already resampled to the
   * crop box. Each covered pixel becomes `CompositePixel` of the original, the
   * patch pixel and the mask's alpha; no pixel outside the crop box and no pixel
   * whose mask alpha is 0 changes; where the mask alpha is 255 an opaque patch
   * pixel replaces the original.
   */
  method Composite(canvas: array2<Px>, cut: array2<Px>, mask: seq<int>, maskWidth: int, box: Rect)
    requires canvas != cut && 0 <= box.x && 0 <= box.y
    requires cut.Length0 == box.h && cut.Length1 == box.w
    modifies canvas, cut
    ensures forall y, x :: 0 <= y < canvas.Length0 && 0 <= x < canvas.Length1 ==>
              canvas[y, x] == if InRect(box, x, y)
                              then CompositePixel(old(canvas[y, x]), old(cut[y - box.y, x - box.x]), Raster.Alpha(mask, maskWidth, x, y))
                              else old(canvas[y, x])
    ensures forall y, x ::
              (0 <= y < canvas.Length0 && 0 <= x < canvas.Length1 &&
               (!InRect(box, x, y) || Raster.Alpha(mask, maskWidth, x, y) == 0))
              ==> canvas[y, x] == old(canvas[y, x])
    ensures forall y, x ::
              (0 <= y < canvas.Length0 && 0 <= x < canvas.Length1 && InRect(box, x, y) &&
               Raster.Alpha(mask, maskWidth, x, y) == 255 && old(cut[y - box.y, x - box.x]).a == 1.0)
              ==> canvas[y, x] == old(cut[y - box.y, x - box.x])
  {
    MaskCutout(cut, mask, maskWidth, box);
    PasteCutout(canvas, cut, box);
    forall y, x | 0 <= y < canvas.Length0 && 0 <= x < canvas.Length1 && InRect(box, x, y)
      ensures Raster.Alpha(mask, maskWidth, x, y) == 0 ==> canvas[y, x] == old(canvas[y, x])
      ensures Raster.Alpha(mask, maskWidth, x, y) == 255 && old(cut[y - box.y, x - box.x]).a == 1.0 ==>
                canvas[y, x] == old(cut[y - box.y, x - box.x])
    {
      UnpaintedPixelKept(old(canvas[y, x]), old(cut[y - box.y, x - box.x]));
      if old(cut[y - box.y, x - box.x]).a == 1.0 {
        PaintedPixelReplaced(old(canvas[y, x]), old(cut[y - box.y, x - box.x]));
      }
    }
  }

  /**
   * The result effect of ImageCanvas.tsx:106-150. Nothing happens unless a result,
   * an image, the mask canvas and a crop box are all present (:108), and nothing
   * happens when the full-size canvas has no 2-D context (:116). Otherwise the
   * canvas, which holds the original image, is composited with the cutout when the
   * cutout has a 2-D context (:125-141) and stays the original when it has none
   * (:127); then the canvas becomes the image (`replaced`), `clearMask` runs and
   * the crop box is dropped (:143-149).
   */
  method ApplyResult(canvas: array2<Px>, cut: array2<Px>, mask: array<int>, maskWidth: int,
                     cropBox: Option<Rect>, hasResult: bool, hasImage: bool, hasMaskCanvas: bool,
                     hasMaskContext: bool, hasContext: bool, hasPatchContext: bool)
    returns (cropBox': Option<Rect>, replaced: bool)
    requires canvas != cut
    requires cropBox.Some? ==> 0 <= cropBox.value.x && 0 <= cropBox.value.y
    requires cropBox.Some? ==> cut.Length0 == cropBox.value.h && cut.Length1 == cropBox.value.w
    modifies canvas, cut, mask
    ensures !(hasResult && hasImage && hasMaskCanvas && cropBox.Some? && hasContext) ==>
              !replaced && cropBox' == cropBox && unchanged(canvas) && mask[..] == old(mask[..])
    ensures hasResult && hasImage && hasMaskCanvas && cropBox.Some? && hasContext ==>
              replaced && cropBox' == None &&
              mask[..] == if hasMaskContext then Cleared(old(mask[..])) else old(mask[..])
    ensures hasResult && hasImage && hasMaskCanvas && cropBox.Some? && hasContext && !hasPatchContext ==> unchanged(canvas)
    ensures hasResult && hasImage && hasMaskCanvas && cropBox.Some? && hasContext && hasPatchContext ==>
              var box := cropBox.value;
              forall y, x :: 0 <= y < canvas.Length0 && 0 <= x < canvas.Length1 ==>
                canvas[y, x] == if InRect(box, x, y)
                                then CompositePixel(old(canvas[y, x]), old(cut[y - box.y, x - box.x]),
                                                    Raster.Alpha(old(mask[..]), maskWidth, x, y))
                                else old(canvas[y, x])
  {
    if !(hasResult && hasImage && hasMaskCanvas && cropBox.Some?) || !hasContext {
      return cropBox, false;
    }
    if hasPatchContext {
      Composite(canvas, cut, mask[..], maskWidth, cropBox.value);
    }
    // `clearMask` runs from the render that had the image and the mask canvas.
    ClearMask(mask, true, hasMaskContext, true);
    return None, true;
  }

  /**
   * `clearMask` (ImageCanvas.tsx:65-70): with the mask canvas, its 2-D context and
   * an image all present, `clearRect` over the whole mask leaves every byte 0;
   * when any of them is missing the mask is left as it was.
   */
  method ClearMask(mask: array<int>, hasMaskCanvas: bool, hasMaskContext: bool, hasImage: bool)
    modifies mask
    ensures mask[..] == if hasMaskCanvas && hasMaskContext && hasImage then Cleared(old(mask[..]))
                        else old(mask[..])
  {
    if !hasMaskCanvas || !hasMaskContext || !hasImage {
      return;
    }
    var k := 0;
    while k < mask.Length
      invariant 0 <= k <= mask.Length
      invariant forall k' :: 0 <= k' < k ==> mask[k'] == 0
    {
      mask[k] := 0;
      k := k + 1;
    }
  }

  /** A mask of the same size with every byte zero: what `clearRect` over the whole mask canvas leaves. */
  function Cleared(mask: seq<int>): (c: seq<int>)
    ensures |c| == |mask| && forall k :: 0 <= k < |c| ==> c[k] == 0
  {
    seq(|mask|, _ => 0)
  }

  /** Clearing a cleared mask changes nothing: clearing twice is clearing once. */
  lemma ClearIdempotent(mask: seq<int>)
    ensures Cleared(Cleared(mask)) == Cleared(mask)
  {
  }
}
