/**
 * The tensor codec of src/lib/inferenceWorker.ts: `preprocess` (RGBA image data
 * to a channel-planar tensor, the mask binarised on its red byte) and
 * `postprocess` (the output tensor back to RGBA, with the scale detected from
 * the first 100 values, channels clamped to [0, 255] and alpha set to 255).
 */
module TensorCodec {
  import opened Wrappers
  import Raster

  /** Browser image data: `width` by `height` pixels, four bytes each. */
  datatype ImageData = ImageData(width: nat, height: nat, data: seq<int>)

  /** A float tensor: its shape and its values in row-major order. */
  datatype Tensor = Tensor(dims: seq<nat>, data: seq<real>)

  /** One plane for the mask, three (red, green, blue) for the image. */
  function Channels(isMask: bool): nat { if isMask then 1 else 3 }

  /** The mask tensor value for a red byte: 1.0 when it is above zero, else 0.0. */
  function MaskValue(red: int): real { if red > 0 then 1.0 else 0.0 }

  /** The plane (0 red, 1 green, 2 blue) that flat index `k` of a tensor of `n`-value planes falls in. */
  function PlaneOf(k: int, n: int): int { if k < n then 0 else if k < 2 * n then 1 else 2 }

  /** The pixel that flat index `k` of a tensor of `n`-value planes stands for. */
  function PixelOf(k: int, n: int): int { k - PlaneOf(k, n) * n }

  /** The mask tensor of the `n` pixels of RGBA bytes `data`: pixel `p` holds `MaskValue` of its red byte. */
  function MaskTensorOf(data: seq<int>, n: nat): (s: seq<real>)
    requires |data| == 4 * n
  {
    seq(n, p requires 0 <= p < n => MaskValue(data[4 * p]))
  }

  /**
   * The image tensor of the `n` pixels of RGBA bytes `data`: three planes of `n`
   * values, red, then green, then blue; a pixel's value in a plane is its byte of
   * that channel divided by 255.
   */
  function ImageTensorOf(data: seq<int>, n: nat): (s: seq<real>)
    requires |data| == 4 * n
  {
    seq(3 * n, k requires 0 <= k < 3 * n => data[4 * PixelOf(k, n) + PlaneOf(k, n)] as real / 255.0)
  }

  /** The data of the tensor `preprocess` makes of `img`. */
  function TensorData(img: ImageData, isMask: bool): seq<real>
    requires |img.data| == 4 * (img.width * img.height)
  {
    if isMask then MaskTensorOf(img.data, img.width * img.height)
    else ImageTensorOf(img.data, img.width * img.height)
  }

  /** How often a pixel's index has been stored to once the first `done` pixels are done. */
  function WriteCount(p: int, done: int): nat { if p < done then 1 else 0 }

  /** The buffer holds the mask tensor's values for the first `done` pixels, each stored once. */
  ghost predicate MaskDone(buf: seq<real>, writes: seq<nat>, data: seq<int>, n: nat, done: int)
    requires |data| == 4 * n
  {
    && |buf| == n && |writes| == n && 0 <= done <= n
    && (forall p :: 0 <= p < done ==> buf[p] == MaskTensorOf(data, n)[p])
    && (forall p :: 0 <= p < n ==> writes[p] == WriteCount(p, done))
  }

  /** The buffer holds all three planes' values for the first `done` pixels, each stored once. */
  ghost predicate ImageDone(buf: seq<real>, writes: seq<nat>, data: seq<int>, n: nat, done: int)
    requires |data| == 4 * n
  {
    && |buf| == 3 * n && |writes| == 3 * n && 0 <= done <= n
    && (forall k :: 0 <= k < 3 * n && PixelOf(k, n) < done ==> buf[k] == ImageTensorOf(data, n)[k])
    && (forall k :: 0 <= k < 3 * n ==> writes[k] == WriteCount(PixelOf(k, n), done))
  }

  ghost predicate Done(buf: seq<real>, writes: seq<nat>, data: seq<int>, n: nat, isMask: bool, done: int)
    requires |data| == 4 * n
  {
    if isMask then MaskDone(buf, writes, data, n, done) else ImageDone(buf, writes, data, n, done)
  }

  /** The buffer after pixel `p`'s values are stored. */
  function Stored(buf: seq<real>, data: seq<int>, n: nat, p: nat, isMask: bool): seq<real>
    requires |data| == 4 * n && p < n && |buf| == Channels(isMask) * n
  {
    if isMask then buf[p := MaskValue(data[4 * p])]
    else buf[p := data[4 * p] as real / 255.0]
            [n + p := data[4 * p + 1] as real / 255.0]
            [2 * n + p := data[4 * p + 2] as real / 255.0]
  }

  /** The store counts after pixel `p`'s values are stored. */
  function Counted(writes: seq<nat>, n: nat, p: nat, isMask: bool): seq<nat>
    requires p < n && |writes| == Channels(isMask) * n
  {
    if isMask then writes[p := writes[p] + 1]
    else writes[p := writes[p] + 1][n + p := writes[n + p] + 1][2 * n + p := writes[2 * n + p] + 1]
  }

  /** Storing pixel `done`'s mask value extends `MaskDone` by one pixel. */
  lemma MaskStep(buf: seq<real>, writes: seq<nat>, data: seq<int>, n: nat, done: nat)
    requires |data| == 4 * n && MaskDone(buf, writes, data, n, done) && done < n
    ensures MaskDone(Stored(buf, data, n, done, true), Counted(writes, n, done, true), data, n, done + 1)
  {
  }

  /** Storing pixel `done`'s three channel values extends `ImageDone` by one pixel. */
  lemma ImageStep(buf: seq<real>, writes: seq<nat>, data: seq<int>, n: nat, done: nat)
    requires |data| == 4 * n && ImageDone(buf, writes, data, n, done) && done < n
    ensures ImageDone(Stored(buf, data, n, done, false), Counted(writes, n, done, false), data, n, done + 1)
  {
    var buf', writes' := Stored(buf, data, n, done, false), Counted(writes, n, done, false);
    var spec := ImageTensorOf(data, n);
    forall k | 0 <= k < 3 * n && PixelOf(k, n) < done + 1
      ensures buf'[k] == spec[k]
    {
      if PixelOf(k, n) < done {
        assert k != done && k != n + done && k != 2 * n + done;
      } else {
        assert k == PlaneOf(k, n) * n + done;
      }
    }
    forall k | 0 <= k < 3 * n
      ensures writes'[k] == WriteCount(PixelOf(k, n), done + 1)
    {
      if PixelOf(k, n) != done {
        assert k != done && k != n + done && k != 2 * n + done;
      }
    }
  }

  /** Storing pixel `done` extends `Done` by one pixel. */
  lemma Step(buf: seq<real>, writes: seq<nat>, data: seq<int>, n: nat, isMask: bool, done: nat)
    requires |data| == 4 * n && Done(buf, writes, data, n, isMask, done) && done < n
    ensures |buf| == Channels(isMask) * n && |writes| == Channels(isMask) * n
    ensures Done(Stored(buf, data, n, done, isMask), Counted(writes, n, done, isMask), data, n, isMask, done + 1)
  {
    if isMask {
      MaskStep(buf, writes, data, n, done);
    } else {
      ImageStep(buf, writes, data, n, done);
    }
  }

  /** Before any pixel is stored, no pixel is done and no index has been written. */
  lemma Started(buf: seq<real>, writes: seq<nat>, data: seq<int>, n: nat, isMask: bool)
    requires |data| == 4 * n && |buf| == Channels(isMask) * n
    requires writes == seq(Channels(isMask) * n, _ => 0)
    ensures Done(buf, writes, data, n, isMask, 0)
  {
  }

  /** Once all `n` pixels are done the buffer is the tensor and every index was stored once. */
  lemma Finished(buf: seq<real>, writes: seq<nat>, data: seq<int>, n: nat, isMask: bool)
    requires |data| == 4 * n && Done(buf, writes, data, n, isMask, n)
    ensures buf == if isMask then MaskTensorOf(data, n) else ImageTensorOf(data, n)
    ensures |writes| == |buf| && forall k :: 0 <= k < |writes| ==> writes[k] == 1
  {
  }

  /**
   * The body of the pixel loop of inferenceWorker.ts:60-76 for pixel `p`: the
   * mask stores `MaskValue` of the red byte at `p`; the image stores each of its
   * three channel bytes, divided by 255, at `p` of that channel's plane.
   */
  method StorePixel(buf: array<real>, data: seq<int>, n: nat, p: nat, isMask: bool,
                    ghost writes: seq<nat>) returns (ghost writes': seq<nat>)
    requires |data| == 4 * n && p < n && buf.Length == Channels(isMask) * n
    requires |writes| == buf.Length
    modifies buf
    ensures buf[..] == Stored(old(buf[..]), data, n, p, isMask)
    ensures writes' == Counted(writes, n, p, isMask)
  {
    var idx := p * 4;
    writes' := writes;
    if isMask {
      var val := if data[idx] > 0 then 1.0 else 0.0;
      buf[p] := val;
      writes' := writes'[p := writes'[p] + 1];
    } else {
      var r := data[idx];
      var g := data[idx + 1];
      var b := data[idx + 2];
      buf[0 * n + p] := r as real / 255.0;
      writes' := writes'[0 * n + p := writes'[0 * n + p] + 1];
      buf[1 * n + p] := g as real / 255.0;
      writes' := writes'[1 * n + p := writes'[1 * n + p] + 1];
      buf[2 * n + p] := b as real / 255.0;
      writes' := writes'[2 * n + p := writes'[2 * n + p] + 1];
    }
  }

  /** The inner loop of inferenceWorker.ts:59-77: stores every pixel of row `y`. */
  method StoreRow(buf: array<real>, data: seq<int>, width: nat, height: nat, y: nat, isMask: bool,
                  ghost writes: seq<nat>) returns (ghost writes': seq<nat>)
    requires |data| == 4 * (height * width) && y < height
    requires buf.Length == Channels(isMask) * (height * width)
    requires Done(buf[..], writes, data, height * width, isMask, y * width)
    modifies buf
    ensures Done(buf[..], writes', data, height * width, isMask, y * width + width)
  {
    var n := height * width;
    assert width * height == n;
    writes' := writes;
    var x := 0;
    while x < width
      invariant 0 <= x <= width
      invariant Done(buf[..], writes', data, n, isMask, y * width + x)
    {
      Raster.PixelIndexInGrid(width, height, x, y);
      var p := y * width + x;
      ghost var before := buf[..];
      Step(before, writes', data, n, isMask, p);
      writes' := StorePixel(buf, data, n, p, isMask, writes');
      x := x + 1;
    }
  }

  /**
   * `preprocess` (inferenceWorker.ts:53-81): a tensor of shape
   * [1, channels, height, width] whose data is the mask tensor or the image
   * tensor of `img`; the ghost `writes` counts the stores to each index, and
   * every index is stored exactly once.
   */
  method Preprocess(img: ImageData, isMask: bool) returns (t: Tensor, ghost writes: seq<nat>)
    requires |img.data| == 4 * (img.width * img.height)
    ensures t.dims == [1, Channels(isMask), img.height, img.width]
    ensures |t.data| == Channels(isMask) * (img.height * img.width)
    ensures t.data == TensorData(img, isMask)
    ensures |writes| == |t.data| && forall k :: 0 <= k < |writes| ==> writes[k] == 1
  {
    var width, height, data := img.width, img.height, img.data;
    var n := height * width;
    assert n == width * height;
    var channels := Channels(isMask);
    var buf := new real[channels * n](_ => 0.0);
    writes := seq(channels * n, _ => 0);
    Started(buf[..], writes, data, n, isMask);
    var y := 0;
    while y < height
      invariant 0 <= y <= height && y * width <= n
      invariant Done(buf[..], writes, data, n, isMask, y * width)
    {
      writes := StoreRow(buf, data, width, height, y, isMask, writes);
      Raster.NextRow(width, y);
      Raster.MulMonotone(y + 1, height, width);
      y := y + 1;
    }
    assert y * width == n;
    Finished(buf[..], writes, data, n, isMask);
    t := Tensor([1, channels, height, width], buf[..]);
  }

  /** How many leading output values `postprocess` inspects to pick its scale. */
  const ScaleProbe := 100

  /**
   * Whether a value among the first `ScaleProbe` of `data` exceeds 2.0, which
   * `postprocess` takes to mean the model produced values in [0, 255].
   */
  predicate LooksByteRange(data: seq<real>) {
    exists i :: 0 <= i < ScaleProbe && i < |data| && data[i] > 2.0
  }

  /** The factor `postprocess` multiplies every output value by. */
  function ScaleOf(data: seq<real>): real {
    if LooksByteRange(data) then 1.0 else 255.0
  }

  /**
   * The scale probe of inferenceWorker.ts:89-96: a scan of the first 100 values
   * that stops at the first one above 2.0. A position past the end of the
   * tensor reads as `undefined`, which is never above 2.0.
   */
  method DetectScale(data: seq<real>) returns (scale: real)
    ensures scale == ScaleOf(data)
  {
    var isNormalized := false;
    var i := 0;
    while i < ScaleProbe
      invariant 0 <= i <= ScaleProbe
      invariant forall j :: 0 <= j < i && j < |data| ==> data[j] <= 2.0
    {
      if i < |data| && data[i] > 2.0 {
        isNormalized := true;
        break;
      }
      i := i + 1;
    }
    scale := if isNormalized then 1.0 else 255.0;
  }

  /** `Math.max(0, Math.min(255, v))`. */
  function Clamp255(v: real): (c: real)
    ensures 0.0 <= c <= 255.0
    ensures 0.0 <= v <= 255.0 ==> c == v
    ensures v < 0.0 ==> c == 0.0
    ensures v > 255.0 ==> c == 255.0
  {
    if v < 0.0 then 0.0 else if v > 255.0 then 255.0 else v
  }

  /** Value `k` of the output tensor, or `None` (`undefined`) past its end. */
  function At(data: seq<real>, k: int): Option<real> {
    if 0 <= k < |data| then Some(data[k]) else None
  }

  /**
   * The byte `postprocess` stores for channel `c` < 3 of pixel `p`: the clamped,
   * scaled value at `p` of plane `c`. A missing value makes the arithmetic NaN,
   * which the clamped byte array stores as 0.
   */
  function Channel(data: seq<real>, n: nat, scale: real, c: nat, p: nat): real {
    match At(data, c * n + p)
    case None => 0.0
    case Some(v) => Clamp255(v * scale)
  }

  /** The four bytes `postprocess` stores for pixel `p`: red, green, blue and an opaque alpha. */
  function DecodedPixel(data: seq<real>, n: nat, scale: real, p: nat): seq<real> {
    [Channel(data, n, scale, 0, p), Channel(data, n, scale, 1, p), Channel(data, n, scale, 2, p), 255.0]
  }

  /** The RGBA bytes of the `n` pixels decoded from `data` with `scale`. */
  function DecodedImage(data: seq<real>, n: nat, scale: real): seq<real> {
    seq(4 * n, k requires 0 <= k < 4 * n => DecodedPixel(data, n, scale, k / 4)[k % 4])
  }

  /** The first `4 * done` bytes of the buffer are the decoded bytes of the first `done` pixels. */
  ghost predicate Decoded(buf: seq<real>, data: seq<real>, n: nat, scale: real, done: int) {
    && |buf| == 4 * n && 0 <= done <= n
    && forall k :: 0 <= k < 4 * done ==> buf[k] == DecodedImage(data, n, scale)[k]
  }

  /** The buffer after pixel `p`'s four bytes are stored. */
  function Emitted(buf: seq<real>, data: seq<real>, n: nat, scale: real, p: nat): seq<real>
    requires p < n && |buf| == 4 * n
  {
    buf[4 * p := Channel(data, n, scale, 0, p)]
       [4 * p + 1 := Channel(data, n, scale, 1, p)]
       [4 * p + 2 := Channel(data, n, scale, 2, p)]
       [4 * p + 3 := 255.0]
  }

  /** Storing pixel `done`'s bytes extends `Decoded` by one pixel. */
  lemma EmitStep(buf: seq<real>, data: seq<real>, n: nat, scale: real, done: nat)
    requires Decoded(buf, data, n, scale, done) && done < n
    ensures Decoded(Emitted(buf, data, n, scale, done), data, n, scale, done + 1)
  {
    var buf' := Emitted(buf, data, n, scale, done);
    forall k | 0 <= k < 4 * (done + 1)
      ensures buf'[k] == DecodedImage(data, n, scale)[k]
    {
      if k >= 4 * done {
        assert k / 4 == done;
      }
    }
  }

  /**
   * The body of the pixel loop of inferenceWorker.ts:98-110 for pixel `p`:
   * the clamped scaled values of the three planes at `p`, then alpha 255.
   */
  method EmitPixel(buf: array<real>, data: seq<real>, n: nat, scale: real, p: nat)
    requires p < n && buf.Length == 4 * n
    modifies buf
    ensures buf[..] == Emitted(old(buf[..]), data, n, scale, p)
  {
    var r := Channel(data, n, scale, 0, p);
    var g := Channel(data, n, scale, 1, p);
    var b := Channel(data, n, scale, 2, p);
    var idx := p * 4;
    buf[idx] := r;
    buf[idx + 1] := g;
    buf[idx + 2] := b;
    buf[idx + 3] := 255.0;
  }

  /** The inner loop of inferenceWorker.ts:99-109: stores the bytes of every pixel of row `y`. */
  method EmitRow(buf: array<real>, data: seq<real>, width: nat, height: nat, scale: real, y: nat)
    requires y < height && buf.Length == 4 * (height * width)
    requires Decoded(buf[..], data, height * width, scale, y * width)
    modifies buf
    ensures Decoded(buf[..], data, height * width, scale, y * width + width)
  {
    var n := height * width;
    assert width * height == n;
    var x := 0;
    while x < width
      invariant 0 <= x <= width
      invariant Decoded(buf[..], data, n, scale, y * width + x)
    {
      Raster.PixelIndexInGrid(width, height, x, y);
      var p := y * width + x;
      ghost var before := buf[..];
      EmitStep(before, data, n, scale, p);
      EmitPixel(buf, data, n, scale, p);
      x := x + 1;
    }
  }

  /**
   * `postprocess` (inferenceWorker.ts:84-110) up to the pixel bytes it puts on
   * its canvas: `width * height` RGBA pixels decoded from `data` with the scale
   * the probe picks.
   */
  method Postprocess(data: seq<real>, width: nat, height: nat) returns (pixels: seq<real>)
    ensures pixels == DecodedImage(data, width * height, ScaleOf(data))
  {
    var scale := DetectScale(data);
    var n := height * width;
    assert n == width * height;
    var buf := new real[4 * n](_ => 0.0);
    var y := 0;
    while y < height
      invariant 0 <= y <= height && y * width <= n
      invariant Decoded(buf[..], data, n, scale, y * width)
    {
      EmitRow(buf, data, width, height, scale, y);
      Raster.NextRow(width, y);
      Raster.MulMonotone(y + 1, height, width);
      y := y + 1;
    }
    assert y * width == n;
    pixels := buf[..];
  }

  /** In source terms: each decoded pixel is its three clamped channels in [0, 255] and an opaque alpha. */
  lemma DecodedImageAt(data: seq<real>, n: nat, scale: real, p: nat, c: nat)
    requires p < n && c < 4
    ensures |DecodedImage(data, n, scale)| == 4 * n
    ensures DecodedImage(data, n, scale)[4 * p + c]
            == if c == 3 then 255.0 else Channel(data, n, scale, c, p)
    ensures 0.0 <= DecodedImage(data, n, scale)[4 * p + c] <= 255.0
  {
    assert (4 * p + c) / 4 == p && (4 * p + c) % 4 == c;
  }

  /** The scale depends on the first `ScaleProbe` values alone. */
  lemma ScaleReadsProbeOnly(a: seq<real>, b: seq<real>)
    requires |a| >= ScaleProbe && |b| >= ScaleProbe && a[..ScaleProbe] == b[..ScaleProbe]
    ensures ScaleOf(a) == ScaleOf(b)
  {
    if LooksByteRange(a) {
      var i :| 0 <= i < ScaleProbe && i < |a| && a[i] > 2.0;
      assert a[..ScaleProbe][i] == b[i];
    }
    if LooksByteRange(b) {
      var i :| 0 <= i < ScaleProbe && i < |b| && b[i] > 2.0;
      assert b[..ScaleProbe][i] == a[i];
    }
  }

  /** Every value of an image tensor lies in [0, 1]. */
  lemma ImageTensorInUnitRange(data: seq<int>, n: nat, k: nat)
    requires |data| == 4 * n && Raster.Bytes(data) && k < 3 * n
    ensures 0.0 <= ImageTensorOf(data, n)[k] <= 1.0
  {
    var j := 4 * PixelOf(k, n) + PlaneOf(k, n);
    assert 0 <= j < |data|;
  }

  /** An output in [0, 1], like the tensor `preprocess` makes, is scaled by 255. */
  lemma UnitRangeScaledBy255(data: seq<real>)
    requires forall k :: 0 <= k < |data| ==> 0.0 <= data[k] <= 1.0
    ensures ScaleOf(data) == 255.0
  {
  }

  /**
   * `postprocess` inverts `preprocess` on an opaque image: decoding the image
   * tensor of an RGBA raster whose alpha bytes are all 255 gives back its bytes.
   */
  lemma RoundTrip(data: seq<int>, n: nat)
    requires |data| == 4 * n && Raster.Bytes(data)
    requires forall p :: 0 <= p < n ==> data[4 * p + 3] == 255
    ensures DecodedImage(ImageTensorOf(data, n), n, ScaleOf(ImageTensorOf(data, n)))
            == seq(4 * n, k requires 0 <= k < 4 * n => data[k] as real)
  {
    var t := ImageTensorOf(data, n);
    forall k | 0 <= k < |t| ensures 0.0 <= t[k] <= 1.0 {
      ImageTensorInUnitRange(data, n, k);
    }
    UnitRangeScaledBy255(t);
    var d := DecodedImage(t, n, 255.0);
    forall k | 0 <= k < 4 * n
      ensures d[k] == data[k] as real
    {
      var p, c := k / 4, k % 4;
      assert k == 4 * p + c;
      RoundTripAt(data, n, p, c);
    }
  }

  /** One byte of the round trip: channel `c` of pixel `p` decodes from the image tensor with scale 255 to itself. */
  lemma RoundTripAt(data: seq<int>, n: nat, p: nat, c: nat)
    requires |data| == 4 * n && Raster.Bytes(data) && p < n && c < 4
    requires c == 3 ==> data[4 * p + 3] == 255
    ensures DecodedImage(ImageTensorOf(data, n), n, 255.0)[4 * p + c] == data[4 * p + c] as real
  {
    var t := ImageTensorOf(data, n);
    DecodedImageAt(t, n, 255.0, p, c);
    if c < 3 {
      ImageTensorAt(data, n, p, c);
      assert |t| == 3 * n;
      Raster.MulMonotone(c, 2, n);
      assert At(t, c * n + p) == Some(data[4 * p + c] as real / 255.0);
    }
  }

  /** In source terms: channel `c` of pixel `p` sits at `c * n + p` of the image tensor, as its byte over 255. */
  lemma ImageTensorAt(data: seq<int>, n: nat, p: nat, c: nat)
    requires |data| == 4 * n && p < n && c < 3
    ensures c * n + p < 3 * n
    ensures ImageTensorOf(data, n)[c * n + p] == data[4 * p + c] as real / 255.0
  {
    if c == 0 {
      assert PixelOf(p, n) == p && PlaneOf(p, n) == 0;
    } else if c == 1 {
      assert PixelOf(n + p, n) == p && PlaneOf(n + p, n) == 1;
    } else {
      assert PixelOf(2 * n + p, n) == p && PlaneOf(2 * n + p, n) == 2;
    }
  }

  /** In source terms: pixel `p` of the mask tensor is 1.0 when its red byte is above zero and 0.0 otherwise. */
  lemma MaskTensorAt(data: seq<int>, n: nat, p: nat)
    requires |data| == 4 * n && p < n
    ensures MaskTensorOf(data, n)[p] == (if data[4 * p] > 0 then 1.0 else 0.0)
    ensures MaskTensorOf(data, n)[p] == 0.0 || MaskTensorOf(data, n)[p] == 1.0
  {
  }

  /**
   * The probe misreads a [0, 255] output whose first 100 values are dark (at
   * most 2.0): it scales the whole tensor by 255, so every channel above 1.0
   * saturates to 255.
   */
  lemma DarkStartSaturates(data: seq<real>, n: nat, c: nat, p: nat)
    requires forall i :: 0 <= i < ScaleProbe && i < |data| ==> data[i] <= 2.0
    requires c * n + p < |data| && data[c * n + p] >= 1.0
    ensures ScaleOf(data) == 255.0
    ensures Channel(data, n, ScaleOf(data), c, p) == 255.0
  {
  }
}
