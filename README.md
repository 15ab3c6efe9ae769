# Image eraser core, modelled in Dafny

This project models the sequential logic of the image-eraser web app. In that
app a user paints a mask over a photo. The painted region is cut out with some
context around it and sent to a LaMa inpainting model in a web worker. The
result is pasted back into the photo where the mask was painted.

The model covers five pieces.

- **Region extraction** (`RegionExtractor`). `handleErase` scans the mask's
  RGBA bytes for the tight box of painted pixels. It pads the box and clamps it
  to the image, favouring a square rectangle.
- **Compositing and small helpers** (`Compositor`, `Upload`).
  - Compositing masks the inpainted patch with Porter-Duff `destination-in` and
    draws it `source-over` at the crop box. Pixels are premultiplied RGBA
    reals, as in section 9.1 of W3C Compositing and Blending Level 1.
  - `clearMask` zeroes the mask.
  - The upload cap shrinks an image so that neither side exceeds 2048 pixels.
- **Tensor codec and feed mapping** (`TensorCodec`, `FeedMapping`).
  - `preprocess` turns image data into channel-planar float tensors.
  - `postprocess` detects the scale of the output, clamps each channel and
    sets alpha to 255.
  - The input-name heuristic decides which tensor feeds which model input.
- **The worker's session state machine** (`InferenceWorker`). This covers
  `session`, `isInitializing`, `initModel` with its two creation attempts,
  and the `init`/`process` message handler.
- **The `useInference` hook** (`InferenceHook`). It holds `isProcessing`,
  `resultImage` and `error`, and changes them on `processImage` and on each
  worker event.

Code that loops is modelled as methods with loop invariants. The mask scan
reads the mask's bytes as a sequence and updates only its local bounds. The
tensor loops, the compositing passes and `clearMask` fill or update arrays in
place. Each method is proved against a specification function. The two stateful objects are classes: the worker's
module state and the hook's state. Each method of those classes is tied to a
transition function over a state value (`AfterInit`, `AfterProcess`,
`Requested`, `Received`, `Crashed`), and the transition functions are
described by lemmas.

Calls into code the model cannot see become parameters:

- `ort.InferenceSession.create` becomes a `CreateOutcome` per attempt.
- Fetching and decoding the two images becomes `Fetched`.
- `session.run` becomes `RunOutcome`.
- The availability of a 2D context becomes `hasContext`.

Two behaviours of the code are worth stating outright:

- Nothing in the code rejects a second `processImage` while one is in flight.
  Only the disabled button (ImageCanvas.tsx:369) stops it.
  `InferenceHook.NoSingleFlight` states this.
- A `process` message that arrives while an initialisation is pending fails at
  once with "Model not initialized.". It does not wait for that
  initialisation's outcome. `InferenceWorker.ProcessDuringInit` states this.

## Model

| member | source | states |
|---|---|---|
| RegionExtractor.ScanMask | src/components/ImageCanvas.tsx:253-273 | `found` holds exactly when some pixel has alpha > 0. Then the bounds are the tight box: every painted pixel lies inside it and each bound is attained by a painted pixel. Otherwise the bounds keep their initial values width, height, 0, 0. |
| RegionExtractor.TightBoxUnique | src/components/ImageCanvas.tsx:253-271 | Two tight boxes of the same mask are equal, so the extraction rectangle depends on the mask alone. |
| RegionExtractor.Padding | src/components/ImageCanvas.tsx:276 | The padding is at least 30, at least 0.15·(maxX−minX) and at least 0.15·(maxY−minY), and it equals one of the three. |
| RegionExtractor.BoxOrigin | src/components/ImageCanvas.tsx:277-278 | The origin lies in 0..min. It is 0 exactly when min − padding is below 1. Otherwise it lies at least `padding` before min and less than padding + 1 before it, so it is ⌊min − padding⌋. |
| RegionExtractor.ExtractionRect | src/components/ImageCanvas.tsx:275-285 | The rectangle starts at or before the tight box and is non-empty. It lies inside the image and contains maxX and maxY. It is the square of side `size` whenever the image has room for it. When it is not square, its shorter side ends at the image edge. Each side either reaches the image edge or leaves at least the padding around the tight box: up to min − padding before it, and beyond max + padding − 1 after it. An origin is 0 only when min − padding is below 1. |
| RegionExtractor.HandleErase | src/components/ImageCanvas.tsx:245-288 | With the guards of :246 and :250 passed, `None` (no crop box, no request) exactly when nothing is painted. Otherwise the result is a non-empty crop inside the image that holds every painted pixel and is the extraction rectangle of the tight box. |
| RegionExtractor.SmallMaskGetsMinimumPadding | src/components/ImageCanvas.tsx:276-285 | A tight box of extent at most 200 gets padding exactly 30. Each side of its rectangle is at least 60 unless it reaches the image edge. |
| RegionExtractor.WorkedExample | src/components/ImageCanvas.tsx:276-285 | A 200×200 mask painted over 95..105 gives the rectangle (65, 65, 70, 70). |
| Compositor.UnpaintedPixelKept | src/components/ImageCanvas.tsx:132-140 | Where the mask alpha is 0, the composited pixel is the original pixel. |
| Compositor.PaintedPixelReplaced | src/components/ImageCanvas.tsx:132-140 | Where the mask alpha is 255 and the patch is opaque, the composited pixel is the patch pixel. |
| Compositor.DestinationInValid | src/components/ImageCanvas.tsx:132-137 | `destination-in` with a coverage in [0, 1] keeps a premultiplied pixel valid. |
| Compositor.SourceOverValid | src/components/ImageCanvas.tsx:140 | `source-over` of two valid premultiplied pixels is valid. |
| Compositor.CompositeValid | src/components/ImageCanvas.tsx:132-140 | Masking the patch and drawing it over a valid original gives a valid pixel for every mask byte. |
| Compositor.CompositeIsBlend | src/components/ImageCanvas.tsx:132-140 | For an opaque patch, each channel is the blend m·patch + (1−m)·original with m = alpha/255. |
| Compositor.MaskCutout | src/components/ImageCanvas.tsx:132-137 | Each patch pixel becomes `destination-in` of itself with the mask coverage at its place in the crop box. |
| Compositor.PasteCutout | src/components/ImageCanvas.tsx:140 | Each canvas pixel covered by the cutout becomes the cutout pixel `source-over` the old pixel. Every other pixel is unchanged. |
| Compositor.Composite | src/components/ImageCanvas.tsx:118-140 | Inside the crop box each pixel is `CompositePixel` of the old values. Pixels outside the box, and pixels whose mask alpha is 0, are unchanged. Where alpha is 255 and the patch is opaque, the result is the patch pixel. |
| Compositor.ApplyResult | src/components/ImageCanvas.tsx:106-150 | Without a result, an image, the mask canvas, a crop box and a canvas context, nothing changes. Otherwise the crop box is dropped, the mask is cleared when its context exists, and the canvas becomes the image: composited inside the crop box when the cutout has a context, the original when it has none. |
| Compositor.ClearMask | src/components/ImageCanvas.tsx:65-70 | With the mask canvas, its context and an image all present, the mask becomes `Cleared` of itself. When any of them is missing it is unchanged. |
| Compositor.Cleared | src/components/ImageCanvas.tsx:68 | A cleared mask has the same length and every byte 0. |
| Compositor.ClearIdempotent | src/components/ImageCanvas.tsx:65-70 | Clearing twice is the same as clearing once. |
| Upload.Round | src/components/ImageCanvas.tsx:169-170 | `Math.round` is within half a unit of its argument, with halves rounded up. |
| Upload.Ratio | src/components/ImageCanvas.tsx:168 | The ratio scales both sides to at most 2048, and one of them to exactly 2048. |
| Upload.CappedDimensions | src/components/ImageCanvas.tsx:165-185 | An image within the cap, or one without a context, keeps its size. Otherwise both sides are at most 2048, one is exactly 2048, and each is within 0.5 of its exact scaled value. |
| Upload.ElongatedImageCollapses | src/components/ImageCanvas.tsx:168-170 | As written, an 8193×1 upload is capped to 2048×0. |
| Upload.CappedDimensionsNonEmpty | src/components/ImageCanvas.tsx:168-170 | With each rounded side kept at least 1, the result is never empty, stays within the cap and otherwise equals `CappedDimensions`. |
| TensorCodec.StorePixel | src/lib/inferenceWorker.ts:60-76 | One pixel's stores: the mask value at p, or r/255, g/255 and b/255 at p of each plane. The write count of each index it stores goes up by one, and no other count changes. |
| TensorCodec.StoreRow | src/lib/inferenceWorker.ts:59-77 | After one row, the first (y+1)·w pixels hold their tensor values, and each of their indices has been written exactly once. |
| TensorCodec.Preprocess | src/lib/inferenceWorker.ts:53-81 | The shape is [1, channels, h, w], with channels 1 for the mask and 3 for the image. The data has length channels·h·w and is the mask or image tensor of the input. Every index is written exactly once. |
| TensorCodec.MaskTensorAt | src/lib/inferenceWorker.ts:61-64 | The mask value at pixel p is 1.0 if the red byte `data[4p]` is > 0 and 0.0 otherwise, so it is in {0, 1}. |
| TensorCodec.ImageTensorAt | src/lib/inferenceWorker.ts:66-75 | The image tensor at c·n + p is `data[4p + c]/255` for c in 0..2. |
| TensorCodec.ImageTensorInUnitRange | src/lib/inferenceWorker.ts:73-75 | Every image tensor value of a byte raster lies in [0, 1]. |
| TensorCodec.DetectScale | src/lib/inferenceWorker.ts:89-96 | The loop that stops at the first value above 2.0 returns `ScaleOf`: 1 if some value among the first 100 exceeds 2.0, else 255. |
| TensorCodec.ScaleReadsProbeOnly | src/lib/inferenceWorker.ts:89-95 | Two outputs that agree on their first 100 values get the same scale. |
| TensorCodec.UnitRangeScaledBy255 | src/lib/inferenceWorker.ts:89-96 | An output whose values all lie in [0, 1] is scaled by 255. |
| TensorCodec.DarkStartSaturates | src/lib/inferenceWorker.ts:89-102 | If the first 100 values are all ≤ 2.0, the scale is 255, so any channel value ≥ 1 saturates to 255. |
| TensorCodec.Clamp255 | src/lib/inferenceWorker.ts:100-102 | `max(0, min(255, v))` lies in [0, 255]. It is v when v is already in range, 0 below the range and 255 above it. |
| TensorCodec.EmitPixel | src/lib/inferenceWorker.ts:100-108 | One pixel's four stores: the clamped, scaled value of each plane, then 255. |
| TensorCodec.EmitRow | src/lib/inferenceWorker.ts:99-109 | After one row, the first (y+1)·w pixels hold their decoded bytes. |
| TensorCodec.Postprocess | src/lib/inferenceWorker.ts:84-110 | The pixel bytes are `DecodedImage` of the output, with the detected scale. |
| TensorCodec.DecodedImageAt | src/lib/inferenceWorker.ts:98-109 | Byte 4p + c is `clamp(plane[c][p]·scale)` for c < 3 and 255 for c = 3, and always lies in [0, 255]. A value missing from the tensor decodes to 0. |
| TensorCodec.RoundTrip | src/lib/inferenceWorker.ts:53-110 | Postprocessing the image tensor of an opaque byte raster gives its bytes back. |
| FeedMapping.LowerChar | src/lib/inferenceWorker.ts:159 | ASCII `toLowerCase` on one character: upper-case letters move down by 32 and everything else is kept. |
| FeedMapping.Lower | src/lib/inferenceWorker.ts:159 | `toLowerCase` keeps the length and lower-cases each character. |
| FeedMapping.Find | src/lib/inferenceWorker.ts:159-160 | `find` returns nothing exactly when no name matches. Otherwise it returns a matching name with no match before it. |
| FeedMapping.ImageInputNameChoice | src/lib/inferenceWorker.ts:159 | The image input is the first name whose lower case contains "image" or that equals "x". Failing that it is names[0], which is undefined for an empty list. |
| FeedMapping.MaskInputNameChoice | src/lib/inferenceWorker.ts:160 | The mask input is the first name whose lower case contains "mask". Failing that it is names[1]. |
| FeedMapping.FeedsContents | src/lib/inferenceWorker.ts:166-167 | The feeds have exactly the two chosen keys. The mask tensor is always under the mask name. The image tensor is under the image name unless the two names coincide, in which case the mask wins. |
| FeedMapping.LamaNames | src/lib/inferenceWorker.ts:155-167 | The names ["image", "mask"] feed each tensor under its own name. |
| FeedMapping.SharedNameFeedsOnlyMask | src/lib/inferenceWorker.ts:159-167 | The names ["masked_image", "mask"] send both tensors to "masked_image", the mask last, and leave "mask" unfed. |
| InferenceWorker.FailureReason | src/lib/inferenceWorker.ts:32 | The reason is never empty. It is the message when that is non-empty, else the `toString()` text when that is non-empty, else "Unknown error". |
| InferenceWorker.ErrorText | src/lib/inferenceWorker.ts:183 | The reply text is never empty. It is the message when that is non-empty, else "An error occurred during inference.". |
| InferenceWorker.Worker.constructor | src/lib/inferenceWorker.ts:7-8 | A fresh worker has no session, no initialisation and nothing posted. |
| InferenceWorker.Worker.BeginInit | src/lib/inferenceWorker.ts:14-15 | `initModel` goes past its guard only when there is no session and no initialisation, and then sets `isInitializing`. |
| InferenceWorker.Worker.CompleteInit | src/lib/inferenceWorker.ts:16-37 | Called on a consistent worker with an initialisation pending, so with no session yet. The result is the attempts' session, one `init-done` or load error, one or two create calls, and `isInitializing` false. |
| InferenceWorker.Worker.InitModel | src/lib/inferenceWorker.ts:13-38 | The state becomes `AfterInit` of the old state. |
| InferenceWorker.Worker.Process | src/lib/inferenceWorker.ts:133-184 | The state becomes `AfterProcess` of the old state. The tensors fed to `run` are the image and mask tensors under the mapped names. |
| InferenceWorker.Worker.OnMessage | src/lib/inferenceWorker.ts:126-186 | `init` runs `initModel`, `process` runs the process branch, and any other type changes nothing. |
| InferenceWorker.InitGuard | src/lib/inferenceWorker.ts:14-15 | `initModel` is a no-op while a session exists or an initialisation is in progress. |
| InferenceWorker.InitOutcome | src/lib/inferenceWorker.ts:16-37 | A started `initModel` leaves `isInitializing` false and posts exactly one message. It makes one or two create calls, all with the model path and identical options. It ends with a session exactly when it posts `init-done`, and that happens exactly when one attempt succeeds. The session is the first attempt's when that succeeds, else the second's. A second create call is made exactly when the first attempt fails. When both fail, the error is "Failed to load ONNX model. Reason: " followed by the second failure's reason. |
| InferenceWorker.InitOnce | src/lib/inferenceWorker.ts:13-38 | After a successful initialisation a second `initModel` changes nothing. |
| InferenceWorker.StepsKeepConsistent | src/lib/inferenceWorker.ts:7-38 | Every transition keeps `isInitializing` only while there is no session. |
| InferenceWorker.ProcessPostsOneReply | src/lib/inferenceWorker.ts:133-184 | A `process` request posts exactly one `result` or `error` after its own init message. The error is "Model not initialized." when there is still no session. Otherwise the reply is `ProcessReply`. |
| InferenceWorker.ProcessDuringInit | src/lib/inferenceWorker.ts:133-140 | A `process` during a pending initialisation starts no second one and fails with "Model not initialized.". The pending initialisation then posts its own message. |
| InferenceWorker.ProcessAfterFailedLoad | src/lib/inferenceWorker.ts:133-140 | On a fresh worker whose two create attempts fail, `process` posts the load error and then "Model not initialized.". |
| InferenceWorker.ResultIsDecodedOutput | src/lib/inferenceWorker.ts:169-180 | A `result` carries the decoded first output: 512·512 RGBA pixels with every channel in [0, 255] and every alpha 255. |
| InferenceHook.Encode | src/lib/inferenceWorker.ts:180-183 | A worker message arrives with the type "init-done", "result" or "error". |
| InferenceHook.Hook.constructor | src/hooks/useInference.ts:4-7 | The initial state: not processing, no result, no error, no worker. |
| InferenceHook.Hook.Mount | src/hooks/useInference.ts:9-35 | Mounting creates the worker and posts one `init` request. |
| InferenceHook.Hook.ProcessImage | src/hooks/useInference.ts:42-51 | The state becomes `Requested` of the old state. |
| InferenceHook.Hook.OnMessage | src/hooks/useInference.ts:15-26 | The state becomes `Received` of the old state. |
| InferenceHook.Hook.OnError | src/hooks/useInference.ts:28-32 | The state becomes `Crashed` of the old state. |
| InferenceHook.RequestStarts | src/hooks/useInference.ts:42-51 | With a worker: processing, no error, no result, and one `process` request posted with the two sources. Without one: nothing changes. |
| InferenceHook.MessageTransitions | src/hooks/useInference.ts:15-26 | `result` sets the result and stops processing, and leaves the error. `error` sets the error and stops processing, and leaves the result. `init-done` and unknown types change nothing. |
| InferenceHook.CrashSettles | src/hooks/useInference.ts:28-32 | `onerror` sets the fatal message and stops processing, and leaves the result. |
| InferenceHook.TransitionsKeepPending | src/hooks/useInference.ts:15-51 | While processing there is neither a result nor an error, under every transition. |
| InferenceHook.NoSingleFlight | src/hooks/useInference.ts:42-51 | A second `processImage` while one is in flight posts a second request. |
| InferenceHook.RequestRoundTrip | src/hooks/useInference.ts:15-51 | A request answered with a worker `result` ends with that payload (512·512 RGBA) as the result image, processing over and no error. |

## Left out

- Stroke rasterisation (`lineTo`/`stroke`) and pointer geometry: these are browser canvas and DOM behaviour.
- Bitmap resampling by `drawImage` and `createImageBitmap`: the resampled patch and the 512×512 inputs are inputs to the model.
- The crop and rescale of image and mask to 512×512 (ImageCanvas.tsx:290-308) are drawing calls. The `processImage` request that follows (:309) is modelled by `InferenceHook.Hook.ProcessImage`.
- RegionExtractor.HandleErase: the guards at ImageCanvas.tsx:246 (image, mask canvas and display canvas present) and :250 (mask context present) are taken to pass. The Erase button is shown only with an image (:357-369). A missing 2-D context for a scaled canvas (:295, :303) returns after `setCropBox`, which leaves the crop box set and sends no request. That return is not modelled.
- Data-URL encoding and decoding, `fetch`, `FileReader`, `convertToBlob` and the Worker transport: these are I/O.
  - A `result` payload is modelled as the RGBA bytes `postprocess` puts on its canvas, not as a PNG data URL.
  - `resultImage` and the compositing patch are therefore unconnected values.
- `ort.InferenceSession.create` and `run`: an opaque foreign library. Each is an outcome parameter, and the output tensor's values are arbitrary.
- Interleaving inside `process`: each `process` request runs as one step, and its own `initModel` runs without interruption.
  - Only the interleaving of a `process` with another handler's pending `initModel` is modelled (`BeginInit` / `CompleteInit`).
  - A message arriving during a `process` request's own awaits is not modelled.
- React scheduling, effect order, `console` logging and worker termination on unmount are left out.
- The 8-bit storage of canvas pixels and of `Uint8ClampedArray`, Float32 rounding and NaN: values are reals.
  - A missing tensor value decodes to 0, as a NaN store would.
- FeedMapping.Lower: lower-cases ASCII letters only. Unicode case mapping is not modelled.
- InferenceWorker.Worker.Process: the message of the `TypeError` raised when the first output is missing is fixed at V8's wording.
- Upload: the 2048 cap is computed on positive natural sizes. The size of a decoded image is an input.
- Compositor.Composite: the patch is taken as already upscaled to the crop box. The model gives no 8-bit rounding of the result.
- Compositor.ApplyResult: the mask canvas is read once for the guards at ImageCanvas.tsx:108 and :127 and for `clearMask`. The two image loads are run to completion at once, and the re-encoding of the canvas as a PNG is taken as exact.
- TensorCodec.Postprocess: states the decoded bytes before they are clamped and rounded into the 8-bit canvas. It does not state the PNG encoding.

## Findings

| source | as written | input that shows it | evidently intended | confidence | as-written member | corrected member |
|---|---|---|---|---|---|---|
| src/components/ImageCanvas.tsx:168-170 | Each side of an oversized upload is `Math.round(side * ratio)`, which can round a short side to 0. | An 8193×1 image is capped to 2048×0, an empty canvas. | Each capped side is at least one pixel. | low; not executed | Upload.ElongatedImageCollapses | Upload.CappedDimensionsNonEmpty |
