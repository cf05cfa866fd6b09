# Picasso decode planner (`BitmapUtils`) in Dafny

This project models the decode planner of Picasso 3, the part of `BitmapUtils`
that decides how an image is handed to Android's platform decoders:

- **Sample-size arithmetic** (`sizing.dfy`, module `Sizing`): `calculateInSampleSize`
  turns the probed source dimensions, the request's target box and its
  `centerInside` flag into `inSampleSize`. A target of 0 leaves that axis
  unconstrained. When the source fits the box the result is 1. When the source
  exceeds the target on some axis and both axes are constrained, the result is
  the largest factor that keeps the image covering the box (every request that is not centre-inside:
  centre crop or a plain resize) or reaching it on one axis (centre inside).
  The proof shows these are the min and the max of the two floor ratios.
  The result is not clamped, so it can be 0.
- **Options** (`options.dfy`, module `BitmapOptions`): `BitmapFactory.Options` is
  a class whose fields the planner and the decoder update in place.
  `createBitmapOptions` allocates it only when the request has a size, a config or
  asks for purgeable bitmaps. `requiresInSampleSize` is the probe gate.
  `calculateInSampleSize` sets the sample size and leaves bounds-only mode. Each
  method is tied to a value-level function (`OptionsFor`, `Sized`).
- **Platform** (`platform.dfy`, module `Platform`): `BitmapFactory` and
  `ImageDecoder` become one abstract `Decoder` object. It knows the image's header
  dimensions and whether its pixels decode. It records every call together with
  the options as they were at that call.
- **Dispatch and the two-pass protocol** (`bitmap_utils.dfy`, module
  `BitmapUtils`):
  - From API 28 on, both `decodeStream` and `decodeResource` go to `ImageDecoder`.
    It gets a target-size hint exactly when the request has a size.
  - Before API 28, `decodeStream` decodes from a byte array for WebP input and for
    purgeable requests before Lollipop, and from the stream otherwise.
  - Each legacy path probes the bounds when a size is requested, computes the
    sample size, then decodes for real. `LegacyCalls` gives the call sequence and
    `TwoPassProtocol` states its ordering.
  - A null bitmap becomes an `IOException` on the stream path. The resource path
    returns it as it is.
  - `isXmlResource` is the ".xml" suffix test on the resource's file name.

The source file has no loops. The imperative parts are the in-place updates of
the options object and the ordered calls into the decoder.

Behaviour of the code worth noting:

- The sample size is not clamped to at least 1.
- No probe is issued when the request has no target size. When the request has
  a size, the probe is always followed by the sizing step.
- On the legacy resource path a null bitmap is returned, not turned into an error.

## Model

| member | source | states |
|---|---|---|
| `Sizing.FloorRatio` | picasso/src/main/java/com/squareup/picasso3/BitmapUtils.java:73-78 | each per-axis ratio is the floor of source over target: q*d <= n < (q+1)*d |
| `Sizing.SampleSize` | picasso/src/main/java/com/squareup/picasso3/BitmapUtils.java:66-83 | 1 when the source fits the box; floor ratio of the constrained axis when the other target is 0; otherwise the largest factor covering the box (not centre-inside: centre crop or plain resize) or reaching it on one axis (centre inside) |
| `Sizing.BothAxesRatio` | picasso/src/main/java/com/squareup/picasso3/BitmapUtils.java:77-81 | the max of the two floor ratios is the largest factor reaching the box and the min the largest covering it |
| `Sizing.SampleSizeIsLargestFit` | picasso/src/main/java/com/squareup/picasso3/BitmapUtils.java:77-81 | the fit characterisations determine the sample size uniquely, centre-inside or not |
| `Sizing.CropNotAboveInside` | picasso/src/main/java/com/squareup/picasso3/BitmapUtils.java:79-81 | for the same inputs the sample size when not centre-inside (centre crop or plain resize) is at most the centre-inside one |
| `Sizing.CropDecodeCoversBox` | picasso/src/main/java/com/squareup/picasso3/BitmapUtils.java:77-81 | not centre-inside (centre crop or plain resize), with the source at least the target on both axes: the sample size is at least 1, leaves width / r and height / r at least the targets, and r + 1 would fall short on one axis |
| `Sizing.InsideDecodeReachesBox` | picasso/src/main/java/com/squareup/picasso3/BitmapUtils.java:77-81 | centre inside: the sample size is at least 1, leaves one axis at least its target, and r + 1 would leave both axes short |
| `Sizing.SingleAxisSampleSize` | picasso/src/main/java/com/squareup/picasso3/BitmapUtils.java:72-75 | when the source exceeds the target on some axis: with the height unconstrained the result is width / reqWidth; with only the width unconstrained it is height / reqHeight |
| `Sizing.SampleSizeCanBeZero` | picasso/src/main/java/com/squareup/picasso3/BitmapUtils.java:68-73 | no clamp: a 500x400 source with targets 1000x0 gets sample size 0 |
| `Sizing.LandscapeIntoSquare` | picasso/src/main/java/com/squareup/picasso3/BitmapUtils.java:77-81 | 4000x3000 into 1000x1000 gives 4 for centre inside and 3 otherwise (centre crop or plain resize) |
| `Sizing.HeightOnlyTarget` | picasso/src/main/java/com/squareup/picasso3/BitmapUtils.java:74-75 | 800x600 with targets 0x300 gives 2 |
| `BitmapOptions.OptionsFor` | picasso/src/main/java/com/squareup/picasso3/BitmapUtils.java:41-54 | no options iff no size, no config and not purgeable; otherwise bounds-only iff the request has a size, purgeable and input-shareable equal the request's purgeable flag, and the preferred config is the request's or the default |
| `BitmapOptions.ProbeIffHasSize` | picasso/src/main/java/com/squareup/picasso3/BitmapUtils.java:41-58 | the options created for a request require a probe exactly when the request has a size |
| `BitmapOptions.Sized` | picasso/src/main/java/com/squareup/picasso3/BitmapUtils.java:84-85 | after sizing, bounds-only mode is off, the sample size is the computed one, and the other input fields are unchanged |
| `BitmapOptions.Options.constructor` | picasso/src/main/java/com/squareup/picasso3/BitmapUtils.java:45 | a fresh options object carries the platform defaults |
| `BitmapOptions.CreateBitmapOptions` | picasso/src/main/java/com/squareup/picasso3/BitmapUtils.java:41-54 | returns null or a fresh object whose fields are exactly `OptionsFor(request)` |
| `BitmapOptions.RequiresInSampleSize` | picasso/src/main/java/com/squareup/picasso3/BitmapUtils.java:56-58 | true exactly when the options exist and are in bounds-only mode |
| `BitmapOptions.CalculateInSampleSizeFor` | picasso/src/main/java/com/squareup/picasso3/BitmapUtils.java:66-86 | stores `SampleSize` of the given dimensions, clears bounds-only mode, and changes no other field |
| `BitmapOptions.CalculateInSampleSize` | picasso/src/main/java/com/squareup/picasso3/BitmapUtils.java:60-64 | the same, with the dimensions the probe left in `outWidth`/`outHeight` |
| `Platform.Decoder.FactoryDecode` | picasso/src/main/java/com/squareup/picasso3/BitmapUtils.java:122-135 | records the call with the options as they were; a bounds-only call returns null and reports the dimensions; a real call returns a bitmap iff the image decodes; input fields are never changed |
| `Platform.Decoder.ImageDecode` | picasso/src/main/java/com/squareup/picasso3/BitmapUtils.java:173-184 | records the call with its target-size hint; returns a bitmap iff the image decodes |
| `BitmapUtils.LegacyStreamInput` | picasso/src/main/java/com/squareup/picasso3/BitmapUtils.java:111-120 | byte array iff WebP or purgeable below Lollipop, stream otherwise |
| `BitmapUtils.StreamPath` | picasso/src/main/java/com/squareup/picasso3/BitmapUtils.java:93-99 | modern path iff API 28 or later; below it, byte array iff WebP or purgeable below Lollipop |
| `BitmapUtils.ModernIgnoresFormatAndPurgeable` | picasso/src/main/java/com/squareup/picasso3/BitmapUtils.java:94-96 | from API 28 the path is the same whatever the WebP and purgeable flags |
| `BitmapUtils.TargetSizeFor` | picasso/src/main/java/com/squareup/picasso3/BitmapUtils.java:175-183 | a target-size hint is set exactly when the request has a size, and it is the request's target |
| `BitmapUtils.LegacyCalls` | picasso/src/main/java/com/squareup/picasso3/BitmapUtils.java:113-136 | two decoder calls when the request has a size, one otherwise |
| `BitmapUtils.TwoPassProtocol` | picasso/src/main/java/com/squareup/picasso3/BitmapUtils.java:113-136 | every call uses one input; a probe occurs iff the request has a size and then comes first; the last call is never a probe; after a probe the real decode carries exactly the created options with the sample size computed from the probed dimensions and bounds-only mode off |
| `BitmapUtils.DecodeLegacy` | picasso/src/main/java/com/squareup/picasso3/BitmapUtils.java:162-169 | the decoder receives exactly `LegacyCalls` and the result is the real decode's bitmap, or null |
| `BitmapUtils.DecodeStreamPreP` | picasso/src/main/java/com/squareup/picasso3/BitmapUtils.java:108-142 | the two-pass protocol on the selected input; never returns null; fails with an IO error iff the image does not decode; the bitmap comes from the last call |
| `BitmapUtils.DecodeStreamP` | picasso/src/main/java/com/squareup/picasso3/BitmapUtils.java:101-106 | one `ImageDecoder` call on the buffered bytes with the request's target-size hint |
| `BitmapUtils.DecodeStream` | picasso/src/main/java/com/squareup/picasso3/BitmapUtils.java:93-99 | the calls the selected path makes; never returns null; fails iff the image does not decode; the bitmap is the one the last decoder call produced |
| `BitmapUtils.DecodeResourcePreP` | picasso/src/main/java/com/squareup/picasso3/BitmapUtils.java:162-170 | the two-pass protocol on the resource; returns the real decode's result, null included |
| `BitmapUtils.DecodeResourceP` | picasso/src/main/java/com/squareup/picasso3/BitmapUtils.java:155-160 | one `ImageDecoder` call on the request's resource with its target-size hint |
| `BitmapUtils.DecodeResource` | picasso/src/main/java/com/squareup/picasso3/BitmapUtils.java:144-153 | `ImageDecoder` from API 28, else the legacy protocol on the resolved id with a possibly null result; a returned bitmap is the one the last decoder call produced |
| `BitmapUtils.IsXmlResource` | picasso/src/main/java/com/squareup/picasso3/BitmapUtils.java:186-191 | a name accepted as XML is some stem followed by ".xml" |
| `BitmapUtils.IsXmlResourceIffXmlName` | picasso/src/main/java/com/squareup/picasso3/BitmapUtils.java:189-190 | a file name is accepted exactly when it is non-null and some stem followed by ".xml" |

## Left out

- Pixel decoding by `BitmapFactory.decode*` and `ImageDecoder.decodeBitmap`. These are platform calls. They are modelled by `Platform.Decoder`, which knows only the header dimensions and whether the pixels decode.
- `Platform.Decoder.FactoryDecode`: a real (non-probe) decode leaves `outWidth`/`outHeight` alone. The platform would write the decoded size there, but the planner never reads it.
- Byte sources: okio's `BufferedSource`, `readByteArray` and `SourceBufferingInputStream`. A source is one of the inputs `ByteArray` or `Stream` and can be read twice. I/O failures while reading it are not modelled.
- `Utils.isWebPFile`, `Utils.getResources` and `Utils.getResourceId` are not part of this model. The WebP check is a boolean parameter and the resolved resource id is an integer parameter.
- `Request.hasSize` is not part of this model. It is assumed to be `targetWidth != 0 || targetHeight != 0`. Targets are assumed non-negative.
- `Build.VERSION.SDK_INT` is an integer parameter.
- `Sizing.SampleSize`: the `(float)` casts and `Math.floor` are modelled as exact floor division. Float rounding for dimensions above 2^24 is not captured.
- `Sizing.SampleSize`: the case where both targets are 0 is excluded by its precondition. The planner only sizes requests that have a target. In Java this case would divide floats by zero.
- `BitmapUtils.IsXmlResource`: the `Resources`/`TypedValue` lookup is left out. The function takes the possibly-null file name.
- `BitmapUtils.DecodeResource`: failures to resolve the resource are not represented. Before API 28 the source calls `Utils.getResources` and `Utils.getResourceId` before any decode, and `decodeResource` is declared to throw `IOException`. Those helpers are not part of this model; the resolved id is a parameter. So `out.Returned?` on the legacy path holds only once the resource and its id have resolved.
- `Platform.Decoder.ImageDecode`: whether the platform accepts the target-size hint is not modelled. The listener passes the request's targets unchanged whenever the request has a size, including one with a 0 axis (say 0x300). The platform's checks on `setTargetSize` are outside the source, so the model accepts any hint. If the platform rejects a 0 dimension with an unchecked exception, that outcome is not represented, and "fails iff the image does not decode" for `BitmapUtils.DecodeStream` and `BitmapUtils.DecodeResource` on API 28 and later holds only within this abstraction.
- The `ImageDecoder.OnHeaderDecodedListener` mechanics are not modelled beyond "set the target size iff the request has a size".
- The `IOException` that `ImageDecoder` raises on failure becomes `IOFailure`. Its message and cause are not modelled.
