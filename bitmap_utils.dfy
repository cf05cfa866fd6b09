/**
 * Picasso's decode planner (`BitmapUtils`): choosing between the API 28
 * `ImageDecoder` path and the legacy `BitmapFactory` paths, and the legacy
 * two-pass protocol (probe the bounds, compute the sample size, decode for real).
 *
 * The platform version (`Build.VERSION.SDK_INT`) is a parameter; whether the
 * buffered source holds a WebP image is a boolean parameter (the signature check
 * lives in `Utils`); the resource identifier the legacy path resolves through
 * `Utils.getResourceId` is a parameter too.
 */
module BitmapUtils {
  import opened Wrappers
  import opened Sizing
  import opened BitmapOptions
  import opened Platform

  /** `Build.VERSION_CODES.LOLLIPOP`: from here on purgeable bitmaps are ignored. */
  const Lollipop: int := 21
  /** `Build.VERSION_CODES.P`: from here on `ImageDecoder` is used. */
  const Pie: int := 28

  /** The decode strategy for a call. */
  datatype Path =
    | ModernPath               // ImageDecoder with a target-size hint
    | LegacyPath(input: Input) // BitmapFactory, from a byte array or from the stream

  /** What a decode call ends in: a returned (possibly null) bitmap, or an `IOException`. */
  datatype Outcome = Returned(bitmap: Option<Bitmap>) | IOFailure

  /**
   * The input the legacy stream path decodes from: a byte array for WebP (the
   * platform's stream decoder fails on WebP streams) and for purgeable requests
   * before Lollipop (purgeable only affects byte-array decodes), the stream otherwise.
   */
  function LegacyStreamInput(sdk: int, isWebP: bool, purgeable: bool): (i: Input)
    ensures i == ByteArray <==> isWebP || (purgeable && sdk < Lollipop)
    ensures i == ByteArray || i == Stream
  {
    if isWebP || (purgeable && sdk < Lollipop) then ByteArray else Stream
  }

  /** Strategy selection for `decodeStream`. */
  function StreamPath(sdk: int, isWebP: bool, purgeable: bool): (p: Path)
    ensures sdk >= Pie <==> p == ModernPath
    ensures sdk < Pie ==> (p == LegacyPath(ByteArray) <==> isWebP || (purgeable && sdk < Lollipop))
    ensures sdk < Pie ==> (p == LegacyPath(Stream) <==> !isWebP && !(purgeable && sdk < Lollipop))
  {
    if sdk >= Pie then ModernPath else LegacyPath(LegacyStreamInput(sdk, isWebP, purgeable))
  }

  /** From API 28 on, neither WebP nor purgeable changes the strategy. */
  lemma {:induction false} ModernIgnoresFormatAndPurgeable(sdk: int, isWebP: bool, purgeable: bool)
    requires sdk >= Pie
    ensures StreamPath(sdk, isWebP, purgeable) == StreamPath(sdk, false, false) == ModernPath
  {
  }

  /**
   * The header listener of `decodeImageSource`: a target size is set exactly when
   * the request has one, and it is the request's.
   */
  function TargetSizeFor(r: Request): (t: Option<Size>)
    ensures t.Some? <==> HasSize(r)
    ensures t.Some? ==> t.value.width == r.targetWidth && t.value.height == r.targetHeight
  {
    if HasSize(r) then Some(Size(r.targetWidth, r.targetHeight)) else None
  }

  /**
   * The calls the legacy protocol issues for `input` when a probe would report
   * `width` x `height`: the probe with the created options, if they require one,
   * then the real decode with the options as they are by then.
   */
  function LegacyCalls(input: Input, r: Request, width: int, height: int): (c: seq<DecoderCall>)
    ensures |c| == (if HasSize(r) then 2 else 1)
  {
    var o := OptionsFor(r);
    if ProbeRequired(o) then
      [FactoryCall(input, o), FactoryCall(input, Some(Sized(o.value, r, width, height)))]
    else
      [FactoryCall(input, o)]
  }

  /**
   * The two-pass protocol: every call goes to `BitmapFactory` on the same input;
   * a probe happens exactly when the request has a size and then comes first; the
   * last call is never a probe; after a probe the real decode carries the created
   * options with the sample size computed from the probed dimensions and bounds-only
   * mode off, and without a probe it carries the options as created.
   */
  lemma {:induction false} TwoPassProtocol(input: Input, r: Request, width: int, height: int)
    ensures var c := LegacyCalls(input, r, width, height);
      && (forall i | 0 <= i < |c| :: c[i].FactoryCall? && c[i].input == input)
      && (HasSize(r) ==> IsProbe(c[0]) && c[0].options == OptionsFor(r))
      && !IsProbe(c[|c| - 1])
      && (forall i | 0 <= i < |c| - 1 :: IsProbe(c[i]))
      && (HasSize(r) ==>
            && c[1].options == Some(Sized(OptionsFor(r).value, r, width, height))
            && c[1].options.value.sampleSize
               == SampleSize(r.targetWidth, r.targetHeight, width, height, r.centerInside))
      && (!HasSize(r) ==> c[0].options == OptionsFor(r))
  {
    ProbeIffHasSize(r);
  }

  /**
   * The legacy protocol on an input: probe if the options require it, compute the
   * sample size from the probed dimensions, then decode for real.  Returns what the
   * real decode returned.
   */
  method DecodeLegacy(input: Input, request: Request, decoder: Decoder) returns (b: Option<Bitmap>)
    modifies decoder
    ensures decoder.calls == old(decoder.calls) + LegacyCalls(input, request, decoder.width, decoder.height)
    ensures b == (if decoder.decodable
                  then Some(Bitmap(LegacyCalls(input, request, decoder.width, decoder.height)[
                         |LegacyCalls(input, request, decoder.width, decoder.height)| - 1]))
                  else None)
  {
    var options := CreateBitmapOptions(request);
    ProbeIffHasSize(request);
    if RequiresInSampleSize(options) {
      var _ := decoder.FactoryDecode(input, options);
      CalculateInSampleSize(request.targetWidth, request.targetHeight, options, request);
    }
    b := decoder.FactoryDecode(input, options);
  }

  /**
   * `decodeStreamPreP`: picks the byte-array or stream input, runs the two-pass
   * protocol and turns a null bitmap into an `IOException`.
   */
  method DecodeStreamPreP(sdk: int, isWebP: bool, request: Request, decoder: Decoder) returns (out: Outcome)
    modifies decoder
    ensures var input := LegacyStreamInput(sdk, isWebP, request.purgeable);
      decoder.calls == old(decoder.calls) + LegacyCalls(input, request, decoder.width, decoder.height)
    ensures out != Returned(None)
    ensures out.IOFailure? <==> !decoder.decodable
    ensures out.Returned? ==> out.bitmap.value.madeBy == decoder.calls[|decoder.calls| - 1]
  {
    var input := LegacyStreamInput(sdk, isWebP, request.purgeable);
    var b := DecodeLegacy(input, request, decoder);
    if b == None {
      out := IOFailure;
    } else {
      out := Returned(b);
    }
  }

  /** `decodeStreamP` with `decodeImageSource`: the whole source as a byte buffer, with the target-size hint. */
  method DecodeStreamP(request: Request, decoder: Decoder) returns (out: Outcome)
    modifies decoder
    ensures decoder.calls == old(decoder.calls) + [ImageDecoderCall(ByteArray, TargetSizeFor(request))]
    ensures out == (if decoder.decodable
                    then Returned(Some(Bitmap(ImageDecoderCall(ByteArray, TargetSizeFor(request)))))
                    else IOFailure)
  {
    var b := decoder.ImageDecode(ByteArray, TargetSizeFor(request));
    out := if b.Some? then Returned(b) else IOFailure;
  }

  /**
   * `decodeStream`: the strategy `StreamPath` selects, run against the decoder.
   * Either way a bitmap comes back or the call fails with an `IOException`.
   */
  method DecodeStream(sdk: int, isWebP: bool, request: Request, decoder: Decoder) returns (out: Outcome)
    modifies decoder
    ensures StreamPath(sdk, isWebP, request.purgeable) == ModernPath ==>
      decoder.calls == old(decoder.calls) + [ImageDecoderCall(ByteArray, TargetSizeFor(request))]
    ensures StreamPath(sdk, isWebP, request.purgeable).LegacyPath? ==>
      decoder.calls == old(decoder.calls)
        + LegacyCalls(StreamPath(sdk, isWebP, request.purgeable).input, request, decoder.width, decoder.height)
    ensures out != Returned(None)
    ensures out.IOFailure? <==> !decoder.decodable
    ensures out.Returned? && out.bitmap.Some? ==> out.bitmap.value.madeBy == decoder.calls[|decoder.calls| - 1]
  {
    if sdk >= Pie {
      out := DecodeStreamP(request, decoder);
      return;
    }
    out := DecodeStreamPreP(sdk, isWebP, request, decoder);
  }

  /** `decodeResourcePreP`: the two-pass protocol on a resource; a null bitmap is returned as it is. */
  method DecodeResourcePreP(id: int, request: Request, decoder: Decoder) returns (out: Outcome)
    modifies decoder
    ensures decoder.calls == old(decoder.calls) + LegacyCalls(Resource(id), request, decoder.width, decoder.height)
    ensures out.Returned?
    ensures out.bitmap.None? <==> !decoder.decodable
    ensures out.bitmap.Some? ==> out.bitmap.value.madeBy == decoder.calls[|decoder.calls| - 1]
  {
    var b := DecodeLegacy(Resource(id), request, decoder);
    out := Returned(b);
  }

  /** `decodeResourceP` with `decodeImageSource`: the request's resource, with the target-size hint. */
  method DecodeResourceP(request: Request, decoder: Decoder) returns (out: Outcome)
    modifies decoder
    ensures decoder.calls
      == old(decoder.calls) + [ImageDecoderCall(Resource(request.resourceId), TargetSizeFor(request))]
    ensures out == (if decoder.decodable
                    then Returned(Some(Bitmap(ImageDecoderCall(Resource(request.resourceId), TargetSizeFor(request)))))
                    else IOFailure)
  {
    var b := decoder.ImageDecode(Resource(request.resourceId), TargetSizeFor(request));
    out := if b.Some? then Returned(b) else IOFailure;
  }

  /**
   * `decodeResource`: `ImageDecoder` from API 28, otherwise the legacy protocol on
   * `resolvedId`, the identifier `Utils.getResourceId` resolves for the request.
   */
  method DecodeResource(sdk: int, request: Request, resolvedId: int, decoder: Decoder) returns (out: Outcome)
    modifies decoder
    ensures sdk >= Pie ==>
      decoder.calls == old(decoder.calls) + [ImageDecoderCall(Resource(request.resourceId), TargetSizeFor(request))]
    ensures sdk >= Pie ==> out != Returned(None) && (out.IOFailure? <==> !decoder.decodable)
    ensures sdk < Pie ==>
      decoder.calls == old(decoder.calls) + LegacyCalls(Resource(resolvedId), request, decoder.width, decoder.height)
    ensures sdk < Pie ==> out.Returned? && (out.bitmap.None? <==> !decoder.decodable)
    ensures out.Returned? && out.bitmap.Some? ==> out.bitmap.value.madeBy == decoder.calls[|decoder.calls| - 1]
  {
    if sdk >= Pie {
      out := DecodeResourceP(request, decoder);
      return;
    }
    out := DecodeResourcePreP(resolvedId, request, decoder);
  }

  /** Java's `String.endsWith`. */
  predicate EndsWith(s: string, suffix: string) {
    |suffix| <= |s| && s[|s| - |suffix|..] == suffix
  }

  /**
   * `isXmlResource` on the file name the resource table gives for the drawable
   * (`None` for a null name): true exactly for names ending in ".xml".
   */
  function IsXmlResource(file: Option<string>): (b: bool)
    ensures b ==> file.Some? && |file.value| >= 4 && file.value == file.value[..|file.value| - 4] + ".xml"
  {
    file.Some? && EndsWith(file.value, ".xml")
  }

  /** The file name of an XML resource with the given stem. */
  function XmlName(stem: string): string {
    stem + ".xml"
  }

  /**
   * `isXmlResource` accepts exactly the non-null names that are some stem followed
   * by ".xml".
   */
  lemma {:induction false} IsXmlResourceIffXmlName(file: Option<string>)
    ensures IsXmlResource(file) <==> exists stem :: file == Some(XmlName(stem))
  {
    if IsXmlResource(file) {
      var stem := file.value[..|file.value| - 4];
      assert file == Some(XmlName(stem));
    }
    if exists stem :: file == Some(XmlName(stem)) {
      var stem :| file == Some(XmlName(stem));
      var s := XmlName(stem);
      assert s[|s| - 4..] == ".xml";
    }
  }
}
