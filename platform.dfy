/**
 * The platform decoders (`BitmapFactory` and, from API 28, `ImageDecoder`) as an
 * abstract object.  It decodes one image whose header reports `width` x `height`
 * (-1 x -1 when the header is unreadable) and whose pixels either decode or not; it
 * records every call it receives, with the options as they were at the call, so
 * that the planner's protocol can be stated over the call sequence.
 */
module Platform {
  import opened Wrappers
  import opened BitmapOptions

  /** Where a decode call reads the image from. */
  datatype Input =
    | ByteArray          // the whole source read into memory
    | Stream             // a re-readable stream over the buffered source
    | Resource(id: int)  // an Android resource identifier

  /** A target size handed to `ImageDecoder.setTargetSize`. */
  datatype Size = Size(width: int, height: int)

  /** One call into the platform. */
  datatype DecoderCall =
    | FactoryCall(input: Input, options: Option<Settings>)     // BitmapFactory.decode*
    | ImageDecoderCall(input: Input, targetSize: Option<Size>) // ImageDecoder.decodeBitmap

  /** A decoded bitmap, identified by the call that produced it. */
  datatype Bitmap = Bitmap(madeBy: DecoderCall)

  /** A `BitmapFactory` call in bounds-only mode: it reports dimensions and decodes no pixels. */
  predicate IsProbe(c: DecoderCall) {
    c.FactoryCall? && c.options.Some? && c.options.value.justDecodeBounds
  }

  class Decoder {
    const width: int
    const height: int
    /** Whether a real (non-probe) decode of the image yields a bitmap. */
    const decodable: bool
    /** Every call received so far, oldest first. */
    var calls: seq<DecoderCall>

    constructor (width: int, height: int, decodable: bool)
      ensures this.width == width && this.height == height && this.decodable == decodable
      ensures calls == []
    {
      this.width := width;
      this.height := height;
      this.decodable := decodable;
      calls := [];
    }

    /**
     * `BitmapFactory.decodeByteArray` / `decodeStream` / `decodeResource`.  In
     * bounds-only mode it returns null and writes the dimensions into the options;
     * otherwise it returns a bitmap when the image decodes.  It never changes the
     * options' input fields.
     */
    method FactoryDecode(input: Input, o: Options?) returns (b: Option<Bitmap>)
      modifies this, o
      ensures calls == old(calls) + [FactoryCall(input, old(SettingsOf(o)))]
      ensures SettingsOf(o) == old(SettingsOf(o))
      ensures old(RequiresInSampleSize(o)) ==> b == None && o.outWidth == width && o.outHeight == height
      ensures !old(RequiresInSampleSize(o)) ==>
        b == (if decodable then Some(Bitmap(FactoryCall(input, old(SettingsOf(o))))) else None)
      ensures !old(RequiresInSampleSize(o)) && o != null ==>
        o.outWidth == old(o.outWidth) && o.outHeight == old(o.outHeight)
    {
      var call := FactoryCall(input, SettingsOf(o));
      calls := calls + [call];
      if o != null && o.inJustDecodeBounds {
        o.outWidth := width;
        o.outHeight := height;
        b := None;
      } else {
        b := if decodable then Some(Bitmap(call)) else None;
      }
    }

    /**
     * `ImageDecoder.decodeBitmap` with a header listener that sets the given target
     * size, if any; a failure is an `IOException`, modelled as `None`.
     */
    method ImageDecode(input: Input, targetSize: Option<Size>) returns (b: Option<Bitmap>)
      modifies this
      ensures calls == old(calls) + [ImageDecoderCall(input, targetSize)]
      ensures b == (if decodable then Some(Bitmap(ImageDecoderCall(input, targetSize))) else None)
    {
      var call := ImageDecoderCall(input, targetSize);
      calls := calls + [call];
      b := if decodable then Some(Bitmap(call)) else None;
    }
  }
}
