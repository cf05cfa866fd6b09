/**
 * The mutable decode options object (`BitmapFactory.Options`) and the parts of
 * `BitmapUtils` that create it, test it and rewrite it between the probe and the
 * real decode.
 */
module BitmapOptions {
  import opened Wrappers
  import opened Sizing

  /** Pixel formats a request may prefer (`Bitmap.Config`). */
  datatype Config = Alpha8 | Rgb565 | Argb4444 | Argb8888 | RgbaF16 | Hardware

  /** The platform's default preferred config for a fresh options object. */
  const DefaultConfig: Config := Argb8888

  /**
   * The fields of a request the planner reads.  `resourceId` is the identifier the
   * modern resource path decodes.
   */
  datatype Request = Request(
    targetWidth: nat,
    targetHeight: nat,
    centerInside: bool,
    config: Option<Config>,
    purgeable: bool,
    resourceId: int)

  /** A request has a size when it constrains at least one axis. */
  predicate HasSize(r: Request) {
    r.targetWidth != 0 || r.targetHeight != 0
  }

  /** The input fields of an options object, as a decoder call sees them. */
  datatype Settings = Settings(
    justDecodeBounds: bool,
    sampleSize: int,
    purgeable: bool,
    inputShareable: bool,
    preferredConfig: Config)

  /**
   * What `createBitmapOptions` produces for a request: no options when nothing needs
   * them, otherwise options that probe exactly when the request has a size.
   */
  function OptionsFor(r: Request): (o: Option<Settings>)
    ensures o.None? <==> !HasSize(r) && r.config.None? && !r.purgeable
    ensures o.Some? ==> o.value.justDecodeBounds == HasSize(r)
    ensures o.Some? ==> o.value.purgeable == r.purgeable && o.value.inputShareable == r.purgeable
    ensures o.Some? ==> o.value.preferredConfig == (if r.config.Some? then r.config.value else DefaultConfig)
    ensures o.Some? ==> o.value.sampleSize == 0
  {
    if HasSize(r) || r.config.Some? || r.purgeable then
      Some(Settings(HasSize(r), 0, r.purgeable, r.purgeable,
                    if r.config.Some? then r.config.value else DefaultConfig))
    else
      None
  }

  /** `requiresInSampleSize` on an options value: a bounds probe is needed. */
  predicate ProbeRequired(o: Option<Settings>) {
    o.Some? && o.value.justDecodeBounds
  }

  /** A probe pass happens exactly when the request has a target size. */
  lemma {:induction false} ProbeIffHasSize(r: Request)
    ensures ProbeRequired(OptionsFor(r)) <==> HasSize(r)
  {
  }

  /**
   * What `calculateInSampleSize` makes of options after a probe that reported
   * `width` x `height`: the sample size set, bounds-only mode off, nothing else touched.
   */
  function Sized(s: Settings, r: Request, width: int, height: int): (t: Settings)
    requires HasSize(r)
    ensures !t.justDecodeBounds
    ensures t.sampleSize == SampleSize(r.targetWidth, r.targetHeight, width, height, r.centerInside)
    ensures t.purgeable == s.purgeable && t.inputShareable == s.inputShareable
    ensures t.preferredConfig == s.preferredConfig
  {
    s.(sampleSize := SampleSize(r.targetWidth, r.targetHeight, width, height, r.centerInside),
       justDecodeBounds := false)
  }

  /** `BitmapFactory.Options`: updated in place by the planner and by the decoder. */
  class Options {
    var inJustDecodeBounds: bool
    var inSampleSize: int
    var inPurgeable: bool
    var inInputShareable: bool
    var inPreferredConfig: Config
    /** Set by a bounds-only decode to the image's dimensions. */
    var outWidth: int
    var outHeight: int

    /** A fresh object carries the platform's defaults. */
    constructor ()
      ensures Current() == Settings(false, 0, false, false, DefaultConfig)
      ensures outWidth == 0 && outHeight == 0
    {
      inJustDecodeBounds := false;
      inSampleSize := 0;
      inPurgeable := false;
      inInputShareable := false;
      inPreferredConfig := DefaultConfig;
      outWidth := 0;
      outHeight := 0;
    }

    /** The current input fields. */
    function Current(): Settings
      reads this
    {
      Settings(inJustDecodeBounds, inSampleSize, inPurgeable, inInputShareable, inPreferredConfig)
    }
  }

  /** The input fields of a possibly-null options object. */
  function SettingsOf(o: Options?): Option<Settings>
    reads o
  {
    if o == null then None else Some(o.Current())
  }

  /**
   * `createBitmapOptions`: allocates options only when the request has a size, a
   * preferred config or asks for purgeable bitmaps, and fills them in accordingly.
   */
  method CreateBitmapOptions(r: Request) returns (o: Options?)
    ensures o != null ==> fresh(o)
    ensures SettingsOf(o) == OptionsFor(r)
  {
    var justBounds := HasSize(r);
    o := null;
    if justBounds || r.config.Some? || r.purgeable {
      o := new Options();
      o.inJustDecodeBounds := justBounds;
      o.inInputShareable := r.purgeable;
      o.inPurgeable := r.purgeable;
      if r.config.Some? {
        o.inPreferredConfig := r.config.value;
      }
    }
  }

  /** `requiresInSampleSize`: the options exist and are in bounds-only mode. */
  function RequiresInSampleSize(o: Options?): (b: bool)
    reads o
    ensures b == ProbeRequired(SettingsOf(o))
  {
    o != null && o.inJustDecodeBounds
  }

  /**
   * The four-argument `calculateInSampleSize`: stores the sample size for the given
   * source dimensions and leaves bounds-only mode; no other field changes.
   */
  method CalculateInSampleSizeFor(reqWidth: nat, reqHeight: nat, width: int, height: int,
                                  options: Options, request: Request)
    requires reqWidth != 0 || reqHeight != 0
    modifies options
    ensures options.inSampleSize == SampleSize(reqWidth, reqHeight, width, height, request.centerInside)
    ensures !options.inJustDecodeBounds
    ensures options.inPurgeable == old(options.inPurgeable)
    ensures options.inInputShareable == old(options.inInputShareable)
    ensures options.inPreferredConfig == old(options.inPreferredConfig)
    ensures options.outWidth == old(options.outWidth) && options.outHeight == old(options.outHeight)
  {
    var sampleSize := 1;
    if height > reqHeight || width > reqWidth {
      if reqHeight == 0 {
        sampleSize := FloorRatio(width, reqWidth);
      } else if reqWidth == 0 {
        sampleSize := FloorRatio(height, reqHeight);
      } else {
        var heightRatio := FloorRatio(height, reqHeight);
        var widthRatio := FloorRatio(width, reqWidth);
        sampleSize := if request.centerInside then Max(heightRatio, widthRatio) else Min(heightRatio, widthRatio);
      }
    }
    options.inSampleSize := sampleSize;
    options.inJustDecodeBounds := false;
  }

  /**
   * The two-argument `calculateInSampleSize`: uses the dimensions a probe left in
   * `outWidth` / `outHeight`.
   */
  method CalculateInSampleSize(reqWidth: nat, reqHeight: nat, options: Options, request: Request)
    requires reqWidth != 0 || reqHeight != 0
    modifies options
    ensures options.inSampleSize
      == SampleSize(reqWidth, reqHeight, old(options.outWidth), old(options.outHeight), request.centerInside)
    ensures !options.inJustDecodeBounds
    ensures options.inPurgeable == old(options.inPurgeable)
    ensures options.inInputShareable == old(options.inInputShareable)
    ensures options.inPreferredConfig == old(options.inPreferredConfig)
    ensures options.outWidth == old(options.outWidth) && options.outHeight == old(options.outHeight)
  {
    CalculateInSampleSizeFor(reqWidth, reqHeight, options.outWidth, options.outHeight, options, request);
  }
}
