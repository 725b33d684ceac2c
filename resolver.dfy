/**
 * ParseInputString as a whole: the argument loop, the block of checks that
 * follows it, and the defaults it fills in. The checks are stated once as
 * Admissible and the defaults as Resolved (both on the record the loop
 * drafts); ValidConfig is what a caller of a successful parse may rely on.
 */
module Resolver {
  import opened EncodeParams
  import opened OptionParser

  /** The codecs the encoder accepts after the loop (mvc is recorded as AVC). */
  predicate EncodableCodec(c: CodecId) {
    c == Mpeg2 || c == Avc || c == Jpeg || c == Vp8 || c == Hevc
  }

  /** A MIPI port and a MIPI mode are given together or not at all. */
  predicate MipiConsistent(p: InputParams) {
    (p.mipiPort > -1) <==> (p.mipiMode != MipiNone)
  }

  /** A look-ahead depth other than 0 is in [10, 100], or 1 together with a maximum slice size. */
  predicate LookAheadDepthOk(p: InputParams) {
    p.laDepth == 0 || 10 <= p.laDepth <= 100 || (p.laDepth == 1 && p.maxSliceSize != 0)
  }

  /** The checks on what the user gave, before any default is applied. */
  predicate InputsOk(pf: Platform, d: InputParams) {
    // capture input (only in builds with V4L2 support)
    && (pf.v4l2 && d.v4l2InputEnabled ==>
          d.deviceName != "" && MipiConsistent(d) && d.v4l2Format != NoFormat)
    // mandatory parameters
    && (d.srcFile != "" || d.v4l2InputEnabled)
    && d.dstFileBuff != []
    && d.width != 0 && d.height != 0
    && EncodableCodec(d.codecId)
    && (d.colorFormat == Yuy2 ==> d.codecId == Jpeg || d.v4l2InputEnabled)
    // codec restrictions
    && (d.rotationAngle == 0 || d.rotationAngle == 180)
    && (d.quality != 0 ==> d.codecId == Jpeg)
    && (d.codecId == Jpeg ==> d.targetUsage == 0 && d.bitRate == 0)
  }

  /** Multiview encodes exactly two source files. */
  predicate ViewsOk(d: InputParams) {
    d.mvcEnabled ==> |d.srcFileBuff| == 2
  }

  /** The target usage kept, or Balanced when it is neither of the two extremes. */
  function TargetUsageOrBalanced(tu: nat): nat {
    if tu == BestQuality || tu == BestSpeed then tu else Balanced
  }

  /**
   * The defaults filled in between the two groups of checks: views, target
   * usage, frame rate, destination size, then the bitrate from those, colour
   * format and picture structure.
   */
  function FirstDefaults(pf: Platform, d: InputParams): InputParams {
    var views := if |d.srcFileBuff| == 2 then 2 else 1;
    var tu := TargetUsageOrBalanced(d.targetUsage);
    var rate := if d.frameRate <= 0.0 then 30.0 else d.frameRate;
    var dw := if d.dstWidth == 0 then d.width else d.dstWidth;
    var dh := if d.dstHeight == 0 then d.height else d.dstHeight;
    d.(numViews := views, targetUsage := tu, frameRate := rate, dstWidth := dw, dstHeight := dh,
       bitRate := if d.bitRate == 0 then pf.defaultBitrate(d.codecId, tu, dw, dh, rate) else d.bitRate,
       colorFormat := if d.colorFormat == ColorUnset then Yv12 else d.colorFormat,
       picStruct := if d.picStruct == PicUnset then Progressive else d.picStruct)
  }

  /** The checks on combinations of options, made once the first defaults are in. */
  predicate CombinationsOk(p: InputParams) {
    // look-ahead and slicing
    && (p.rateControl == LookAhead ==> p.useHWLib && p.codecId == Avc)
    && (p.maxSliceSize != 0 ==> p.useHWLib && p.numSlice == 0 && p.codecId == Avc)
    && LookAheadDepthOk(p)
    // the rotation plugin
    && (p.rotationAngle == 180 ==>
          p.picStruct == Progressive && p.dstWidth == p.width && p.dstHeight == p.height
          && !p.mvcEnabled && p.rateControl != LookAhead)
  }

  /**
   * The defaults filled in last: queue depth (a maximum slice size forces 1),
   * rate control, and region encoding, which is switched off where it cannot apply.
   */
  function LastDefaults(p: InputParams): InputParams {
    p.(asyncDepth := if p.maxSliceSize != 0 then 1 else if p.asyncDepth == 0 then 4 else p.asyncDepth,
       rateControl := if p.rateControl == RateUnset then Cbr else p.rateControl,
       useRegionEncode := p.useRegionEncode && p.codecId == Hevc
                          && p.width == p.dstWidth && p.height == p.dstHeight && p.rotationAngle == 0)
  }

  /** Every check after the loop passes on the drafted record `d`. */
  predicate Admissible(pf: Platform, d: InputParams) {
    InputsOk(pf, d) && ViewsOk(d) && CombinationsOk(FirstDefaults(pf, d))
  }

  /** The record a successful parse yields from the draft `d`. */
  function Resolved(pf: Platform, d: InputParams): InputParams {
    LastDefaults(FirstDefaults(pf, d))
  }

  /** The outcome of ParseInputString on the first `n` of `args`, starting from record `p0`. */
  function Parsed(pf: Platform, args: seq<string>, n: nat, p0: InputParams): (r: Option<InputParams>)
    requires n <= |args|
    ensures r.Some? ==> n != 1 && Scan(pf, args, n, p0).Drafted?
  {
    if n == 1 then None
    else match Scan(pf, args, n, p0)
      case Drafted(d) => if Admissible(pf, d) then Some(Resolved(pf, d)) else None
      case _ => None
  }

  /** What every successfully parsed record satisfies. */
  predicate ValidConfig(pf: Platform, c: InputParams) {
    // mandatory parameters and geometry
    && (c.srcFile != "" || c.v4l2InputEnabled)
    && c.dstFileBuff != []
    && c.width != 0 && c.height != 0 && c.dstWidth != 0 && c.dstHeight != 0
    && EncodableCodec(c.codecId)
    && (c.colorFormat == Yuy2 ==> c.codecId == Jpeg || c.v4l2InputEnabled)
    && c.colorFormat != ColorUnset && c.picStruct != PicUnset
    && (pf.v4l2 && c.v4l2InputEnabled ==>
          c.deviceName != "" && MipiConsistent(c) && c.v4l2Format != NoFormat)
    // codec restrictions; JPEG always ends with the balanced target usage
    && (c.quality != 0 ==> c.codecId == Jpeg)
    && (c.targetUsage == BestQuality || c.targetUsage == Balanced || c.targetUsage == BestSpeed)
    && (c.codecId == Jpeg ==> c.targetUsage == Balanced)
    && c.frameRate > 0.0
    // rate control, look-ahead and slicing
    && c.rateControl != RateUnset
    && (c.rateControl == LookAhead ==> c.useHWLib && c.codecId == Avc)
    && (c.maxSliceSize != 0 ==> c.useHWLib && c.codecId == Avc && c.numSlice == 0 && c.asyncDepth == 1)
    && c.asyncDepth >= 1
    && LookAheadDepthOk(c)
    // rotation
    && (c.rotationAngle == 0 || c.rotationAngle == 180)
    && (c.rotationAngle == 180 ==>
          c.picStruct == Progressive && c.dstWidth == c.width && c.dstHeight == c.height
          && !c.mvcEnabled && c.rateControl != LookAhead)
    // region encoding
    && (c.useRegionEncode ==>
          c.codecId == Hevc && c.dstWidth == c.width && c.dstHeight == c.height && c.rotationAngle == 0)
    // views
    && (c.mvcEnabled ==> c.numViews == 2 && |c.srcFileBuff| == 2)
  }

  /**
   * ParseInputString. The argument count is the 8-bit value main passes; the
   * loop index is kept unbounded (see Findings in the README for the 8-bit one).
   */
  method ParseInputString(pf: Platform, strInput: seq<string>, nArgNum: nat, pParams: InputParams)
    returns (sts: int, p: InputParams)
    requires nArgNum < 256 && nArgNum <= |strInput|
    // -idr_interval and -path never read past the end of the argument vector
    requires nArgNum != 1 ==> !Scan(pf, strInput, nArgNum, pParams).ScanUndefined?
    ensures sts == ErrNone || sts == ErrUnsupported
    ensures sts == ErrNone <==> Parsed(pf, strInput, nArgNum, pParams).Some?
    ensures sts == ErrNone ==> p == Parsed(pf, strInput, nArgNum, pParams).value
  {
    p := pParams;
    if nArgNum == 1 {
      return ErrUnsupported, p;
    }
    sts, p := ScanArguments(pf, strInput, nArgNum, pParams);
    if sts == ErrNone {
      sts, p := CheckAndComplete(pf, p);
    }
  }

  /** The argument loop: fails as soon as one token is rejected, else yields the draft. */
  method ScanArguments(pf: Platform, strInput: seq<string>, nArgNum: nat, pParams: InputParams)
    returns (sts: int, p: InputParams)
    requires nArgNum <= |strInput| && !Scan(pf, strInput, nArgNum, pParams).ScanUndefined?
    ensures sts == ErrNone || sts == ErrUnsupported
    ensures sts == ErrNone <==> Scan(pf, strInput, nArgNum, pParams).Drafted?
    ensures sts == ErrNone ==> p == Scan(pf, strInput, nArgNum, pParams).draft
  {
    p := Start(pf, pParams);
    var i := 1;
    ghost var whole := Scan(pf, strInput, nArgNum, pParams);
    while i < nArgNum
      invariant 1 <= i <= nArgNum + 1
      invariant ScanFrom(pf, strInput, nArgNum, i, p) == whole
      decreases nArgNum + 1 - i
    {
      var step := ParseToken(pf, strInput, nArgNum, i, p);
      ScanStep(pf, strInput, nArgNum, i, p);
      match step
      case Reject =>
        return ErrUnsupported, p;
      case ReadsPastEnd =>
        assert false;
      case Next(last, q) =>
        p, i := q, last + 1;
    }
    return ErrNone, p;
  }

  /** The block after the loop: the checks in their order, with the defaults between them. */
  method CheckAndComplete(pf: Platform, d: InputParams) returns (sts: int, p: InputParams)
    ensures sts == ErrNone || sts == ErrUnsupported
    ensures sts == ErrNone <==> Admissible(pf, d)
    ensures sts == ErrNone ==> p == Resolved(pf, d)
  {
    p := d;
    sts := CheckInputs(pf, p);
    if sts != ErrNone {
      return;
    }
    sts, p := SetViewsAndDefaults(pf, p);
    if sts != ErrNone {
      return;
    }
    sts := CheckCombinations(p);
    if sts != ErrNone {
      return;
    }
    p := SetLastDefaults(p);
  }

  /** The capture, mandatory-parameter and codec checks. */
  method CheckInputs(pf: Platform, p: InputParams) returns (sts: int)
    ensures sts == ErrNone || sts == ErrUnsupported
    ensures sts == ErrNone <==> InputsOk(pf, p)
  {
    if pf.v4l2 && p.v4l2InputEnabled {
      if p.deviceName == "" {
        return ErrUnsupported;
      }
      if (p.mipiPort > -1 && p.mipiMode == MipiNone) || (p.mipiPort < 0 && p.mipiMode != MipiNone) {
        return ErrUnsupported;
      }
      if p.v4l2Format == NoFormat {
        return ErrUnsupported;
      }
    }
    // mandatory parameters
    if p.srcFile == "" && !p.v4l2InputEnabled {
      return ErrUnsupported;
    }
    if p.dstFileBuff == [] {
      return ErrUnsupported;
    }
    if p.width == 0 || p.height == 0 {
      return ErrUnsupported;
    }
    if p.codecId != Mpeg2 && p.codecId != Avc && p.codecId != Jpeg && p.codecId != Vp8 && p.codecId != Hevc {
      return ErrUnsupported;
    }
    if p.codecId != Jpeg && p.colorFormat == Yuy2 && !p.v4l2InputEnabled {
      return ErrUnsupported;
    }
    // validity of the parameters
    if p.rotationAngle != 0 && p.rotationAngle != 180 {
      return ErrUnsupported;
    }
    if p.quality != 0 && p.codecId != Jpeg {
      return ErrUnsupported;
    }
    if (p.targetUsage != 0 || p.bitRate != 0) && p.codecId == Jpeg {
      return ErrUnsupported;
    }
    return ErrNone;
  }

  /** The number of views, then the defaults that do not depend on later checks. */
  method SetViewsAndDefaults(pf: Platform, d: InputParams) returns (sts: int, p: InputParams)
    ensures sts == ErrNone || sts == ErrUnsupported
    ensures sts == ErrNone <==> ViewsOk(d)
    ensures sts == ErrNone ==> p == FirstDefaults(pf, d)
  {
    p := d;
    var views := d.numViews;
    var nviews := |d.srcFileBuff|;
    if nviews <= 1 || nviews > 2 {
      if !d.mvcEnabled {
        views := 1;
      } else {
        return ErrUnsupported, p;
      }
    } else {
      views := nviews;
    }
    var tu := d.targetUsage;
    if tu != BestQuality && tu != BestSpeed {
      tu := Balanced;
    }
    var rate := d.frameRate;
    if rate <= 0.0 {
      rate := 30.0;
    }
    // a missing destination size is the source size
    var dw, dh := d.dstWidth, d.dstHeight;
    if dw == 0 {
      dw := d.width;
    }
    if dh == 0 {
      dh := d.height;
    }
    // the default bitrate is one for the destination size
    var bitrate := d.bitRate;
    if bitrate == 0 {
      bitrate := pf.defaultBitrate(d.codecId, tu, dw, dh, rate);
    }
    var color := d.colorFormat;
    if color == ColorUnset {
      color := Yv12;
    }
    var structure := d.picStruct;
    if structure == PicUnset {
      structure := Progressive;
    }
    p := d.(numViews := views, targetUsage := tu, frameRate := rate, dstWidth := dw, dstHeight := dh,
            bitRate := bitrate, colorFormat := color, picStruct := structure);
    return ErrNone, p;
  }

  /** The look-ahead, slicing and rotation-plugin checks. */
  method CheckCombinations(p: InputParams) returns (sts: int)
    ensures sts == ErrNone || sts == ErrUnsupported
    ensures sts == ErrNone <==> CombinationsOk(p)
  {
    if p.rateControl == LookAhead && !p.useHWLib {
      return ErrUnsupported;
    }
    if p.maxSliceSize != 0 && !p.useHWLib {
      return ErrUnsupported;
    }
    if p.maxSliceSize != 0 && p.numSlice != 0 {
      return ErrUnsupported;
    }
    if p.rateControl == LookAhead && p.codecId != Avc {
      return ErrUnsupported;
    }
    if p.maxSliceSize != 0 && p.codecId != Avc {
      return ErrUnsupported;
    }
    if p.laDepth != 0 && (p.laDepth < 10 || p.laDepth > 100) {
      if p.laDepth != 1 || p.maxSliceSize == 0 {
        return ErrUnsupported;
      }
    }
    if p.rotationAngle == 180
       && (p.picStruct != Progressive || p.dstWidth != p.width || p.dstHeight != p.height
           || p.mvcEnabled || p.rateControl == LookAhead)
    {
      return ErrUnsupported;
    }
    return ErrNone;
  }

  /** Queue depth, rate control and region encoding; nothing here fails. */
  method SetLastDefaults(d: InputParams) returns (p: InputParams)
    ensures p == LastDefaults(d)
  {
    var async := d.asyncDepth;
    if async == 0 {
      async := 4;
    }
    // a user-given queue depth is ignored under a maximum slice size
    if d.maxSliceSize != 0 {
      async := 1;
    }
    var rc := d.rateControl;
    if rc == RateUnset {
      rc := Cbr;
    }
    var region := d.useRegionEncode;
    if region {
      if d.codecId != Hevc {
        region := false;
      }
      if d.width != d.dstWidth || d.height != d.dstHeight || d.rotationAngle != 0 {
        region := false;
      }
    }
    p := d.(asyncDepth := async, rateControl := rc, useRegionEncode := region);
  }

  // ---------------------------------------------------------------------------
  // Properties of the resolution
  // ---------------------------------------------------------------------------

  /**
   * An admissible draft in which multiview implies two source files, and no
   * list of views without multiview, resolves to a valid configuration.
   */
  lemma ResolvedIsValid(pf: Platform, d: InputParams)
    requires Admissible(pf, d) && (!d.mvcEnabled ==> d.srcFileBuff == [])
    ensures ValidConfig(pf, Resolved(pf, d))
    ensures !d.mvcEnabled ==> Resolved(pf, d).numViews == 1
  {
  }

  /**
   * From main's zeroed record, every successful parse is a valid
   * configuration, with one view exactly when multiview is off.
   */
  lemma ParsedIsValid(pf: Platform, args: seq<string>, n: nat)
    requires n <= |args| && Parsed(pf, args, n, ZeroParams()).Some?
    ensures ValidConfig(pf, Parsed(pf, args, n, ZeroParams()).value)
    ensures var c := Parsed(pf, args, n, ZeroParams()).value;
            (c.numViews == 1 <==> !c.mvcEnabled) && (c.mvcViewOutput ==> c.mvcEnabled)
  {
    ScanFromZero(pf, args, n);
    ResolvedIsValid(pf, Scan(pf, args, n, ZeroParams()).draft);
  }

  /** Filling in the defaults a second time changes nothing. */
  lemma ResolvedIsFixedPoint(pf: Platform, d: InputParams)
    ensures Resolved(pf, Resolved(pf, d)) == Resolved(pf, d)
  {
  }

  /**
   * What an option left unset becomes: the source size for the destination
   * size, YV12, progressive, 30 frames per second, the balanced target usage,
   * the default bitrate for the final settings, CBR and an asynchronous depth
   * of 4; one view unless exactly two input files were given.
   */
  lemma ZeroInputsDefaulted(pf: Platform, d: InputParams)
    ensures var c := Resolved(pf, d);
            && c.numViews == (if |d.srcFileBuff| == 2 then 2 else 1)
            && (d.targetUsage != BestQuality && d.targetUsage != BestSpeed ==> c.targetUsage == Balanced)
            && (d.frameRate <= 0.0 ==> c.frameRate == 30.0)
            && (d.dstWidth == 0 ==> c.dstWidth == d.width)
            && (d.dstHeight == 0 ==> c.dstHeight == d.height)
            && (d.bitRate == 0 ==>
                  c.bitRate == pf.defaultBitrate(c.codecId, c.targetUsage, c.dstWidth, c.dstHeight, c.frameRate))
            && (d.colorFormat == ColorUnset ==> c.colorFormat == Yv12)
            && (d.picStruct == PicUnset ==> c.picStruct == Progressive)
            && (d.maxSliceSize == 0 && d.asyncDepth == 0 ==> c.asyncDepth == 4)
            && (d.rateControl == RateUnset ==> c.rateControl == Cbr)
  {
  }

  /**
   * Values the user gave are kept: the destination size, the bitrate, the
   * colour format, the picture structure and the rate control; a maximum slice
   * size forces a queue depth of 1 and otherwise a given depth is kept.
   */
  lemma GivenValuesKept(pf: Platform, d: InputParams)
    ensures var c := Resolved(pf, d);
            && (d.dstWidth != 0 ==> c.dstWidth == d.dstWidth)
            && (d.dstHeight != 0 ==> c.dstHeight == d.dstHeight)
            && (d.bitRate != 0 ==> c.bitRate == d.bitRate)
            && (d.colorFormat != ColorUnset ==> c.colorFormat == d.colorFormat)
            && (d.picStruct != PicUnset ==> c.picStruct == d.picStruct)
            && (d.rateControl != RateUnset ==> c.rateControl == d.rateControl)
            && (d.maxSliceSize == 0 && d.asyncDepth != 0 ==> c.asyncDepth == d.asyncDepth)
            && (d.maxSliceSize != 0 ==> c.asyncDepth == 1)
  {
  }

  /**
   * A missing bitrate is computed from the destination size after that size
   * was defaulted, and from the target usage after it was normalised.
   */
  lemma DefaultBitrateUsesDestination(pf: Platform, d: InputParams)
    requires d.bitRate == 0
    ensures var c := Resolved(pf, d);
            c.bitRate == pf.defaultBitrate(d.codecId, c.targetUsage,
                                           if d.dstWidth == 0 then d.width else d.dstWidth,
                                           if d.dstHeight == 0 then d.height else d.dstHeight,
                                           c.frameRate)
  {
  }

  /** A JPEG configuration gets the balanced target usage and the computed default bitrate. */
  lemma JpegGetsDefaultBitrate(pf: Platform, d: InputParams)
    requires Admissible(pf, d) && d.codecId == Jpeg
    ensures var c := Resolved(pf, d);
            c.targetUsage == Balanced
            && c.bitRate == pf.defaultBitrate(Jpeg, Balanced, c.dstWidth, c.dstHeight, c.frameRate)
  {
  }

  /** Region encoding is never a reason to fail: it is cleared exactly when it cannot apply. */
  lemma RegionEncodeClearedNotRefused(pf: Platform, d: InputParams)
    requires d.useRegionEncode
    ensures Admissible(pf, d) == Admissible(pf, d.(useRegionEncode := false))
    ensures Resolved(pf, d).useRegionEncode <==>
              d.codecId == Hevc && (d.dstWidth == 0 || d.dstWidth == d.width)
              && (d.dstHeight == 0 || d.dstHeight == d.height) && d.rotationAngle == 0
  {
    var e := FirstDefaults(pf, d);
    assert FirstDefaults(pf, d.(useRegionEncode := false)) == e.(useRegionEncode := false);
    assert CombinationsOk(e) == CombinationsOk(e.(useRegionEncode := false));
  }
}
