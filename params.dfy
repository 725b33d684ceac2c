/**
 * The parameter record of the encoding sample (sInputParams) and the small
 * vocabularies its fields range over, together with the external helpers the
 * command-line parser calls but whose code is not part of this model.
 */
module EncodeParams {

  datatype Option<+T> = None | Some(value: T)

  // ---------------------------------------------------------------------------
  // mfxStatus values used by the sample (as in the Media SDK's mfxdefs.h).
  // Only their distinctness matters to the model.
  // ---------------------------------------------------------------------------

  const ErrNone: int := 0
  const ErrUnsupported: int := -3
  const ErrDeviceLost: int := -13
  const ErrDeviceFailed: int := -17

  // Target usage levels (MFX_TARGETUSAGE_*); 0 means "not given".
  const BestQuality: nat := 1
  const Balanced: nat := 4
  const BestSpeed: nat := 7

  /** Codec identifiers a positional token can name; NoCodec is the zeroed field. */
  datatype CodecId = NoCodec | Avc | Mpeg2 | Jpeg | Vp8 | Hevc | Mvc | OtherCodec(fourcc: nat)

  /** Input colour format; ColorUnset is the zeroed field. */
  datatype ColorFormat = ColorUnset | Nv12 | Yuy2 | Yv12

  /** Picture structure; PicUnset is the zeroed field. */
  datatype PicStruct = PicUnset | Progressive | FieldTff | FieldBff

  /** Bitrate control method; RateUnset is the zeroed field. */
  datatype RateControl = RateUnset | Cbr | Cqp | LookAhead

  datatype BRefType = BRefUnknown | BRefPyramid | BRefOff
  datatype GpuCopy = GpuCopyDefault | GpuCopyOn | GpuCopyOff
  datatype MemType = SystemMemory | D3d9Memory | D3d11Memory
  datatype PluginLoad = PluginNone | PluginByGuid | PluginByFile
  /** Which rotation plugin library the user pipeline loads. */
  datatype RotatePlugin = RotatePluginUnset | CpuRotatePlugin | OclRotatePlugin
  datatype MipiMode = MipiNone | MipiStill | MipiVideo | MipiPreview | MipiContinuous
  datatype V4l2Format = NoFormat | V4l2Yuy2 | V4l2Uyvy

  /**
   * The encoder's parameter record. Field names follow sInputParams without
   * their type prefixes; numeric fields are unbounded (their widths are
   * enforced, if at all, by the value readers of Platform).
   */
  datatype InputParams = InputParams(
    // identity
    codecId: CodecId,
    mvcEnabled: bool,
    mvcViewOutput: bool,
    numViews: nat,
    // geometry
    width: nat,
    height: nat,
    dstWidth: nat,
    dstHeight: nat,
    // colour and interlacing
    colorFormat: ColorFormat,
    picStruct: PicStruct,
    // rate control
    rateControl: RateControl,
    bitRate: nat,
    targetUsage: nat,
    quality: nat,
    qpI: nat,
    qpP: nat,
    qpB: nat,
    laDepth: nat,
    // GOP structure
    gopPicSize: nat,
    gopRefDist: nat,
    numRefFrame: nat,
    bRefType: BRefType,
    idrInterval: nat,
    // slicing
    numSlice: nat,
    maxSliceSize: nat,
    // execution
    useHWLib: bool,
    asyncDepth: nat,
    gpuCopy: GpuCopy,
    memType: MemType,
    enableQSVFF: bool,
    plugin: PluginLoad,
    pluginGuid: string,
    pluginPath: string,
    rotatePlugin: RotatePlugin,
    // feature toggles
    useRegionEncode: bool,
    rotationAngle: nat,
    frameRate: real,
    numFrames: nat,
    // file lists
    srcFile: string,
    srcFileBuff: seq<string>,
    dstFileBuff: seq<string>,
    // video capture input
    v4l2InputEnabled: bool,
    deviceName: string,
    mipiPort: int,
    mipiMode: MipiMode,
    mipiModeName: string,
    v4l2Format: V4l2Format)

  /** The record as main declares it: every field zeroed. */
  function ZeroParams(): InputParams
  {
    InputParams(
      NoCodec, false, false, 0,
      0, 0, 0, 0,
      ColorUnset, PicUnset,
      RateUnset, 0, 0, 0, 0, 0, 0, 0,
      0, 0, 0, BRefUnknown, 0,
      0, 0,
      false, 0, GpuCopyDefault, SystemMemory, false, PluginNone, "", "", RotatePluginUnset,
      false, 0, 0.0, 0,
      "", [], [],
      false, "", 0, MipiNone, "", NoFormat)
  }

  /**
   * What the parser relies on but does not define: the value readers and
   * lookups of the sample's utility library, and the build configuration
   * (which optional command-line options were compiled in).
   */
  datatype Platform = Platform(
    // StrFormatToCodecFormatFourCC: None when the name is not a codec
    codecOf: string -> Option<CodecId>,
    // IsEncodeCodecSupported
    encodeSupported: CodecId -> bool,
    // msdk_opt_read into an unsigned field: None when the text is not a valid number
    readUInt: string -> Option<nat>,
    // msdk_opt_read into a signed field (the MIPI port)
    readInt: string -> Option<int>,
    // msdk_opt_read into the frame rate
    readReal: string -> Option<real>,
    // StrToTargetUsage: 0 for an unknown name
    targetUsageOf: string -> nat,
    // ConvertStringToGuid succeeds
    isGuid: string -> bool,
    // CalculateDefaultBitrate(codec, target usage, width, height, frame rate)
    defaultBitrate: (CodecId, nat, nat, nat, real) -> nat,
    // build configuration: D3D_SURFACES_SUPPORT, LIBVA_SUPPORT, ENABLE_V4L2_SUPPORT
    d3dSurfaces: bool,
    libva: bool,
    v4l2: bool)
}
