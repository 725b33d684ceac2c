/**
 * The token dispatch of ParseInputString: one iteration of its argument loop
 * (positional codec name, exactly matched multi-character options, and the
 * switch on the second character for everything else), and the scan of the
 * whole argument list built from it.
 */
module OptionParser {
  import opened EncodeParams

  /**
   * Outcome of one iteration of the argument loop. `last` is the index of the
   * last token the iteration consumed (the loop index before its increment).
   * Reject is a `return MFX_ERR_UNSUPPORTED`; ReadsPastEnd is an option whose
   * value is read from beyond the end of the argument vector.
   */
  datatype Step = Next(last: nat, p: InputParams) | Reject | ReadsPastEnd

  /** Outcome of looking for a numeric value after an option. */
  datatype Arg = Absent | Invalid | Read(v: nat)

  /** The outcome of scanning the arguments: the draft record, or a failure. */
  datatype ScanResult = Drafted(draft: InputParams) | ScanRejected | ScanUndefined

  predicate IsFlag(tok: string) {
    |tok| > 0 && tok[0] == '-'
  }

  /** The character the single-character switch looks at (the terminator of a lone "-"). */
  function Letter(tok: string): char {
    if |tok| >= 2 then tok[1] else '\0'
  }

  /** The single-character options that take a value. */
  predicate TakesValue(c: char) {
    || c == 'u' || c == 'f' || c == 'i' || c == 'o' || c == 'p' || TakesNumber(c)
  }

  /** What one iteration may change of the parts of the record that later checks rely on. */
  predicate Successor(pf: Platform, p: InputParams, q: InputParams) {
    && (p.mvcEnabled ==> q.mvcEnabled)
    && (q.srcFileBuff == p.srcFileBuff
        || (p.mvcEnabled && q.srcFileBuff == p.srcFileBuff + [q.srcFile]))
    && (q.mvcViewOutput ==> p.mvcViewOutput || p.mvcEnabled)
    && (q.v4l2InputEnabled ==> p.v4l2InputEnabled || pf.v4l2)
    && p.dstFileBuff <= q.dstFileBuff
    && |q.dstFileBuff| <= |p.dstFileBuff| + 1
  }

  /** The number after option `i`, if there is a token before `n`. */
  function UIntAfter(pf: Platform, args: seq<string>, n: nat, i: nat): (a: Arg)
    requires i < n <= |args|
    ensures a.Absent? <==> i + 1 >= n
    ensures a.Read? <==> i + 1 < n && pf.readUInt(args[i + 1]).Some?
    ensures a.Read? ==> a.v == pf.readUInt(args[i + 1]).value
  {
    if i + 1 >= n then Absent
    else match pf.readUInt(args[i + 1])
      case None => Invalid
      case Some(v) => Read(v)
  }

  /** The numeric fields an option can set. */
  datatype NumField =
    | DstWidthField | DstHeightField | IdrIntervalField | AngleField | LaDepthField
    | MaxSliceSizeField | AsyncDepthField | QpIField | QpPField | QpBField | NumSliceField
    | WidthField | HeightField | NumFramesField | BitRateField | NumRefFrameField
    | GopPicSizeField | GopRefDistField | QualityField

  /** The value of a numeric field. */
  function NumberOf(p: InputParams, f: NumField): nat {
    match f
    case DstWidthField => p.dstWidth
    case DstHeightField => p.dstHeight
    case IdrIntervalField => p.idrInterval
    case AngleField => p.rotationAngle
    case LaDepthField => p.laDepth
    case MaxSliceSizeField => p.maxSliceSize
    case AsyncDepthField => p.asyncDepth
    case QpIField => p.qpI
    case QpPField => p.qpP
    case QpBField => p.qpB
    case NumSliceField => p.numSlice
    case WidthField => p.width
    case HeightField => p.height
    case NumFramesField => p.numFrames
    case BitRateField => p.bitRate
    case NumRefFrameField => p.numRefFrame
    case GopPicSizeField => p.gopPicSize
    case GopRefDistField => p.gopRefDist
    case QualityField => p.quality
  }

  /**
   * The record with one numeric field set: that field holds `v`, the other
   * numeric fields and the fields the scan relies on keep their values.
   */
  function WithNumber(p: InputParams, f: NumField, v: nat): (q: InputParams)
    ensures forall g :: NumberOf(q, g) == if g == f then v else NumberOf(p, g)
    ensures q.codecId == p.codecId && q.mvcEnabled == p.mvcEnabled && q.mvcViewOutput == p.mvcViewOutput
    ensures q.srcFileBuff == p.srcFileBuff && q.dstFileBuff == p.dstFileBuff
    ensures q.v4l2InputEnabled == p.v4l2InputEnabled && q.rateControl == p.rateControl
  {
    match f
    case DstWidthField => p.(dstWidth := v)
    case DstHeightField => p.(dstHeight := v)
    case IdrIntervalField => p.(idrInterval := v)
    case AngleField => p.(rotationAngle := v)
    case LaDepthField => p.(laDepth := v)
    case MaxSliceSizeField => p.(maxSliceSize := v)
    case AsyncDepthField => p.(asyncDepth := v)
    case QpIField => p.(qpI := v)
    case QpPField => p.(qpP := v)
    case QpBField => p.(qpB := v)
    case NumSliceField => p.(numSlice := v)
    case WidthField => p.(width := v)
    case HeightField => p.(height := v)
    case NumFramesField => p.(numFrames := v)
    case BitRateField => p.(bitRate := v)
    case NumRefFrameField => p.(numRefFrame := v)
    case GopPicSizeField => p.(gopPicSize := v)
    case GopRefDistField => p.(gopRefDist := v)
    case QualityField => p.(quality := v)
  }

  /** A multi-character option with a value: a missing or bad value fails. */
  function Required(a: Arg, i: nat, p: InputParams, f: NumField): (r: Step)
    ensures a.Read? ==> r == Next(i + 1, WithNumber(p, f, a.v))
    ensures !a.Read? ==> r == Reject
  {
    match a
    case Read(v) => Next(i + 1, WithNumber(p, f, v))
    case _ => Reject
  }

  /** An ASCII capital made small; every other character unchanged. */
  function Lower(c: char): char {
    if 'A' <= c <= 'Z' then (c as int + 32) as char else c
  }

  /** The string with every ASCII capital replaced by its small letter. */
  function LowerCase(s: string): (r: string)
    ensures |r| == |s| && forall k :: 0 <= k < |s| ==> r[k] == Lower(s[k])
  {
    if s == [] then [] else [Lower(s[0])] + LowerCase(s[1..])
  }

  /** MIPI mode named case-insensitively, as strcasecmp compares. */
  function ModeNamed(s: string): (m: MipiMode)
    ensures m == MipiStill <==> LowerCase(s) == "still"
    ensures m == MipiVideo <==> LowerCase(s) == "video"
    ensures m == MipiPreview <==> LowerCase(s) == "preview"
    ensures m == MipiContinuous <==> LowerCase(s) == "continuous"
    ensures m == MipiNone <==> LowerCase(s) !in {"still", "video", "preview", "continuous"}
  {
    var m := LowerCase(s);
    if m == "still" then MipiStill
    else if m == "video" then MipiVideo
    else if m == "preview" then MipiPreview
    else if m == "continuous" then MipiContinuous
    else MipiNone
  }

  /** Matching the mode name ignores case: a name and its small-letter form select the same mode. */
  lemma ModeNamedIgnoresCase(s: string)
    ensures ModeNamed(LowerCase(s)) == ModeNamed(s)
  {
    assert LowerCase(LowerCase(s)) == LowerCase(s);
  }

  /** The codec recorded for a named one: multiview is encoded as AVC. */
  function StoredCodec(c: CodecId): CodecId {
    if c == Mvc then Avc else c
  }

  /** A positional token names the codec; "mvc" selects AVC with multiview. */
  function CodecToken(pf: Platform, tok: string, i: nat, p: InputParams): (r: Step)
    ensures r.Next? <==> pf.codecOf(tok).Some? && pf.encodeSupported(pf.codecOf(tok).value)
    ensures !r.ReadsPastEnd?
    ensures r.Next? ==> r.last == i && Successor(pf, p, r.p) && r.p.codecId != Mvc
    ensures r.Next? ==> (r.p.mvcEnabled <==> p.mvcEnabled || pf.codecOf(tok).value == Mvc)
    ensures r.Next? ==> r.p == p.(codecId := StoredCodec(pf.codecOf(tok).value),
                                  mvcEnabled := p.mvcEnabled || pf.codecOf(tok).value == Mvc)
  {
    match pf.codecOf(tok)
    case None => Reject
    case Some(c) =>
      if !pf.encodeSupported(c) then Reject
      else if c == Mvc then Next(i, p.(codecId := Avc, mvcEnabled := true))
      else Next(i, p.(codecId := c))
  }

  /** Options on the frame: sizes, colour format, field order and B-pyramid. */
  const FrameFlags: set<string> :=
    {"-dstw", "-dsth", "-sw", "-hw", "-yuy2", "-nv12", "-tff", "-bff", "-bref", "-nobref"}

  /** Options on the encoder: IDR interval, rotation, views, look-ahead and slice size. */
  const EncoderFlags: set<string> :=
    {"-idr_interval", "-angle", "-opencl", "-viewoutput", "-la", "-lad", "-mss"}

  /** Options on execution: queue depth, copy mode, quantisers, plugins and region encoding. */
  const ExecutionFlags: set<string> :=
    {"-async", "-gpucopy::on", "-gpucopy::off", "-cqp", "-qpi", "-qpp", "-qpb", "-qsv-ff",
     "-num_slice", "-path", "-re"}

  /** Surface memory options, present only in builds with D3D or VA-API surfaces. */
  function MemoryFlags(pf: Platform): set<string> {
    if pf.d3dSurfaces && pf.libva then {"-d3d", "-d3d11", "-vaapi"}
    else if pf.d3dSurfaces then {"-d3d", "-d3d11"}
    else if pf.libva then {"-vaapi"}
    else {}
  }

  /** Video capture options, present only in builds with V4L2 support. */
  const CaptureFlags: set<string> := {"-d", "-uyvy", "-p", "-m", "-i::v4l2"}

  /** The options matched as whole strings, depending on the build configuration. */
  predicate LongFlag(pf: Platform, tok: string) {
    || tok in FrameFlags
    || tok in EncoderFlags
    || tok in MemoryFlags(pf)
    || tok in ExecutionFlags
    || (pf.v4l2 && tok in CaptureFlags)
  }

  // No option is matched by two blocks of the loop body.

  lemma EncoderFlagsApart()
    ensures FrameFlags !! EncoderFlags
  {
  }

  lemma ExecutionFlagsApart()
    ensures FrameFlags !! ExecutionFlags && EncoderFlags !! ExecutionFlags
  {
  }

  lemma CaptureFlagsApart()
    ensures FrameFlags !! CaptureFlags && EncoderFlags !! CaptureFlags && ExecutionFlags !! CaptureFlags
  {
  }

  lemma MemoryFlagsApart(pf: Platform)
    ensures MemoryFlags(pf) !! FrameFlags && MemoryFlags(pf) !! EncoderFlags
  {
  }

  lemma MemoryFlagsApartFromLater(pf: Platform)
    ensures MemoryFlags(pf) !! ExecutionFlags && MemoryFlags(pf) !! CaptureFlags
  {
  }

  /** The block of the loop body that handles a token, in the order the blocks are tried. */
  datatype Handler = Positional | FrameBlock | EncoderBlock | MemoryBlock | ExecutionBlock | CaptureBlock | LetterBlock

  function HandlerOf(pf: Platform, tok: string): (h: Handler)
    ensures h.Positional? <==> !IsFlag(tok)
    ensures h.FrameBlock? <==> tok in FrameFlags
    ensures h.EncoderBlock? <==> tok in EncoderFlags
    ensures h.MemoryBlock? <==> tok in MemoryFlags(pf)
    ensures h.ExecutionBlock? <==> tok in ExecutionFlags
    ensures h.CaptureBlock? <==> pf.v4l2 && tok in CaptureFlags
    ensures h.LetterBlock? <==> IsFlag(tok) && !LongFlag(pf, tok)
    ensures tok == "-idr_interval" ==> h.EncoderBlock?
    ensures tok == "-path" ==> h.ExecutionBlock?
  {
    EncoderFlagsApart();
    ExecutionFlagsApart();
    CaptureFlagsApart();
    MemoryFlagsApart(pf);
    MemoryFlagsApartFromLater(pf);
    if !IsFlag(tok) then Positional
    else if tok in FrameFlags then FrameBlock
    else if tok in EncoderFlags then EncoderBlock
    else if tok in MemoryFlags(pf) then MemoryBlock
    else if tok in ExecutionFlags then ExecutionBlock
    else if pf.v4l2 && tok in CaptureFlags then CaptureBlock
    else LetterBlock
  }

  function FrameOption(pf: Platform, args: seq<string>, n: nat, i: nat, p: InputParams): (r: Step)
    requires 1 <= i < n <= |args| && args[i] in FrameFlags
    ensures r.Next? || r.Reject?
    ensures r.Next? ==> i <= r.last <= i + 1 && Successor(pf, p, r.p)
  {
    var tok := args[i];
    var a := UIntAfter(pf, args, n, i);
    if tok == "-dstw" then Required(a, i, p, DstWidthField)
    else if tok == "-dsth" then Required(a, i, p, DstHeightField)
    else if tok == "-sw" then Next(i, p.(useHWLib := false))
    else if tok == "-hw" then Next(i, p.(useHWLib := true))
    else if tok == "-yuy2" then
      Next(i, p.(colorFormat := Yuy2, v4l2Format := if pf.v4l2 then V4l2Yuy2 else p.v4l2Format))
    else if tok == "-nv12" then Next(i, p.(colorFormat := Nv12))
    else if tok == "-tff" then Next(i, p.(picStruct := FieldTff))
    else if tok == "-bff" then Next(i, p.(picStruct := FieldBff))
    else if tok == "-bref" then Next(i, p.(bRefType := BRefPyramid))
    else Next(i, p.(bRefType := BRefOff))  // "-nobref"
  }

  function EncoderOption(pf: Platform, args: seq<string>, n: nat, i: nat, p: InputParams): (r: Step)
    requires 1 <= i < n <= |args| && args[i] in EncoderFlags
    ensures r.Next? ==> i <= r.last <= i + 1 && Successor(pf, p, r.p)
    ensures r.ReadsPastEnd? <==> args[i] == "-idr_interval" && i + 1 >= |args|
    ensures args[i] == "-opencl" ==> r == Next(i, p.(rotatePlugin := OclRotatePlugin, rotationAngle := 180))
    ensures args[i] == "-viewoutput" ==> (r.Reject? <==> !p.mvcEnabled)
    ensures r.Next? && (args[i] == "-la" || args[i] == "-lad") ==> r.p.rateControl == LookAhead
  {
    var tok := args[i];
    var a := UIntAfter(pf, args, n, i);
    if tok == "-idr_interval" then
      // no check that a value follows: the token after it is read whatever it is
      if i + 1 < |args| then
        match pf.readUInt(args[i + 1])
        case None => Reject
        case Some(v) => Next(i + 1, WithNumber(p, IdrIntervalField, v))
      else ReadsPastEnd
    else if tok == "-angle" then Required(a, i, p, AngleField)
    else if tok == "-opencl" then Next(i, p.(rotatePlugin := OclRotatePlugin, rotationAngle := 180))
    else if tok == "-viewoutput" then
      if !p.mvcEnabled then Reject else Next(i, p.(mvcViewOutput := true))
    else if tok == "-la" then Next(i, p.(rateControl := LookAhead))
    else if tok == "-lad" then Required(a, i, p.(rateControl := LookAhead), LaDepthField)
    else Required(a, i, p, MaxSliceSizeField)  // "-mss"
  }

  function MemoryOption(pf: Platform, args: seq<string>, i: nat, p: InputParams): (r: Step)
    requires 1 <= i < |args| && args[i] in MemoryFlags(pf)
    ensures r.Next? && r.last == i && Successor(pf, p, r.p)
    ensures r.p == p.(memType := if args[i] == "-d3d11" then D3d11Memory else D3d9Memory)
  {
    var tok := args[i];
    if pf.d3dSurfaces && tok == "-d3d" then Next(i, p.(memType := D3d9Memory))
    else if pf.d3dSurfaces && tok == "-d3d11" then Next(i, p.(memType := D3d11Memory))
    else Next(i, p.(memType := D3d9Memory))  // "-vaapi"
  }

  function ExecutionOption(pf: Platform, args: seq<string>, n: nat, i: nat, p: InputParams): (r: Step)
    requires 1 <= i < n <= |args| && args[i] in ExecutionFlags
    ensures r.Next? ==> i <= r.last <= i + 1 && r.last <= n && Successor(pf, p, r.p)
    ensures r.ReadsPastEnd? <==> args[i] == "-path" && i + 1 >= |args|
  {
    var tok := args[i];
    var a := UIntAfter(pf, args, n, i);
    if tok == "-async" then Required(a, i, p, AsyncDepthField)
    else if tok == "-gpucopy::on" then Next(i, p.(gpuCopy := GpuCopyOn))
    else if tok == "-gpucopy::off" then Next(i, p.(gpuCopy := GpuCopyOff))
    else if tok == "-cqp" then Next(i, p.(rateControl := Cqp))
    else if tok == "-qpi" then Required(a, i, p, QpIField)
    else if tok == "-qpp" then Required(a, i, p, QpPField)
    else if tok == "-qpb" then Required(a, i, p, QpBField)
    else if tok == "-qsv-ff" then Next(i, p.(enableQSVFF := true))
    else if tok == "-num_slice" then Required(a, i, p, NumSliceField)
    else if tok == "-path" then
      // no check that a value follows either
      if i + 1 < |args| then Next(i + 1, p.(pluginPath := args[i + 1], plugin := PluginByFile))
      else ReadsPastEnd
    else Next(i, p.(useRegionEncode := true))  // "-re"
  }

  function CaptureOption(pf: Platform, args: seq<string>, n: nat, i: nat, p: InputParams): (r: Step)
    requires 1 <= i < n <= |args| && args[i] in CaptureFlags && pf.v4l2
    ensures r.Next? || r.Reject?
    ensures r.Next? ==> i <= r.last <= i + 1 && r.last < n && Successor(pf, p, r.p)
  {
    var tok := args[i];
    if tok == "-uyvy" then Next(i, p.(v4l2Format := V4l2Uyvy))
    else if tok == "-i::v4l2" then Next(i, p.(v4l2InputEnabled := true))
    else if i + 1 >= n then Reject
    else match CaptureValue(pf, tok, args[i + 1], p)
      case None => Reject
      case Some(q) => Next(i + 1, q)
  }

  /** The capture options that take a value: device name, MIPI port, MIPI mode. */
  function CaptureValue(pf: Platform, tok: string, value: string, p: InputParams): (q: Option<InputParams>)
    requires tok == "-d" || tok == "-p" || tok == "-m"
    ensures q.None? <==> tok == "-p" && pf.readInt(value).None?
    ensures q.Some? ==> Successor(pf, p, q.value)
    ensures tok == "-d" ==> q == Some(p.(deviceName := value))
    ensures tok == "-p" && q.Some? ==> q.value == p.(mipiPort := pf.readInt(value).value)
    ensures tok == "-m" ==> q == Some(p.(mipiModeName := value, mipiMode := ModeNamed(value)))
  {
    if tok == "-d" then Some(p.(deviceName := value))
    else if tok == "-p" then
      match pf.readInt(value)
      case None => None
      case Some(port) => Some(p.(mipiPort := port))
    else Some(p.(mipiModeName := value, mipiMode := ModeNamed(value)))
  }

  /** The single-character options whose value is a number. */
  predicate TakesNumber(c: char) {
    c == 'w' || c == 'h' || c == 'n' || c == 'b' || c == 'x' || c == 'g' || c == 'r' || c == 'q'
  }

  /** The field a numeric single-character option sets. */
  function LetterField(c: char): NumField
    requires TakesNumber(c)
  {
    if c == 'w' then WidthField
    else if c == 'h' then HeightField
    else if c == 'n' then NumFramesField
    else if c == 'b' then BitRateField
    else if c == 'x' then NumRefFrameField
    else if c == 'g' then GopPicSizeField
    else if c == 'r' then GopRefDistField
    else QualityField
  }

  /** The switch on the second character of any other token starting with '-'. */
  function LetterOption(pf: Platform, args: seq<string>, n: nat, i: nat, p: InputParams): (r: Step)
    requires 1 <= i < n <= |args|
    ensures !r.ReadsPastEnd?
    ensures r.Next? ==> i <= r.last <= i + 1 && r.last <= n && Successor(pf, p, r.p)
    ensures TakesValue(Letter(args[i])) && i + 1 == n ==> r == Next(n, p)
    ensures TakesValue(Letter(args[i])) && i + 1 < n ==>
      r == (match LetterValue(pf, Letter(args[i]), args[i + 1], p)
            case None => Reject
            case Some(q) => Next(i + 1, q))
    ensures !TakesValue(Letter(args[i])) ==> r == (if Letter(args[i]) == '?' then Reject else Next(i, p))
  {
    var c := Letter(args[i]);
    if TakesValue(c) then
      // a missing value is reported; the index has passed the end, so the loop stops
      if i + 1 >= n then Next(i + 1, p)
      else match LetterValue(pf, c, args[i + 1], p)
        case None => Reject
        case Some(q) => Next(i + 1, q)
    else if c == '?' then Reject
    else Next(i, p)   // unknown option: help is printed and parsing goes on
  }

  /**
   * The record after a single-character option applied to the token after it,
   * or None when that token cannot be read as the option's number.
   */
  function LetterValue(pf: Platform, c: char, value: string, p: InputParams): (q: Option<InputParams>)
    requires TakesValue(c)
    ensures q.None? <==> (c == 'f' && pf.readReal(value).None?) || (TakesNumber(c) && pf.readUInt(value).None?)
    ensures q.Some? ==> Successor(pf, p, q.value)
    // -f stores the frame rate read; a numeric letter stores the number read in its own field
    ensures c == 'f' && q.Some? ==> q.value.frameRate == pf.readReal(value).value
    ensures TakesNumber(c) && q.Some? ==>
              forall g :: NumberOf(q.value, g) == if g == LetterField(c) then pf.readUInt(value).value else NumberOf(p, g)
  {
    if c == 'f' then
      match pf.readReal(value)
      case None => None
      case Some(rate) => Some(p.(frameRate := rate))
    else if TakesNumber(c) then
      match pf.readUInt(value)
      case None => None
      case Some(v) => Some(WithNumber(p, LetterField(c), v))
    else Some(TextLetter(pf, c, value, p))
  }

  /** The single-character options whose value is taken as text: they cannot fail. */
  function TextLetter(pf: Platform, c: char, value: string, p: InputParams): (q: InputParams)
    requires c == 'u' || c == 'i' || c == 'o' || c == 'p'
    ensures Successor(pf, p, q)
    ensures c == 'u' ==> q.targetUsage == pf.targetUsageOf(value)
    // the last -i names the source file; the list of views grows only once mvc was named
    ensures c == 'i' ==> q.srcFile == value
                         && q.srcFileBuff == if p.mvcEnabled then p.srcFileBuff + [value] else p.srcFileBuff
    ensures c == 'o' ==> q.dstFileBuff == p.dstFileBuff + [value]
    // an invalid GUID prints the help text and is otherwise ignored
    ensures c == 'p' ==> if pf.isGuid(value) then q.plugin == PluginByGuid && q.pluginGuid == value else q == p
  {
    if c == 'u' then p.(targetUsage := pf.targetUsageOf(value))
    else if c == 'i' then
      p.(srcFile := value, srcFileBuff := if p.mvcEnabled then p.srcFileBuff + [value] else p.srcFileBuff)
    else if c == 'o' then p.(dstFileBuff := p.dstFileBuff + [value])
    else if pf.isGuid(value) then p.(plugin := PluginByGuid, pluginGuid := value)
    else p
  }

  /** One iteration of the argument loop, on token `i` of the first `n` arguments. */
  function ParseToken(pf: Platform, args: seq<string>, n: nat, i: nat, p: InputParams): (r: Step)
    requires 1 <= i < n <= |args|
    ensures r.Next? ==> i <= r.last <= n && Successor(pf, p, r.p)
    ensures r.ReadsPastEnd? <==> (args[i] == "-idr_interval" || args[i] == "-path") && i + 1 >= |args|
  {
    match HandlerOf(pf, args[i])
    case Positional => CodecToken(pf, args[i], i, p)
    case FrameBlock => FrameOption(pf, args, n, i, p)
    case EncoderBlock => EncoderOption(pf, args, n, i, p)
    case MemoryBlock => MemoryOption(pf, args, i, p)
    case ExecutionBlock => ExecutionOption(pf, args, n, i, p)
    case CaptureBlock => CaptureOption(pf, args, n, i, p)
    case LetterBlock => LetterOption(pf, args, n, i, p)
  }

  // ---------------------------------------------------------------------------
  // What single iterations do
  // ---------------------------------------------------------------------------

  /**
   * A positional token is accepted exactly when it names a codec the build can
   * encode; "mvc" is recorded as AVC with multiview, and multiview stays on.
   */
  lemma PositionalTokenIsCodec(pf: Platform, args: seq<string>, n: nat, i: nat, p: InputParams)
    requires 1 <= i < n <= |args| && !IsFlag(args[i])
    ensures var r := ParseToken(pf, args, n, i, p);
            && (r.Next? <==> pf.codecOf(args[i]).Some? && pf.encodeSupported(pf.codecOf(args[i]).value))
            && (r.Next? ==> r == Next(i, p.(codecId := StoredCodec(pf.codecOf(args[i]).value),
                                          mvcEnabled := p.mvcEnabled || pf.codecOf(args[i]).value == Mvc)))
  {
  }

  /** What each frame option stores; a missing or unreadable size fails. */
  lemma FrameOptionsStored(pf: Platform, args: seq<string>, n: nat, i: nat, p: InputParams)
    requires 1 <= i < n <= |args| && args[i] in FrameFlags
    ensures var r, a := ParseToken(pf, args, n, i, p), UIntAfter(pf, args, n, i);
      && (args[i] == "-dstw" ==> r == Required(a, i, p, DstWidthField))
      && (args[i] == "-dsth" ==> r == Required(a, i, p, DstHeightField))
      && (args[i] == "-sw" ==> r == Next(i, p.(useHWLib := false)))
      && (args[i] == "-hw" ==> r == Next(i, p.(useHWLib := true)))
      && (args[i] == "-yuy2" ==>
            r == Next(i, p.(colorFormat := Yuy2, v4l2Format := if pf.v4l2 then V4l2Yuy2 else p.v4l2Format)))
      && (args[i] == "-nv12" ==> r == Next(i, p.(colorFormat := Nv12)))
      && (args[i] == "-tff" ==> r == Next(i, p.(picStruct := FieldTff)))
      && (args[i] == "-bff" ==> r == Next(i, p.(picStruct := FieldBff)))
      && (args[i] == "-bref" ==> r == Next(i, p.(bRefType := BRefPyramid)))
      && (args[i] == "-nobref" ==> r == Next(i, p.(bRefType := BRefOff)))
  {
  }

  /**
   * What each encoder option stores. -idr_interval reads the next token without
   * checking that there is one; -lad selects look-ahead before reading its depth.
   */
  lemma EncoderOptionsStored(pf: Platform, args: seq<string>, n: nat, i: nat, p: InputParams)
    requires 1 <= i < n <= |args| && args[i] in EncoderFlags
    ensures var r, a := ParseToken(pf, args, n, i, p), UIntAfter(pf, args, n, i);
      && (args[i] == "-idr_interval" && i + 1 < |args| ==>
            r == (match pf.readUInt(args[i + 1])
                  case None => Reject
                  case Some(v) => Next(i + 1, p.(idrInterval := v))))
      && (args[i] == "-angle" ==> r == Required(a, i, p, AngleField))
      && (args[i] == "-opencl" ==> r == Next(i, p.(rotatePlugin := OclRotatePlugin, rotationAngle := 180)))
      && (args[i] == "-viewoutput" ==> r == if p.mvcEnabled then Next(i, p.(mvcViewOutput := true)) else Reject)
      && (args[i] == "-la" ==> r == Next(i, p.(rateControl := LookAhead)))
      && (args[i] == "-lad" ==> r == Required(a, i, p.(rateControl := LookAhead), LaDepthField))
      && (args[i] == "-mss" ==> r == Required(a, i, p, MaxSliceSizeField))
  {
  }

  /** -d3d11 selects D3D11 surfaces; -d3d and -vaapi select D3D9/VA surfaces. */
  lemma MemoryOptionsStored(pf: Platform, args: seq<string>, n: nat, i: nat, p: InputParams)
    requires 1 <= i < n <= |args| && args[i] in MemoryFlags(pf)
    ensures ParseToken(pf, args, n, i, p) == Next(i, p.(memType := if args[i] == "-d3d11" then D3d11Memory else D3d9Memory))
  {
  }

  /** What each execution option stores; -path, like -idr_interval, reads the next token unchecked. */
  lemma ExecutionOptionsStored(pf: Platform, args: seq<string>, n: nat, i: nat, p: InputParams)
    requires 1 <= i < n <= |args| && args[i] in ExecutionFlags
    ensures var r, a := ParseToken(pf, args, n, i, p), UIntAfter(pf, args, n, i);
      && (args[i] == "-async" ==> r == Required(a, i, p, AsyncDepthField))
      && (args[i] == "-gpucopy::on" ==> r == Next(i, p.(gpuCopy := GpuCopyOn)))
      && (args[i] == "-gpucopy::off" ==> r == Next(i, p.(gpuCopy := GpuCopyOff)))
      && (args[i] == "-cqp" ==> r == Next(i, p.(rateControl := Cqp)))
      && (args[i] == "-qpi" ==> r == Required(a, i, p, QpIField))
      && (args[i] == "-qpp" ==> r == Required(a, i, p, QpPField))
      && (args[i] == "-qpb" ==> r == Required(a, i, p, QpBField))
      && (args[i] == "-qsv-ff" ==> r == Next(i, p.(enableQSVFF := true)))
      && (args[i] == "-num_slice" ==> r == Required(a, i, p, NumSliceField))
      && (args[i] == "-path" && i + 1 < |args| ==>
            r == Next(i + 1, p.(pluginPath := args[i + 1], plugin := PluginByFile)))
      && (args[i] == "-re" ==> r == Next(i, p.(useRegionEncode := true)))
  {
  }

  /** What each capture option stores; -d, -p and -m fail when no value follows. */
  lemma CaptureOptionsStored(pf: Platform, args: seq<string>, n: nat, i: nat, p: InputParams)
    requires 1 <= i < n <= |args| && pf.v4l2 && args[i] in CaptureFlags
    ensures var r := ParseToken(pf, args, n, i, p);
      && (args[i] == "-uyvy" ==> r == Next(i, p.(v4l2Format := V4l2Uyvy)))
      && (args[i] == "-i::v4l2" ==> r == Next(i, p.(v4l2InputEnabled := true)))
      && ((args[i] == "-d" || args[i] == "-p" || args[i] == "-m") && i + 1 >= n ==> r == Reject)
      && ((args[i] == "-d" || args[i] == "-p" || args[i] == "-m") && i + 1 < n ==>
            r == (match CaptureValue(pf, args[i], args[i + 1], p)
                  case None => Reject
                  case Some(q) => Next(i + 1, q)))
  {
  }

  /** What each single-character option with a value stores when the value is there. */
  lemma LetterOptionsStored(pf: Platform, args: seq<string>, n: nat, i: nat, p: InputParams)
    requires 1 <= i < n <= |args| && IsFlag(args[i]) && !LongFlag(pf, args[i])
    requires TakesValue(Letter(args[i])) && i + 1 < n
    ensures var c, v, r := Letter(args[i]), args[i + 1], ParseToken(pf, args, n, i, p);
      && (c == 'u' ==> r == Next(i + 1, p.(targetUsage := pf.targetUsageOf(v))))
      && (c == 'f' ==> r == (match pf.readReal(v)
                             case None => Reject
                             case Some(rate) => Next(i + 1, p.(frameRate := rate))))
      && (TakesNumber(c) ==> r == (match pf.readUInt(v)
                                   case None => Reject
                                   case Some(x) => Next(i + 1, WithNumber(p, LetterField(c), x))))
      && (c == 'i' ==> r == Next(i + 1, p.(srcFile := v,
            srcFileBuff := if p.mvcEnabled then p.srcFileBuff + [v] else p.srcFileBuff)))
      && (c == 'o' ==> r == Next(i + 1, p.(dstFileBuff := p.dstFileBuff + [v])))
      && (c == 'p' ==> r == Next(i + 1, if pf.isGuid(v) then p.(plugin := PluginByGuid, pluginGuid := v) else p))
  {
  }

  /** -opencl selects the OpenCL rotation plugin and a 180 degree rotation. */
  lemma OpenclRotatesHalfTurn(pf: Platform, args: seq<string>, n: nat, i: nat, p: InputParams)
    requires 1 <= i < n <= |args| && args[i] == "-opencl"
    ensures ParseToken(pf, args, n, i, p) == Next(i, p.(rotatePlugin := OclRotatePlugin, rotationAngle := 180))
  {
    assert args[i] !in FrameFlags && args[i] in EncoderFlags;
  }

  /** Both look-ahead options select the look-ahead rate control. */
  lemma LookAheadOptions(pf: Platform, args: seq<string>, n: nat, i: nat, p: InputParams)
    requires 1 <= i < n <= |args| && (args[i] == "-la" || args[i] == "-lad")
    ensures args[i] == "-la" ==> ParseToken(pf, args, n, i, p) == Next(i, p.(rateControl := LookAhead))
    ensures ParseToken(pf, args, n, i, p).Next? ==> ParseToken(pf, args, n, i, p).p.rateControl == LookAhead
  {
    assert args[i] !in FrameFlags && args[i] in EncoderFlags;
  }

  /** -viewoutput fails exactly when no multiview codec was named before it. */
  lemma ViewOutputNeedsMvc(pf: Platform, args: seq<string>, n: nat, i: nat, p: InputParams)
    requires 1 <= i < n <= |args| && args[i] == "-viewoutput"
    ensures ParseToken(pf, args, n, i, p).Reject? <==> !p.mvcEnabled
  {
    assert args[i] !in FrameFlags && args[i] in EncoderFlags;
  }

  /**
   * An option the single-character switch does not know is skipped (only the
   * help text is printed), except "-?", which fails.
   */
  lemma UnknownOptionSkipped(pf: Platform, args: seq<string>, n: nat, i: nat, p: InputParams)
    requires 1 <= i < n <= |args| && IsFlag(args[i]) && !LongFlag(pf, args[i])
    requires !TakesValue(Letter(args[i]))
    ensures ParseToken(pf, args, n, i, p) == (if Letter(args[i]) == '?' then Reject else Next(i, p))
  {
  }

  /**
   * A single-character option that expects a value but is the last argument
   * changes nothing and ends the loop.
   */
  lemma MissingValueEndsLoop(pf: Platform, args: seq<string>, n: nat, i: nat, p: InputParams)
    requires 1 <= i < n <= |args| && IsFlag(args[i]) && !LongFlag(pf, args[i])
    requires TakesValue(Letter(args[i])) && i + 1 == n
    ensures ParseToken(pf, args, n, i, p) == Next(n, p)
  {
  }

  /** The rest of the argument loop, from index `i` on. */
  function ScanFrom(pf: Platform, args: seq<string>, n: nat, i: nat, p: InputParams): ScanResult
    requires 1 <= i <= n + 1 && n <= |args|
    decreases n + 1 - i, 1
  {
    if i >= n then Drafted(p) else AfterToken(pf, args, n, i, ParseToken(pf, args, n, i, p))
  }

  /** The rest of the argument loop once the token at `i` was handled with outcome `step`. */
  function AfterToken(pf: Platform, args: seq<string>, n: nat, i: nat, step: Step): ScanResult
    requires 1 <= i < n <= |args|
    requires step.Next? ==> i <= step.last <= n
    decreases n + 1 - i, 0
  {
    match step
    case Reject => ScanRejected
    case ReadsPastEnd => ScanUndefined
    case Next(last, q) => ScanFrom(pf, args, n, last + 1, q)
  }

  /** One iteration of the argument loop: the scan goes on from the token after the step, or ends. */
  lemma ScanStep(pf: Platform, args: seq<string>, n: nat, i: nat, p: InputParams)
    requires 1 <= i < n <= |args|
    ensures var r := ParseToken(pf, args, n, i, p);
            && (r.Next? ==> ScanFrom(pf, args, n, r.last + 1, r.p) == ScanFrom(pf, args, n, i, p))
            && (r.Reject? ==> ScanFrom(pf, args, n, i, p) == ScanRejected)
            && (r.ReadsPastEnd? ==> ScanFrom(pf, args, n, i, p) == ScanUndefined)
  {
  }

  /** Only -idr_interval or -path as the very last argument makes the scan read past the vector. */
  lemma {:induction false} UndefinedOnlyAtEnd(pf: Platform, args: seq<string>, n: nat, i: nat, p: InputParams)
    requires 1 <= i <= n + 1 && n <= |args|
    ensures ScanFrom(pf, args, n, i, p).ScanUndefined? ==>
              n == |args| && (args[n - 1] == "-idr_interval" || args[n - 1] == "-path")
    decreases n + 1 - i
  {
    if i < n {
      ScanStep(pf, args, n, i, p);
      var r := ParseToken(pf, args, n, i, p);
      if r.Next? {
        UndefinedOnlyAtEnd(pf, args, n, r.last + 1, r.p);
      } else if r.ReadsPastEnd? {
        assert i + 1 == n == |args|;
      }
    }
  }

  /** The defaults set before the loop (plugin path, hardware library, capture settings). */
  function Start(pf: Platform, p0: InputParams): (q: InputParams)
    ensures q.rotatePlugin == CpuRotatePlugin && q.useHWLib && !q.v4l2InputEnabled && q.numFrames == 0
    ensures pf.v4l2 ==> q.mipiPort == -1 && q.mipiMode == MipiNone && q.v4l2Format == NoFormat
    // nothing else is touched
    ensures q.(rotatePlugin := p0.rotatePlugin, useHWLib := p0.useHWLib, v4l2InputEnabled := p0.v4l2InputEnabled,
               numFrames := p0.numFrames, mipiPort := p0.mipiPort, mipiMode := p0.mipiMode,
               v4l2Format := p0.v4l2Format) == p0
  {
    var p := p0.(rotatePlugin := CpuRotatePlugin, useHWLib := true, v4l2InputEnabled := false, numFrames := 0);
    if pf.v4l2 then p.(mipiPort := -1, mipiMode := MipiNone, v4l2Format := NoFormat) else p
  }

  /** The whole argument loop, on the first `n` arguments. */
  function Scan(pf: Platform, args: seq<string>, n: nat, p0: InputParams): ScanResult
    requires n <= |args|
  {
    ScanFrom(pf, args, n, 1, Start(pf, p0))
  }

  // ---------------------------------------------------------------------------
  // Properties of the scan
  // ---------------------------------------------------------------------------

  /** What the later checks rely on and every iteration keeps. */
  predicate Coherent(pf: Platform, p: InputParams) {
    && (p.mvcViewOutput ==> p.mvcEnabled)
    && (!p.mvcEnabled ==> p.srcFileBuff == [])
    && (p.v4l2InputEnabled ==> pf.v4l2)
  }

  /** Growth over any number of iterations: mvc is never switched off, the file lists only grow. */
  predicate Extends(p: InputParams, q: InputParams) {
    && (p.mvcEnabled ==> q.mvcEnabled)
    && p.srcFileBuff <= q.srcFileBuff
    && p.dstFileBuff <= q.dstFileBuff
  }

  lemma CoherentStep(pf: Platform, p: InputParams, q: InputParams)
    requires Coherent(pf, p) && Successor(pf, p, q)
    ensures Coherent(pf, q) && Extends(p, q)
  {
  }

  lemma {:induction false} ScanKeepsCoherent(pf: Platform, args: seq<string>, n: nat, i: nat, p: InputParams)
    requires 1 <= i <= n + 1 && n <= |args|
    requires Coherent(pf, p)
    ensures ScanFrom(pf, args, n, i, p).Drafted? ==>
              Coherent(pf, ScanFrom(pf, args, n, i, p).draft) && Extends(p, ScanFrom(pf, args, n, i, p).draft)
    decreases n + 1 - i
  {
    if i < n {
      match ParseToken(pf, args, n, i, p)
      case Next(last, q) =>
        CoherentStep(pf, p, q);
        ScanKeepsCoherent(pf, args, n, last + 1, q);
      case _ =>
    }
  }

  /** Start keeps coherence: in particular it clears the capture flag. */
  lemma StartCoherent(pf: Platform, p0: InputParams)
    requires p0.mvcViewOutput ==> p0.mvcEnabled
    requires !p0.mvcEnabled ==> p0.srcFileBuff == []
    ensures Coherent(pf, Start(pf, p0)) && !Start(pf, p0).v4l2InputEnabled
  {
  }

  /**
   * From main's zeroed record, a draft that the scan produces has a list of
   * views only under mvc, and -viewoutput only under mvc.
   */
  lemma ScanFromZero(pf: Platform, args: seq<string>, n: nat)
    requires n <= |args| && Scan(pf, args, n, ZeroParams()).Drafted?
    ensures Coherent(pf, Scan(pf, args, n, ZeroParams()).draft)
  {
    StartCoherent(pf, ZeroParams());
    ScanKeepsCoherent(pf, args, n, 1, Start(pf, ZeroParams()));
  }

  /**
   * The single-character switch looks at nothing but the second character:
   * a token that is not matched whole acts exactly like "-" followed by its
   * second character (so -width acts as -w), unless that short form is itself
   * matched whole.
   */
  lemma LetterDispatchIgnoresRest(pf: Platform, args: seq<string>, n: nat, i: nat, p: InputParams)
    requires 1 <= i < n <= |args|
    requires IsFlag(args[i]) && !LongFlag(pf, args[i]) && !LongFlag(pf, ['-', Letter(args[i])])
    ensures ParseToken(pf, args[i := ['-', Letter(args[i])]], n, i, p) == ParseToken(pf, args, n, i, p)
  {
    var short := args[i := ['-', Letter(args[i])]];
    assert Letter(short[i]) == Letter(args[i]);
    assert ParseToken(pf, short, n, i, p) == LetterOption(pf, short, n, i, p);
    assert ParseToken(pf, args, n, i, p) == LetterOption(pf, args, n, i, p);
    assert i + 1 < n ==> short[i + 1] == args[i + 1];
    assert UIntAfter(pf, short, n, i) == UIntAfter(pf, args, n, i);
  }

  // ---------------------------------------------------------------------------
  // The 8-bit loop index (see Findings in the README)
  // ---------------------------------------------------------------------------

  /** The loop increment as written: the index is an mfxU8, so it wraps at 256. */
  function WrappedNextIndex(last: nat): (j: nat)
    ensures j < 256
    ensures last < 255 ==> j == last + 1
  {
    (last + 1) % 256
  }

  /**
   * With 255 arguments whose last is a value-taking single-character option,
   * the iteration consumes the missing value (index 255) and the 8-bit
   * increment wraps to 0: the loop goes on with the program name as token 0.
   */
  lemma LetterFlagAtLimitWraps(pf: Platform, args: seq<string>, p: InputParams)
    requires |args| >= 255 && args[254] == "-w"
    ensures ParseToken(pf, args, 255, 254, p) == Next(255, p)
    ensures WrappedNextIndex(255) == 0
  {
    assert Letter(args[254]) == 'w';
    MissingValueEndsLoop(pf, args, 255, 254, p);
  }

  /**
   * The same wrap after -idr_interval at index 254: with 511 arguments the
   * narrowed count is 255, the value at index 255 exists and is stored, and the
   * 8-bit increment wraps the index to 0.
   */
  lemma LongValueFlagAtLimitWraps(pf: Platform, args: seq<string>, p: InputParams)
    requires |args| >= 256 && args[254] == "-idr_interval" && pf.readUInt(args[255]).Some?
    ensures ParseToken(pf, args, 255, 254, p) == Next(255, p.(idrInterval := pf.readUInt(args[255]).value))
    ensures WrappedNextIndex(255) == 0
  {
    EncoderOptionsStored(pf, args, 255, 254, p);
  }

  /**
   * With the unbounded index the same iteration ends the scan: a
   * value-taking single-character option as the last argument leaves the
   * record as it was, whatever the number of arguments.
   */
  lemma LastValueFlagEndsScan(pf: Platform, args: seq<string>, n: nat, p: InputParams)
    requires 2 <= n <= |args| && IsFlag(args[n - 1]) && !LongFlag(pf, args[n - 1])
    requires TakesValue(Letter(args[n - 1]))
    ensures ScanFrom(pf, args, n, n - 1, p) == Drafted(p)
  {
    MissingValueEndsLoop(pf, args, n, n - 1, p);
    assert AfterToken(pf, args, n, n - 1, Next(n, p)) == ScanFrom(pf, args, n, n + 1, p);
  }
}
