# sample_encode: command-line resolution and pipeline supervision, in Dafny

This project models the core of the Media SDK encoding sample `sample_encode`.
The core is its `main` and two functions beside it:

- **ParseInputString** turns the command line into the encoder's parameter
  record (`sInputParams`). It walks the tokens once, left to right:
  - a bare token names the codec;
  - some options are matched as whole strings;
  - every other `-x` token goes through a switch on its second character.

  It then runs a fixed sequence of checks and defaults. Every failure is
  `MFX_ERR_UNSUPPORTED`; success is `MFX_ERR_NONE` with a completed record.
- **CreatePipeline** chooses one of three pipeline classes.
- **main** drives the chosen pipeline in this order: parse, select, multiview
  set-up, `Init`, `PrintInfo`, capture start. It then runs a run/recover loop:
  - a lost or failed device is reset (`ResetDevice`, then
    `ResetMFXComponents`) and `Run` is retried;
  - any other failure exits with 1;
  - success stops capture, closes the pipeline and exits with 0.

Files:

- `params.dfy` (module `EncodeParams`):
  - the parameter record, as a datatype with one field per member of `sInputParams`;
  - the small vocabularies its fields range over;
  - `Platform`. It bundles the helpers the parser calls but whose code is not modelled (value readers, codec lookup, target-usage names, GUID check, default bitrate) as function-valued fields. It also carries the three build switches (D3D surfaces, VA-API, V4L2 capture).
- `options.dfy` (module `OptionParser`): one iteration of the argument loop (`ParseToken`) and the scan of the whole argument list (`ScanFrom`, `Scan`). `HandlerOf` picks the block of the if-chain that handles a token. The whole-string options are split by topic into five groups:
  - frame;
  - encoder;
  - memory;
  - execution;
  - capture.

  The lemmas say what single iterations and the whole scan keep.
- `resolver.dfy` (module `Resolver`):
  - `ParseInputString` as an imperative method: a `while` loop over the tokens, then the checks and defaults in source order;
  - its specification: `Admissible` (the checks), `Resolved` (the defaults), `Parsed` (the whole outcome);
  - `ValidConfig`, the invariant every successful parse establishes.
- `supervisor.dfy` (module `Supervisor`):
  - `CreatePipeline`;
  - a `Pipeline` class whose status-returning calls answer from a script;
  - `main` (`EncodeMain`), proved against the specification function `MainOutcome`;
  - the protocol lemmas of the run/recover loop.

The model follows the code where it differs from the sample's documented intent:

- A JPEG configuration ends with the balanced target usage and the computed default bitrate, not with both unset. The user may not give either value for JPEG (`Resolver.JpegGetsDefaultBitrate`).
- The queue depth (`-async`) is not clamped to a range. A depth of 0 becomes 4, and a maximum slice size forces 1.
- An unknown option does not fail; it prints the help and parsing goes on. A single-character option with no value after it does not fail either. A bad `-p` GUID does not fail.
- `-i` without multiview only overwrites the source file name. The list of views grows only once a multiview codec was named.
- The argument count is narrowed to 8 bits before the parse: with 256 or more arguments only `argc % 256` of them are seen.

## Model

| member | source | states |
|---|---|---|
| `OptionParser.UIntAfter` | samples/sample_encode/src/sample_encode.cpp:188-205 | the shared value check and number read (as for `-dstw`/`-dsth` here and the letter options at 453-464): an option's value is absent exactly when no token follows it before the argument count, is read exactly when that token is a readable number, and is then that number |
| `OptionParser.WithNumber` | samples/sample_encode/src/sample_encode.cpp:188-205 | storing a numeric option sets exactly its own numeric field to the value and leaves every other numeric field, the codec, the multiview flags, both file lists, capture input and rate control as they were |
| `OptionParser.Required` | samples/sample_encode/src/sample_encode.cpp:188-205 | a multi-character option with a value: a readable value is consumed and stored in the option's field; a missing or unreadable one fails |
| `OptionParser.CodecToken` | samples/sample_encode/src/sample_encode.cpp:166-185 | a bare token is accepted exactly when it names a codec the build can encode; the codec is then stored, "mvc" as AVC with multiview switched on, and no other field changes |
| `OptionParser.HandlerOf` | samples/sample_encode/src/sample_encode.cpp:166-443 | a token goes to the codec block exactly when it does not start with '-', to each whole-string block exactly when it is one of that block's options (capture only in V4L2 builds), and to the one-letter switch exactly when it starts with '-' and is none of the build's whole-string options |
| `OptionParser.FrameOption` | samples/sample_encode/src/sample_encode.cpp:188-240 | the frame options never read past the end of the arguments, consume at most one value, and keep the record coherent; what each stores is in `FrameOptionsStored` |
| `OptionParser.EncoderOption` | samples/sample_encode/src/sample_encode.cpp:241-294 | only `-idr_interval` can read past the end of the arguments; `-opencl` selects the OpenCL plugin at 180 degrees; `-viewoutput` fails exactly without multiview; `-la` and `-lad`, when they succeed, select look-ahead rate control (the stored depth is in `EncoderOptionsStored`) |
| `OptionParser.MemoryOption` | samples/sample_encode/src/sample_encode.cpp:295-310 | the surface memory options always succeed and consume no value |
| `OptionParser.ExecutionOption` | samples/sample_encode/src/sample_encode.cpp:311-390 | only `-path` can read past the end of the arguments; the others consume at most one value and keep the record coherent; what each stores is in `ExecutionOptionsStored` |
| `OptionParser.CaptureOption` | samples/sample_encode/src/sample_encode.cpp:392-439 | the capture options never read past the argument count, consume at most one value and keep the record coherent; which value each stores is in `CaptureOptionsStored` |
| `OptionParser.CaptureValue` | samples/sample_encode/src/sample_encode.cpp:393-435 | `-d` stores the device name; `-p` stores the port it reads and fails exactly when the port is unreadable; `-m` stores the name and the mode it selects |
| `OptionParser.LowerCase` | samples/sample_encode/src/sample_encode.cpp:425-434 | the case-folded name the MIPI mode is compared by has the same length, with each ASCII capital made small |
| `OptionParser.ModeNamed` | samples/sample_encode/src/sample_encode.cpp:416-434 | each of still, video, preview and continuous is selected exactly when the name matches it ignoring case; any other name selects no mode |
| `OptionParser.ModeNamedIgnoresCase` | samples/sample_encode/src/sample_encode.cpp:416-434 | a mode name and its small-letter form select the same mode |
| `OptionParser.LetterOption` | samples/sample_encode/src/sample_encode.cpp:441-602 | the switch keys on the second character only; a value-taking letter given last changes nothing; otherwise it fails exactly when its value does; "-?" fails and any other letter is skipped |
| `OptionParser.LetterValue` | samples/sample_encode/src/sample_encode.cpp:445-595 | a letter's value fails exactly for an unreadable frame rate or an unreadable number; `-f` stores the frame rate read, a numeric letter stores the number read in its own field and leaves the other numeric fields alone, and every letter keeps the record coherent |
| `OptionParser.TextLetter` | samples/sample_encode/src/sample_encode.cpp:445-595 | `-u` stores the target usage named; `-i` overwrites the source file and appends to the view list only under multiview; `-o` appends an output file; `-p` selects the plugin by a valid GUID and otherwise changes nothing; each keeps the record coherent |
| `OptionParser.ParseToken` | samples/sample_encode/src/sample_encode.cpp:162-603 | the index one iteration leaves is at most the count, and the iteration keeps what later checks rely on; it reads past the end exactly for `-idr_interval` or `-path` as the last argument |
| `OptionParser.PositionalTokenIsCodec` | samples/sample_encode/src/sample_encode.cpp:166-185 | the outcome of a bare token, both directions of acceptance, and the multiview flag it leaves |
| `OptionParser.FrameOptionsStored` | samples/sample_encode/src/sample_encode.cpp:188-240 | what each frame option stores: both destination sizes (a missing or unreadable value fails), the software or hardware library, YUY2 (with the capture format in V4L2 builds) or NV12, field order, and B-pyramid on or off |
| `OptionParser.EncoderOptionsStored` | samples/sample_encode/src/sample_encode.cpp:241-294 | what each encoder option stores: the IDR interval, the rotation angle, the OpenCL plugin at 180 degrees, view output (failing without multiview), look-ahead with or without a depth, and the maximum slice size |
| `OptionParser.MemoryOptionsStored` | samples/sample_encode/src/sample_encode.cpp:295-310 | `-d3d11` selects D3D11 surfaces and `-d3d`/`-vaapi` D3D9/VA-API surfaces, consuming nothing |
| `OptionParser.ExecutionOptionsStored` | samples/sample_encode/src/sample_encode.cpp:311-390 | what each execution option stores: queue depth, GPU copy on or off, constant-QP mode and the three QPs, QSV-FF, slice count, plugin path, and region encoding |
| `OptionParser.CaptureOptionsStored` | samples/sample_encode/src/sample_encode.cpp:392-439 | in V4L2 builds: `-uyvy` selects the UYVY capture format, `-i::v4l2` turns capture input on, and `-d`, `-p`, `-m` fail without a value and otherwise store it as `CaptureValue` says |
| `OptionParser.LetterOptionsStored` | samples/sample_encode/src/sample_encode.cpp:445-595 | what each value-taking letter stores: target usage, frame rate, the eight numeric fields, the source file (and the view list under multiview), a further output file, and a plugin selected by GUID |
| `OptionParser.OpenclRotatesHalfTurn` | samples/sample_encode/src/sample_encode.cpp:258-262 | `-opencl` forces a rotation of 180 degrees with the OpenCL plugin |
| `OptionParser.LookAheadOptions` | samples/sample_encode/src/sample_encode.cpp:272-285 | both `-la` and `-lad` set look-ahead rate control |
| `OptionParser.ViewOutputNeedsMvc` | samples/sample_encode/src/sample_encode.cpp:263-271 | `-viewoutput` fails if and only if no multiview codec was named earlier |
| `OptionParser.UnknownOptionSkipped` | samples/sample_encode/src/sample_encode.cpp:596-601 | an unknown option is skipped without failing, except "-?" |
| `OptionParser.MissingValueEndsLoop` | samples/sample_encode/src/sample_encode.cpp:445-595 | a value-taking letter option given last changes nothing and ends the loop |
| `OptionParser.CoherentStep` | samples/sample_encode/src/sample_encode.cpp:162-603 | one iteration keeps: view output only under multiview, a list of views only under multiview, capture only in V4L2 builds; the file lists only grow |
| `OptionParser.ScanKeepsCoherent` | samples/sample_encode/src/sample_encode.cpp:162-603 | the whole loop keeps those facts, and the record it drafts extends the starting one |
| `OptionParser.StartCoherent` | samples/sample_encode/src/sample_encode.cpp:148-159 | the defaults set before the loop keep the record coherent and turn capture input off |
| `OptionParser.Start` | samples/sample_encode/src/sample_encode.cpp:148-159 | before the loop: the CPU rotation plugin, the hardware library, capture off and no frame limit; in V4L2 builds no MIPI port or mode and no capture format; nothing else changes |
| `OptionParser.ScanStep` | samples/sample_encode/src/sample_encode.cpp:162-603 | the scan from a token is the outcome of that token followed by the scan from the token after the values it consumed |
| `OptionParser.UndefinedOnlyAtEnd` | samples/sample_encode/src/sample_encode.cpp:162-603 | the scan reads past the argument vector only when `-idr_interval` or `-path` is the last argument |
| `OptionParser.ScanFromZero` | samples/sample_encode/src/sample_encode.cpp:855-860 | from main's zeroed record, a drafted record has views and view output only under multiview |
| `OptionParser.LetterDispatchIgnoresRest` | samples/sample_encode/src/sample_encode.cpp:441-444 | a token not matched whole acts exactly as "-" plus its second character (so `-width` is `-w`), unless that short form is itself a whole-string option (as `-d` is in V4L2 builds) |
| `OptionParser.WrappedNextIndex` | samples/sample_encode/src/sample_encode.cpp:162 | the 8-bit loop increment stays below 256 and is exact below 255 |
| `OptionParser.LetterFlagAtLimitWraps` | samples/sample_encode/src/sample_encode.cpp:162-164 | with 255 arguments ending in `-w`, the iteration leaves the index at 255 and the 8-bit increment brings it back to 0 |
| `OptionParser.LastValueFlagEndsScan` | samples/sample_encode/src/sample_encode.cpp:453-464 | with an unbounded index, a value-taking letter option given last ends the scan with the record unchanged |
| `OptionParser.LongValueFlagAtLimitWraps` | samples/sample_encode/src/sample_encode.cpp:241-248 | with 511 arguments (narrowed count 255) and `-idr_interval` at index 254, the value at index 255 is stored, the index is left at 255 and the 8-bit increment brings it back to 0 |
| `Resolver.Parsed` | samples/sample_encode/src/sample_encode.cpp:139-828 | a parse can only succeed with a count other than 1 and a scan that drafted a record |
| `Resolver.ParseInputString` | samples/sample_encode/src/sample_encode.cpp:139-828 | returns only MFX_ERR_NONE or MFX_ERR_UNSUPPORTED; MFX_ERR_NONE exactly when the loop drafts a record that passes every check, and then the record with every default filled in |
| `Resolver.ScanArguments` | samples/sample_encode/src/sample_encode.cpp:147-603 | the loop fails exactly when some token is rejected, and otherwise yields the record the scan drafts |
| `Resolver.CheckAndComplete` | samples/sample_encode/src/sample_encode.cpp:605-827 | the block after the loop succeeds exactly when the draft is admissible, and then yields the draft with its defaults |
| `Resolver.CheckInputs` | samples/sample_encode/src/sample_encode.cpp:605-683 | the capture, mandatory-parameter and codec checks pass if and only if all of them hold |
| `Resolver.SetViewsAndDefaults` | samples/sample_encode/src/sample_encode.cpp:685-741 | fails exactly when multiview has other than two source files; otherwise fills views, target usage, frame rate, destination size, bitrate, colour format and picture structure |
| `Resolver.CheckCombinations` | samples/sample_encode/src/sample_encode.cpp:743-792 | the look-ahead, slice and rotation-plugin checks pass if and only if all of them hold |
| `Resolver.SetLastDefaults` | samples/sample_encode/src/sample_encode.cpp:794-825 | the queue depth, rate control and region-encoding flag are completed, and nothing fails |
| `Resolver.ResolvedIsValid` | samples/sample_encode/src/sample_encode.cpp:605-827 | an admissible draft resolves to a configuration that satisfies every rule: mandatory values, codec set, target usage in {1,4,7}, rotation, look-ahead, slice, region and views rules |
| `Resolver.ParsedIsValid` | samples/sample_encode/src/sample_encode.cpp:686-702 | every successful parse from main's zeroed record is valid, has one view exactly when multiview is off, and view output only under multiview |
| `Resolver.ResolvedIsFixedPoint` | samples/sample_encode/src/sample_encode.cpp:704-825 | filling in the defaults a second time changes nothing |
| `Resolver.ZeroInputsDefaulted` | samples/sample_encode/src/sample_encode.cpp:695-808 | an unset value becomes its default: one view unless the multiview list holds two files, balanced target usage, 30 frames per second, the source size as destination size, the computed bitrate, YV12, progressive, CBR, and a queue depth of 4 when no maximum slice size is set (under a maximum slice size the depth is 1) |
| `Resolver.GivenValuesKept` | samples/sample_encode/src/sample_encode.cpp:714-808 | given destination sizes, bitrate, colour format, picture structure and rate control are kept; the queue depth is 1 under a maximum slice size whatever `-async` said |
| `Resolver.DefaultBitrateUsesDestination` | samples/sample_encode/src/sample_encode.cpp:714-730 | a missing bitrate is computed from the defaulted destination size and the normalised target usage |
| `Resolver.JpegGetsDefaultBitrate` | samples/sample_encode/src/sample_encode.cpp:679-730 | a JPEG configuration ends with the balanced target usage and the computed default bitrate |
| `Resolver.RegionEncodeClearedNotRefused` | samples/sample_encode/src/sample_encode.cpp:810-825 | region encoding never decides success, and survives exactly for HEVC without resizing or rotation |
| `Supervisor.CreatePipeline` | samples/sample_encode/src/sample_encode.cpp:830-846 | exactly one variant: region encoding if asked, else the rotation pipeline for a non-zero angle, else the standard one |
| `Supervisor.VariantFitsConfig` | samples/sample_encode/src/sample_encode.cpp:830-846 | on a valid configuration, the region pipeline gets HEVC without resize or rotation, and the rotation pipeline gets 180 degrees, progressive, no resize, no multiview, no look-ahead |
| `Supervisor.Pipeline.constructor` | samples/sample_encode/src/sample_encode.cpp:864 | a new pipeline has made no calls yet |
| `Supervisor.Pipeline.SetMultiView` | samples/sample_encode/src/sample_encode.cpp:870 | records the call and consumes no answer |
| `Supervisor.Pipeline.SetNumView` | samples/sample_encode/src/sample_encode.cpp:871 | records the call with the number of views |
| `Supervisor.Pipeline.Init` | samples/sample_encode/src/sample_encode.cpp:874 | answers the scripted Init status and records it |
| `Supervisor.Pipeline.PrintInfo` | samples/sample_encode/src/sample_encode.cpp:877 | records the call |
| `Supervisor.Pipeline.CaptureStartV4L2Pipeline` | samples/sample_encode/src/sample_encode.cpp:881 | answers the scripted capture-start status and records it |
| `Supervisor.Pipeline.Run` | samples/sample_encode/src/sample_encode.cpp:889 | answers the next scripted run status and records it |
| `Supervisor.Pipeline.ResetDevice` | samples/sample_encode/src/sample_encode.cpp:894 | answers the next scripted device-reset status and records it |
| `Supervisor.Pipeline.ResetMFXComponents` | samples/sample_encode/src/sample_encode.cpp:897 | answers the next scripted component-reset status and records it |
| `Supervisor.Pipeline.CaptureStopV4L2Pipeline` | samples/sample_encode/src/sample_encode.cpp:908 | records the call |
| `Supervisor.Pipeline.Close` | samples/sample_encode/src/sample_encode.cpp:910 | records the call |
| `Supervisor.RecoverLoop` | samples/sample_encode/src/sample_encode.cpp:887-906 | the loop starts with a Run that gets the first scripted status, uses up at least one Run status when any is scripted, and leaves the Init and capture-start answers unused |
| `Supervisor.LoopMakesNoInit` | samples/sample_encode/src/sample_encode.cpp:887-906 | the run loop never calls Init |
| `Supervisor.OneRunStatusPerRound` | samples/sample_encode/src/sample_encode.cpp:887-906 | each Run of the loop takes the next scripted status: the statuses the Runs got, followed by the ones left, are the scripted list; once it is used up the last Run gets MFX_ERR_NONE and the loop ends |
| `Supervisor.Supervised` | samples/sample_encode/src/sample_encode.cpp:864-914 | the created variant is `CreatePipeline`'s choice; a failing Init is the exit code; otherwise the exit is 0 or 1, and 1 exactly when capture started and the run loop failed |
| `Supervisor.RunWithRecovery` | samples/sample_encode/src/sample_encode.cpp:887-906 | the loop makes exactly the calls of the specification `RecoverLoop`, reports whether it ended with a successful Run, and leaves the pipeline with the answers the specification leaves unused |
| `Supervisor.Supervise` | samples/sample_encode/src/sample_encode.cpp:864-914 | after a successful parse, main's exit code, variant and calls are those of the supervisor specification |
| `Supervisor.NarrowedCount` | samples/sample_encode/src/sample_encode.cpp:860 | the argument count handed to the parser is narrowed to 8 bits: below 256 and unchanged below 256, otherwise reduced by a multiple of 256 |
| `Supervisor.MainOutcome` | samples/sample_encode/src/sample_encode.cpp:852-915 | a pipeline is created exactly when the parse succeeds, and then of the variant `CreatePipeline` picks for the parsed record; a failed parse exits with 1 and calls nothing |
| `Supervisor.EncodeMain` | samples/sample_encode/src/sample_encode.cpp:852-915 | main parses the 8-bit argument count and then supervises; its exit code, variant and calls are those of the specification |
| `Supervisor.RecoveryProtocol` | samples/sample_encode/src/sample_encode.cpp:887-906 | the loop calls only Run and the two resets; every call but the last lets the loop go on, and the loop succeeds exactly when its last call is a Run that answered MFX_ERR_NONE |
| `Supervisor.RecoveryOrder` | samples/sample_encode/src/sample_encode.cpp:887-906 | a recoverable Run is followed by ResetDevice, a successful ResetDevice by ResetMFXComponents, and a successful reset by Run |
| `Supervisor.InitOnceAfterPrelude` | samples/sample_encode/src/sample_encode.cpp:868-875 | SetMultiView and SetNumView(numViews) come first exactly when multiview is on; Init comes once, right after them |
| `Supervisor.InitFailureExits` | samples/sample_encode/src/sample_encode.cpp:874-875 | a failing Init exits with its own status, before any Run and without Close |
| `Supervisor.CaptureFailureExitsZero` | samples/sample_encode/src/sample_encode.cpp:881-885 | a failing capture start exits with 0, before any Run and without Close |
| `Supervisor.CloseOnlyOnSuccess` | samples/sample_encode/src/sample_encode.cpp:887-914 | capture stop and Close happen exactly when Init, capture start and the run loop succeeded; they are then the last two calls and the exit is 0; a failed loop exits with 1 |
| `Supervisor.ParseFailureExitsOne` | samples/sample_encode/src/sample_encode.cpp:860-861 | a failed parse exits with 1, before any pipeline exists |
| `Supervisor.LostDeviceRecovered` | samples/sample_encode/src/sample_encode.cpp:887-914 | a lost device then success gives: Init once, one device reset, one component reset, a second Run, then capture stop and Close with exit 0 |

## Left out

- The help text and every message (`PrintHelp`, `msdk_printf`). They only produce output; the model keeps the status returned.
- The helpers whose code is not part of this model become fields of `Platform`:
  - `msdk_opt_read` into numeric fields;
  - `StrFormatToCodecFormatFourCC`;
  - `IsEncodeCodecSupported`;
  - `StrToTargetUsage`;
  - `ConvertStringToGuid`;
  - `CalculateDefaultBitrate`.

  Their ranges and widths are whatever those readers accept. One reader, `readUInt`, serves every numeric field, so the width of the field read into (16-bit or 32-bit) is not modelled: whatever `msdk_opt_read` does with a value too wide for a 16-bit field, such as `-angle 65716`, the model stores it whole. `msdk_opt_read` into a string buffer is a plain copy: its length limit and truncation are not modelled.
- Field widths: numeric fields are unbounded naturals, and the 8-bit argument count is written out as `% 256`. The 8-bit loop index is kept unbounded in `Resolver.ScanArguments`; its wrap is the Finding below.
- `Resolver.ParseInputString` requires that `-idr_interval` and `-path` are never the last argument. Those options read the token after them without a bounds check, and reading past the argument vector has no defined outcome.
- The status macros (`MSDK_CHECK_RESULT`, `MSDK_CHECK_PARSE_RESULT`, `MSDK_CHECK_POINTER`) are not part of this model. Every status other than MFX_ERR_NONE counts as a failure. The null checks on the arguments, the record and the new pipeline are not modelled.
- The frame rate is a real number. IEEE rounding and NaN are not modelled.
- The rotation plugin library path is reduced to which plugin is chosen (CPU or OpenCL).
- The multiview flag bits are two booleans.
- Three source-level details are not modelled:
  - the Windows wide-string conversion for `-path`;
  - the `MOD_ENC_*` extension macros (blank in normal builds);
  - `auto_ptr` ownership.
- The record is updated in place through a pointer in the source. Here it is a value that each step returns. On failure the source leaves a partly updated record, which main never reads; the model states nothing about it.
- `OptionParser.WithNumber`: its contract names the fields the later checks and lemmas use, not every one of the record's 47 fields, as unchanged; the definition changes only the option's own field.
- `OptionParser.FrameOption`: the value each option stores is stated in `FrameOptionsStored`, a lemma about `ParseToken`, not in this function's contract.
- `OptionParser.EncoderOption`: apart from `-opencl`, `-viewoutput` and look-ahead, the value each option stores is stated in `EncoderOptionsStored`, not in this function's contract.
- `OptionParser.ExecutionOption`: the value each option stores is stated in `ExecutionOptionsStored`, not in this function's contract.
- `OptionParser.CaptureOption`: the value each option stores is stated in `CaptureOptionsStored`, not in this function's contract.
- `Supervisor.RecoverLoop`: its own contract states only that the Run list shrinks; that each round takes exactly one Run status is `OneRunStatusPerRound`, and that the loop calls no Init is `LoopMakesNoInit`.
- The pipeline classes (`CEncodingPipeline`, `CUserPipeline`, `CRegionEncodingPipeline`) and their hardware, codec and file work are outside the model. Their statuses come from a finite script whose used-up lists answer MFX_ERR_NONE, so an endless run of lost devices is not represented.

## Findings

| source | as written | input that shows it | evidently intended | confidence | as-written member | corrected member |
|---|---|---|---|---|---|---|
| samples/sample_encode/src/sample_encode.cpp:162 | the loop index is an `mfxU8`; a one-letter value option at index 254 advances it to 255, and the loop's `i++` wraps it to 0, so the loop resumes with the program name as a token. `-idr_interval` or `-path` at index 254 does the same when the value at index 255 exists, as it does with 511 arguments (narrowed count 255) | a command line of 255 arguments whose last is `-w`; or 511 arguments with `-idr_interval` at index 254 | the loop ends after the last argument, as it does for shorter command lines | medium, not executed | `OptionParser.LetterFlagAtLimitWraps` | `OptionParser.LastValueFlagEndsScan` |
