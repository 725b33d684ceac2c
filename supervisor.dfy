/**
 * What main does with the parsed parameters: it chooses the pipeline variant,
 * sets up multiview, initialises the pipeline, starts capture, runs it with
 * recovery from lost or failed devices, and shuts it down. The pipeline's own
 * work (hardware, codec, files) is not modelled: each of its status-returning
 * calls answers from a script.
 */
module Supervisor {
  import opened EncodeParams
  import opened OptionParser
  import opened Resolver

  /** The three pipeline classes main can instantiate. */
  datatype Variant = RegionEncoding | UserRotation | Standard

  /** CreatePipeline: region encoding takes precedence over rotation, rotation over the standard pipeline. */
  function CreatePipeline(params: InputParams): (v: Variant)
    ensures v == RegionEncoding <==> params.useRegionEncode
    ensures v == UserRotation <==> !params.useRegionEncode && params.rotationAngle != 0
    ensures v == Standard <==> !params.useRegionEncode && params.rotationAngle == 0
  {
    if params.useRegionEncode then RegionEncoding
    else if params.rotationAngle != 0 then UserRotation
    else Standard
  }

  /** The selected variant is always one the configuration supports. */
  lemma VariantFitsConfig(pf: Platform, c: InputParams)
    requires ValidConfig(pf, c)
    ensures CreatePipeline(c) == RegionEncoding ==>
              c.codecId == Hevc && c.dstWidth == c.width && c.dstHeight == c.height && c.rotationAngle == 0
    ensures CreatePipeline(c) == UserRotation ==>
              c.rotationAngle == 180 && c.picStruct == Progressive && c.dstWidth == c.width
              && c.dstHeight == c.height && !c.mvcEnabled && c.rateControl != LookAhead
  {
  }

  // ---------------------------------------------------------------------------
  // The pipeline, as main sees it
  // ---------------------------------------------------------------------------

  /** A call main makes on the pipeline, with the status it got back where there is one. */
  datatype Call =
    | SetMultiView
    | SetNumView(views: nat)
    | Init(sts: int)
    | PrintInfo
    | CaptureStart(sts: int)
    | Run(sts: int)
    | ResetDevice(sts: int)
    | ResetComponents(sts: int)
    | CaptureStop
    | Close

  /**
   * The statuses the pipeline will answer: one for Init and one for the capture
   * start, and a list for each call main may repeat. A list that is used up
   * answers MFX_ERR_NONE.
   */
  datatype Script = Script(init: int, captureStart: int,
                           runs: seq<int>, deviceResets: seq<int>, componentResets: seq<int>)

  function Head(s: seq<int>): int {
    if s == [] then ErrNone else s[0]
  }

  function Tail(s: seq<int>): seq<int> {
    if s == [] then [] else s[1..]
  }

  /** A Run status main recovers from. */
  predicate Recoverable(sts: int) {
    sts == ErrDeviceLost || sts == ErrDeviceFailed
  }

  /** The scripted pipeline object: the calls made on it so far and the answers still to come. */
  class Pipeline {
    const variant: Variant
    var script: Script
    var log: seq<Call>

    constructor (variant: Variant, script: Script)
      ensures this.variant == variant && this.script == script && log == []
    {
      this.variant := variant;
      this.script := script;
      log := [];
    }

    method SetMultiView()
      modifies this
      ensures script == old(script) && log == old(log) + [Call.SetMultiView]
    {
      log := log + [Call.SetMultiView];
    }

    method SetNumView(views: nat)
      modifies this
      ensures script == old(script) && log == old(log) + [Call.SetNumView(views)]
    {
      log := log + [Call.SetNumView(views)];
    }

    method Init(params: InputParams) returns (sts: int)
      modifies this
      ensures sts == old(script).init
      ensures script == old(script) && log == old(log) + [Call.Init(sts)]
    {
      sts := script.init;
      log := log + [Call.Init(sts)];
    }

    method PrintInfo()
      modifies this
      ensures script == old(script) && log == old(log) + [Call.PrintInfo]
    {
      log := log + [Call.PrintInfo];
    }

    method CaptureStartV4L2Pipeline() returns (sts: int)
      modifies this
      ensures sts == old(script).captureStart
      ensures script == old(script) && log == old(log) + [Call.CaptureStart(sts)]
    {
      sts := script.captureStart;
      log := log + [Call.CaptureStart(sts)];
    }

    method Run() returns (sts: int)
      modifies this
      ensures sts == Head(old(script).runs)
      ensures script == old(script).(runs := Tail(old(script).runs))
      ensures log == old(log) + [Call.Run(sts)]
    {
      sts := Head(script.runs);
      script := script.(runs := Tail(script.runs));
      log := log + [Call.Run(sts)];
    }

    method ResetDevice() returns (sts: int)
      modifies this
      ensures sts == Head(old(script).deviceResets)
      ensures script == old(script).(deviceResets := Tail(old(script).deviceResets))
      ensures log == old(log) + [Call.ResetDevice(sts)]
    {
      sts := Head(script.deviceResets);
      script := script.(deviceResets := Tail(script.deviceResets));
      log := log + [Call.ResetDevice(sts)];
    }

    method ResetMFXComponents(params: InputParams) returns (sts: int)
      modifies this
      ensures sts == Head(old(script).componentResets)
      ensures script == old(script).(componentResets := Tail(old(script).componentResets))
      ensures log == old(log) + [Call.ResetComponents(sts)]
    {
      sts := Head(script.componentResets);
      script := script.(componentResets := Tail(script.componentResets));
      log := log + [Call.ResetComponents(sts)];
    }

    method CaptureStopV4L2Pipeline()
      modifies this
      ensures script == old(script) && log == old(log) + [Call.CaptureStop]
    {
      log := log + [Call.CaptureStop];
    }

    method Close()
      modifies this
      ensures script == old(script) && log == old(log) + [Call.Close]
    {
      log := log + [Call.Close];
    }
  }

  // ---------------------------------------------------------------------------
  // What main does, as a function of the script
  // ---------------------------------------------------------------------------

  /**
   * The outcome of the run loop: whether it reached the successful end, the
   * calls it made, and the answers it left unused.
   */
  datatype LoopOutcome = LoopOutcome(succeeded: bool, calls: seq<Call>, left: Script)

  /** The answers left after one full round of Run and both resets. */
  function AfterRound(s: Script): Script {
    Script(s.init, s.captureStart, Tail(s.runs), Tail(s.deviceResets), Tail(s.componentResets))
  }

  /** The run/recover loop on the scripted answers. */
  function RecoverLoop(s: Script): (r: LoopOutcome)
    // the Init and capture-start answers are left unused; a scripted Run status is used up
    ensures r.left.init == s.init && r.left.captureStart == s.captureStart
    ensures s.runs != [] ==> |r.left.runs| < |s.runs|
    // the loop starts with the Run that takes the first scripted status
    ensures |r.calls| >= 1 && r.calls[0] == Run(Head(s.runs))
    decreases |s.runs|
  {
    var sts := Head(s.runs);
    var t := AfterRound(s);
    if !Recoverable(sts) then LoopOutcome(sts == ErrNone, [Run(sts)], s.(runs := t.runs))
    else
      var device := Head(s.deviceResets);
      if device != ErrNone then
        LoopOutcome(false, [Run(sts), ResetDevice(device)], s.(runs := t.runs, deviceResets := t.deviceResets))
      else
        var components := Head(s.componentResets);
        if components != ErrNone then
          LoopOutcome(false, [Run(sts), ResetDevice(device), ResetComponents(components)], t)
        else
          var rest := RecoverLoop(t);
          LoopOutcome(rest.succeeded, [Run(sts), ResetDevice(device), ResetComponents(components)] + rest.calls,
                      rest.left)
  }

  /** The exit code of main, the variant it created (if any), and the calls made on the pipeline. */
  datatype Outcome = Outcome(exit: int, variant: Option<Variant>, calls: seq<Call>)

  /** The multiview set-up made before Init. */
  function Prelude(c: InputParams): seq<Call> {
    if c.mvcEnabled then [SetMultiView, SetNumView(c.numViews)] else []
  }

  /** The calls up to and including a successful capture start. */
  function Startup(c: InputParams): seq<Call> {
    Prelude(c) + [Init(ErrNone), PrintInfo, CaptureStart(ErrNone)]
  }

  /** What main does once the parse succeeded with `c`, with the pipeline answering from `s`. */
  function Supervised(c: InputParams, s: Script): (o: Outcome)
    ensures o.variant == Some(CreatePipeline(c))
    // a failing Init is main's exit code; otherwise main exits with 1 exactly when the run loop fails
    ensures s.init != ErrNone ==> o.exit == s.init
    ensures s.init == ErrNone ==>
              (o.exit == 0 || o.exit == 1)
              && (o.exit == 1 <==> s.captureStart == ErrNone && !RecoverLoop(s).succeeded)
  {
    var v := Some(CreatePipeline(c));
    if s.init != ErrNone then Outcome(s.init, v, Prelude(c) + [Init(s.init)])
    else if s.captureStart != ErrNone then
      Outcome(0, v, Prelude(c) + [Init(ErrNone), PrintInfo, CaptureStart(s.captureStart)])
    else
      var loop := RecoverLoop(s);
      if loop.succeeded then Outcome(0, v, Startup(c) + loop.calls + [CaptureStop, Close])
      else Outcome(1, v, Startup(c) + loop.calls)
  }

  /** The argument count as main passes it: narrowed to 8 bits. */
  function NarrowedCount(argc: nat): (n: nat)
    ensures n < 256 && n <= argc
    ensures argc < 256 ==> n == argc
    ensures argc >= 256 ==> n == argc - 256 * (argc / 256)
  {
    argc % 256
  }

  /** main on the argument vector `argv`, with the pipeline answering from `s`. */
  function MainOutcome(pf: Platform, argv: seq<string>, s: Script): (o: Outcome)
    // a pipeline is created exactly when the parse succeeds; otherwise main exits with 1 and calls nothing
    ensures o.variant.None? <==> Parsed(pf, argv, NarrowedCount(|argv|), ZeroParams()).None?
    ensures o.variant.None? ==> o.exit == 1 && o.calls == []
    ensures o.variant.Some? ==>
              o.variant.value == CreatePipeline(Parsed(pf, argv, NarrowedCount(|argv|), ZeroParams()).value)
  {
    match Parsed(pf, argv, NarrowedCount(|argv|), ZeroParams())
    case None => Outcome(1, None, [])
    case Some(c) => Supervised(c, s)
  }

  /** One round of the run loop, as the method takes it. */
  lemma RecoverLoopStep(s: Script)
    ensures var r, sts, t := RecoverLoop(s), Head(s.runs), AfterRound(s);
            && (!Recoverable(sts) ==> r == LoopOutcome(sts == ErrNone, [Run(sts)], s.(runs := t.runs)))
            && (Recoverable(sts) && Head(s.deviceResets) != ErrNone ==>
                  r == LoopOutcome(false, [Run(sts), ResetDevice(Head(s.deviceResets))],
                                   s.(runs := t.runs, deviceResets := t.deviceResets)))
            && (Recoverable(sts) && Head(s.deviceResets) == ErrNone && Head(s.componentResets) != ErrNone ==>
                  r == LoopOutcome(false, [Run(sts), ResetDevice(ErrNone), ResetComponents(Head(s.componentResets))], t))
            && (Recoverable(sts) && Head(s.deviceResets) == ErrNone && Head(s.componentResets) == ErrNone ==>
                  r == LoopOutcome(RecoverLoop(t).succeeded,
                                   [Run(sts), ResetDevice(ErrNone), ResetComponents(ErrNone)] + RecoverLoop(t).calls,
                                   RecoverLoop(t).left))
  {
  }

  /** The log after a full round of the loop, followed by the rest of the loop, is the log of the whole loop. */
  lemma RoundLogged(logBefore: seq<Call>, log: seq<Call>, s: Script)
    requires Recoverable(Head(s.runs)) && Head(s.deviceResets) == ErrNone && Head(s.componentResets) == ErrNone
    requires log == logBefore + [Run(Head(s.runs))] + [ResetDevice(ErrNone)] + [ResetComponents(ErrNone)]
    ensures log + RecoverLoop(AfterRound(s)).calls == logBefore + RecoverLoop(s).calls
  {
    RecoverLoopStep(s);
    Regrouped(logBefore, Run(Head(s.runs)), ResetDevice(ErrNone), ResetComponents(ErrNone), RecoverLoop(AfterRound(s)).calls);
  }

  /** Three calls appended one by one, then more calls. */
  lemma Regrouped(log: seq<Call>, a: Call, b: Call, c: Call, more: seq<Call>)
    ensures log + [a] + [b] + [c] + more == log + ([a, b, c] + more)
  {
    assert log + [a] + [b] + [c] == log + [a, b, c];
  }

  /**
   * The run loop of main: Run again after each lost or failed device that was
   * reset; false when main must exit with 1, true when the run succeeded.
   */
  method RunWithRecovery(pipeline: Pipeline, params: InputParams) returns (ok: bool)
    modifies pipeline
    ensures ok == RecoverLoop(old(pipeline.script)).succeeded
    ensures pipeline.log == old(pipeline.log) + RecoverLoop(old(pipeline.script)).calls
    ensures pipeline.script == RecoverLoop(old(pipeline.script)).left
  {
    ghost var start := pipeline.log;
    ghost var whole := RecoverLoop(pipeline.script);
    while true
      invariant RecoverLoop(pipeline.script).succeeded == whole.succeeded
      invariant pipeline.log + RecoverLoop(pipeline.script).calls == start + whole.calls
      invariant RecoverLoop(pipeline.script).left == whole.left
      decreases |pipeline.script.runs|
    {
      ghost var before, logBefore := pipeline.script, pipeline.log;
      RecoverLoopStep(before);
      var sts := pipeline.Run();
      if Recoverable(sts) {
        sts := pipeline.ResetDevice();
        if sts != ErrNone {
          return false;
        }
        sts := pipeline.ResetMFXComponents(params);
        if sts != ErrNone {
          return false;
        }
        RoundLogged(logBefore, pipeline.log, before);
        continue;
      } else {
        if sts != ErrNone {
          return false;
        }
        break;
      }
    }
    return true;
  }

  /**
   * main. The argument count is narrowed to 8 bits before the parse; the
   * process exit code is the value returned.
   */
  method EncodeMain(pf: Platform, argv: seq<string>, script: Script)
    returns (exit: int, variant: Option<Variant>, calls: seq<Call>)
    requires NarrowedCount(|argv|) != 1 ==> !Scan(pf, argv, NarrowedCount(|argv|), ZeroParams()).ScanUndefined?
    ensures Outcome(exit, variant, calls) == MainOutcome(pf, argv, script)
  {
    var sts, params := ParseInputString(pf, argv, NarrowedCount(|argv|), ZeroParams());
    if sts != ErrNone {
      return 1, None, [];
    }
    exit, variant, calls := Supervise(params, script);
  }

  /** The part of main after a successful parse, on a pipeline of the selected variant. */
  method Supervise(params: InputParams, script: Script)
    returns (exit: int, variant: Option<Variant>, calls: seq<Call>)
    ensures Outcome(exit, variant, calls) == Supervised(params, script)
  {
    var v := CreatePipeline(params);
    var pipeline := new Pipeline(v, script);
    if params.mvcEnabled {
      pipeline.SetMultiView();
      pipeline.SetNumView(params.numViews);
    }
    assert pipeline.log == Prelude(params) && pipeline.script == script;
    var sts := pipeline.Init(params);
    if sts != ErrNone {
      return sts, Some(v), pipeline.log;
    }
    pipeline.PrintInfo();
    sts := pipeline.CaptureStartV4L2Pipeline();
    if sts != ErrNone {
      return 0, Some(v), pipeline.log;
    }
    assert pipeline.log == Startup(params);
    var ok := RunWithRecovery(pipeline, params);
    if !ok {
      return 1, Some(v), pipeline.log;
    }
    pipeline.CaptureStopV4L2Pipeline();
    pipeline.Close();
    return 0, Some(v), pipeline.log;
  }

  // ---------------------------------------------------------------------------
  // Properties of the supervisor
  // ---------------------------------------------------------------------------

  /** A call of the run loop that lets the loop go on: a recoverable Run, or a reset that succeeded. */
  predicate Continues(call: Call) {
    || (call.Run? && Recoverable(call.sts))
    || (call.ResetDevice? && call.sts == ErrNone)
    || (call.ResetComponents? && call.sts == ErrNone)
  }

  /**
   * The calls of the run loop: Run and the two resets only; every call but the
   * last lets the loop go on, and the loop succeeds exactly when its last call
   * is a Run that answered MFX_ERR_NONE.
   */
  lemma {:induction false} RecoveryProtocol(s: Script)
    ensures var r := RecoverLoop(s);
            && (forall k :: 0 <= k < |r.calls| ==>
                  r.calls[k].Run? || r.calls[k].ResetDevice? || r.calls[k].ResetComponents?)
            && (forall k :: 0 <= k < |r.calls| - 1 ==> Continues(r.calls[k]))
            && !Continues(r.calls[|r.calls| - 1])
            && (r.succeeded <==> r.calls[|r.calls| - 1] == Run(ErrNone))
    decreases |s.runs|
  {
    var sts := Head(s.runs);
    RecoverLoopStep(s);
    if Recoverable(sts) && Head(s.deviceResets) == ErrNone && Head(s.componentResets) == ErrNone {
      var t := AfterRound(s);
      RecoveryProtocol(t);
      var r, rest := RecoverLoop(s), RecoverLoop(t);
      assert r.calls == [Run(sts), ResetDevice(ErrNone), ResetComponents(ErrNone)] + rest.calls;
      assert forall k :: 3 <= k < |r.calls| ==> r.calls[k] == rest.calls[k - 3];
    }
  }

  /**
   * The order of the run loop: each recoverable Run is followed by
   * ResetDevice, each successful ResetDevice by ResetMFXComponents, and each
   * successful ResetMFXComponents by Run again.
   */
  lemma {:induction false} RecoveryOrder(s: Script)
    ensures var r := RecoverLoop(s);
            && (forall k :: 0 <= k < |r.calls| - 1 && r.calls[k].Run? ==> r.calls[k + 1].ResetDevice?)
            && (forall k :: 0 <= k < |r.calls| - 1 && r.calls[k].ResetDevice? ==> r.calls[k + 1].ResetComponents?)
            && (forall k :: 0 <= k < |r.calls| - 1 && r.calls[k].ResetComponents? ==> r.calls[k + 1].Run?)
    decreases |s.runs|
  {
    var sts := Head(s.runs);
    RecoverLoopStep(s);
    if Recoverable(sts) && Head(s.deviceResets) == ErrNone && Head(s.componentResets) == ErrNone {
      var t := AfterRound(s);
      RecoveryOrder(t);
      var r, rest := RecoverLoop(s), RecoverLoop(t);
      assert r.calls == [Run(sts), ResetDevice(ErrNone), ResetComponents(ErrNone)] + rest.calls;
      assert forall k :: 3 <= k < |r.calls| ==> r.calls[k] == rest.calls[k - 3];
    }
  }

  /** The run loop calls only Run and the two resets. */
  lemma LoopMakesNoInit(s: Script)
    ensures forall k :: 0 <= k < |RecoverLoop(s).calls| ==> !RecoverLoop(s).calls[k].Init?
  {
    RecoveryProtocol(s);
  }

  /** The run loop neither stops the capture nor closes the pipeline. */
  lemma LoopStopsNothing(s: Script)
    ensures Close !in RecoverLoop(s).calls && CaptureStop !in RecoverLoop(s).calls
  {
    var calls := RecoverLoop(s).calls;
    RecoveryProtocol(s);
    forall k | 0 <= k < |calls| ensures calls[k] != Close && calls[k] != CaptureStop {
    }
  }

  /** The statuses the Run calls in `calls` got back, in order. */
  function RunStatuses(calls: seq<Call>): seq<int> {
    if calls == [] then []
    else (if calls[0].Run? then [calls[0].sts] else []) + RunStatuses(calls[1..])
  }

  lemma {:induction false} RunStatusesAppend(a: seq<Call>, b: seq<Call>)
    ensures RunStatuses(a + b) == RunStatuses(a) + RunStatuses(b)
  {
    if a != [] {
      assert (a + b)[1..] == a[1..] + b;
      RunStatusesAppend(a[1..], b);
    } else {
      assert a + b == b;
    }
  }

  /** A round, or the start of one, holds the status of its one Run. */
  lemma RoundStatus(sts: int, calls: seq<Call>)
    requires calls == [Run(sts)] || (|calls| == 2 && calls[0] == Run(sts) && calls[1].ResetDevice?)
             || (|calls| == 3 && calls[0] == Run(sts) && calls[1].ResetDevice? && calls[2].ResetComponents?)
    ensures RunStatuses(calls) == [sts]
  {
    if |calls| == 1 {
      assert calls[1..] == [];
    } else {
      var tail := calls[1..];
      assert RunStatuses(tail) == RunStatuses(tail[1..]);
      if |calls| == 3 {
        assert tail[1..][1..] == [];
      }
      assert RunStatuses(calls[1..]) == [];
    }
  }

  /**
   * Every round of the loop takes exactly one scripted Run status: the statuses
   * its Run calls got, followed by the ones left, are the scripted list; once the
   * list is used up, the last Run gets MFX_ERR_NONE and the loop ends.
   */
  lemma {:induction false} OneRunStatusPerRound(s: Script)
    ensures var r := RecoverLoop(s);
            || RunStatuses(r.calls) + r.left.runs == s.runs
            || (r.left.runs == [] && RunStatuses(r.calls) == s.runs + [ErrNone])
    decreases |s.runs|
  {
    var sts := Head(s.runs);
    var t := AfterRound(s);
    var r := RecoverLoop(s);
    RecoverLoopStep(s);
    if Recoverable(sts) && Head(s.deviceResets) == ErrNone && Head(s.componentResets) == ErrNone {
      var round := [Run(sts), ResetDevice(ErrNone), ResetComponents(ErrNone)];
      OneRunStatusPerRound(t);
      RunStatusesAppend(round, RecoverLoop(t).calls);
      RoundStatus(sts, round);
      assert s.runs == [sts] + t.runs;
    } else {
      RoundStatus(sts, r.calls);
    }
  }


  /**
   * Multiview is set up, with the number of views, before Init exactly when
   * it is enabled; Init is made once, right after that set-up.
   */
  lemma InitOnceAfterPrelude(c: InputParams, s: Script)
    ensures var o := Supervised(c, s);
            && |o.calls| > |Prelude(c)| && Prelude(c) <= o.calls
            && (o.calls[0] == SetMultiView <==> c.mvcEnabled)
            && (c.mvcEnabled ==> o.calls[1] == SetNumView(c.numViews))
            && o.calls[|Prelude(c)|] == Init(s.init)
            && (forall k :: 0 <= k < |o.calls| && o.calls[k].Init? ==> k == |Prelude(c)|)
  {
    var pre := Prelude(c);
    var rest := SupervisedAfterPrelude(c, s);
    InitOnlyAt(pre, rest);
    assert (pre + rest)[|pre|] == rest[0];
  }

  /** What main does after the multiview set-up starts with Init, and calls Init nowhere else. */
  lemma SupervisedAfterPrelude(c: InputParams, s: Script) returns (rest: seq<Call>)
    ensures Supervised(c, s).calls == Prelude(c) + rest
    ensures |rest| >= 1 && rest[0] == Init(s.init) && forall k :: 1 <= k < |rest| ==> !rest[k].Init?
  {
    if s.init != ErrNone {
      rest := [Init(s.init)];
    } else if s.captureStart != ErrNone {
      rest := [Init(ErrNone), PrintInfo, CaptureStart(s.captureStart)];
    } else {
      var loop := RecoverLoop(s);
      var head, tail := [Init(ErrNone), PrintInfo, CaptureStart(ErrNone)], (if loop.succeeded then [CaptureStop, Close] else []);
      rest := head + loop.calls + tail;
      InitOnceInRun(s, rest);
      Associated(Prelude(c), head, loop.calls, tail);
      assert Supervised(c, s).calls == Prelude(c) + head + loop.calls + tail;
    }
  }

  lemma Associated(a: seq<Call>, b: seq<Call>, c: seq<Call>, d: seq<Call>)
    ensures a + b + c + d == a + (b + c + d)
  {
  }

  /** A call list made of an Init-free set-up and a list that starts with its only Init has one Init, after the set-up. */
  lemma InitOnlyAt(pre: seq<Call>, rest: seq<Call>)
    requires forall k :: 0 <= k < |pre| ==> !pre[k].Init?
    requires forall k :: 1 <= k < |rest| ==> !rest[k].Init?
    ensures forall k :: 0 <= k < |pre + rest| && (pre + rest)[k].Init? ==> k == |pre|
  {
    forall k | 0 <= k < |pre + rest| && (pre + rest)[k].Init? ensures k == |pre| {
      if k >= |pre| {
        assert (pre + rest)[k] == rest[k - |pre|];
      }
    }
  }

  /** Once Init and the capture start succeeded, the first call is the only Init. */
  lemma InitOnceInRun(s: Script, rest: seq<Call>)
    requires rest == [Init(ErrNone), PrintInfo, CaptureStart(ErrNone)] + RecoverLoop(s).calls
                     + (if RecoverLoop(s).succeeded then [CaptureStop, Close] else [])
    ensures forall k :: 1 <= k < |rest| ==> !rest[k].Init?
  {
    var loop := RecoverLoop(s);
    LoopMakesNoInit(s);
    var head := [Init(ErrNone), PrintInfo, CaptureStart(ErrNone)];
    forall k | 1 <= k < |rest| ensures !rest[k].Init? {
      if k < 3 {
        assert rest[k] == head[k];
      } else if k < 3 + |loop.calls| {
        assert rest[k] == loop.calls[k - 3];
      }
    }
  }

  /** A failing Init ends main with Init's own status, before any Run. */
  lemma InitFailureExits(c: InputParams, s: Script)
    requires s.init != ErrNone
    ensures var o := Supervised(c, s);
            o.exit == s.init && forall k :: 0 <= k < |o.calls| ==> !o.calls[k].Run? && o.calls[k] != Close
  {
  }

  /** A failing capture start ends main with 0, before any Run and without Close. */
  lemma CaptureFailureExitsZero(c: InputParams, s: Script)
    requires s.init == ErrNone && s.captureStart != ErrNone
    ensures var o := Supervised(c, s);
            o.exit == 0 && forall k :: 0 <= k < |o.calls| ==> !o.calls[k].Run? && o.calls[k] != Close
  {
  }

  /**
   * Capture stop and Close are made exactly when Init, the capture start and
   * the run loop all succeeded; they are then the last two calls and main
   * exits with 0. A failing reset or run exits with 1 without them.
   */
  lemma CloseOnlyOnSuccess(c: InputParams, s: Script)
    ensures var o := Supervised(c, s);
            && (Close in o.calls <==>
                  s.init == ErrNone && s.captureStart == ErrNone && RecoverLoop(s).succeeded)
            && (CaptureStop in o.calls <==> Close in o.calls)
            && (Close in o.calls ==> o.exit == 0 && o.calls[|o.calls| - 2..] == [CaptureStop, Close])
            && (s.init == ErrNone && s.captureStart == ErrNone && !RecoverLoop(s).succeeded ==> o.exit == 1)
  {
    var o := Supervised(c, s);
    if s.init == ErrNone && s.captureStart == ErrNone {
      var loop := RecoverLoop(s);
      LoopStopsNothing(s);
      assert Close !in Startup(c) && CaptureStop !in Startup(c);
      if loop.succeeded {
        assert o.calls == (Startup(c) + loop.calls) + [CaptureStop, Close];
      } else {
        assert o.calls == Startup(c) + loop.calls;
      }
    }
  }

  /** A failed parse exits with 1 before any pipeline is created. */
  lemma ParseFailureExitsOne(pf: Platform, argv: seq<string>, s: Script)
    requires Parsed(pf, argv, NarrowedCount(|argv|), ZeroParams()).None?
    ensures MainOutcome(pf, argv, s) == Outcome(1, None, [])
  {
  }

  /** The loop ends: at most three calls for each scripted Run status, plus the last Run. */
  lemma {:induction false} RecoverLoopBounded(s: Script)
    ensures |RecoverLoop(s).calls| <= 3 * |s.runs| + 1
    decreases |s.runs|
  {
    var sts := Head(s.runs);
    if Recoverable(sts) && Head(s.deviceResets) == ErrNone && Head(s.componentResets) == ErrNone {
      RecoverLoopBounded(AfterRound(s));
    }
  }

  /**
   * One lost device that is recovered: main runs, resets the device and the
   * components once each, runs again and shuts down with exit code 0.
   */
  lemma LostDeviceRecovered(c: InputParams)
    requires !c.mvcEnabled
    ensures Supervised(c, Script(ErrNone, ErrNone, [ErrDeviceLost, ErrNone], [], [])) ==
              Outcome(0, Some(CreatePipeline(c)),
                      [Init(ErrNone), PrintInfo, CaptureStart(ErrNone),
                       Run(ErrDeviceLost), ResetDevice(ErrNone), ResetComponents(ErrNone), Run(ErrNone),
                       CaptureStop, Close])
  {
    var s := Script(ErrNone, ErrNone, [ErrDeviceLost, ErrNone], [], []);
    var t := Script(ErrNone, ErrNone, [ErrNone], [], []);
    assert Tail(s.runs) == [ErrNone];
    assert RecoverLoop(t).succeeded && RecoverLoop(t).calls == [Run(ErrNone)];
  }
}
