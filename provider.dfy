// ElgatoFrameProvider: the Elgato capture provider's lifecycle. Initialize builds the filter
// graph once and latches a failure for good; Update and GetTimestamp are snapshots guarded by
// null checks; Dispose (DestroyGraph) stops the graph and releases every slot.
//
// The provider's COM interface pointers are slots that are either null or hold a reference;
// `held` is the set of non-null slots. Everything the provider asks of COM, DirectShow and the
// sample callback is appended to `calls`, so that contracts can say which calls were made and
// in which order.

module Provider {
  import opened Com
  import opened Pins
  import opened Formats
  import opened Build

  /** The shader resource view given to Initialize, with the device GetDevice reports for it. */
  datatype Srv = Srv(id: nat, device: nat)

  /** ElgatoSampleCallback as the provider sees it: the device it was made with, whether the
      hardware has confirmed delivery, and the timestamp of the latest sample. */
  datatype SampleCallback = SampleCallback(device: Option<nat>, enabled: bool, timestamp: int)

  /** The timestamp reported when there is no callback, and held by a callback that has not
      received a sample yet. */
  const NoSample: int := -1

  /** A call the provider makes on something outside this file. */
  datatype Call =
    | Called(step: Step)                 // a step of InitGraph
    | Stop(stage: Handle)                // IMediaControl::Stop / IBaseFilter::Stop
    | RemoveFilter(stage: Handle)        // IGraphBuilder::RemoveFilter
    | Release(slot: Handle)              // SafeRelease of a non-null slot
    | ReleaseCallback                    // SafeRelease(frameCallback)
    | UpdateSrv(srv: Srv, useCpu: bool, frameIndex: int)

  /** What the Stop and RemoveFilter calls of DestroyGraph answer. */
  datatype TeardownAnswers = TeardownAnswers(
    stopControl: HResult, stopGrabber: HResult, stopCapture: HResult,
    removeGrabber: HResult, removeCapture: HResult)

  /** The call record `calls` followed by the calls of the build steps `steps`. */
  function Recorded(calls: seq<Call>, steps: seq<Step>): (r: seq<Call>)
    decreases |steps|
  {
    if steps == [] then calls else Recorded(calls, steps[..|steps| - 1]) + [Called(steps[|steps| - 1])]
  }

  /** Recording keeps the earlier calls and adds one call per step, in order. */
  lemma {:induction false} RecordedShape(calls: seq<Call>, steps: seq<Step>)
    decreases |steps|
    ensures |Recorded(calls, steps)| == |calls| + |steps|
    ensures Recorded(calls, steps)[..|calls|] == calls
    ensures forall i :: 0 <= i < |steps| ==> Recorded(calls, steps)[|calls| + i] == Called(steps[i])
  {
    if steps != [] {
      RecordedShape(calls, steps[..|steps| - 1]);
    }
  }

  lemma RecordedAppend(calls: seq<Call>, steps: seq<Step>, s: Step)
    ensures Recorded(calls, steps + [s]) == Recorded(calls, steps) + [Called(s)]
  {
    assert (steps + [s])[..|steps|] == steps;
  }

  // ---------------------------------------------------------------------------------------
  // The teardown schedule.

  /** Stop of a stage when it is non-null. */
  function StopIf(held: set<Handle>, h: Handle): seq<Call> {
    if h in held then [Stop(h)] else []
  }

  /** RemoveFilter of the grabber and of the capture filter, made whenever the graph is held
      (whether or not those slots are). */
  function Removals(held: set<Handle>): seq<Call> {
    if Graph in held then [RemoveFilter(GrabberFilter), RemoveFilter(CaptureFilter)] else []
  }

  /** SafeRelease of slot h: a call when it is non-null. */
  function ReleaseIf(held: set<Handle>, h: Handle): seq<Call> {
    if h in held then [Release(h)] else []
  }

  /** The record `calls` followed by DestroyGraph's first half: stop the control, the
      grabber and the capture filter, then take both filters out of the graph. */
  function AfterStops(calls: seq<Call>, held: set<Handle>): seq<Call> {
    calls + StopIf(held, Control) + StopIf(held, GrabberFilter) + StopIf(held, CaptureFilter) + Removals(held)
  }

  /** The record `calls` followed by DestroyGraph's SafeRelease calls, in the order it makes
      them. */
  function AfterReleases(calls: seq<Call>, held: set<Handle>): seq<Call> {
    calls +
    ReleaseIf(held, CurrentPin) + ReleaseIf(held, PinEnum) + ReleaseIf(held, NullRenderer) +
    ReleaseIf(held, Grabber) + ReleaseIf(held, GrabberFilter) + ReleaseIf(held, Control) +
    ReleaseIf(held, CaptureFilter) + ReleaseIf(held, CaptureSettings) + ReleaseIf(held, Graph)
  }

  /** The record `calls` followed by every call DestroyGraph makes from slots `held`, with or
      without a callback. */
  function TornDown(calls: seq<Call>, held: set<Handle>, callback: bool): seq<Call> {
    AfterReleases(AfterStops(calls, held), held) + (if callback then [ReleaseCallback] else [])
  }

  /** DestroyGraph's Stop and RemoveFilter calls alone. */
  function StopCalls(held: set<Handle>): seq<Call> {
    AfterStops([], held)
  }

  predicate IsRelease(c: Call) { c.Release? || c.ReleaseCallback? }

  /** The first half only adds Stops of held stages and RemoveFilters. */
  lemma StopsAreNotReleases(calls: seq<Call>, held: set<Handle>)
    ensures |calls| <= |AfterStops(calls, held)|
    ensures AfterStops(calls, held)[..|calls|] == calls
    ensures forall k :: |calls| <= k < |AfterStops(calls, held)| ==>
              var c := AfterStops(calls, held)[k]; (c.Stop? && c.stage in held) || c.RemoveFilter?
  {
  }

  /** Appending only releases keeps a stretch that ends in releases. */
  lemma AppendReleases(s: seq<Call>, x: seq<Call>, p: nat)
    requires p <= |s|
    requires forall k :: p <= k < |s| ==> IsRelease(s[k])
    requires forall k :: 0 <= k < |x| ==> IsRelease(x[k])
    ensures (s + x)[..|s|] == s
    ensures forall k :: p <= k < |s + x| ==> IsRelease((s + x)[k])
  {
  }

  /** The second half makes nothing but releases after `stopped`. */
  lemma ReleasesAreReleases(stopped: seq<Call>, held: set<Handle>, callback: bool)
    ensures var r := AfterReleases(stopped, held) + (if callback then [ReleaseCallback] else []);
      && |stopped| <= |r| && r[..|stopped|] == stopped
      && forall k :: |stopped| <= k < |r| ==> IsRelease(r[k])
  {
    var p := |stopped|;
    var s1 := stopped + ReleaseIf(held, CurrentPin);
    AppendReleases(stopped, ReleaseIf(held, CurrentPin), p);
    var s2 := s1 + ReleaseIf(held, PinEnum);
    AppendReleases(s1, ReleaseIf(held, PinEnum), p);
    var s3 := s2 + ReleaseIf(held, NullRenderer);
    AppendReleases(s2, ReleaseIf(held, NullRenderer), p);
    var s4 := s3 + ReleaseIf(held, Grabber);
    AppendReleases(s3, ReleaseIf(held, Grabber), p);
    var s5 := s4 + ReleaseIf(held, GrabberFilter);
    AppendReleases(s4, ReleaseIf(held, GrabberFilter), p);
    var s6 := s5 + ReleaseIf(held, Control);
    AppendReleases(s5, ReleaseIf(held, Control), p);
    var s7 := s6 + ReleaseIf(held, CaptureFilter);
    AppendReleases(s6, ReleaseIf(held, CaptureFilter), p);
    var s8 := s7 + ReleaseIf(held, CaptureSettings);
    AppendReleases(s7, ReleaseIf(held, CaptureSettings), p);
    var s9 := s8 + ReleaseIf(held, Graph);
    AppendReleases(s8, ReleaseIf(held, Graph), p);
    AppendReleases(s9, if callback then [ReleaseCallback] else [], p);
  }

  /** The Stops and RemoveFilters come first, then the releases: nothing is stopped or removed
      once releasing has begun. */
  lemma TeardownStopsBeforeReleasing(calls: seq<Call>, held: set<Handle>, callback: bool)
    ensures var t, p := TornDown(calls, held, callback), |AfterStops(calls, held)|;
      && |calls| <= p <= |t| && t[..|calls|] == calls
      && (forall k :: |calls| <= k < p ==> !IsRelease(t[k]))
      && (forall k :: p <= k < |t| ==> IsRelease(t[k]))
  {
    var stopped := AfterStops(calls, held);
    StopsAreNotReleases(calls, held);
    ReleasesAreReleases(stopped, held, callback);
    var t := TornDown(calls, held, callback);
    assert forall k :: 0 <= k < |stopped| ==> t[k] == stopped[k];
    assert t[..|calls|] == stopped[..|calls|];
  }

  /** Appending SafeRelease of slot g adds one Release(g) when g is held, and nothing else. */
  lemma CountAfterRelease(s: seq<Call>, held: set<Handle>, g: Handle, c: Call)
    ensures multiset(s + ReleaseIf(held, g))[c] == multiset(s)[c] + (if c == Release(g) && g in held then 1 else 0)
  {
    assert multiset(s + ReleaseIf(held, g)) == multiset(s) + multiset(ReleaseIf(held, g));
  }

  /** Appending calls that are not releases leaves the count of a release unchanged. */
  lemma CountAfterNonReleases(s: seq<Call>, x: seq<Call>, c: Call)
    requires IsRelease(c)
    requires forall k :: 0 <= k < |x| ==> !IsRelease(x[k])
    ensures multiset(s + x)[c] == multiset(s)[c]
  {
    assert multiset(s + x) == multiset(s) + multiset(x);
    assert c !in x;
  }

  /** The first half releases nothing. */
  lemma StopsCount(calls: seq<Call>, held: set<Handle>, c: Call)
    requires IsRelease(c)
    ensures multiset(AfterStops(calls, held))[c] == multiset(calls)[c]
  {
    var s1 := calls + StopIf(held, Control);
    var s2 := s1 + StopIf(held, GrabberFilter);
    var s3 := s2 + StopIf(held, CaptureFilter);
    CountAfterNonReleases(calls, StopIf(held, Control), c);
    CountAfterNonReleases(s1, StopIf(held, GrabberFilter), c);
    CountAfterNonReleases(s2, StopIf(held, CaptureFilter), c);
    CountAfterNonReleases(s3, Removals(held), c);
  }

  /** The SafeRelease calls release each held slot once, and not the callback. */
  lemma ReleasesCount(stopped: seq<Call>, held: set<Handle>, c: Call)
    requires IsRelease(c)
    ensures multiset(AfterReleases(stopped, held))[c] ==
              multiset(stopped)[c] + (if c.Release? && c.slot in held then 1 else 0)
  {
    var s1 := stopped + ReleaseIf(held, CurrentPin);
    var s2 := s1 + ReleaseIf(held, PinEnum);
    var s3 := s2 + ReleaseIf(held, NullRenderer);
    var s4 := s3 + ReleaseIf(held, Grabber);
    var s5 := s4 + ReleaseIf(held, GrabberFilter);
    var s6 := s5 + ReleaseIf(held, Control);
    var s7 := s6 + ReleaseIf(held, CaptureFilter);
    var s8 := s7 + ReleaseIf(held, CaptureSettings);
    CountAfterRelease(stopped, held, CurrentPin, c);
    CountAfterRelease(s1, held, PinEnum, c);
    CountAfterRelease(s2, held, NullRenderer, c);
    CountAfterRelease(s3, held, Grabber, c);
    CountAfterRelease(s4, held, GrabberFilter, c);
    CountAfterRelease(s5, held, Control, c);
    CountAfterRelease(s6, held, CaptureFilter, c);
    CountAfterRelease(s7, held, CaptureSettings, c);
    CountAfterRelease(s8, held, Graph, c);
    if c.Release? {
      match c.slot {
        case Graph =>
        case Control =>
        case CaptureFilter =>
        case CaptureSettings =>
        case GrabberFilter =>
        case Grabber =>
        case NullRenderer =>
        case PinEnum =>
        case CurrentPin =>
      }
    }
  }

  /** Each non-null slot is released exactly once, the callback once if present. */
  lemma TeardownReleasesEachOnce(calls: seq<Call>, held: set<Handle>, callback: bool)
    ensures forall h :: multiset(TornDown(calls, held, callback))[Release(h)] ==
                          multiset(calls)[Release(h)] + (if h in held then 1 else 0)
    ensures multiset(TornDown(calls, held, callback))[ReleaseCallback] ==
              multiset(calls)[ReleaseCallback] + (if callback then 1 else 0)
  {
    var stopped := AfterStops(calls, held);
    var cb := if callback then [ReleaseCallback] else [];
    assert multiset(TornDown(calls, held, callback)) == multiset(AfterReleases(stopped, held)) + multiset(cb);
    forall h
      ensures multiset(TornDown(calls, held, callback))[Release(h)] ==
                multiset(calls)[Release(h)] + (if h in held then 1 else 0)
    {
      StopsCount(calls, held, Release(h));
      ReleasesCount(stopped, held, Release(h));
    }
    StopsCount(calls, held, ReleaseCallback);
    ReleasesCount(stopped, held, ReleaseCallback);
  }

  /** With nothing held and no callback, DestroyGraph makes no call. */
  lemma NothingHeldNothingCalled(calls: seq<Call>)
    ensures TornDown(calls, {}, false) == calls
  {
  }

  /** What a Stop or RemoveFilter call answers. */
  function AnswerTo(c: Call, a: TeardownAnswers): HResult {
    match c
    case Stop(Control) => a.stopControl
    case Stop(GrabberFilter) => a.stopGrabber
    case Stop(CaptureFilter) => a.stopCapture
    case RemoveFilter(GrabberFilter) => a.removeGrabber
    case RemoveFilter(CaptureFilter) => a.removeCapture
    case _ => S_OK
  }

  /** What DestroyGraph returns: the answer of the last Stop or RemoveFilter it made, or
      S_FALSE when it made none. */
  function TeardownCode(held: set<Handle>, a: TeardownAnswers): HResult {
    if Graph in held then a.removeCapture
    else if CaptureFilter in held then a.stopCapture
    else if GrabberFilter in held then a.stopGrabber
    else if Control in held then a.stopControl
    else S_FALSE
  }

  /** DestroyGraph's result is S_FALSE when it stops and removes nothing, and otherwise the
      answer to the last Stop or RemoveFilter call it makes. */
  lemma TeardownCodeIsLastAnswer(held: set<Handle>, a: TeardownAnswers)
    ensures StopCalls(held) == [] ==> TeardownCode(held, a) == S_FALSE
    ensures StopCalls(held) != [] ==>
              TeardownCode(held, a) == AnswerTo(StopCalls(held)[|StopCalls(held)| - 1], a)
  {
  }

  // ---------------------------------------------------------------------------------------
  // The build, one step at a time.

  /** What the build has left so far: the calls made and the slots held. */
  datatype Trace = Trace(calls: seq<Call>, held: set<Handle>)

  /** The trace after making the call of step `s`, which answered `hr`. */
  function Take(t: Trace, s: Step, hr: HResult): Trace {
    Trace(t.calls + [Called(s)], Effect(t.held, s, hr))
  }

  /** The build ends with the k-th step of the plan: it is checked and fails, or it is the
      last. */
  predicate EndsAt(env: Env, format: FrameFormat, k: nat)
    requires format.Fits()
    requires k < StepCount
  {
    FailsAt(env, format, k) || k + 1 == StepCount
  }

  /** The build resumed at the k-th step of the plan from trace `t`: the trace it leaves and
      the result InitGraph returns. */
  function Resume(env: Env, format: FrameFormat, k: nat, t: Trace): (Trace, HResult)
    requires format.Fits()
    requires k < StepCount
    decreases StepCount - k
  {
    var s := PlanStep(format, k);
    var t' := Take(t, s, Outcome(env, s));
    if EndsAt(env, format, k) then (t', Outcome(env, s)) else Resume(env, format, k + 1, t')
  }

  /** Resuming after k steps none of which failed performs exactly the steps BuildSteps names
      and returns BuildCode. */
  lemma {:induction false} ResumeIsBuild(env: Env, format: FrameFormat, k: nat,
                                         calls0: seq<Call>, held0: set<Handle>)
    requires format.Fits()
    requires k < StepCount && NoFailureBefore(env, format, k)
    decreases StepCount - k
    ensures Resume(env, format, k, Trace(Recorded(calls0, Prefix(format, k)),
                                         HeldAfter(env, held0, Prefix(format, k))))
            == (Trace(Recorded(calls0, BuildSteps(env, format)),
                      HeldAfter(env, held0, BuildSteps(env, format))),
                BuildCode(env, format))
  {
    var s := PlanStep(format, k);
    var done, next := Prefix(format, k), Prefix(format, k + 1);
    var t := Trace(Recorded(calls0, done), HeldAfter(env, held0, done));
    var t' := Trace(Recorded(calls0, next), HeldAfter(env, held0, next));
    StepAdvances(env, format, held0, k, s);
    RecordedAppend(calls0, done, s);
    assert Take(t, s, Outcome(env, s)) == t';
    if EndsAt(env, format, k) {
      assert Resume(env, format, k, t) == (t', Outcome(env, s));
    } else {
      assert Resume(env, format, k, t) == Resume(env, format, k + 1, t');
      ResumeIsBuild(env, format, k + 1, calls0, held0);
    }
  }

  // ---------------------------------------------------------------------------------------

  class ElgatoFrameProvider {
    const useCpu: bool
    /** FRAME_WIDTH, FRAME_HEIGHT and FRAME_BPP_YUV. */
    const format: FrameFormat
    /** The latched result of the last build. */
    var errorCode: HResult
    /** The non-null COM interface slots. */
    var held: set<Handle>
    var frameCallback: Option<SampleCallback>
    var colorSrv: Option<Srv>
    var device: Option<nat>
    /** Every call made so far, oldest first. */
    var calls: seq<Call>

    /** No slot is held without a callback, and a latched failure leaves neither. */
    ghost predicate Valid()
      reads this
    {
      && format.Fits()
      && (frameCallback.None? ==> held == {})
      && (Failed(errorCode) ==> frameCallback.None?)
    }

    constructor (useCpu: bool, format: FrameFormat)
      requires format.Fits()
      ensures Valid()
      ensures this.useCpu == useCpu && this.format == format
      ensures errorCode == S_OK && held == {} && frameCallback == None
      ensures colorSrv == None && device == None && calls == []
    {
      this.useCpu := useCpu;
      this.format := format;
      errorCode := S_OK;
      held := {};
      frameCallback := None;
      colorSrv := None;
      device := None;
      calls := [];
    }

    /** IsEnabled: there is a callback and it has confirmed delivery. */
    function IsEnabled(): (r: bool)
      reads this
      ensures r ==> frameCallback.Some?
      ensures frameCallback.Some? ==> (r <==> frameCallback.value.enabled)
    {
      frameCallback.Some? && frameCallback.value.enabled
    }

    /** GetTimestamp: the callback's latest timestamp whatever the frame slot asked for, or
        NoSample without a callback. */
    function GetTimestamp(frame: int): (t: int)
      reads this
      ensures frameCallback.None? ==> t == NoSample
      ensures frameCallback.Some? ==> t == frameCallback.value.timestamp
    {
      if frameCallback.Some? then frameCallback.value.timestamp else NoSample
    }

    /** Update: asks the callback to copy its latest sample into the colour view for frame
        slot `compositeFrameIndex`, only when enabled and the view, the device and the
        callback are all present; otherwise nothing happens. */
    method Update(compositeFrameIndex: int)
      modifies this`calls
      ensures !IsEnabled() || colorSrv.None? || device.None? ==> calls == old(calls)
      ensures IsEnabled() && colorSrv.Some? && device.Some? ==>
                calls == old(calls) + [UpdateSrv(colorSrv.value, useCpu, compositeFrameIndex)]
    {
      if !IsEnabled() || colorSrv.None? || device.None? || frameCallback.None? {
        return;
      }
      calls := calls + [UpdateSrv(colorSrv.value, useCpu, compositeFrameIndex)];
    }

    /** The hardware thread delivering a sample to the callback, if there is one: the
        callback is then enabled and reports that sample's timestamp. */
    method SampleArrived(timestamp: int)
      requires Valid()
      modifies this`frameCallback
      ensures Valid()
      ensures old(frameCallback).None? ==> frameCallback == None
      ensures old(frameCallback).Some? ==>
                frameCallback == Some(old(frameCallback).value.(enabled := true, timestamp := timestamp))
    {
      if frameCallback.Some? {
        frameCallback := Some(frameCallback.value.(enabled := true, timestamp := timestamp));
      }
    }

    /** SafeRelease: releases a non-null slot and sets it to null. `held0` are the slots
        DestroyGraph started from, among which h is still as it was. */
    method SafeRelease(h: Handle, ghost held0: set<Handle>)
      requires h in held <==> h in held0
      modifies this`held, this`calls
      ensures held == old(held) - {h}
      ensures calls == old(calls) + ReleaseIf(held0, h)
    {
      if h in held {
        calls := calls + [Release(h)];
        held := held - {h};
      }
    }

    /** DestroyGraph's SafeRelease calls, in order: every slot ends up null. */
    method ReleaseAll()
      modifies this`held, this`calls
      ensures held == {}
      ensures calls == AfterReleases(old(calls), old(held))
    {
      ghost var h0 := held;
      SafeRelease(CurrentPin, h0);
      SafeRelease(PinEnum, h0);
      SafeRelease(NullRenderer, h0);
      SafeRelease(Grabber, h0);
      SafeRelease(GrabberFilter, h0);
      SafeRelease(Control, h0);
      SafeRelease(CaptureFilter, h0);
      SafeRelease(CaptureSettings, h0);
      SafeRelease(Graph, h0);
      assert held == {} by {
        forall h ensures h !in held {
          match h
          case Graph =>
          case Control =>
          case CaptureFilter =>
          case CaptureSettings =>
          case GrabberFilter =>
          case Grabber =>
          case NullRenderer =>
          case PinEnum =>
          case CurrentPin =>
        }
      }
    }

    /** DestroyGraph: stops the running stages, removes the filters from the graph, then
        releases every slot and the callback. The latched error code is left alone. */
    method DestroyGraph(answers: TeardownAnswers) returns (hr: HResult)
      requires format.Fits()
      modifies this`held, this`frameCallback, this`calls
      ensures Valid()
      ensures held == {} && frameCallback == None
      ensures calls == TornDown(old(calls), old(held), old(frameCallback).Some?)
      ensures hr == TeardownCode(old(held), answers)
      ensures old(held) == {} && old(frameCallback).None? ==> hr == S_FALSE && calls == old(calls)
    {
      ghost var h0, c0 := held, calls;
      hr := StopAndRemove(answers);
      ReleaseAll();
      if frameCallback.Some? {
        calls := calls + [ReleaseCallback];
        frameCallback := None;
      }
      if h0 == {} {
        NothingHeldNothingCalled(c0);
      }
    }

    /** DestroyGraph's first half: Stop on the control, the grabber and the capture filter
        when non-null, then RemoveFilter of both filters when the graph is non-null. */
    method StopAndRemove(answers: TeardownAnswers) returns (hr: HResult)
      modifies this`calls
      ensures hr == TeardownCode(held, answers)
      ensures calls == AfterStops(old(calls), held)
    {
      ghost var c0 := calls;
      hr := S_FALSE;
      if Control in held {
        hr := answers.stopControl;
        calls := calls + [Stop(Control)];
      }
      assert calls == c0 + StopIf(held, Control);
      if GrabberFilter in held {
        hr := answers.stopGrabber;
        calls := calls + [Stop(GrabberFilter)];
      }
      assert calls == c0 + StopIf(held, Control) + StopIf(held, GrabberFilter);
      if CaptureFilter in held {
        hr := answers.stopCapture;
        calls := calls + [Stop(CaptureFilter)];
      }
      ghost var stopped := c0 + StopIf(held, Control) + StopIf(held, GrabberFilter) + StopIf(held, CaptureFilter);
      assert calls == stopped;
      if Graph in held {
        hr := answers.removeGrabber;
        calls := calls + [RemoveFilter(GrabberFilter)];
      }
      if Graph in held {
        hr := answers.removeCapture;
        calls := calls + [RemoveFilter(CaptureFilter)];
      }
      assert calls == AfterStops(c0, held);
    }

    /** Dispose is DestroyGraph with its result dropped. */
    method Dispose(answers: TeardownAnswers)
      requires Valid()
      modifies this`held, this`frameCallback, this`calls
      ensures Valid()
      ensures held == {} && frameCallback == None
      ensures calls == TornDown(old(calls), old(held), old(frameCallback).Some?)
    {
      var hr := DestroyGraph(answers);
    }

    // -------------------------------------------------------------------------------------
    // InitGraph.

    /** The provider's calls and slots as a trace. */
    ghost function Now(): Trace
      reads this
    {
      Trace(calls, held)
    }

    /** Makes the call of build step `s`, the k-th of the plan, which answers `hr`: records
        it and fills the slot it yields when it succeeds (SafeRelease(filter) empties the
        settings slot). The build resumed at step k is then this step followed, unless it
        ends the build, by the build resumed at step k + 1. */
    method Perform(env: Env, s: Step, hr: HResult, ghost k: nat)
      requires format.Fits()
      requires k < StepCount && s == PlanStep(format, k) && hr == Outcome(env, s)
      modifies this`calls, this`held
      ensures Now() == Take(old(Now()), s, hr)
      ensures Resume(env, format, k, old(Now())) ==
                if EndsAt(env, format, k) then (Now(), hr) else Resume(env, format, k + 1, Now())
    {
      calls := calls + [Called(s)];
      if s.ReleaseCaptureSettings? {
        held := held - {CaptureSettings};
      } else if Acquires(s).Some? && Succeeded(hr) {
        held := held + {Acquires(s).value};
      }
    }

    /** InitGraph, lines 109-129: creates the graph and its control, then the capture filter
        and its settings interface. */
    method CreateCaptureFilter(env: Env) returns (hr: HResult)
      requires format.Fits()
      modifies this`calls, this`held
      ensures Resume(env, format, 0, old(Now())) ==
                if Failed(hr) then (Now(), hr) else Resume(env, format, 4, Now())
    {
      hr := env.createGraph;
      Perform(env, CreateGraph, hr, 0);
      hr := env.queryControl;
      Perform(env, QueryControl, hr, 1);

      hr := env.createCapture;
      Perform(env, CreateCapture, hr, 2);
      if Failed(hr) { return; }
      hr := env.queryCaptureSettings;
      Perform(env, QueryCaptureSettings, hr, 3);
    }

    /** InitGraph, lines 131-169: sets the encoding profile for FRAME_HEIGHT (ignoring both
        settings results), drops the settings interface and adds the capture filter. */
    method ConfigureCapture(env: Env) returns (hr: HResult)
      requires format.Fits()
      modifies this`calls, this`held
      ensures Resume(env, format, 4, old(Now())) ==
                if Failed(hr) then (Now(), hr) else Resume(env, format, 8, Now())
    {
      hr := env.getSettings;
      Perform(env, GetSettings, hr, 4);
      var profile := ProfileFor(format.height);
      Perform(env, SetSettings(profile), env.setSettings, 5);
      Perform(env, ReleaseCaptureSettings, S_OK, 6);

      hr := env.addCapture;
      Perform(env, AddCapture, hr, 7);
    }

    /** InitGraph, lines 171-193: creates the sample grabber, adds it and queries its
        ISampleGrabber interface. */
    method CreateSampleGrabber(env: Env) returns (hr: HResult)
      requires format.Fits()
      modifies this`calls, this`held
      ensures Resume(env, format, 8, old(Now())) ==
                if Failed(hr) then (Now(), hr) else Resume(env, format, 11, Now())
    {
      hr := env.createGrabber;
      Perform(env, CreateGrabber, hr, 8);
      if Failed(hr) { return; }
      hr := env.addGrabber;
      Perform(env, AddGrabber, hr, 9);
      if Failed(hr) { return; }
      hr := env.queryGrabber;
      Perform(env, QueryGrabber, hr, 10);
    }

    /** InitGraph, lines 195-219: sets the grabber's media type (ignoring the result), then
        offers the capture filter's pins to the grabber until one connects. */
    method ConnectCaptureToGrabber(env: Env) returns (hr: HResult, grabber: Filter)
      requires format.Fits()
      modifies this`calls, this`held
      ensures Resume(env, format, 11, old(Now())) ==
                if Failed(hr) then (Now(), hr) else Resume(env, format, 14, Now())
      ensures Succeeded(hr) ==> grabber == CaptureLink(env).grabber
    {
      var mediaType := GrabberMediaType(format);
      Perform(env, SetMediaType(mediaType), env.setMediaType, 11);

      hr := env.captureEnumPins;
      grabber := env.grabber;
      Perform(env, EnumCapturePins, hr, 12);
      if Failed(hr) { return; }

      var attempts;
      hr, grabber, attempts := ConnectCapturePins(hr, env.capturePinConnects, env.grabber);
      Perform(env, LinkCaptureToGrabber, hr, 13);
    }

    /** InitGraph, lines 221-243: creates and adds the null renderer and installs the frame
        callback on the grabber. */
    method PrepareNullRenderer(env: Env) returns (hr: HResult)
      requires format.Fits()
      modifies this`calls, this`held
      ensures Resume(env, format, 14, old(Now())) ==
                if Failed(hr) then (Now(), hr) else Resume(env, format, 17, Now())
    {
      hr := env.createNull;
      Perform(env, CreateNullRenderer, hr, 14);
      if Failed(hr) { return; }
      hr := env.addNull;
      Perform(env, AddNullRenderer, hr, 15);
      if Failed(hr) { return; }
      hr := env.setCallback;
      Perform(env, SetCallback, hr, 16);
    }

    /** InitGraph, lines 245-260: connects the grabber to the null renderer and runs the
        graph. */
    method ConnectAndRun(env: Env, grabber: Filter) returns (hr: HResult)
      requires format.Fits()
      requires grabber == CaptureLink(env).grabber
      modifies this`calls, this`held
      ensures Resume(env, format, 17, old(Now())) == (Now(), hr)
    {
      hr := ConnectFilterToFilter(grabber, env.nullRenderer, env.connectGrabberToNull);
      Perform(env, LinkGrabberToNull, hr, 17);
      if Failed(hr) { return; }

      hr := env.run;
      Perform(env, Run, hr, 18);
    }

    /** InitGraph: builds capture filter -> sample grabber -> null renderer and runs it,
        returning at the first checked step that fails. */
    method InitGraph(env: Env) returns (hr: HResult)
      requires Valid()
      requires NoNullDereference(env, format)
      modifies this`calls, this`held
      ensures hr == BuildCode(env, format)
      ensures calls == Recorded(old(calls), BuildSteps(env, format))
      ensures held == HeldAfter(env, old(held), BuildSteps(env, format))
    {
      ghost var t0 := Now();
      hr := CreateCaptureFilter(env);
      if Succeeded(hr) {
        hr := ConfigureCapture(env);
        if Succeeded(hr) {
          hr := CreateSampleGrabber(env);
          if Succeeded(hr) {
            var grabber;
            hr, grabber := ConnectCaptureToGrabber(env);
            if Succeeded(hr) {
              hr := PrepareNullRenderer(env);
              if Succeeded(hr) {
                hr := ConnectAndRun(env, grabber);
              }
            }
          }
        }
      }
      assert Resume(env, format, 0, t0) == (Now(), hr);
      assert Prefix(format, 0) == [];
      ResumeIsBuild(env, format, 0, t0.calls, t0.held);
    }

    // -------------------------------------------------------------------------------------
    // Initialize.

    /** The callback once the build has succeeded: made with `device`, and enabled with a
        timestamp if the hardware delivered a sample before the check. */
    static function CallbackAfterBuild(device: Option<nat>, sample: Option<int>): SampleCallback {
      if sample.Some? then SampleCallback(device, true, sample.value)
      else SampleCallback(device, false, NoSample)
    }

    /** Initialize: a latched failure is returned at once; an enabled provider answers S_OK
        and one whose callback exists but is not enabled answers E_PENDING, neither building
        again. Otherwise it records the colour view and its device, makes the callback and
        builds the graph; a failed build is latched and torn down, a successful one answers
        S_OK or E_PENDING according to whether the callback has confirmed delivery. */
    method Initialize(srv: Option<Srv>, env: Env, teardown: TeardownAnswers) returns (r: HResult)
      requires Valid()
      requires NoNullDereference(env, format)
      modifies this
      ensures Valid()
      ensures Failed(old(errorCode)) ==> r == old(errorCode) && unchanged(this)
      ensures Succeeded(old(errorCode)) && old(IsEnabled()) ==> r == S_OK && unchanged(this)
      ensures Succeeded(old(errorCode)) && !old(IsEnabled()) && old(frameCallback).Some? ==>
                r == E_PENDING && unchanged(this)
      ensures Succeeded(old(errorCode)) && old(frameCallback).None? ==>
                && colorSrv == srv
                && device == (if srv.Some? then Some(srv.value.device) else old(device))
                && errorCode == BuildCode(env, format)
                && (Failed(errorCode) ==>
                      && r == errorCode && held == {} && frameCallback == None
                      && calls == TornDown(Recorded(old(calls), BuildSteps(env, format)),
                                           HeldAfter(env, {}, BuildSteps(env, format)), true))
                && (Succeeded(errorCode) ==>
                      && held == HeldAfter(env, {}, BuildSteps(env, format))
                      && calls == Recorded(old(calls), BuildSteps(env, format))
                      && frameCallback == Some(CallbackAfterBuild(device, env.sampleBeforeCheck))
                      && r == (if env.sampleBeforeCheck.Some? then S_OK else E_PENDING))
    {
      if Failed(errorCode) {
        return errorCode;
      }
      if IsEnabled() {
        return S_OK;
      }
      if frameCallback.Some? {
        return E_PENDING;
      }

      colorSrv := srv;
      if srv.Some? {
        device := Some(srv.value.device);
      }
      frameCallback := Some(SampleCallback(device, false, NoSample));

      errorCode := InitGraph(env);
      if Failed(errorCode) {
        var _ := DestroyGraph(teardown);
        return errorCode;
      }

      // The hardware thread may deliver a sample between Run and the check below.
      if env.sampleBeforeCheck.Some? {
        SampleArrived(env.sampleBeforeCheck.value);
      }

      if !IsEnabled() {
        return E_PENDING;
      }
      return S_OK;
    }
  }
}
