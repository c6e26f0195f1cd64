// Whole lifecycles of one ElgatoFrameProvider, from construction to Dispose, as a compositor
// drives it: the first frames after start-up, a build that fails, and teardown of a provider
// that never started.

module Scenarios {
  import opened Com
  import opened Formats
  import opened Build
  import opened Provider

  /** The capture filter cannot be created: Initialize returns CoCreateInstance's code, tears
      down the graph and, when its query succeeded, the control, and every later Initialize
      returns the same code without making a call. GetTimestamp then reports no sample. The
      control's query is not checked, and the build stops before Run needs it. */
  method CaptureFilterMissing(format: FrameFormat, env: Env, srv: Srv, teardown: TeardownAnswers)
    returns (first: HResult, second: HResult, made: seq<Call>, timestamp: int)
    requires format.Fits()
    requires Succeeded(env.createGraph)
    requires Failed(env.createCapture)
    ensures first == env.createCapture && second == first
    ensures Succeeded(env.queryControl) ==>
              made == [Called(CreateGraph), Called(QueryControl), Called(CreateCapture),
                       Stop(Control), RemoveFilter(GrabberFilter), RemoveFilter(CaptureFilter),
                       Release(Control), Release(Graph), ReleaseCallback]
    ensures Failed(env.queryControl) ==>
              made == [Called(CreateGraph), Called(QueryControl), Called(CreateCapture),
                       RemoveFilter(GrabberFilter), RemoveFilter(CaptureFilter),
                       Release(Graph), ReleaseCallback]
    ensures timestamp == NoSample
  {
    var p := new ElgatoFrameProvider(false, format);
    EarlyFailure(env, format);
    first := p.Initialize(Some(srv), env, teardown);
    made := p.calls;
    second := p.Initialize(Some(srv), env, teardown);
    assert p.calls == made;
    timestamp := p.GetTimestamp(0);
  }

  /** A build that fails at CoCreateInstance of the capture filter performs the first three
      steps, dereferences no null slot, and leaves the graph held, with the control when its
      query succeeded. */
  lemma EarlyFailure(env: Env, format: FrameFormat)
    requires format.Fits()
    requires Succeeded(env.createGraph)
    requires Failed(env.createCapture)
    ensures NoNullDereference(env, format)
    ensures BuildCode(env, format) == env.createCapture
    ensures BuildSteps(env, format) == [CreateGraph, QueryControl, CreateCapture]
    ensures HeldAfter(env, {}, BuildSteps(env, format)) ==
              if Succeeded(env.queryControl) then {Graph, Control} else {Graph}
    ensures Recorded([], BuildSteps(env, format)) ==
              [Called(CreateGraph), Called(QueryControl), Called(CreateCapture)]
  {
    assert FailsAt(env, format, 2);
    BuildFailsAtFirstFailure(env, format, 2);
    assert Prefix(format, 1) == [CreateGraph];
    assert Prefix(format, 2) == [CreateGraph, QueryControl];
    assert Prefix(format, 3) == [CreateGraph, QueryControl, CreateCapture];
    HeldAfterAppend(env, {}, [], CreateGraph);
    HeldAfterAppend(env, {}, [CreateGraph], QueryControl);
    HeldAfterAppend(env, {}, [CreateGraph, QueryControl], CreateCapture);
    RecordedAppend([], [], CreateGraph);
    RecordedAppend([], [CreateGraph], QueryControl);
    RecordedAppend([], [CreateGraph, QueryControl], CreateCapture);
  }

  /** Every checked step succeeds and a sample arrives before Initialize looks: the provider is
      enabled at once, reports that sample's timestamp, and after Dispose reports no sample and
      holds nothing; a second Dispose makes no call and answers S_FALSE. */
  method FirstSampleBeforeCheck(format: FrameFormat, env: Env, srv: Srv, teardown: TeardownAnswers)
    returns (r: HResult, enabled: bool, before: int, after: int, again: HResult, quiet: bool)
    requires format.Fits()
    requires Succeeded(env.createGraph) && Succeeded(env.queryControl)
    requires NoFailureBefore(env, format, StepCount)
    requires env.sampleBeforeCheck.Some?
    ensures r == S_OK && enabled
    ensures before == env.sampleBeforeCheck.value
    ensures after == NoSample
    ensures again == S_FALSE && quiet
  {
    var p := new ElgatoFrameProvider(true, format);
    BuildRunsToCompletion(env, format);
    r := p.Initialize(Some(srv), env, teardown);
    enabled := p.IsEnabled();
    before := p.GetTimestamp(0);
    p.Dispose(teardown);
    after := p.GetTimestamp(0);
    var c := p.calls;
    again := p.DestroyGraph(teardown);
    quiet := p.calls == c;
  }

  /** Every checked step succeeds but no sample has arrived: Initialize answers E_PENDING and
      keeps answering it without building again, and Update makes no call. */
  method PendingWithoutSample(format: FrameFormat, env: Env, srv: Srv, teardown: TeardownAnswers)
    returns (first: HResult, second: HResult, idle: bool)
    requires format.Fits()
    requires Succeeded(env.createGraph) && Succeeded(env.queryControl)
    requires NoFailureBefore(env, format, StepCount)
    requires env.sampleBeforeCheck.None?
    ensures first == E_PENDING && second == E_PENDING
    ensures idle
  {
    var p := new ElgatoFrameProvider(false, format);
    BuildRunsToCompletion(env, format);
    first := p.Initialize(Some(srv), env, teardown);
    var c := p.calls;
    second := p.Initialize(Some(srv), env, teardown);
    p.Update(1);
    idle := p.calls == c;
  }

  /** A pending provider whose first sample then arrives: Initialize now answers S_OK, Update
      asks the callback to fill the colour view for the frame slot, and GetTimestamp reports
      the sample's timestamp. */
  method SampleAfterPending(format: FrameFormat, env: Env, srv: Srv, teardown: TeardownAnswers,
                            t: int)
    returns (first: HResult, second: HResult, update: Call, timestamp: int)
    requires format.Fits()
    requires Succeeded(env.createGraph) && Succeeded(env.queryControl)
    requires NoFailureBefore(env, format, StepCount)
    requires env.sampleBeforeCheck.None?
    ensures first == E_PENDING && second == S_OK
    ensures update == UpdateSrv(srv, false, 1)
    ensures timestamp == t
  {
    var p := new ElgatoFrameProvider(false, format);
    BuildRunsToCompletion(env, format);
    first := p.Initialize(Some(srv), env, teardown);
    p.SampleArrived(t);
    second := p.Initialize(Some(srv), env, teardown);
    p.Update(1);
    update := p.calls[|p.calls| - 1];
    timestamp := p.GetTimestamp(1);
  }

  /** A provider that was never initialized: Dispose makes no call, DestroyGraph answers
      S_FALSE, and IsEnabled and GetTimestamp report nothing. */
  method DisposeBeforeInitialize(format: FrameFormat, teardown: TeardownAnswers)
    returns (hr: HResult, made: seq<Call>, enabled: bool, timestamp: int)
    requires format.Fits()
    ensures hr == S_FALSE && made == []
    ensures !enabled && timestamp == NoSample
  {
    var p := new ElgatoFrameProvider(false, format);
    p.Dispose(teardown);
    hr := p.DestroyGraph(teardown);
    made := p.calls;
    enabled := p.IsEnabled();
    timestamp := p.GetTimestamp(0);
  }
}
