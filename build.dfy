// The filter-graph build of the Elgato provider (InitGraph): the steps it performs in order,
// which of their results it checks, and the loop that offers each capture pin to the sample
// grabber.
//
// Every COM call is answered by an oracle, `Env`, that fixes in advance what each call returns.
// The build is specified independently of the straight-line code that performs it: the steps
// form a fixed plan, and the build performs the plan up to and including the first checked
// step that fails.

module Build {
  import opened Com
  import opened Pins
  import opened Formats

  /** The provider's COM interface slots, each either null or holding a reference. */
  datatype Handle =
    | Graph            // pGraph, IGraphBuilder
    | Control          // pControl, IMediaControl
    | CaptureFilter    // pElgatoFilter, the capture filter's IBaseFilter
    | CaptureSettings  // filter, the capture filter's settings interface
    | GrabberFilter    // pGrabberF, the sample grabber's IBaseFilter
    | Grabber          // pGrabber, ISampleGrabber
    | NullRenderer     // pNullF
    | PinEnum          // pEnum
    | CurrentPin       // pPin

  /** The steps of InitGraph, in the order the source performs them. */
  datatype Step =
    | CreateGraph                       // CoCreateInstance(CLSID_FilterGraph)
    | QueryControl                      // QueryInterface(IID_IMediaControl)
    | CreateCapture                     // CoCreateInstance(CLSID_ElgatoVideoCaptureFilter)
    | QueryCaptureSettings              // QueryInterface(IID_IElgatoVideoCaptureFilter6)
    | GetSettings                       // GetSettingsEx
    | SetSettings(profile: Profile)     // SetSettingsEx with the chosen profile
    | ReleaseCaptureSettings            // SafeRelease(filter)
    | AddCapture                        // AddFilter(capture filter)
    | CreateGrabber                     // CoCreateInstance(CLSID_SampleGrabber)
    | AddGrabber                        // AddFilter(sample grabber)
    | QueryGrabber                      // QueryInterface(ISampleGrabber)
    | SetMediaType(mediaType: MediaType) // SetSampleGrabberParameters
    | EnumCapturePins                   // EnumPins on the capture filter
    | LinkCaptureToGrabber              // the loop offering each capture pin to the grabber
    | CreateNullRenderer                // CoCreateInstance(CLSID_NullRenderer)
    | AddNullRenderer                   // AddFilter(null renderer)
    | SetCallback                       // ISampleGrabber::SetCallback(frameCallback, 1)
    | LinkGrabberToNull                 // ConnectFilters(grabber, null renderer)
    | Run                               // IMediaControl::Run

  const StepCount: nat := 19

  /** What every external call of the build answers. */
  datatype Env = Env(
    createGraph: HResult,
    queryControl: HResult,
    createCapture: HResult,
    queryCaptureSettings: HResult,
    getSettings: HResult,
    setSettings: HResult,
    addCapture: HResult,
    createGrabber: HResult,
    addGrabber: HResult,
    queryGrabber: HResult,
    setMediaType: HResult,
    captureEnumPins: HResult,
    capturePinConnects: seq<HResult>,  // one Connect answer per pin the capture enumerator yields
    grabber: Filter,                   // the sample grabber's pins
    createNull: HResult,
    addNull: HResult,
    setCallback: HResult,
    nullRenderer: Filter,              // the null renderer's pins
    connectGrabberToNull: HResult,     // Connect's answer for grabber output -> null input
    run: HResult,
    sampleBeforeCheck: Option<int>)    // a sample the hardware thread delivers before Initialize
                                       // asks IsEnabled after the build, with its timestamp

  /** The k-th step of the plan, for frame format `format`. */
  function PlanStep(format: FrameFormat, k: nat): (s: Step)
    requires format.Fits()
    requires k < StepCount
  {
    if k == 0 then CreateGraph
    else if k == 1 then QueryControl
    else if k == 2 then CreateCapture
    else if k == 3 then QueryCaptureSettings
    else if k == 4 then GetSettings
    else if k == 5 then SetSettings(ProfileFor(format.height))
    else if k == 6 then ReleaseCaptureSettings
    else if k == 7 then AddCapture
    else if k == 8 then CreateGrabber
    else if k == 9 then AddGrabber
    else if k == 10 then QueryGrabber
    else if k == 11 then SetMediaType(GrabberMediaType(format))
    else if k == 12 then EnumCapturePins
    else if k == 13 then LinkCaptureToGrabber
    else if k == 14 then CreateNullRenderer
    else if k == 15 then AddNullRenderer
    else if k == 16 then SetCallback
    else if k == 17 then LinkGrabberToNull
    else Run
  }

  /** Steps whose failure ends the build. The results of the first two calls and of
      GetSettingsEx are only asserted in debug builds; those of SetSettingsEx and
      SetSampleGrabberParameters are dropped. */
  predicate Checked(s: Step) {
    !(s.CreateGraph? || s.QueryControl? || s.GetSettings? || s.SetSettings? ||
      s.ReleaseCaptureSettings? || s.SetMediaType?)
  }

  /** The slot a step fills when its call succeeds. */
  function Acquires(s: Step): Option<Handle> {
    match s
    case CreateGraph => Some(Graph)
    case QueryControl => Some(Control)
    case CreateCapture => Some(CaptureFilter)
    case QueryCaptureSettings => Some(CaptureSettings)
    case CreateGrabber => Some(GrabberFilter)
    case QueryGrabber => Some(Grabber)
    case EnumCapturePins => Some(PinEnum)
    case CreateNullRenderer => Some(NullRenderer)
    case _ => None
  }

  // ---------------------------------------------------------------------------------------
  // The capture -> grabber loop.

  /** The outcome of offering capture pins to the grabber: the loop's final hr, the grabber
      afterwards, and how many pins were offered. */
  datatype Link = Link(code: HResult, grabber: Filter, attempts: nat)

  /** One offer: ConnectFilters(graph, capture pin, grabber) when Connect answers `connect`. */
  function Attempt(grabber: Filter, connect: HResult): HResult {
    IfFound(FindPin(grabber, Input), connect)
  }

  /** The loop from the i-th pin on, with `hr` the value it holds so far: it stops at the first
      offer that succeeds, and otherwise ends with the last offer's code. */
  function LinkFrom(hr: HResult, connects: seq<HResult>, grabber: Filter, i: nat): (r: Link)
    requires i <= |connects|
    decreases |connects| - i
    ensures i <= r.attempts <= |connects|
  {
    if i == |connects| then Link(hr, grabber, i)
    else
      var code := Attempt(grabber, connects[i]);
      if Succeeded(code) then Link(code, Attach(grabber, FindPin(grabber, Input), connects[i]), i + 1)
      else LinkFrom(code, connects, grabber, i + 1)
  }

  /** What the loop from the i-th pin on does: it offers pins i, i + 1, ... in turn, every offer
      but the last fails, it stops early only on a success, it ends with the last offer's code
      (or with `hr` when no pin is left), and the grabber changes only by a successful offer. */
  lemma {:induction false} LinkFromShape(hr: HResult, connects: seq<HResult>, grabber: Filter, i: nat)
    requires i <= |connects|
    decreases |connects| - i
    ensures var r := LinkFrom(hr, connects, grabber, i);
      && (r.attempts == i ==> i == |connects| && r.code == hr && r.grabber == grabber)
      && (r.attempts > i ==> r.code == Attempt(grabber, connects[r.attempts - 1]))
      && (forall j :: i <= j < r.attempts - 1 ==> Failed(Attempt(grabber, connects[j])))
      && (r.attempts < |connects| ==> Succeeded(r.code))
      && (r.attempts > i && Succeeded(r.code) ==>
            r.grabber == Attach(grabber, FindPin(grabber, Input), connects[r.attempts - 1]))
      && (Failed(r.code) ==> r.grabber == grabber)
  {
    if i < |connects| && Failed(Attempt(grabber, connects[i])) {
      LinkFromShape(Attempt(grabber, connects[i]), connects, grabber, i + 1);
    }
  }

  /** The loop over the capture filter's pins, starting from EnumPins' answer. */
  function CaptureLink(env: Env): Link {
    LinkFrom(env.captureEnumPins, env.capturePinConnects, env.grabber, 0)
  }

  /** Backtracking: when the j-th offer is the first that succeeds, the loop ends there with
      its code, having made j + 1 offers. */
  lemma {:induction false} LinkStopsAtFirstSuccess(hr: HResult, connects: seq<HResult>, grabber: Filter, j: nat)
    requires j < |connects|
    requires Succeeded(Attempt(grabber, connects[j]))
    requires forall k :: 0 <= k < j ==> Failed(Attempt(grabber, connects[k]))
    ensures LinkFrom(hr, connects, grabber, 0).attempts == j + 1
    ensures LinkFrom(hr, connects, grabber, 0).code == Attempt(grabber, connects[j])
  {
    LinkFromShape(hr, connects, grabber, 0);
  }

  /** When every offer fails, every pin is offered and the loop ends with the last code; when
      the enumerator yields no pin, the loop leaves EnumPins' answer in place. */
  lemma {:induction false} LinkAllFail(hr: HResult, connects: seq<HResult>, grabber: Filter)
    requires forall k :: 0 <= k < |connects| ==> Failed(Attempt(grabber, connects[k]))
    ensures LinkFrom(hr, connects, grabber, 0).attempts == |connects|
    ensures connects == [] ==> LinkFrom(hr, connects, grabber, 0).code == hr
    ensures connects != [] ==> LinkFrom(hr, connects, grabber, 0).code == Attempt(grabber, connects[|connects| - 1])
  {
    LinkFromShape(hr, connects, grabber, 0);
  }

  /** The source's `while (S_OK == pEnum->Next(1, &pPin, NULL))` loop: each pin the capture
      enumerator yields is offered to the grabber until one connects. */
  method ConnectCapturePins(enumHr: HResult, connects: seq<HResult>, grabber: Filter)
    returns (hr: HResult, grabber': Filter, attempts: nat)
    ensures Link(hr, grabber', attempts) == LinkFrom(enumHr, connects, grabber, 0)
    ensures attempts <= |connects|
    ensures attempts < |connects| ==> Succeeded(hr)
    ensures attempts == 0 ==> hr == enumHr
  {
    LinkFromShape(enumHr, connects, grabber, 0);
    hr := enumHr;
    grabber' := grabber;
    attempts := 0;
    while attempts < |connects|
      invariant attempts <= |connects|
      invariant grabber' == grabber
      invariant LinkFrom(enumHr, connects, grabber, 0) == LinkFrom(hr, connects, grabber, attempts)
    {
      var dest;
      hr, dest := ConnectPinToFilter(grabber', connects[attempts]);
      attempts := attempts + 1;
      if Succeeded(hr) {
        grabber' := dest;
        return;
      }
    }
  }

  // ---------------------------------------------------------------------------------------
  // Outcomes of the steps and the specification of the build.

  /** What the call made by step `s` answers. */
  function Outcome(env: Env, s: Step): HResult {
    match s
    case CreateGraph => env.createGraph
    case QueryControl => env.queryControl
    case CreateCapture => env.createCapture
    case QueryCaptureSettings => env.queryCaptureSettings
    case GetSettings => env.getSettings
    case SetSettings(_) => env.setSettings
    case ReleaseCaptureSettings => S_OK
    case AddCapture => env.addCapture
    case CreateGrabber => env.createGrabber
    case AddGrabber => env.addGrabber
    case QueryGrabber => env.queryGrabber
    case SetMediaType(_) => env.setMediaType
    case EnumCapturePins => env.captureEnumPins
    case LinkCaptureToGrabber => CaptureLink(env).code
    case CreateNullRenderer => env.createNull
    case AddNullRenderer => env.addNull
    case SetCallback => env.setCallback
    case LinkGrabberToNull =>
      IfFound(FindPin(CaptureLink(env).grabber, Output),
           IfFound(FindPin(env.nullRenderer, Input), env.connectGrabberToNull))
    case Run => env.run
  }

  /** The k-th step of the plan is checked and fails. */
  predicate FailsAt(env: Env, format: FrameFormat, k: nat)
    requires format.Fits()
    requires k < StepCount
  {
    Checked(PlanStep(format, k)) && Failed(Outcome(env, PlanStep(format, k)))
  }

  /** No step before the k-th ends the build. */
  predicate NoFailureBefore(env: Env, format: FrameFormat, k: nat)
    requires format.Fits()
    requires k <= StepCount
  {
    forall j :: 0 <= j < k ==> !FailsAt(env, format, j)
  }

  /** The first k steps of the plan. */
  function Prefix(format: FrameFormat, k: nat): (steps: seq<Step>)
    requires format.Fits()
    requires k <= StepCount
    ensures |steps| == k
  {
    if k == 0 then [] else Prefix(format, k - 1) + [PlanStep(format, k - 1)]
  }

  /** The j-th step of a prefix of the plan is the plan's j-th step. */
  lemma {:induction false} PrefixAt(format: FrameFormat, k: nat, j: nat)
    requires format.Fits()
    requires j < k <= StepCount
    decreases k
    ensures Prefix(format, k)[j] == PlanStep(format, j)
  {
    if j < k - 1 {
      PrefixAt(format, k - 1, j);
    }
  }

  /** The first step at or after k that ends the build, or StepCount when there is none. */
  function FirstFailure(env: Env, format: FrameFormat, k: nat): (n: nat)
    requires format.Fits()
    requires k <= StepCount
    decreases StepCount - k
    ensures k <= n <= StepCount
    ensures forall j :: k <= j < n ==> !FailsAt(env, format, j)
    ensures n < StepCount ==> FailsAt(env, format, n)
  {
    if k == StepCount then StepCount
    else if FailsAt(env, format, k) then k
    else FirstFailure(env, format, k + 1)
  }

  /** The steps the build performs: the plan up to and including the first failing checked
      step, or the whole plan. */
  function BuildSteps(env: Env, format: FrameFormat): (steps: seq<Step>)
    requires format.Fits()
    ensures 0 < |steps| <= StepCount
    ensures steps == Prefix(format, |steps|)
  {
    var n := FirstFailure(env, format, 0);
    Prefix(format, if n < StepCount then n + 1 else StepCount)
  }

  /** What the build returns: the answer of the last step it performs. */
  function BuildCode(env: Env, format: FrameFormat): HResult
    requires format.Fits()
  {
    var steps := BuildSteps(env, format);
    Outcome(env, steps[|steps| - 1])
  }

  /** A build stops at step k exactly when no earlier step failed and step k is the first
      failing checked step or the last step of the plan. */
  lemma BuildEndsAt(env: Env, format: FrameFormat, k: nat)
    requires format.Fits()
    requires k < StepCount
    requires NoFailureBefore(env, format, k)
    requires FailsAt(env, format, k) || k == StepCount - 1
    ensures BuildSteps(env, format) == Prefix(format, k + 1)
    ensures BuildCode(env, format) == Outcome(env, PlanStep(format, k))
  {
    var n := FirstFailure(env, format, 0);
    assert n >= k;
    assert FailsAt(env, format, k) ==> n == k;
  }

  /** The build fails exactly when some checked step fails; it then returns the code of the
      first one and performs no later step. */
  lemma {:induction false} BuildFailsAtFirstFailure(env: Env, format: FrameFormat, k: nat)
    requires format.Fits()
    requires k < StepCount
    requires FailsAt(env, format, k)
    requires NoFailureBefore(env, format, k)
    ensures Failed(BuildCode(env, format))
    ensures BuildCode(env, format) == Outcome(env, PlanStep(format, k))
    ensures |BuildSteps(env, format)| == k + 1
  {
    BuildEndsAt(env, format, k);
  }

  /** When no checked step fails, the build performs every step and returns Run's answer. */
  lemma {:induction false} BuildRunsToCompletion(env: Env, format: FrameFormat)
    requires format.Fits()
    requires NoFailureBefore(env, format, StepCount)
    ensures BuildSteps(env, format) == Prefix(format, StepCount)
    ensures BuildCode(env, format) == env.run
    ensures Succeeded(BuildCode(env, format))
  {
    var last := StepCount - 1;
    assert NoFailureBefore(env, format, last) && !FailsAt(env, format, last);
    BuildEndsAt(env, format, last);
    assert PlanStep(format, last) == Run;
  }

  /** The build dereferences no null slot: CoCreateInstance of the graph succeeds, since line
      113 calls through pGraph, and QueryInterface of IMediaControl succeeds whenever the build
      reaches Run, since line 253 calls through pControl. */
  predicate NoNullDereference(env: Env, format: FrameFormat)
    requires format.Fits()
  {
    && Succeeded(env.createGraph)
    && (Succeeded(env.queryControl) || !NoFailureBefore(env, format, StepCount - 1))
  }

  /** `env'` answers every call as `env` does, except possibly GetSettingsEx, SetSettingsEx and
      SetMediaType, whose results the build drops or only asserts. */
  predicate DiffersInIgnored(env: Env, env': Env) {
    env' == env.(getSettings := env'.getSettings, setSettings := env'.setSettings,
                 setMediaType := env'.setMediaType)
  }

  lemma OutcomeIgnores(env: Env, env': Env, s: Step)
    requires DiffersInIgnored(env, env')
    requires Checked(s)
    ensures Outcome(env', s) == Outcome(env, s)
  {
    assert CaptureLink(env') == CaptureLink(env);
  }

  /** The answers of the calls whose results the build ignores do not change what it does. */
  lemma {:induction false} IgnoredResultsDoNotMatter(env: Env, env': Env, format: FrameFormat)
    requires format.Fits()
    requires DiffersInIgnored(env, env')
    ensures BuildSteps(env', format) == BuildSteps(env, format)
    ensures BuildCode(env', format) == BuildCode(env, format)
  {
    FirstFailureIgnores(env, env', format, 0);
    var n := FirstFailure(env, format, 0);
    if n < StepCount {
      PrefixAt(format, n + 1, n);
      OutcomeIgnores(env, env', PlanStep(format, n));
    } else {
      PrefixAt(format, StepCount, StepCount - 1);
      OutcomeIgnores(env, env', Run);
    }
  }

  lemma {:induction false} FirstFailureIgnores(env: Env, env': Env, format: FrameFormat, k: nat)
    requires format.Fits()
    requires k <= StepCount
    requires DiffersInIgnored(env, env')
    ensures FirstFailure(env', format, k) == FirstFailure(env, format, k)
    decreases StepCount - k
  {
    if k < StepCount {
      if Checked(PlanStep(format, k)) {
        OutcomeIgnores(env, env', PlanStep(format, k));
      }
      assert FailsAt(env', format, k) == FailsAt(env, format, k);
      FirstFailureIgnores(env, env', format, k + 1);
    }
  }

  // ---------------------------------------------------------------------------------------
  // The slots the build fills.

  /** The slots held after step `s`, whose call answered `hr`: a successful creation or query
      fills its slot, and SafeRelease(filter) empties the settings slot. */
  function Effect(held: set<Handle>, s: Step, hr: HResult): set<Handle> {
    if s.ReleaseCaptureSettings? then held - {CaptureSettings}
    else if Acquires(s).Some? && Succeeded(hr) then held + {Acquires(s).value}
    else held
  }

  /** The slots held after performing `steps` from `held`. */
  function HeldAfter(env: Env, held: set<Handle>, steps: seq<Step>): set<Handle>
    decreases |steps|
  {
    if steps == [] then held
    else
      var s := steps[|steps| - 1];
      Effect(HeldAfter(env, held, steps[..|steps| - 1]), s, Outcome(env, s))
  }

  /** One more step of the plan: the prefix grows by the plan's next step, the slots by its
      effect, and the build ends there if that step fails or is the last. */
  lemma StepAdvances(env: Env, format: FrameFormat, held0: set<Handle>, k: nat, s: Step)
    requires format.Fits()
    requires k < StepCount
    requires NoFailureBefore(env, format, k)
    requires s == PlanStep(format, k)
    ensures Prefix(format, k + 1) == Prefix(format, k) + [s]
    ensures HeldAfter(env, held0, Prefix(format, k + 1)) ==
              Effect(HeldAfter(env, held0, Prefix(format, k)), s, Outcome(env, s))
    ensures !(Checked(s) && Failed(Outcome(env, s))) ==> NoFailureBefore(env, format, k + 1)
    ensures (Checked(s) && Failed(Outcome(env, s))) || k + 1 == StepCount ==>
              && Prefix(format, k + 1) == BuildSteps(env, format)
              && Outcome(env, s) == BuildCode(env, format)
  {
    HeldAfterAppend(env, held0, Prefix(format, k), s);
    if FailsAt(env, format, k) || k + 1 == StepCount {
      BuildEndsAt(env, format, k);
    }
  }

  /** Performing one more step adds its effect to the slots held. */
  lemma HeldAfterAppend(env: Env, held0: set<Handle>, steps: seq<Step>, s: Step)
    ensures HeldAfter(env, held0, steps + [s]) == Effect(HeldAfter(env, held0, steps), s, Outcome(env, s))
  {
    assert (steps + [s])[..|steps|] == steps;
  }
}
