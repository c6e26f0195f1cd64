# ElgatoFrameProvider, modelled in Dafny

This project models the Elgato capture provider of the SpectatorView compositor
(`ElgatoFrameProvider.cpp`). The provider builds a DirectShow filter graph:
Elgato capture filter → sample grabber → null renderer. It runs the graph so that the
grabber's callback receives camera frames. It answers the compositor's per-frame queries, and
it tears the graph down again.

The model covers:

- **The lifecycle** (`provider.dfy`, class `Provider.ElgatoFrameProvider`):
  - `Initialize` latches the first failure for good.
  - `Initialize` answers S_OK once the callback is enabled, and E_PENDING while frames have
    not arrived.
  - `Update`, `GetTimestamp` and `IsEnabled` are guarded by null checks.
  - `Dispose` and `DestroyGraph` stop, remove and release whatever is held.

  Each COM interface pointer of the provider is a *slot* (`Build.Handle`). The set `held`
  holds the non-null slots. The record `calls` lists, in order, each step of the build, each
  Stop and RemoveFilter of the teardown, each SafeRelease of a non-null slot or of the callback,
  and each UpdateSRV, so contracts can state which of these calls were made and in which order.
  The pin-level calls inside a ConnectFilters are not recorded; each connection is one step.
- **The build** (`build.dfy`), InitGraph. Its 19 calls form a fixed plan (`PlanStep`).
  What each call answers is fixed in advance by an oracle, `Env`.
  - `FailsAt` marks a *checked* step that fails. `Checked` leaves out the results the
    source only asserts or drops: CoCreateInstance of the graph, QueryInterface of the
    control, GetSettingsEx, SetSettingsEx, SafeRelease and SetSampleGrabberParameters.
  - The build performs the plan up to and including the first checked step that fails
    (`BuildSteps`). It returns that step's answer (`BuildCode`).
  - `Provider.Resume` runs the same plan one step at a time. InitGraph's six phases are
    each proved to perform their part of it.
- **The capture → grabber loop.** Each pin of the capture filter is offered to the grabber
  with `ConnectFilters` until one connects (`LinkFrom`, `ConnectCapturePins`).
- **The pin logic** (`pins.dfy`):
  - `IsPinConnected`, `IsPinDirection` and `MatchPin` on the answers of
    IPin::ConnectedTo and IPin::QueryDirection;
  - `FindUnconnectedPin`, a first-fit search over the enumerator's pins;
  - the three `ConnectFilters` overloads.
- **The formats** (`formats.dfy`): the encoding-profile ladder chosen from FRAME_HEIGHT,
  and the integer fields of the media type `SetSampleGrabberParameters` builds.
- **Whole lifecycles** (`scenarios.dfy`): a build that fails at the capture filter, a
  first frame before or after Initialize looks, and Dispose of a provider never initialized.

HRESULTs are 32-bit signed integers (`Com.HResult`), with the Windows values of S_OK,
S_FALSE, E_PENDING, VFW_E_NOT_FOUND and VFW_E_NOT_CONNECTED.

Three behaviours of the source are kept as written:

- A capture filter that enumerates no pins leaves the loop's hr at EnumPins' success code,
  so the build goes on without a capture → grabber connection (`Build.LinkAllFail`).
- The QueryInterface of ISampleGrabber is both asserted and checked; the model treats it as
  checked.
- DestroyGraph returns the answer of the last Stop or RemoveFilter it made. Earlier
  failures are overwritten.

## Model

| member | source | states |
|---|---|---|
| Formats.ProfileFor | sv/src/SpectatorView.Native/SpectatorView.Compositor/Compositor/ElgatoFrameProvider.cpp:136-160 | a height on the ladder (240, 360, 480, 720, 1080) gets the profile of that height; every other height gets the 1080 profile |
| Formats.ProfileForRoundTrip | sv/src/SpectatorView.Native/SpectatorView.Compositor/Compositor/ElgatoFrameProvider.cpp:136-160 | choosing a profile for the height a profile encodes gives that profile back |
| Formats.GrabberMediaType | sv/src/SpectatorView.Native/SpectatorView.Compositor/Compositor/ElgatoFrameProvider.cpp:263-286 | the media type describes whole frames: fixed-size, uncompressed, target and bitmap width/height equal FRAME_WIDTH/FRAME_HEIGHT, sample size = image size = width × height × bytes per pixel, within a LONG |
| Formats.FrameDescriptionUnique | sv/src/SpectatorView.Native/SpectatorView.Compositor/Compositor/ElgatoFrameProvider.cpp:263-286 | any media type that describes whole frames of the format is the one SetSampleGrabberParameters builds |
| Pins.IsPinConnected | sv/src/SpectatorView.Native/SpectatorView.Compositor/Compositor/ElgatoFrameProvider.cpp:457-478 | answers "connected" exactly when ConnectedTo succeeds, "not connected" with S_OK exactly on VFW_E_NOT_CONNECTED, and passes every other failure on |
| Pins.IsPinDirection | sv/src/SpectatorView.Native/SpectatorView.Compositor/Compositor/ElgatoFrameProvider.cpp:480-489 | answers exactly when QueryDirection succeeds, with "match" exactly when the reported direction is the one asked for; the code is QueryDirection's |
| Pins.MatchPin | sv/src/SpectatorView.Native/SpectatorView.Compositor/Compositor/ElgatoFrameProvider.cpp:382-403 | for either value of bShouldBeConnected: a failing IsPinConnected is returned as is; a connection state other than the wanted one answers "no match" with IsPinConnected's code; the wanted state answers with QueryDirection's code, succeeding exactly when it does, and "match" exactly when the direction is right |
| Pins.MatchPinClassifies | sv/src/SpectatorView.Native/SpectatorView.Compositor/Compositor/ElgatoFrameProvider.cpp:382-403 | with bShouldBeConnected FALSE, MatchPin says "match" exactly on free pins of the right direction, "no match" exactly on connected pins or free pins of the other direction, and fails with the failing query's code on every other pin |
| Pins.FindFromSound | sv/src/SpectatorView.Native/SpectatorView.Compositor/Compositor/ElgatoFrameProvider.cpp:405-455 | the search hands back, with a success code, a free pin of the right direction all of whose predecessors were stepped over; a search that hands back nothing fails |
| Pins.FindPinSound | sv/src/SpectatorView.Native/SpectatorView.Compositor/Compositor/ElgatoFrameProvider.cpp:405-455 | an EnumPins failure is returned as is; otherwise the search's guarantees hold for the filter's pins |
| Pins.FindFromDecidedBy | sv/src/SpectatorView.Native/SpectatorView.Compositor/Compositor/ElgatoFrameProvider.cpp:405-455 | the first pin that is not stepped over decides the search: it is handed back if free and of the right direction, its fault code is returned otherwise, and VFW_E_NOT_FOUND is returned when every pin is stepped over |
| Pins.FindUnconnectedPin | sv/src/SpectatorView.Native/SpectatorView.Compositor/Compositor/ElgatoFrameProvider.cpp:405-455 | the enumeration loop returns what the first-fit search specifies, with its soundness guarantees |
| Pins.AttachMarks | sv/src/SpectatorView.Native/SpectatorView.Compositor/Compositor/ElgatoFrameProvider.cpp:352-365 | a successful Connect marks exactly the chosen pin connected and leaves every other pin as it was |
| Pins.ConnectPinToFilter | sv/src/SpectatorView.Native/SpectatorView.Compositor/Compositor/ElgatoFrameProvider.cpp:352-365 | fails with the search's code when no free input pin exists downstream, otherwise answers what Connect answers, and marks the chosen pin |
| Pins.ConnectFilterToFilter | sv/src/SpectatorView.Native/SpectatorView.Compositor/Compositor/ElgatoFrameProvider.cpp:338-350 | succeeds only when both searches find a pin and Connect succeeds; a failed output search is returned as is |
| Pins.ConnectFilterToPin | sv/src/SpectatorView.Native/SpectatorView.Compositor/Compositor/ElgatoFrameProvider.cpp:367-380 | succeeds only when the output search finds a pin and Connect succeeds; a failed search is returned as is |
| Build.LinkFromShape | sv/src/SpectatorView.Native/SpectatorView.Compositor/Compositor/ElgatoFrameProvider.cpp:205-213 | the loop offers pins in order, every offer but the last fails, it stops early only on a success, ends with the last offer's code (or the incoming hr when no pin is left), and changes the grabber only by the successful offer |
| Build.LinkStopsAtFirstSuccess | sv/src/SpectatorView.Native/SpectatorView.Compositor/Compositor/ElgatoFrameProvider.cpp:205-213 | when the j-th offer is the first to succeed, the loop makes j + 1 offers and ends with that offer's code |
| Build.LinkAllFail | sv/src/SpectatorView.Native/SpectatorView.Compositor/Compositor/ElgatoFrameProvider.cpp:198-219 | when every offer fails, every pin is offered and the loop ends with the last code; with no pin at all, the loop leaves EnumPins' answer |
| Build.ConnectCapturePins | sv/src/SpectatorView.Native/SpectatorView.Compositor/Compositor/ElgatoFrameProvider.cpp:205-213 | the while loop computes the specified outcome; it stops early only on a success, and with no pin the hr is EnumPins' answer |
| Build.BuildEndsAt | sv/src/SpectatorView.Native/SpectatorView.Compositor/Compositor/ElgatoFrameProvider.cpp:105-261 | the build stops at step k exactly when no earlier checked step failed and step k fails or is Run; it then returns step k's answer |
| Build.BuildFailsAtFirstFailure | sv/src/SpectatorView.Native/SpectatorView.Compositor/Compositor/ElgatoFrameProvider.cpp:105-261 | when a checked step fails after none did, InitGraph fails with that step's code and performs nothing after it |
| Build.BuildRunsToCompletion | sv/src/SpectatorView.Native/SpectatorView.Compositor/Compositor/ElgatoFrameProvider.cpp:105-261 | when no checked step fails, every step is performed and InitGraph returns Run's answer, a success |
| Build.OutcomeIgnores | sv/src/SpectatorView.Native/SpectatorView.Compositor/Compositor/ElgatoFrameProvider.cpp:131-196 | the answer of a checked step does not depend on what GetSettingsEx (line 133), SetSettingsEx (line 161) and SetSampleGrabberParameters (line 196) answer |
| Build.IgnoredResultsDoNotMatter | sv/src/SpectatorView.Native/SpectatorView.Compositor/Compositor/ElgatoFrameProvider.cpp:131-196 | the results of GetSettingsEx (line 133, asserted only), SetSettingsEx (line 161) and SetSampleGrabberParameters (line 196), both dropped, change neither the steps performed nor InitGraph's result |
| Build.FirstFailureIgnores | sv/src/SpectatorView.Native/SpectatorView.Compositor/Compositor/ElgatoFrameProvider.cpp:131-196 | the first failing checked step does not depend on the results of lines 133, 161 and 196 |
| Build.StepAdvances | sv/src/SpectatorView.Native/SpectatorView.Compositor/Compositor/ElgatoFrameProvider.cpp:105-261 | after k steps without failure, one more step extends the performed steps by the plan's next step and the held slots by its effect, and ends the build when it fails or is the last |
| Provider.RecordedShape | sv/src/SpectatorView.Native/SpectatorView.Compositor/Compositor/ElgatoFrameProvider.cpp:105-261 | the record of the build keeps the earlier calls and adds one call per step, in plan order |
| Provider.ResumeIsBuild | sv/src/SpectatorView.Native/SpectatorView.Compositor/Compositor/ElgatoFrameProvider.cpp:105-261 | running the plan step by step from step k, with no failure before k, performs exactly the build's steps, leaves the slots they fill, and returns the build's code |
| Provider.TeardownStopsBeforeReleasing | sv/src/SpectatorView.Native/SpectatorView.Compositor/Compositor/ElgatoFrameProvider.cpp:288-335 | DestroyGraph's calls extend the record; every Stop and RemoveFilter comes before every release |
| Provider.TeardownReleasesEachOnce | sv/src/SpectatorView.Native/SpectatorView.Compositor/Compositor/ElgatoFrameProvider.cpp:288-335 | DestroyGraph releases each non-null slot exactly once, no null slot, and the callback exactly once when present |
| Provider.NothingHeldNothingCalled | sv/src/SpectatorView.Native/SpectatorView.Compositor/Compositor/ElgatoFrameProvider.cpp:288-335 | with every slot and the callback null, DestroyGraph makes no call |
| Provider.TeardownCodeIsLastAnswer | sv/src/SpectatorView.Native/SpectatorView.Compositor/Compositor/ElgatoFrameProvider.cpp:288-335 | DestroyGraph returns S_FALSE when it stops and removes nothing, and otherwise the answer of the last Stop or RemoveFilter it made |
| Provider.StopsAreNotReleases | sv/src/SpectatorView.Native/SpectatorView.Compositor/Compositor/ElgatoFrameProvider.cpp:290-320 | the first half of DestroyGraph only stops held stages and removes filters |
| Provider.ReleasesAreReleases | sv/src/SpectatorView.Native/SpectatorView.Compositor/Compositor/ElgatoFrameProvider.cpp:323-332 | the second half of DestroyGraph makes nothing but releases |
| Provider.StopsCount | sv/src/SpectatorView.Native/SpectatorView.Compositor/Compositor/ElgatoFrameProvider.cpp:290-320 | the first half of DestroyGraph releases nothing |
| Provider.ReleasesCount | sv/src/SpectatorView.Native/SpectatorView.Compositor/Compositor/ElgatoFrameProvider.cpp:323-331 | the SafeRelease calls release each held slot once and never the callback |
| Provider.ElgatoFrameProvider.constructor | sv/src/SpectatorView.Native/SpectatorView.Compositor/Compositor/ElgatoFrameProvider.cpp:7-10 | a new provider holds nothing, has no callback, no colour view and no device, has made no call and has not failed |
| Provider.ElgatoFrameProvider.IsEnabled | sv/src/SpectatorView.Native/SpectatorView.Compositor/Compositor/ElgatoFrameProvider.cpp:90-98 | false without a callback, otherwise the callback's own answer |
| Provider.ElgatoFrameProvider.GetTimestamp | sv/src/SpectatorView.Native/SpectatorView.Compositor/Compositor/ElgatoFrameProvider.cpp:75-83 | -1 without a callback, otherwise the callback's timestamp, whatever frame is asked for |
| Provider.ElgatoFrameProvider.Update | sv/src/SpectatorView.Native/SpectatorView.Compositor/Compositor/ElgatoFrameProvider.cpp:62-73 | exactly one UpdateSRV call with the colour view, the CPU flag and the frame index when enabled with a view and a device; no call otherwise |
| Provider.ElgatoFrameProvider.SafeRelease | sv/src/SpectatorView.Native/SpectatorView.Compositor/Compositor/ElgatoFrameProvider.cpp:323-332 | a non-null slot is released and nulled; a null slot is left alone without a call |
| Provider.ElgatoFrameProvider.ReleaseAll | sv/src/SpectatorView.Native/SpectatorView.Compositor/Compositor/ElgatoFrameProvider.cpp:323-331 | the nine SafeRelease calls release the held slots in the source's order and leave every slot null |
| Provider.ElgatoFrameProvider.StopAndRemove | sv/src/SpectatorView.Native/SpectatorView.Compositor/Compositor/ElgatoFrameProvider.cpp:290-320 | the non-null control, grabber and capture filter are stopped in that order, both filters are removed when the graph is non-null, and the result is the last answer or S_FALSE |
| Provider.ElgatoFrameProvider.DestroyGraph | sv/src/SpectatorView.Native/SpectatorView.Compositor/Compositor/ElgatoFrameProvider.cpp:288-335 | every slot and the callback end null, the calls made are the teardown, the result is the last Stop/RemoveFilter answer, and with nothing held it answers S_FALSE without a call; the latched error code is not touched |
| Provider.ElgatoFrameProvider.Dispose | sv/src/SpectatorView.Native/SpectatorView.Compositor/Compositor/ElgatoFrameProvider.cpp:100-103 | performs DestroyGraph and drops its result |
| Provider.ElgatoFrameProvider.Perform | sv/src/SpectatorView.Native/SpectatorView.Compositor/Compositor/ElgatoFrameProvider.cpp:105-261 | one call of the build: recorded, and its slot filled on success; the build resumed at this step is this step followed, unless the step ends the build, by the build resumed at the next |
| Provider.ElgatoFrameProvider.CreateCaptureFilter | sv/src/SpectatorView.Native/SpectatorView.Compositor/Compositor/ElgatoFrameProvider.cpp:109-129 | lines 109-129 perform the plan's steps 0-3, stopping when a checked one fails |
| Provider.ElgatoFrameProvider.ConfigureCapture | sv/src/SpectatorView.Native/SpectatorView.Compositor/Compositor/ElgatoFrameProvider.cpp:131-169 | lines 131-169 perform steps 4-7 (GetSettingsEx, SetSettingsEx with the laddered profile, SafeRelease(filter), AddFilter), stopping only when AddFilter fails |
| Provider.ElgatoFrameProvider.CreateSampleGrabber | sv/src/SpectatorView.Native/SpectatorView.Compositor/Compositor/ElgatoFrameProvider.cpp:171-193 | lines 171-193 perform steps 8-10, stopping at the first failure |
| Provider.ElgatoFrameProvider.ConnectCaptureToGrabber | sv/src/SpectatorView.Native/SpectatorView.Compositor/Compositor/ElgatoFrameProvider.cpp:195-219 | lines 195-219 perform steps 11-13, ignoring SetSampleGrabberParameters' result and stopping when EnumPins or the pin loop fails; on success the grabber is the one the loop connected |
| Provider.ElgatoFrameProvider.PrepareNullRenderer | sv/src/SpectatorView.Native/SpectatorView.Compositor/Compositor/ElgatoFrameProvider.cpp:221-243 | lines 221-243 perform steps 14-16, stopping at the first failure |
| Provider.ElgatoFrameProvider.ConnectAndRun | sv/src/SpectatorView.Native/SpectatorView.Compositor/Compositor/ElgatoFrameProvider.cpp:245-260 | lines 245-260 perform the last two steps and end the build |
| Provider.ElgatoFrameProvider.InitGraph | sv/src/SpectatorView.Native/SpectatorView.Compositor/Compositor/ElgatoFrameProvider.cpp:105-261 | InitGraph performs exactly the plan up to the first failing checked step, records their calls in order, fills the slots they yield, and returns that step's code or Run's |
| Provider.ElgatoFrameProvider.Initialize | sv/src/SpectatorView.Native/SpectatorView.Compositor/Compositor/ElgatoFrameProvider.cpp:19-60 | a latched failure is returned unchanged; an enabled provider answers S_OK and a pending one E_PENDING, neither doing anything; otherwise the build's code is latched, a failure is torn down and returned, and a success answers S_OK or E_PENDING according to whether a frame has arrived |
| Scenarios.EarlyFailure | sv/src/SpectatorView.Native/SpectatorView.Compositor/Compositor/ElgatoFrameProvider.cpp:109-122 | a build whose capture filter cannot be created performs three steps, fails with that code, dereferences no null slot whatever the control query answered, and leaves the graph held, with the control when its query succeeded |
| Scenarios.CaptureFilterMissing | sv/src/SpectatorView.Native/SpectatorView.Compositor/Compositor/ElgatoFrameProvider.cpp:19-60 | that failure is returned and latched, the exact teardown is made (stop the control if it was obtained, remove both filters, release the control if obtained, the graph and the callback), and a second Initialize returns the same code without a call |
| Scenarios.FirstSampleBeforeCheck | sv/src/SpectatorView.Native/SpectatorView.Compositor/Compositor/ElgatoFrameProvider.cpp:19-60 | with every checked step succeeding and a frame before the check, Initialize answers S_OK and GetTimestamp reports the frame; after Dispose GetTimestamp is -1, and a second DestroyGraph makes no call and answers S_FALSE |
| Scenarios.PendingWithoutSample | sv/src/SpectatorView.Native/SpectatorView.Compositor/Compositor/ElgatoFrameProvider.cpp:19-60 | without a frame Initialize answers E_PENDING, a second Initialize answers E_PENDING without building, and Update makes no call |
| Scenarios.SampleAfterPending | sv/src/SpectatorView.Native/SpectatorView.Compositor/Compositor/ElgatoFrameProvider.cpp:62-73 | once a frame arrives after E_PENDING, Initialize answers S_OK, Update asks for the colour view to be filled, and GetTimestamp reports the frame |
| Scenarios.DisposeBeforeInitialize | sv/src/SpectatorView.Native/SpectatorView.Compositor/Compositor/ElgatoFrameProvider.cpp:288-335 | Dispose of a provider never initialized makes no call; DestroyGraph answers S_FALSE |

## Left out

- GetDurationHNS (lines 85-88) and AvgTimePerFrame (line 278): floating-point arithmetic with QPC_MULTIPLIER is not modelled.
- ElgatoSampleCallback is not part of this model. Its UpdateSRV, its timestamp and its enable flag are seen only through the provider: `SampleArrived` and `Env.sampleBeforeCheck` stand for the hardware thread delivering a frame.
- A new callback is taken to start disabled with timestamp -1, because its constructor is not part of this model.
- The destructor (lines 12-17) releases references the model does not count: COM reference counts (AddRef, Release) are reduced to null and non-null slots.
- errorCode is taken to start at S_OK, because the header that declares it is not part of this model.
- OutputDebugString and _ASSERT have no effect in the model.
- AM_MEDIA_TYPE and VIDEOINFOHEADER layout, the GUIDs and pbFormat are left out. Only the integer fields are modelled.
- The outputTexture parameter of Initialize is not used by the source and is not modelled.
- Provider.ElgatoFrameProvider.InitGraph: requires Build.NoNullDereference: CoCreateInstance of the graph succeeds, because line 113 calls through pGraph; and QueryInterface of IMediaControl succeeds whenever the build reaches Run, because line 253 calls through pControl. Both are only asserted at lines 111 and 114; what the source does after a null dereference is not modelled.
- Provider.ElgatoFrameProvider.Initialize: requires Build.NoNullDereference, for the same reason.
- All methods that use the frame format require FRAME_WIDTH × FRAME_HEIGHT × FRAME_BPP_YUV to fit a LONG; these are compile-time constants.
- The pin pPin the loop acquires and releases on each iteration is not traced: the loop is one step of the build, LinkCaptureToGrabber.
- The pin-level calls of ConnectFilters and FindUnconnectedPin (EnumPins, Next, ConnectedTo, QueryDirection, Connect and the Release of each pin and enumerator) are not recorded in `calls`; their answers are inputs, and each ConnectFilters is one recorded step.
- GetDevice (line 40) and the construction and AddRef of the callback (lines 43-44) are not recorded in `calls`; only their results, the device and a fresh callback, are modelled.
- Pins.Attach: assumes that a successful IGraphBuilder::Connect makes the chosen pin's ConnectedTo succeed afterwards; DirectShow is not part of this model, so this is an assumption about it.
- An enumerator Next that answers anything but S_OK ends the loop, as in the source; the model gives the enumerator a list of pins, so an error from Next is the end of that list.
- RemoveFilter is called on a null filter slot when the graph is non-null. The model records that call with its answer and does not model what DirectShow does with a null filter.
- Provider.ElgatoFrameProvider.DestroyGraph: the source writes it as one function; the model splits it into StopAndRemove and ReleaseAll.
- Provider.ElgatoFrameProvider.InitGraph: the source writes it as one function with early returns; the model splits it into six phase methods and one method for the pin loop (Build.ConnectCapturePins).
- _device, obtained by GetDevice, is never released by the source; the model keeps it as a plain value.
- IFrameProvider.h declares the interface only; nothing in it is modelled.
- Concurrency between the hardware thread and the compositor is reduced to one interleaving point, before Initialize's final IsEnabled check.
