/**
 * The record screen (frontend/src/screens/RecordScreen.tsx): a state machine
 * over the capture mode, the camera's readiness and key, recording, the
 * facing, and the `busy` flag with the analysis pipelines it guards. Here a
 * failed upload does not abort: the local file is analysed instead.
 *
 * Every handler, effect, callback and awaited continuation is one event.
 * User presses take effect only when the control is rendered and enabled.
 * Outcomes of the camera, the picker, the permission prompts, the upload and
 * the analysis request are event parameters.
 *
 * A handler sees the `busy` of the render that created it. The callback that
 * ends a recording calls the `handleAnalyze` captured when the record button
 * was pressed, and that button is disabled while busy, so its guard sees
 * `busy` false. `Step` models this, so several pipelines can be in flight
 * (`flights`). `GuardedStep` is the variant whose guard sees the current
 * `busy`; single-flight holds for it (`GuardedRunInv`).
 */
module RecordScreen {
  import opened Wrappers
  import opened Text
  import opened AnalysisApi
  import opened ScreenTypes

  datatype Mode = Select | Camera | Gallery

  datatype Facing = Back | Front

  /** The open alert whose buttons switch the mode, if any. */
  datatype ModeAlert = NoAlert | InitTimeoutAlert | MountErrorAlert

  /** One run of `handleAnalyze` past its guard: uploading, then awaiting the analysis. */
  datatype Flight = Uploading(localUri: string) | Analyzing(videoUrl: string)

  datatype SessionState = SessionState(
    camPerm: Option<bool>,   // null, or the prompt result's `granted`
    hasMic: Option<bool>,
    mode: Mode,
    ready: bool,
    recording: bool,
    busy: bool,
    facing: Facing,
    cameraKey: nat,
    initTimeout: bool,
    alert: ModeAlert,
    flights: seq<Flight>,    // the runs of `handleAnalyze` in flight, oldest first
    log: seq<Effect>,
    stopRequests: nat,       // calls to the camera's stopRecording
    pendingStarts: nat,      // `startRecording` calls in their one-second wait
    recordings: nat)         // `recordAsync` calls not yet settled

  const Initial := SessionState(None, None, Select, false, false, false, Back, 0, false, NoAlert, [], [], 0, 0, 0)

  /** How the checks of `startRecording` before its wait end. */
  datatype StartOutcome = NotReady | MicDenied | NoCamera | Started

  /** How `recordAsync` settles: with a result whose uri may be empty, or by rejecting. */
  datatype RecordResult = Recorded(uri: string) | RecordFailed

  datatype Event =
    | MountPermissions(camGranted: bool, micGranted: bool)   // the mount effect's two prompts
    | EnsurePermissions(camAnswer: bool, micAnswer: bool)   // `ensurePermissions`, with the prompts' answers
    | PressMode(target: Mode)
    | InitTimeoutFired                                      // the 5000 ms camera-init timer
    | AlertChoice(target: Mode)                             // a button of the open mode alert
    | CameraReady                                           // `onCameraReady`
    | CameraMountError                                      // `onMountError`
    | PressRecord(micGranted: bool, cameraAttached: bool)   // the press, the microphone prompt, the ref check
    | StartWaitElapsed(cameraAttached: bool)                // the oldest pending start's one-second wait ends
    | RecordSettled(result: RecordResult, now: nat)         // one `recordAsync` settles
    | PressStop(cameraAttached: bool)
    | PressFacing
    | PressGallery(pick: PickResult, now: nat)
    | UploadSettled(flight: nat, outcome: UploadOutcome)    // the upload of `flights[flight]` settles
    | AnalysisSettled(flight: nat, res: AnalyzeVideoResponse)

  /** Past the permission screens: both prompts answered and granted. */
  predicate Authorized(s: SessionState) {
    s.camPerm == Some(true) && s.hasMic == Some(true)
  }

  /** The Camera component is rendered. */
  predicate CameraMounted(s: SessionState) {
    Authorized(s) && s.mode == Camera
  }

  /** `setMode(m)` and the mode-change effect: entering camera mode clears `ready` and re-keys the camera. */
  function ModeChanged(s: SessionState, m: Mode): SessionState {
    if m == s.mode then s
    else if m == Camera then s.(mode := m, ready := false, cameraKey := s.cameraKey + 1)
    else s.(mode := m)
  }

  /** The file name `handleAnalyze` uploads under. */
  function RecordingFileName(now: nat): string {
    "recorded_" + NatToString(now) + ".mp4"
  }

  /**
   * `handleAnalyze(localUri)` up to the upload, given the `busy` its closure
   * sees: nothing when that is true, otherwise set busy and start a new flight.
   */
  function AnalysisBegun(s: SessionState, seenBusy: bool, localUri: string, now: nat): SessionState {
    if seenBusy then s
    else
      s.(busy := true, flights := s.flights + [Uploading(localUri)],
         log := s.log + [UploadStarted(localUri, RecordingFileName(now))])
  }

  /** The checks `startRecording` makes before its wait, when the record button is rendered and enabled. */
  function StartOutcomeOf(s: SessionState, micGranted: bool, cameraAttached: bool): StartOutcome {
    if !s.ready then NotReady
    else if !micGranted then MicDenied
    else if !cameraAttached then NoCamera
    else Started
  }

  /** The record button is rendered (camera mode, not recording) and not disabled. */
  predicate RecordEnabled(s: SessionState) {
    CameraMounted(s) && !s.recording && !s.busy
  }

  /** The mount effect's two prompts resolve. */
  function PermissionsMounted(s: SessionState, camGranted: bool, micGranted: bool): SessionState {
    s.(camPerm := Some(camGranted), hasMic := Some(micGranted))
  }

  /** `ensurePermissions`: each permission not yet granted takes the prompt's answer. */
  function PermissionsEnsured(s: SessionState, camAnswer: bool, micAnswer: bool): SessionState {
    s.(camPerm := if s.camPerm == Some(true) then s.camPerm else Some(camAnswer),
       hasMic := if s.hasMic == Some(true) then s.hasMic else Some(micAnswer))
  }

  /** A mode button: rendered once authorized, disabled while busy; the select screen offers only camera and gallery. */
  function ModePressed(s: SessionState, m: Mode): SessionState {
    if Authorized(s) && !s.busy && (s.mode == Select ==> m != Select) then ModeChanged(s, m) else s
  }

  /** The camera-init timer fires; it is armed only in camera mode until the camera is ready. */
  function InitTimedOut(s: SessionState): SessionState {
    if s.mode == Camera && !s.ready then s.(initTimeout := true, ready := false, alert := InitTimeoutAlert) else s
  }

  /** A button of the open alert: the timeout alert offers select and gallery, the mount-error alert gallery. */
  function AlertChosen(s: SessionState, m: Mode): SessionState {
    if (s.alert == InitTimeoutAlert && m != Camera) || (s.alert == MountErrorAlert && m == Gallery)
    then ModeChanged(s.(alert := NoAlert), m)
    else s
  }

  /** `onCameraReady` of the mounted camera. */
  function CameraBecameReady(s: SessionState): SessionState {
    if CameraMounted(s) then s.(ready := true, initTimeout := false) else s
  }

  /** `onMountError` of the mounted camera. */
  function CameraFailed(s: SessionState): SessionState {
    if CameraMounted(s) then s.(alert := MountErrorAlert) else s
  }

  /** The record button: a start that passes its checks waits one second; `recording` is not touched yet. */
  function RecordPressed(s: SessionState, micGranted: bool, cameraAttached: bool): SessionState {
    if RecordEnabled(s) && StartOutcomeOf(s, micGranted, cameraAttached) == Started
    then s.(pendingStarts := s.pendingStarts + 1)
    else s
  }

  /**
   * A start's wait ends: `setRecording(true)`, then `recordAsync` on the camera
   * attached now; with none attached the call throws and the catch sets
   * `recording` back to false.
   */
  function WaitElapsed(s: SessionState, cameraAttached: bool): SessionState {
    if s.pendingStarts == 0 then s
    else
      s.(pendingStarts := s.pendingStarts - 1, recording := cameraAttached,
         recordings := if cameraAttached then s.recordings + 1 else s.recordings)
  }

  /**
   * A `recordAsync` settles: `recording` is cleared, and a result with a uri
   * goes to `handleAnalyze`, whose guard sees `seenBusy`.
   */
  function RecordingSettled(s: SessionState, result: RecordResult, now: nat, seenBusy: bool): SessionState {
    if s.recordings == 0 then s
    else
      var t := s.(recordings := s.recordings - 1, recording := false);
      if result.Recorded? && result.uri != "" then AnalysisBegun(t, seenBusy, result.uri, now) else t
  }

  /** The stop button: the camera's stop is called when it is attached and recording. */
  function StopPressed(s: SessionState, cameraAttached: bool): SessionState {
    if CameraMounted(s) && s.recording && cameraAttached then s.(stopRequests := s.stopRequests + 1) else s
  }

  /** The facing toggle, shown with the camera and disabled while recording or busy. */
  function FacingToggled(s: SessionState): SessionState {
    if CameraMounted(s) && !s.recording && !s.busy then s.(facing := if s.facing == Back then Front else Back) else s
  }

  /** The library button in gallery mode: the first picked asset goes to `handleAnalyze`. */
  function GalleryPicked(s: SessionState, pick: PickResult, now: nat): SessionState {
    if Authorized(s) && s.mode == Gallery && !s.busy && pick.Picked? && |pick.assets| > 0
    then AnalysisBegun(s, s.busy, pick.assets[0].uri, now)
    else s
  }

  /** The upload of flight `k` settles: the uploaded URL, or the local URI on failure, is submitted. */
  function UploadDone(s: SessionState, k: nat, outcome: UploadOutcome): SessionState {
    if k < |s.flights| && s.flights[k].Uploading? then
      var videoUrl := if outcome.Uploaded? then outcome.url else s.flights[k].localUri;
      s.(flights := s.flights[k := Analyzing(videoUrl)], log := s.log + [AnalysisRequested(videoUrl, UserId)])
    else s
  }

  /** The analysis request of flight `k` settles: navigate to Result, and the `finally` clears `busy`. */
  function AnalysisDone(s: SessionState, k: nat, res: AnalyzeVideoResponse): SessionState {
    if k < |s.flights| && s.flights[k].Analyzing? then
      s.(busy := false, flights := s.flights[..k] + s.flights[k + 1..],
         log := s.log + [ResultNavigation(s.flights[k].videoUrl, res)])
    else s
  }

  /** The screen as written: the completion's `handleAnalyze` sees the `busy` of the press, false. */
  function Step(s: SessionState, e: Event): (t: SessionState)
    ensures |s.log| <= |t.log| <= |s.log| + 1
    ensures |t.flights| <= |s.flights| + 1
  {
    match e
    case MountPermissions(cam, mic) => PermissionsMounted(s, cam, mic)
    case EnsurePermissions(camAnswer, micAnswer) => PermissionsEnsured(s, camAnswer, micAnswer)
    case PressMode(m) => ModePressed(s, m)
    case InitTimeoutFired => InitTimedOut(s)
    case AlertChoice(m) => AlertChosen(s, m)
    case CameraReady => CameraBecameReady(s)
    case CameraMountError => CameraFailed(s)
    case PressRecord(mic, cam) => RecordPressed(s, mic, cam)
    case StartWaitElapsed(cam) => WaitElapsed(s, cam)
    case RecordSettled(result, now) => RecordingSettled(s, result, now, false)
    case PressStop(cam) => StopPressed(s, cam)
    case PressFacing => FacingToggled(s)
    case PressGallery(pick, now) => GalleryPicked(s, pick, now)
    case UploadSettled(k, outcome) => UploadDone(s, k, outcome)
    case AnalysisSettled(k, res) => AnalysisDone(s, k, res)
  }

  function Run(s: SessionState, events: seq<Event>): SessionState
    decreases |events|
  {
    if |events| == 0 then s else Run(Step(s, events[0]), events[1..])
  }

  // ---- What holds of the screen as written -------------------------------------------------------

  function UploadCount(log: seq<Effect>): nat
    decreases |log|
  {
    if |log| == 0 then 0 else UploadCount(log[..|log| - 1]) + (if log[|log| - 1].UploadStarted? then 1 else 0)
  }

  function RequestCount(log: seq<Effect>): nat
    decreases |log|
  {
    if |log| == 0 then 0 else RequestCount(log[..|log| - 1]) + (if log[|log| - 1].AnalysisRequested? then 1 else 0)
  }

  function NavigationCount(log: seq<Effect>): nat
    decreases |log|
  {
    if |log| == 0 then 0 else NavigationCount(log[..|log| - 1]) + (if log[|log| - 1].Navigated? then 1 else 0)
  }

  function AnalyzingCount(flights: seq<Flight>): nat
    decreases |flights|
  {
    if |flights| == 0 then 0
    else AnalyzingCount(flights[..|flights| - 1]) + (if flights[|flights| - 1].Analyzing? then 1 else 0)
  }

  lemma LogCountsSnoc(log: seq<Effect>, e: Effect)
    ensures UploadCount(log + [e]) == UploadCount(log) + (if e.UploadStarted? then 1 else 0)
    ensures RequestCount(log + [e]) == RequestCount(log) + (if e.AnalysisRequested? then 1 else 0)
    ensures NavigationCount(log + [e]) == NavigationCount(log) + (if e.Navigated? then 1 else 0)
  {
    assert (log + [e])[..|log|] == log;
  }

  lemma {:induction false} AnalyzingCountConcat(a: seq<Flight>, b: seq<Flight>)
    ensures AnalyzingCount(a + b) == AnalyzingCount(a) + AnalyzingCount(b)
    decreases |b|
  {
    if |b| == 0 {
      assert a + b == a;
    } else {
      AnalyzingCountConcat(a, b[..|b| - 1]);
      assert (a + b)[..|a + b| - 1] == a + b[..|b| - 1];
    }
  }

  /** Every flight under analysis was submitted with user123. */
  predicate Submitted(flights: seq<Flight>, log: seq<Effect>) {
    forall i :: 0 <= i < |flights| && flights[i].Analyzing? ==> AnalysisRequested(flights[i].videoUrl, UserId) in log
  }

  /**
   * What the pipelines keep, however many are in flight: `busy` only with a
   * flight in flight; each started upload is either navigated or still in
   * flight; each analysis request is either navigated or awaited by a flight.
   */
  predicate FlightInv(busy: bool, flights: seq<Flight>, log: seq<Effect>) {
    && (busy ==> |flights| > 0)
    && UploadCount(log) == NavigationCount(log) + |flights|
    && RequestCount(log) == NavigationCount(log) + AnalyzingCount(flights)
    && Submitted(flights, log)
  }

  /** The invariant of the screen as written; `recording` also implies a `recordAsync` outstanding. */
  predicate Inv(s: SessionState) {
    FlightInv(s.busy, s.flights, s.log) && (s.recording ==> s.recordings > 0)
  }

  lemma InitialInv()
    ensures Inv(Initial)
  {
  }

  lemma AnalysisBegunInv(s: SessionState, seenBusy: bool, localUri: string, now: nat)
    requires FlightInv(s.busy, s.flights, s.log)
    ensures var t := AnalysisBegun(s, seenBusy, localUri, now); FlightInv(t.busy, t.flights, t.log)
  {
    if !seenBusy {
      var t := AnalysisBegun(s, seenBusy, localUri, now);
      LogCountsSnoc(s.log, UploadStarted(localUri, RecordingFileName(now)));
      AnalyzingCountConcat(s.flights, [Uploading(localUri)]);
      assert AnalyzingCount([Uploading(localUri)]) == 0 by {
        assert [Uploading(localUri)][..0] == [];
      }
      forall i | 0 <= i < |t.flights| && t.flights[i].Analyzing?
        ensures AnalysisRequested(t.flights[i].videoUrl, UserId) in t.log
      {
        assert t.flights[i] == s.flights[i];
      }
    }
  }

  /** The analysing flights counted around position `k`. */
  lemma AnalyzingCountAround(flights: seq<Flight>, k: nat)
    requires k < |flights|
    ensures AnalyzingCount(flights) ==
      AnalyzingCount(flights[..k]) + (if flights[k].Analyzing? then 1 else 0) + AnalyzingCount(flights[k + 1..])
  {
    assert flights == flights[..k] + [flights[k]] + flights[k + 1..];
    AnalyzingCountConcat(flights[..k] + [flights[k]], flights[k + 1..]);
    AnalyzingCountConcat(flights[..k], [flights[k]]);
    assert [flights[k]][..0] == [];
  }

  lemma UploadDoneInv(s: SessionState, k: nat, outcome: UploadOutcome)
    requires FlightInv(s.busy, s.flights, s.log)
    ensures var t := UploadDone(s, k, outcome); FlightInv(t.busy, t.flights, t.log)
  {
    if k < |s.flights| && s.flights[k].Uploading? {
      var t := UploadDone(s, k, outcome);
      var videoUrl := if outcome.Uploaded? then outcome.url else s.flights[k].localUri;
      LogCountsSnoc(s.log, AnalysisRequested(videoUrl, UserId));
      AnalyzingCountAround(s.flights, k);
      AnalyzingCountAround(t.flights, k);
      assert t.flights[..k] == s.flights[..k] && t.flights[k + 1..] == s.flights[k + 1..];
      UploadDoneSubmitted(s, k, videoUrl);
    }
  }

  lemma UploadDoneSubmitted(s: SessionState, k: nat, videoUrl: string)
    requires Submitted(s.flights, s.log) && k < |s.flights|
    ensures Submitted(s.flights[k := Analyzing(videoUrl)], s.log + [AnalysisRequested(videoUrl, UserId)])
  {
    var f := s.flights[k := Analyzing(videoUrl)];
    forall i | 0 <= i < |f| && f[i].Analyzing?
      ensures AnalysisRequested(f[i].videoUrl, UserId) in s.log + [AnalysisRequested(videoUrl, UserId)]
    {
      if i != k {
        assert f[i] == s.flights[i];
      }
    }
  }

  lemma AnalysisDoneInv(s: SessionState, k: nat, res: AnalyzeVideoResponse)
    requires FlightInv(s.busy, s.flights, s.log)
    ensures var t := AnalysisDone(s, k, res); FlightInv(t.busy, t.flights, t.log)
  {
    if k < |s.flights| && s.flights[k].Analyzing? {
      var t := AnalysisDone(s, k, res);
      LogCountsSnoc(s.log, ResultNavigation(s.flights[k].videoUrl, res));
      AnalyzingCountAround(s.flights, k);
      AnalyzingCountConcat(s.flights[..k], s.flights[k + 1..]);
      AnalysisDoneSubmitted(s.flights, s.log, k, ResultNavigation(s.flights[k].videoUrl, res));
    }
  }

  lemma AnalysisDoneSubmitted(flights: seq<Flight>, log: seq<Effect>, k: nat, e: Effect)
    requires Submitted(flights, log) && k < |flights|
    ensures Submitted(flights[..k] + flights[k + 1..], log + [e])
  {
    var f := flights[..k] + flights[k + 1..];
    forall i | 0 <= i < |f| && f[i].Analyzing?
      ensures AnalysisRequested(f[i].videoUrl, UserId) in log + [e]
    {
      if i < k {
        assert f[i] == flights[i];
      } else {
        assert f[i] == flights[i + 1];
      }
    }
  }

  lemma RecordingSettledInv(s: SessionState, result: RecordResult, now: nat, seenBusy: bool)
    requires FlightInv(s.busy, s.flights, s.log)
    ensures var t := RecordingSettled(s, result, now, seenBusy); FlightInv(t.busy, t.flights, t.log)
  {
    if s.recordings > 0 && result.Recorded? && result.uri != "" {
      AnalysisBegunInv(s.(recordings := s.recordings - 1, recording := false), seenBusy, result.uri, now);
    }
  }

  lemma GalleryPickedInv(s: SessionState, pick: PickResult, now: nat)
    requires FlightInv(s.busy, s.flights, s.log)
    ensures var t := GalleryPicked(s, pick, now); FlightInv(t.busy, t.flights, t.log)
  {
    if pick.Picked? && |pick.assets| > 0 {
      AnalysisBegunInv(s, s.busy, pick.assets[0].uri, now);
    }
  }

  /** Events other than the pipeline's leave `busy`, the flights and the log alone. */
  lemma OtherEventsKeepPipeline(s: SessionState, e: Event)
    requires !(e.RecordSettled? || e.PressGallery? || e.UploadSettled? || e.AnalysisSettled?)
    ensures Step(s, e).busy == s.busy && Step(s, e).flights == s.flights && Step(s, e).log == s.log
  {
    match e
    case PressMode(m) =>
    case AlertChoice(m) =>
    case _ =>
  }

  /** Every event keeps the pipelines' invariant. */
  lemma StepFlightInv(s: SessionState, e: Event)
    requires FlightInv(s.busy, s.flights, s.log)
    ensures var t := Step(s, e); FlightInv(t.busy, t.flights, t.log)
  {
    match e
    case RecordSettled(result, now) => RecordingSettledInv(s, result, now, false);
    case PressGallery(pick, now) => GalleryPickedInv(s, pick, now);
    case UploadSettled(k, outcome) => UploadDoneInv(s, k, outcome);
    case AnalysisSettled(k, res) => AnalysisDoneInv(s, k, res);
    case _ => OtherEventsKeepPipeline(s, e);
  }

  /** Every event keeps the invariant. */
  lemma StepInv(s: SessionState, e: Event)
    requires Inv(s)
    ensures Inv(Step(s, e))
  {
    StepFlightInv(s, e);
    var t := Step(s, e);
    assert t.recording ==> t.recordings > 0 by {
      match e
      case RecordSettled(result, now) =>
      case StartWaitElapsed(cam) =>
      case PressMode(m) =>
      case AlertChoice(m) =>
      case _ =>
    }
  }

  /** Every reachable state keeps the invariant. */
  lemma {:induction false} RunInv(s: SessionState, events: seq<Event>)
    requires Inv(s)
    ensures Inv(Run(s, events))
    decreases |events|
  {
    if |events| > 0 {
      StepInv(s, events[0]);
      RunInv(Step(s, events[0]), events[1..]);
    }
  }

  // ---- The guard as evidently intended: single flight -------------------------------------------

  /** The screen with the completion's guard reading the current `busy`. */
  function GuardedStep(s: SessionState, e: Event): SessionState {
    if e.RecordSettled? then RecordingSettled(s, e.result, e.now, s.busy) else Step(s, e)
  }

  function GuardedRun(s: SessionState, events: seq<Event>): SessionState
    decreases |events|
  {
    if |events| == 0 then s else GuardedRun(GuardedStep(s, events[0]), events[1..])
  }

  /** The log is a sequence of complete runs: upload, analysis with user123, navigation with the analysed URL. */
  predicate Runs(log: seq<Effect>)
    decreases |log|
  {
    if |log| == 0 then true
    else
      && |log| >= 3
      && log[|log| - 3].UploadStarted?
      && log[|log| - 2].AnalysisRequested? && log[|log| - 2].userId == UserId
      && log[|log| - 1].Navigated? && log[|log| - 1].params.videoUri == log[|log| - 2].videoUri
      && Runs(log[..|log| - 3])
  }

  /** At most one flight; `busy` exactly while it is in flight; the log matches its progress. */
  predicate SingleFlight(busy: bool, flights: seq<Flight>, log: seq<Effect>) {
    && |flights| <= 1
    && (busy <==> |flights| == 1)
    && if |flights| == 0 then Runs(log)
       else match flights[0]
         case Uploading(l) =>
           |log| >= 1 && log[|log| - 1].UploadStarted? && log[|log| - 1].localUri == l && Runs(log[..|log| - 1])
         case Analyzing(u) =>
           && |log| >= 2 && log[|log| - 2].UploadStarted?
           && log[|log| - 1] == AnalysisRequested(u, UserId) && Runs(log[..|log| - 2])
  }

  predicate GuardedInv(s: SessionState) {
    SingleFlight(s.busy, s.flights, s.log)
  }

  lemma GuardedInitialInv()
    ensures GuardedInv(Initial)
  {
  }

  lemma SingleFlightBegun(s: SessionState, localUri: string, now: nat)
    requires SingleFlight(s.busy, s.flights, s.log)
    ensures var t := AnalysisBegun(s, s.busy, localUri, now); SingleFlight(t.busy, t.flights, t.log)
  {
    if !s.busy {
      var t := AnalysisBegun(s, s.busy, localUri, now);
      assert t.log[..|t.log| - 1] == s.log;
    }
  }

  lemma SingleFlightUploadDone(s: SessionState, k: nat, outcome: UploadOutcome)
    requires SingleFlight(s.busy, s.flights, s.log)
    ensures var t := UploadDone(s, k, outcome); SingleFlight(t.busy, t.flights, t.log)
  {
    if k < |s.flights| && s.flights[k].Uploading? {
      var t := UploadDone(s, k, outcome);
      assert t.log[..|t.log| - 2] == s.log[..|s.log| - 1];
    }
  }

  lemma SingleFlightAnalysisDone(s: SessionState, k: nat, res: AnalyzeVideoResponse)
    requires SingleFlight(s.busy, s.flights, s.log)
    ensures var t := AnalysisDone(s, k, res); SingleFlight(t.busy, t.flights, t.log)
  {
    if k < |s.flights| && s.flights[k].Analyzing? {
      var t := AnalysisDone(s, k, res);
      var n := |t.log|;
      assert t.flights == [];
      assert t.log[..n - 1] == s.log;
      assert t.log[..n - 3] == s.log[..|s.log| - 2];
    }
  }

  lemma GuardedSettledInv(s: SessionState, result: RecordResult, now: nat)
    requires GuardedInv(s)
    ensures GuardedInv(GuardedStep(s, RecordSettled(result, now)))
  {
    if s.recordings > 0 && result.Recorded? && result.uri != "" {
      SingleFlightBegun(s.(recordings := s.recordings - 1, recording := false), result.uri, now);
    }
  }

  lemma GuardedGalleryInv(s: SessionState, pick: PickResult, now: nat)
    requires GuardedInv(s)
    ensures GuardedInv(GuardedStep(s, PressGallery(pick, now)))
  {
    if pick.Picked? && |pick.assets| > 0 {
      SingleFlightBegun(s, pick.assets[0].uri, now);
    }
  }

  /** With the guard reading the current `busy`, every event keeps single flight. */
  lemma GuardedStepInv(s: SessionState, e: Event)
    requires GuardedInv(s)
    ensures GuardedInv(GuardedStep(s, e))
  {
    if e.RecordSettled? {
      GuardedSettledInv(s, e.result, e.now);
    } else if e.PressGallery? {
      GuardedGalleryInv(s, e.pick, e.now);
    } else if e.UploadSettled? {
      SingleFlightUploadDone(s, e.flight, e.outcome);
    } else if e.AnalysisSettled? {
      SingleFlightAnalysisDone(s, e.flight, e.res);
    } else {
      OtherEventsKeepPipeline(s, e);
    }
  }

  /** Single flight holds along every run of the guarded screen. */
  lemma {:induction false} GuardedRunInv(s: SessionState, events: seq<Event>)
    requires GuardedInv(s)
    ensures GuardedInv(GuardedRun(s, events))
    decreases |events|
  {
    if |events| > 0 {
      GuardedStepInv(s, events[0]);
      GuardedRunInv(GuardedStep(s, events[0]), events[1..]);
    }
  }

  /** With the guard reading the current `busy`, a recording that ends while busy starts nothing. */
  lemma GuardedCompletionWhileBusy(s: SessionState, result: RecordResult, now: nat)
    requires s.busy
    ensures var t := GuardedStep(s, RecordSettled(result, now));
      t.flights == s.flights && t.log == s.log && t.busy
  {
  }

  // ---- The stale guard, exhibited ----------------------------------------------------------------

  /** Record, switch to the gallery while recording, analyse a picked video, then the recording ends. */
  function SecondPipelineTrace(): seq<Event> {
    [MountPermissions(true, true), PressMode(Camera), CameraReady, PressRecord(true, true),
     StartWaitElapsed(true), PressMode(Gallery), PressGallery(Picked([Asset("g")]), 1),
     RecordSettled(Recorded("r"), 2)]
  }

  /** The first flight's upload fails and its analysis settles. */
  function FirstFlightFinishes(): seq<Event> {
    [UploadSettled(0, UploadFailed), AnalysisSettled(0, AnalyzeVideoResponse("v", Missing, None, None))]
  }

  /** The camera mode of an authorized session, ready, with the camera keyed once. */
  const CameraShown := Initial.(camPerm := Some(true), hasMic := Some(true), mode := Camera, ready := true, cameraKey := 1)

  /** Recording, switched to the gallery. */
  const RecordingInGallery := CameraShown.(mode := Gallery, recording := true, recordings := 1)

  /** The gallery flight begun while recording. */
  const GalleryInFlight := RecordingInGallery.(busy := true, flights := [Uploading("g")],
                                              log := [UploadStarted("g", RecordingFileName(1))])

  /** The first three events show the ready camera. */
  lemma TraceShowsCamera()
    ensures Run(Initial, SecondPipelineTrace()) == Run(CameraShown, SecondPipelineTrace()[3..])
    ensures GuardedRun(Initial, SecondPipelineTrace()) == GuardedRun(CameraShown, SecondPipelineTrace()[3..])
  {
    var tr := SecondPipelineTrace();
    var s1 := Initial.(camPerm := Some(true), hasMic := Some(true));
    var s2 := s1.(mode := Camera, cameraKey := 1);
    assert Step(Initial, tr[0]) == s1 && GuardedStep(Initial, tr[0]) == s1;
    assert Step(s1, tr[1]) == s2 && GuardedStep(s1, tr[1]) == s2;
    assert Step(s2, tr[2]) == CameraShown && GuardedStep(s2, tr[2]) == CameraShown;
    assert tr[1..][1..] == tr[2..] && tr[2..][1..] == tr[3..];
  }

  /** The next four: record, switch to the gallery while recording, and pick a video. */
  lemma TracePicksWhileRecording()
    ensures Run(CameraShown, SecondPipelineTrace()[3..]) == Run(GalleryInFlight, SecondPipelineTrace()[7..])
    ensures GuardedRun(CameraShown, SecondPipelineTrace()[3..]) == GuardedRun(GalleryInFlight, SecondPipelineTrace()[7..])
  {
    var tr := SecondPipelineTrace();
    var s4 := CameraShown.(pendingStarts := 1);
    var s5 := CameraShown.(recording := true, recordings := 1);
    assert Step(CameraShown, tr[3]) == s4 && GuardedStep(CameraShown, tr[3]) == s4;
    assert Step(s4, tr[4]) == s5 && GuardedStep(s4, tr[4]) == s5;
    assert Step(s5, tr[5]) == RecordingInGallery && GuardedStep(s5, tr[5]) == RecordingInGallery;
    assert Step(RecordingInGallery, tr[6]) == GalleryInFlight;
    assert GuardedStep(RecordingInGallery, tr[6]) == GalleryInFlight;
    assert tr[3..][1..] == tr[4..] && tr[4..][1..] == tr[5..] && tr[5..][1..] == tr[6..] && tr[6..][1..] == tr[7..];
  }

  /** As written, the trace ends with the gallery flight and the recording's flight both in flight. */
  lemma StaleBusyReachesTwoFlights()
    ensures var t := Run(Initial, SecondPipelineTrace());
      t.busy && t.flights == [Uploading("g"), Uploading("r")]
  {
    TraceShowsCamera();
    TracePicksWhileRecording();
    StaleCompletionAddsFlight();
  }

  /** The recording's completion, reached while the gallery flight is in flight. */
  lemma StaleCompletionAddsFlight()
    ensures var t := Run(GalleryInFlight, SecondPipelineTrace()[7..]);
      t.busy && t.flights == [Uploading("g"), Uploading("r")]
  {
    var rest := SecondPipelineTrace()[7..];
    assert rest == [RecordSettled(Recorded("r"), 2)] && rest[1..] == [];
    var s8 := RecordingSettled(GalleryInFlight, Recorded("r"), 2, false);
    assert s8.flights == [Uploading("g"), Uploading("r")];
  }

  /** With the guard reading the current `busy`, the same trace leaves only the gallery flight. */
  lemma GuardedTraceSingleFlight()
    ensures GuardedRun(Initial, SecondPipelineTrace()).flights == [Uploading("g")]
  {
    TraceShowsCamera();
    TracePicksWhileRecording();
    var rest := SecondPipelineTrace()[7..];
    assert rest == [RecordSettled(Recorded("r"), 2)] && rest[1..] == [];
    assert GuardedStep(GalleryInFlight, rest[0]) == GalleryInFlight.(recording := false, recordings := 0);
  }

  /** Once the older of two uploading flights fails its upload and is analysed, `busy` is false with the other in flight. */
  lemma FirstFlightClearsBusy(s: SessionState)
    requires s.flights == [Uploading("g"), Uploading("r")]
    ensures var t := Run(s, FirstFlightFinishes()); !t.busy && t.flights == [Uploading("r")]
  {
    var fin := FirstFlightFinishes();
    var u1 := Step(s, fin[0]);
    var u2 := Step(u1, fin[1]);
    assert u1.flights == [Analyzing("g"), Uploading("r")];
    assert u2.flights == [Analyzing("g"), Uploading("r")][..0] + [Analyzing("g"), Uploading("r")][1..];
    assert Run(u2, []) == u2;
    assert Run(s, fin) == Run(u1, fin[1..]);
    assert Run(u1, fin[1..]) == Run(u2, fin[2..]);
  }

  /**
   * As written, the recording's completion starts a second pipeline while the
   * gallery one is in flight, and the first one's `finally` then clears `busy`
   * while the second is still in flight. The guarded screen starts only one.
   */
  lemma StaleBusyStartsSecondPipeline()
    ensures Run(Initial, SecondPipelineTrace()).flights == [Uploading("g"), Uploading("r")]
    ensures var t := Run(Run(Initial, SecondPipelineTrace()), FirstFlightFinishes());
      !t.busy && t.flights == [Uploading("r")]
    ensures GuardedRun(Initial, SecondPipelineTrace()).flights == [Uploading("g")]
  {
    StaleBusyReachesTwoFlights();
    FirstFlightClearsBusy(Run(Initial, SecondPipelineTrace()));
    GuardedTraceSingleFlight();
  }

  // ---- Properties of single events ---------------------------------------------------------------

  /**
   * `cameraKey` changes only by a switch into camera mode, which increments it
   * by exactly one and clears `ready`.
   */
  lemma CameraKeyStep(s: SessionState, e: Event)
    ensures var t := Step(s, e);
      t.cameraKey == s.cameraKey || (t.cameraKey == s.cameraKey + 1 && s.mode != Camera && t.mode == Camera && !t.ready)
    ensures var t := Step(s, e);
      s.mode != Camera && t.mode == Camera ==> t.cameraKey == s.cameraKey + 1 && !t.ready
  {
    match e
    case PressMode(m) =>
    case AlertChoice(m) =>
    case RecordSettled(result, now) =>
    case PressGallery(pick, now) =>
    case UploadSettled(k, outcome) =>
    case AnalysisSettled(k, res) =>
    case _ =>
  }

  /** `cameraKey` never decreases along any sequence of events. */
  lemma {:induction false} CameraKeyMonotone(s: SessionState, events: seq<Event>)
    ensures Run(s, events).cameraKey >= s.cameraKey
    decreases |events|
  {
    if |events| > 0 {
      CameraKeyStep(s, events[0]);
      CameraKeyMonotone(Step(s, events[0]), events[1..]);
    }
  }

  /** As written, a recording that ends with a uri starts a new flight whether or not the screen is busy. */
  lemma CompletionIgnoresBusy(s: SessionState, uri: string, now: nat)
    requires s.recordings > 0 && uri != ""
    ensures var t := Step(s, RecordSettled(Recorded(uri), now));
      && t.busy && t.flights == s.flights + [Uploading(uri)]
      && t.log == s.log + [UploadStarted(uri, RecordingFileName(now))]
  {
  }

  /** Once past its guard, `handleAnalyze` sets `busy` and starts the upload under `recorded_<now>.mp4`. */
  lemma BeginSetsBusy(s: SessionState, localUri: string, now: nat)
    ensures var t := AnalysisBegun(s, false, localUri, now);
      t.busy && t.flights == s.flights + [Uploading(localUri)]
      && t.log == s.log + [UploadStarted(localUri, RecordingFileName(now))]
    ensures AnalysisBegun(s, true, localUri, now) == s
  {
  }

  /** A failed upload still analyses, with the local URI; a successful one analyses the uploaded URL. */
  lemma UploadFallsBackToLocal(s: SessionState, k: nat, outcome: UploadOutcome)
    requires k < |s.flights| && s.flights[k].Uploading?
    ensures var t := Step(s, UploadSettled(k, outcome));
      var url := if outcome.Uploaded? then outcome.url else s.flights[k].localUri;
      && t.busy == s.busy
      && t.log == s.log + [AnalysisRequested(url, UserId)]
      && t.flights == s.flights[k := Analyzing(url)]
  {
  }

  /**
   * An analysis settles: navigation to Result with the URI that flight
   * submitted and the timeline only when it is an array; the flight ends and
   * `busy` is false, whatever other flights remain.
   */
  lemma AnalysisNavigates(s: SessionState, k: nat, res: AnalyzeVideoResponse)
    requires Inv(s) && k < |s.flights| && s.flights[k].Analyzing?
    ensures var t := Step(s, AnalysisSettled(k, res));
      && !t.busy && t.flights == s.flights[..k] + s.flights[k + 1..]
      && t.log == s.log + [Navigated(ResultParams(s.flights[k].videoUrl, TimelineParam(res)))]
      && AnalysisRequested(t.log[|t.log| - 1].params.videoUri, UserId) in s.log
      && (res.timeline.Entries? ==> t.log[|t.log| - 1].params.timeline == Some(res.timeline.entries))
      && (!res.timeline.Entries? ==> t.log[|t.log| - 1].params.timeline == None)
  {
  }

  /**
   * The press only queues a start, and only when the button is enabled, the
   * camera is ready, the microphone is granted and the camera is attached.
   */
  lemma StartRecordingGuards(s: SessionState, micGranted: bool, cameraAttached: bool)
    ensures var t := Step(s, PressRecord(micGranted, cameraAttached));
      && t.recording == s.recording && t.recordings == s.recordings
      && t.pendingStarts == s.pendingStarts + (if RecordEnabled(s) && s.ready && micGranted && cameraAttached then 1 else 0)
    ensures !s.ready || !micGranted ==> Step(s, PressRecord(micGranted, cameraAttached)) == s
  {
  }

  /** A start's wait ends: `recording` is whether a camera was attached, which also starts a `recordAsync`. */
  lemma WaitStartsRecording(s: SessionState, cameraAttached: bool)
    ensures var t := Step(s, StartWaitElapsed(cameraAttached));
      s.pendingStarts > 0 ==>
        && t.pendingStarts == s.pendingStarts - 1 && t.recording == cameraAttached
        && t.recordings == s.recordings + (if cameraAttached then 1 else 0)
    ensures s.pendingStarts == 0 ==> Step(s, StartWaitElapsed(cameraAttached)) == s
  {
  }

  /** A second press during the one-second wait starts a second `recordAsync`. */
  lemma DoubleStartDuringWait(s: SessionState)
    requires RecordEnabled(s) && s.ready
    ensures var t := Run(s, [PressRecord(true, true), PressRecord(true, true), StartWaitElapsed(true), StartWaitElapsed(true)]);
      t.recordings == s.recordings + 2 && t.recording
  {
    RunOfFour(s, PressRecord(true, true), PressRecord(true, true), StartWaitElapsed(true), StartWaitElapsed(true));
    var s1 := RecordPressed(s, true, true);
    assert RecordEnabled(s1) && s1.ready && s1.pendingStarts == s.pendingStarts + 1 && s1.recordings == s.recordings;
    var s2 := RecordPressed(s1, true, true);
    assert s2.pendingStarts == s.pendingStarts + 2 && s2.recordings == s.recordings;
    var s3 := WaitElapsed(s2, true);
    assert s3.pendingStarts == s.pendingStarts + 1 && s3.recordings == s.recordings + 1;
  }

  /** Leaving and re-entering camera mode during the wait: recording starts while the camera is not ready. */
  lemma RecordingWithoutReady(s: SessionState)
    requires RecordEnabled(s) && s.ready
    ensures var t := Run(s, [PressRecord(true, true), PressMode(Select), PressMode(Camera), StartWaitElapsed(true)]);
      t.recording && !t.ready
  {
    RunOfFour(s, PressRecord(true, true), PressMode(Select), PressMode(Camera), StartWaitElapsed(true));
    var s3 := ModePressed(ModePressed(RecordPressed(s, true, true), Select), Camera);
    assert s3.pendingStarts > 0 && !s3.ready;
  }

  /** Four events in a row. */
  lemma RunOfFour(s: SessionState, e0: Event, e1: Event, e2: Event, e3: Event)
    ensures Run(s, [e0, e1, e2, e3]) == Step(Step(Step(Step(s, e0), e1), e2), e3)
  {
    var s1 := Step(s, e0);
    var s2 := Step(s1, e1);
    var s3 := Step(s2, e2);
    assert [e0, e1, e2, e3][1..] == [e1, e2, e3] && [e1, e2, e3][1..] == [e2, e3];
    assert [e2, e3][1..] == [e3] && [e3][1..] == [];
    assert Run(s, [e0, e1, e2, e3]) == Run(s1, [e1, e2, e3]);
    assert Run(s1, [e1, e2, e3]) == Run(s2, [e2, e3]);
    assert Run(s2, [e2, e3]) == Run(s3, [e3]);
    assert Run(s3, [e3]) == Run(Step(s3, e3), []);
  }

  /**
   * A settled recording always leaves `recording` false; as written, a result
   * with a uri always starts an analysis, busy or not.
   */
  lemma RecordSettledClearsRecording(s: SessionState, result: RecordResult, now: nat)
    requires s.recordings > 0
    ensures !Step(s, RecordSettled(result, now)).recording
    ensures Step(s, RecordSettled(result, now)).recordings == s.recordings - 1
    ensures Step(s, RecordSettled(result, now)).log != s.log <==> result.Recorded? && result.uri != ""
  {
  }

  /** Mode switches, the record button, the facing toggle and the gallery button do nothing while busy. */
  lemma BusyDisablesControls(s: SessionState, e: Event)
    requires s.busy && (e.PressMode? || e.PressRecord? || e.PressFacing? || e.PressGallery?)
    ensures Step(s, e) == s
  {
  }

  /** The facing toggle flips back and front, only when the camera shows and is neither recording nor busy. */
  lemma FacingToggle(s: SessionState)
    ensures var t := Step(s, PressFacing);
      t.facing != s.facing <==> CameraMounted(s) && !s.recording && !s.busy
    ensures Step(Step(s, PressFacing), PressFacing).facing == s.facing
  {
  }

  /** The camera's stopRecording is called only when the camera exists and a recording is in progress. */
  lemma StopOnlyWhileRecording(s: SessionState, cameraAttached: bool)
    ensures var t := Step(s, PressStop(cameraAttached));
      t.stopRequests == s.stopRequests + (if CameraMounted(s) && s.recording && cameraAttached then 1 else 0)
      && t.recording == s.recording
  {
  }

  /** `onCameraReady` marks the mounted camera ready and clears the timeout flag. */
  lemma CameraReadyClearsTimeout(s: SessionState)
    requires CameraMounted(s)
    ensures Step(s, CameraReady).ready && !Step(s, CameraReady).initTimeout
    ensures Step(s, CameraReady).cameraKey == s.cameraKey
  {
  }

  /**
   * The screen's state: the `useState` hooks plus the flights and their
   * effects, and the pending starts and recordings. Each method performs its
   * event's transition, so `RunInv` and the lemmas above hold for any sequence
   * of calls from the constructor.
   */
  class Session {
    var camPerm: Option<bool>
    var hasMic: Option<bool>
    var mode: Mode
    var ready: bool
    var recording: bool
    var busy: bool
    var facing: Facing
    var cameraKey: nat
    var initTimeout: bool
    var alert: ModeAlert
    var flights: seq<Flight>
    var log: seq<Effect>
    var stopRequests: nat
    var pendingStarts: nat
    var recordings: nat

    function State(): SessionState
      reads this
    {
      SessionState(camPerm, hasMic, mode, ready, recording, busy, facing, cameraKey, initTimeout, alert,
                   flights, log, stopRequests, pendingStarts, recordings)
    }

    constructor()
      ensures State() == Initial
    {
      camPerm, hasMic, mode, ready, recording, busy := None, None, Select, false, false, false;
      facing, cameraKey, initTimeout, alert := Back, 0, false, NoAlert;
      flights, log, stopRequests, pendingStarts, recordings := [], [], 0, 0, 0;
    }

    /** The mount effect's prompts resolve. */
    method MountPermissions(camGranted: bool, micGranted: bool)
      modifies this
      ensures State() == PermissionsMounted(old(State()), camGranted, micGranted)
    {
      camPerm := Some(camGranted);
      hasMic := Some(micGranted);
    }

    /** `ensurePermissions`: prompts for whatever is not granted; says which prompts it showed. */
    method EnsurePermissions(camAnswer: bool, micAnswer: bool) returns (camPrompted: bool, micPrompted: bool)
      modifies this
      ensures camPrompted <==> old(camPerm) != Some(true)
      ensures micPrompted <==> old(hasMic) != Some(true)
      ensures State() == PermissionsEnsured(old(State()), camAnswer, micAnswer)
    {
      camPrompted := camPerm != Some(true);
      if camPrompted {
        camPerm := Some(camAnswer);
      }
      micPrompted := hasMic != Some(true);
      if micPrompted {
        hasMic := Some(micAnswer);
      }
    }

    /** `setMode` followed by the mode-change effect. */
    method SetMode(m: Mode)
      modifies this
      ensures State() == ModeChanged(old(State()), m)
    {
      if m != mode {
        mode := m;
        if m == Camera {
          ready := false;
          cameraKey := cameraKey + 1;
        }
      }
    }

    /** A mode button: ignored when not rendered or disabled while busy. */
    method PressMode(m: Mode)
      modifies this
      ensures State() == ModePressed(old(State()), m)
    {
      if camPerm == Some(true) && hasMic == Some(true) && !busy && (mode == Select ==> m != Select) {
        SetMode(m);
      }
    }

    /** The camera-init timer fires, while in camera mode and not ready. */
    method InitTimeoutFired()
      modifies this
      ensures State() == InitTimedOut(old(State()))
    {
      if mode == Camera && !ready {
        initTimeout := true;
        ready := false;
        alert := InitTimeoutAlert;
      }
    }

    /** A button of the open alert: cancel or the library after a timeout, the library after a mount error. */
    method AlertChoice(m: Mode)
      modifies this
      ensures State() == AlertChosen(old(State()), m)
    {
      if (alert == InitTimeoutAlert && m != Camera) || (alert == MountErrorAlert && m == Gallery) {
        alert := NoAlert;
        SetMode(m);
      }
    }

    /** `onCameraReady`. */
    method CameraReady()
      modifies this
      ensures State() == CameraBecameReady(old(State()))
    {
      if camPerm == Some(true) && hasMic == Some(true) && mode == Camera {
        ready := true;
        initTimeout := false;
      }
    }

    /** `onMountError`: opens the alert that offers the library. */
    method CameraMountError()
      modifies this
      ensures State() == CameraFailed(old(State()))
    {
      if camPerm == Some(true) && hasMic == Some(true) && mode == Camera {
        alert := MountErrorAlert;
      }
    }

    /**
     * The record button: `startRecording` up to its wait, with the microphone
     * prompt's answer and whether the camera reference is attached. `outcome`
     * is None when the button is not rendered or is disabled.
     */
    method PressRecord(micGranted: bool, cameraAttached: bool) returns (outcome: Option<StartOutcome>)
      modifies this
      ensures outcome.Some? <==> RecordEnabled(old(State()))
      ensures outcome.Some? ==> outcome.value == StartOutcomeOf(old(State()), micGranted, cameraAttached)
      ensures pendingStarts == old(pendingStarts) + (if outcome == Some(Started) then 1 else 0)
      ensures State() == RecordPressed(old(State()), micGranted, cameraAttached)
    {
      if !(camPerm == Some(true) && hasMic == Some(true) && mode == Camera && !recording && !busy) {
        return None;
      }
      if !ready {
        return Some(NotReady);
      }
      if !micGranted {
        return Some(MicDenied);
      }
      if !cameraAttached {
        return Some(NoCamera);
      }
      pendingStarts := pendingStarts + 1;
      outcome := Some(Started);
    }

    /** The oldest pending start's wait ends: `setRecording(true)` and `recordAsync`, or the catch. */
    method StartWaitElapsed(cameraAttached: bool)
      modifies this
      ensures State() == WaitElapsed(old(State()), cameraAttached)
    {
      if pendingStarts == 0 {
        return;
      }
      pendingStarts := pendingStarts - 1;
      recording := true;
      if cameraAttached {
        recordings := recordings + 1;
      } else {
        recording := false;
      }
    }

    /** `handleAnalyze(localUri)` up to the upload, with the `busy` its closure sees. */
    method HandleAnalyze(seenBusy: bool, localUri: string, now: nat)
      modifies this
      ensures State() == AnalysisBegun(old(State()), seenBusy, localUri, now)
    {
      if seenBusy {
        return;
      }
      busy := true;
      var fileName := "recorded_" + NatToString(now) + ".mp4";
      log := log + [UploadStarted(localUri, fileName)];
      flights := flights + [Uploading(localUri)];
    }

    /**
     * A `recordAsync` settles: recording ends, and a result with a uri is
     * analysed by the `handleAnalyze` of the press, which saw `busy` false.
     */
    method RecordSettled(result: RecordResult, now: nat)
      modifies this
      ensures State() == RecordingSettled(old(State()), result, now, false)
    {
      if recordings == 0 {
        return;
      }
      recordings := recordings - 1;
      recording := false;
      if result.Recorded? && result.uri != "" {
        HandleAnalyze(false, result.uri, now);
      }
    }

    /** The stop button: `stopRecording` calls the camera only when attached and recording. */
    method PressStop(cameraAttached: bool)
      modifies this
      ensures State() == StopPressed(old(State()), cameraAttached)
    {
      if camPerm == Some(true) && hasMic == Some(true) && mode == Camera && recording && cameraAttached {
        stopRequests := stopRequests + 1;
      }
    }

    /** The facing toggle. */
    method PressFacing()
      modifies this
      ensures State() == FacingToggled(old(State()))
    {
      if camPerm == Some(true) && hasMic == Some(true) && mode == Camera && !recording && !busy {
        facing := if facing == Back then Front else Back;
      }
    }

    /** The library button: `pickVideoFromGallery`, analysing the first picked asset. */
    method PressGallery(pick: PickResult, now: nat)
      modifies this
      ensures State() == GalleryPicked(old(State()), pick, now)
    {
      if camPerm == Some(true) && hasMic == Some(true) && mode == Gallery && !busy {
        if pick.Picked? && |pick.assets| > 0 {
          HandleAnalyze(busy, pick.assets[0].uri, now);
        }
      }
    }

    /** The upload of flight `k` settles: the uploaded URL, or on failure the local URI, goes to analysis. */
    method UploadSettled(k: nat, outcome: UploadOutcome)
      modifies this
      ensures State() == UploadDone(old(State()), k, outcome)
    {
      if !(k < |flights| && flights[k].Uploading?) {
        return;
      }
      var videoUrl := flights[k].localUri;
      if outcome.Uploaded? {
        videoUrl := outcome.url;
      }
      log := log + [AnalysisRequested(videoUrl, UserId)];
      flights := flights[k := Analyzing(videoUrl)];
    }

    /** `analyzeVideo` of flight `k` resolves (it never rejects): navigate to Result and clear `busy`. */
    method AnalysisSettled(k: nat, res: AnalyzeVideoResponse)
      modifies this
      ensures State() == AnalysisDone(old(State()), k, res)
    {
      if !(k < |flights| && flights[k].Analyzing?) {
        return;
      }
      log := log + [Navigated(ResultParams(flights[k].videoUrl, TimelineParam(res)))];
      busy := false;
      flights := flights[..k] + flights[k + 1..];
    }
  }
}
