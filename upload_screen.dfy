/**
 * The upload screen (frontend/src/screens/UploadScreen.tsx): pick a video
 * from the library, then upload it and submit the uploaded URL for analysis.
 * Here a failed upload ends the pipeline. Each handler is one event; the
 * upload and the analysis request settle as later events, with their
 * outcomes as inputs.
 */
module UploadScreen {
  import opened Wrappers
  import opened Text
  import opened AnalysisApi
  import opened ScreenTypes

  /** The pipeline `handleAnalyze` runs: the upload, then the analysis request. */
  datatype Pipeline = Idle | Uploading(localUri: string) | Analyzing(remoteUrl: string)

  datatype SessionState = SessionState(videoUri: Option<string>, busy: bool, pipeline: Pipeline, log: seq<Effect>)

  const Initial := SessionState(None, false, Idle, [])

  datatype PermissionCheck = PermissionCheck(granted: bool, prompted: bool)

  /**
   * `ensureMediaPermission`: `current` is whether library access is already
   * granted and `answer` what the prompt would return.
   */
  function MediaPermission(current: bool, answer: bool): (r: PermissionCheck)
    ensures current ==> r.granted && !r.prompted
    ensures !current ==> r.prompted && r.granted == answer
    ensures r.granted <==> current || answer
  {
    if current then PermissionCheck(true, false) else PermissionCheck(answer, true)
  }

  datatype Event =
    | Pick(granted: bool, pick: PickResult)   // pickVideo, after the permission check
    | PressAnalyze(now: nat)                  // the analyse button, at timestamp `now`
    | UploadSettled(outcome: UploadOutcome)
    | AnalysisSettled(res: AnalyzeVideoResponse)

  /** The file name the upload uses. */
  function UploadFileName(now: nat): string {
    "video_" + NatToString(now) + ".mp4"
  }

  /** The selected video as JavaScript sees it: a non-empty string is truthy. */
  predicate HasVideo(s: SessionState) {
    s.videoUri.Some? && s.videoUri.value != ""
  }

  /** The first asset's uri, when the pick was not cancelled and it has a non-empty one. */
  function PickedUri(pick: PickResult): Option<string> {
    if pick.Picked? && |pick.assets| > 0 && pick.assets[0].uri != "" then Some(pick.assets[0].uri) else None
  }

  function Step(s: SessionState, e: Event): (t: SessionState)
    ensures |s.log| <= |t.log| <= |s.log| + 1 && t.log[..|s.log|] == s.log
  {
    match e
    case Pick(granted, pick) =>
      if granted && PickedUri(pick).Some? then s.(videoUri := PickedUri(pick)) else s
    case PressAnalyze(now) =>
      // The button is disabled without a video or while busy; handleAnalyze itself re-checks the video.
      if !HasVideo(s) || s.busy then s
      else
        s.(busy := true, pipeline := Uploading(s.videoUri.value),
           log := s.log + [UploadStarted(s.videoUri.value, UploadFileName(now))])
    case UploadSettled(outcome) =>
      if !s.pipeline.Uploading? then s
      else if outcome.UploadFailed? then s.(busy := false, pipeline := Idle)
      else s.(pipeline := Analyzing(outcome.url), log := s.log + [AnalysisRequested(outcome.url, UserId)])
    case AnalysisSettled(res) =>
      if !s.pipeline.Analyzing? then s
      else
        s.(busy := false, pipeline := Idle,
           log := s.log + [ResultNavigation(s.pipeline.remoteUrl, res)])
  }

  function Run(s: SessionState, events: seq<Event>): SessionState
    decreases |events|
  {
    if |events| == 0 then s else Run(Step(s, events[0]), events[1..])
  }

  /**
   * The log is a sequence of pipeline runs: an upload alone (it failed), or an
   * upload, the analysis of the uploaded URL, and navigation with that URL.
   */
  predicate Runs(log: seq<Effect>)
    decreases |log|
  {
    if |log| == 0 then true
    else if log[|log| - 1].UploadStarted? then Runs(log[..|log| - 1])
    else
      && |log| >= 3
      && log[|log| - 3].UploadStarted?
      && log[|log| - 2].AnalysisRequested? && log[|log| - 2].userId == UserId
      && log[|log| - 1].Navigated? && log[|log| - 1].params.videoUri == log[|log| - 2].videoUri
      && Runs(log[..|log| - 3])
  }

  /** `busy` is set exactly while a pipeline is in flight, and the log matches the pipeline's progress. */
  predicate PipelineInv(busy: bool, pipeline: Pipeline, log: seq<Effect>) {
    && (busy <==> !pipeline.Idle?)
    && match pipeline
       case Idle => Runs(log)
       case Uploading(l) =>
         |log| >= 1 && log[|log| - 1].UploadStarted? && log[|log| - 1].localUri == l && Runs(log[..|log| - 1])
       case Analyzing(u) =>
         && |log| >= 2 && log[|log| - 2].UploadStarted?
         && log[|log| - 1] == AnalysisRequested(u, UserId) && Runs(log[..|log| - 2])
  }

  predicate Inv(s: SessionState) {
    PipelineInv(s.busy, s.pipeline, s.log)
  }

  lemma InitialInv()
    ensures Inv(Initial)
  {
  }

  lemma StepInv(s: SessionState, e: Event)
    requires Inv(s)
    ensures Inv(Step(s, e))
  {
    match e
    case Pick(_, _) =>
    case PressAnalyze(now) => PressAnalyzeInv(s, now);
    case UploadSettled(outcome) => UploadSettledInv(s, outcome);
    case AnalysisSettled(res) => AnalysisSettledInv(s, res);
  }

  lemma PressAnalyzeInv(s: SessionState, now: nat)
    requires Inv(s)
    ensures Inv(Step(s, PressAnalyze(now)))
  {
    if HasVideo(s) && !s.busy {
      var t := Step(s, PressAnalyze(now));
      assert t.log[..|t.log| - 1] == s.log;
    }
  }

  lemma UploadSettledInv(s: SessionState, outcome: UploadOutcome)
    requires Inv(s)
    ensures Inv(Step(s, UploadSettled(outcome)))
  {
    if s.pipeline.Uploading? && outcome.Uploaded? {
      var t := Step(s, UploadSettled(outcome));
      assert t.log[..|t.log| - 2] == s.log[..|s.log| - 1];
    }
  }

  lemma AnalysisSettledInv(s: SessionState, res: AnalyzeVideoResponse)
    requires Inv(s)
    ensures Inv(Step(s, AnalysisSettled(res)))
  {
    if s.pipeline.Analyzing? {
      var t := Step(s, AnalysisSettled(res));
      var n := |t.log|;
      assert t.log[..n - 1] == s.log;
      assert t.log[..n - 3] == s.log[..|s.log| - 2];
    }
  }

  /** Every reachable state keeps the invariant. */
  lemma {:induction false} RunInv(s: SessionState, events: seq<Event>)
    requires Inv(s)
    ensures Inv(Run(s, events))
    decreases |events|
  {
    if |events| > 0 {
      StepInv(s, events[0]);
      RunInv(Step(s, events[0]), events[1..]);
    }
  }

  /** Without a selected video, pressing analyse sets nothing and uploads nothing; while busy likewise. */
  lemma PressAnalyzeGuards(s: SessionState, now: nat)
    ensures !HasVideo(s) || s.busy ==> Step(s, PressAnalyze(now)) == s
    ensures HasVideo(s) && !s.busy ==>
      Step(s, PressAnalyze(now)).busy && Step(s, PressAnalyze(now)).log == s.log + [UploadStarted(s.videoUri.value, UploadFileName(now))]
  {
  }

  /**
   * A failed upload ends the pipeline: nothing is analysed and nothing
   * navigated, and `busy` is false again.
   */
  lemma UploadFailureAborts(s: SessionState)
    requires Inv(s) && s.pipeline.Uploading?
    ensures var t := Step(s, UploadSettled(UploadFailed));
      !t.busy && t.pipeline == Idle && t.log == s.log && t.videoUri == s.videoUri
  {
  }

  /**
   * A successful upload submits the uploaded URL, and the analysis that
   * follows navigates with that URL and clears `busy`.
   */
  lemma UploadSuccessNavigates(s: SessionState, url: string, res: AnalyzeVideoResponse)
    requires Inv(s) && s.pipeline.Uploading?
    ensures var t := Step(s, UploadSettled(Uploaded(url)));
      && t.busy && t.log == s.log + [AnalysisRequested(url, UserId)]
      && var u := Step(t, AnalysisSettled(res));
         !u.busy && u.pipeline == Idle && u.log == t.log + [Navigated(ResultParams(url, TimelineParam(res)))]
  {
  }

  /** Without permission the picker changes nothing; otherwise only a non-empty first asset uri is taken. */
  lemma PickUpdatesOnlyOnAsset(s: SessionState, granted: bool, pick: PickResult)
    ensures !granted ==> Step(s, Pick(granted, pick)) == s
    ensures granted && PickedUri(pick).Some? ==> Step(s, Pick(granted, pick)).videoUri == Some(pick.assets[0].uri)
    ensures Step(s, Pick(granted, pick)).videoUri != s.videoUri ==>
      granted && pick.Picked? && |pick.assets| > 0 && pick.assets[0].uri != ""
    ensures Step(s, Pick(granted, pick)).busy == s.busy && Step(s, Pick(granted, pick)).log == s.log
  {
  }

  /** The screen's state: the two `useState` hooks plus the pipeline in flight and its effects. */
  class Session {
    var videoUri: Option<string>
    var busy: bool
    var pipeline: Pipeline
    var log: seq<Effect>

    function State(): SessionState
      reads this
    {
      SessionState(videoUri, busy, pipeline, log)
    }

    ghost predicate Valid()
      reads this
    {
      PipelineInv(busy, pipeline, log)
    }

    constructor()
      ensures State() == Initial && Valid()
    {
      videoUri, busy, pipeline, log := None, false, Idle, [];
    }

    /**
     * `pickVideo`: checks the permission (`current`, `answer`) and opens the
     * picker only when it is granted; `pickerShown` says whether it was.
     */
    method PickVideo(current: bool, answer: bool, pick: PickResult) returns (pickerShown: bool)
      requires Valid()
      modifies this
      ensures Valid()
      ensures pickerShown <==> MediaPermission(current, answer).granted
      ensures State() == Step(old(State()), Pick(pickerShown, pick))
    {
      var permission := MediaPermission(current, answer);
      if !permission.granted {
        return false;
      }
      pickerShown := true;
      if pick.Picked? && |pick.assets| > 0 && pick.assets[0].uri != "" {
        videoUri := Some(pick.assets[0].uri);
      }
    }

    /** The analyse button at timestamp `now`: starts `handleAnalyze` unless disabled. */
    method PressAnalyze(now: nat)
      requires Valid()
      modifies this
      ensures Valid()
      ensures State() == Step(old(State()), Event.PressAnalyze(now))
    {
      StepInv(State(), Event.PressAnalyze(now));
      if videoUri.None? || videoUri.value == "" || busy {
        return;
      }
      busy := true;
      var fileName := "video_" + NatToString(now) + ".mp4";
      log := log + [UploadStarted(videoUri.value, fileName)];
      pipeline := Uploading(videoUri.value);
    }

    /** The upload settles: analyse the uploaded URL, or, on failure, end with `busy` false. */
    method UploadSettled(outcome: UploadOutcome)
      requires Valid()
      modifies this
      ensures Valid()
      ensures State() == Step(old(State()), Event.UploadSettled(outcome))
    {
      StepInv(State(), Event.UploadSettled(outcome));
      if !pipeline.Uploading? {
        return;
      }
      match outcome
      case UploadFailed =>
        busy := false;
        pipeline := Idle;
      case Uploaded(url) =>
        log := log + [AnalysisRequested(url, UserId)];
        pipeline := Analyzing(url);
    }

    /** `analyzeVideo` resolves (it never rejects): navigate to Result and clear `busy`. */
    method AnalysisSettled(res: AnalyzeVideoResponse)
      requires Valid()
      modifies this
      ensures Valid()
      ensures State() == Step(old(State()), Event.AnalysisSettled(res))
    {
      StepInv(State(), Event.AnalysisSettled(res));
      if !pipeline.Analyzing? {
        return;
      }
      log := log + [Navigated(ResultParams(pipeline.remoteUrl, TimelineParam(res)))];
      busy := false;
      pipeline := Idle;
    }
  }
}
