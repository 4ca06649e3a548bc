/** What the two capture screens share: the pipeline's outside effects and the Result screen's parameters. */
module ScreenTypes {
  import opened Wrappers
  import opened AnalysisApi

  /** The user id both screens submit. */
  const UserId := "user123"

  /** The parameters passed to the Result screen. */
  datatype ResultParams = ResultParams(videoUri: string, timeline: Option<seq<TimelineEntry>>)

  /** `Array.isArray(res?.timeline) ? res.timeline : undefined`. */
  function TimelineParam(res: AnalyzeVideoResponse): (t: Option<seq<TimelineEntry>>)
    ensures t.Some? <==> res.timeline.Entries?
    ensures t.Some? ==> t.value == res.timeline.entries
  {
    match res.timeline
    case Entries(entries) => Some(entries)
    case _ => None
  }

  /** How `uploadVideoAsync` settles: with the remote URL, or by throwing. */
  datatype UploadOutcome = Uploaded(url: string) | UploadFailed

  /** The pipeline's calls to the outside world, in the order they are made. */
  datatype Effect =
    | UploadStarted(localUri: string, fileName: string)
    | AnalysisRequested(videoUri: string, userId: string)
    | Navigated(params: ResultParams)

  /** A picked asset; its uri may be empty. */
  datatype Asset = Asset(uri: string)

  /** How the image picker settles. */
  datatype PickResult = Canceled | Picked(assets: seq<Asset>) | PickerFailed

  /** The navigation a finished analysis makes: the submitted URI and the timeline when it is an array. */
  function ResultNavigation(videoUri: string, res: AnalyzeVideoResponse): Effect {
    Navigated(ResultParams(videoUri, TimelineParam(res)))
  }
}
