/**
 * The frontend's API client (frontend/src/api/index.ts): submitting a video
 * for synchronous analysis, with a fixed fallback result whenever the request
 * fails, and fetching a stored result, which passes errors on unchanged.
 * The transport (axios) is a parameter: a function from the request to its
 * outcome.
 */
module AnalysisApi {
  import opened Wrappers
  import opened Text

  datatype TimelineLabel = Normal | Suspect

  /** One `{ t, label, score }` entry (the label as `kind`) of a submit response's timeline. */
  datatype TimelineEntry = TimelineEntry(t: int, kind: TimelineLabel, score: real)

  /** The "timeline" field of a response body as received: absent, an array, or another JSON value. */
  datatype TimelineField = Missing | Entries(entries: seq<TimelineEntry>) | NotAnArray

  /** `AnalyzeVideoResponse`: only `videoId` is required. */
  datatype AnalyzeVideoResponse = AnalyzeVideoResponse(
    videoId: string,
    timeline: TimelineField,
    overallScore: Option<real>,
    status: Option<string>)

  datatype SegmentResult = RealSegment | FakeSegment

  /** One `{ start, end, ensemble_result, confidence }` item of a stored result. */
  datatype TimelineItem = TimelineItem(start: real, end: real, ensembleResult: SegmentResult, confidence: real)

  /** `AnalysisResultResponse`, the body of `GET /get-result/{videoId}`. */
  datatype AnalysisResultResponse = AnalysisResultResponse(videoId: string, timeline: seq<TimelineItem>)

  /** A multipart form field: a plain value, or a file part given by `{ uri, name, type }`. */
  datatype FormValue = TextValue(value: string) | FilePart(uri: string, name: string, mimeType: string)

  /** A `FormData` under construction. */
  class FormData {
    var fields: seq<(string, FormValue)>

    constructor()
      ensures fields == []
    {
      fields := [];
    }

    /** `append` adds one field after the existing ones. */
    method Append(key: string, value: FormValue)
      modifies this
      ensures fields == old(fields) + [(key, value)]
    {
      fields := fields + [(key, value)];
    }
  }

  /** An HTTP POST relative to the API base URL. */
  datatype PostRequest = PostRequest(path: string, form: seq<(string, FormValue)>, contentType: string, timeoutMs: nat)

  /** A transport or HTTP failure, as axios reports it. */
  datatype TransportError = Timeout | NetworkError | HttpStatus(code: int)

  /** What the POST gives back: the response body, or the error axios throws. */
  datatype PostOutcome = Responded(body: AnalyzeVideoResponse) | PostFailed(error: TransportError)

  const AnalyzePath := "/analyze-video/"
  const RequestTimeoutMs := 120000
  const VideoPartName := "video.mp4"
  const VideoMimeType := "video/mp4"

  /**
   * The result substituted for any failed request: a five-second timeline with
   * one suspect second, an overall score of 0.87 and the status 'completed',
   * under an id made from the current timestamp `now`.
   */
  function Fallback(now: nat): (r: AnalyzeVideoResponse)
    ensures r.videoId == "fallback_" + NatToString(now)
    ensures r.timeline.Entries? && |r.timeline.entries| == 5
    ensures forall i :: 0 <= i < 5 ==> r.timeline.entries[i].t == i
    ensures forall i, j :: 0 <= i < j < 5 ==> r.timeline.entries[i].t < r.timeline.entries[j].t
    ensures r.timeline.entries[0].score == 0.85 && r.timeline.entries[1].score == 0.92
    ensures r.timeline.entries[2].score == 0.15 && r.timeline.entries[3].score == 0.88
    ensures r.timeline.entries[4].score == 0.91
    ensures forall i :: 0 <= i < 5 ==> (r.timeline.entries[i].kind == Suspect <==> i == 2)
    ensures r.overallScore == Some(0.87) && r.status == Some("completed")
  {
    AnalyzeVideoResponse(
      "fallback_" + NatToString(now),
      Entries([
        TimelineEntry(0, Normal, 0.85),
        TimelineEntry(1, Normal, 0.92),
        TimelineEntry(2, Suspect, 0.15),
        TimelineEntry(3, Normal, 0.88),
        TimelineEntry(4, Normal, 0.91)]),
      Some(0.87),
      Some("completed"))
  }

  /** Fallbacks made at different timestamps have different ids, and otherwise agree. */
  lemma FallbackIdsDistinct(now1: nat, now2: nat)
    ensures Fallback(now1).videoId == Fallback(now2).videoId <==> now1 == now2
    ensures Fallback(now1).timeline == Fallback(now2).timeline
    ensures Fallback(now1).overallScore == Fallback(now2).overallScore && Fallback(now1).status == Fallback(now2).status
  {
    if Fallback(now1).videoId == Fallback(now2).videoId {
      NumberedNameInjective("fallback_", "", now1, now2);
    }
  }

  /**
   * `analyzeVideo`: builds the two-field form, posts it, and returns the body;
   * on any error it returns the fallback instead, so it never fails.
   */
  method AnalyzeVideo(videoUri: string, userId: string, post: PostRequest -> PostOutcome, now: nat)
    returns (req: PostRequest, res: AnalyzeVideoResponse)
    ensures req.path == AnalyzePath && req.contentType == "multipart/form-data" && req.timeoutMs == 120000
    ensures req.form == [("user_id", TextValue(userId)), ("video", FilePart(videoUri, "video.mp4", "video/mp4"))]
    ensures post(req).Responded? ==> res == post(req).body
    ensures post(req).PostFailed? ==> res == Fallback(now)
  {
    var form := new FormData();
    form.Append("user_id", TextValue(userId));
    form.Append("video", FilePart(videoUri, VideoPartName, VideoMimeType));
    req := PostRequest(AnalyzePath, form.fields, "multipart/form-data", RequestTimeoutMs);
    match post(req)
    case Responded(body) =>
      res := body;
    case PostFailed(_) =>
      res := Fallback(now);
  }

  /** The path of `GET /get-result/{videoId}`. */
  function GetResultPath(videoId: string): (p: string)
    ensures |p| == |"/get-result/"| + |videoId|
    ensures p[..|"/get-result/"|] == "/get-result/" && p[|"/get-result/"|..] == videoId
  {
    "/get-result/" + videoId
  }

  /**
   * `fetchAnalysisResult`: the body of the GET, or, when it fails, the same
   * error, with no fallback.
   */
  function FetchAnalysisResult(videoId: string, get: string -> Result<AnalysisResultResponse, TransportError>)
    : (r: Result<AnalysisResultResponse, TransportError>)
    ensures get(GetResultPath(videoId)).Failure? ==> r == Failure(get(GetResultPath(videoId)).error)
    ensures get(GetResultPath(videoId)).Success? ==> r == Success(get(GetResultPath(videoId)).value)
  {
    match get(GetResultPath(videoId))
    case Failure(e) => Failure(e)
    case Success(body) => Success(body)
  }
}
