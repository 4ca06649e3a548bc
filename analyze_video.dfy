/**
 * The synchronous analysis endpoint (backend/app/api/endpoints/analyze_video.py):
 * choose a sampling period from the video's duration, extract frames,
 * classify them in batches, and summarise the per-frame verdicts. Every
 * exception becomes an error response.
 */
module AnalyzeVideoEndpoint {
  import opened Wrappers
  import opened DeepfakeDetector
  import opened VideoProcessing

  /** `frame_count / fps`, or 0 when the reported fps is not positive. */
  function Duration(fps: real, frameCount: real): (d: real)
    ensures fps > 0.0 ==> d * fps == frameCount
    ensures fps > 0.0 && frameCount >= 0.0 ==> d >= 0.0
  {
    if fps > 0.0 then frameCount / fps else 0.0
  }

  /** The sampling period in seconds (`frame_rate`), by video duration. */
  function SamplingPeriod(duration: real): (period: real)
    ensures period == 0.5 || period == 1.0 || period == 2.0 || period == 3.0
    ensures period == 0.5 <==> duration <= 5.0
  {
    if duration <= 5.0 then 0.5
    else if duration <= 10.0 then 1.0
    else if duration <= 30.0 then 2.0
    else 3.0
  }

  /** Longer videos are sampled at least as sparsely, between 0.5 s and 3 s. */
  lemma SamplingPeriodMonotone(d1: real, d2: real)
    requires d1 <= d2
    ensures SamplingPeriod(d1) <= SamplingPeriod(d2)
    ensures 0.5 <= SamplingPeriod(d1) <= 3.0
  {
  }

  /** Without a positive fps the duration is 0 and the shortest period, 0.5 s, is used. */
  lemma NoFpsUsesShortestPeriod(fps: real, frameCount: real)
    requires fps <= 0.0
    ensures Duration(fps, frameCount) == 0.0 && SamplingPeriod(Duration(fps, frameCount)) == 0.5
  {
  }

  /** One frame's result: the prediction dictionary merged with the frame's `time`. */
  datatype FrameResult = FrameResult(
    prediction: Prediction,
    time: real,
    fakeConfidence: Option<real>,   // the "fake_confidence" key, when present
    realConfidence: Option<real>)   // the "real_confidence" key, when present

  /** `analyze_single_frame`: `predict_image` of the saved file, plus the frame's time; an exception propagates. */
  function AnalyzeSingleFrame(frame: SavedFrame, predict: string -> Result<Prediction, string>): Result<FrameResult, string> {
    match predict(frame.fileName)
    case Failure(e) => Failure(e)
    case Success(p) => Success(FrameResult(p, frame.time, None, None))
  }

  /** Classifying frames in order: every frame's result, or the first exception. */
  function AnalyzeAll(frames: seq<SavedFrame>, predict: string -> Result<Prediction, string>): (r: Result<seq<FrameResult>, string>)
    ensures r.Success? ==> |r.value| == |frames|
    ensures r.Success? ==> forall k :: 0 <= k < |frames| ==> r.value[k].time == frames[k].time
  {
    if |frames| == 0 then Success([])
    else
      match AnalyzeSingleFrame(frames[0], predict)
      case Failure(e) => Failure(e)
      case Success(x) =>
        match AnalyzeAll(frames[1..], predict)
        case Failure(e) => Failure(e)
        case Success(xs) => Success([x] + xs)
  }

  /** Success exactly when every frame succeeds; then one result per frame, in frame order. */
  lemma {:induction false} AnalyzeAllPerFrame(frames: seq<SavedFrame>, predict: string -> Result<Prediction, string>)
    ensures AnalyzeAll(frames, predict).Success? <==>
      forall k :: 0 <= k < |frames| ==> AnalyzeSingleFrame(frames[k], predict).Success?
    ensures AnalyzeAll(frames, predict).Success? ==>
      |AnalyzeAll(frames, predict).value| == |frames| &&
      forall k :: 0 <= k < |frames| ==> AnalyzeAll(frames, predict).value[k] == AnalyzeSingleFrame(frames[k], predict).value
  {
    if |frames| > 0 {
      AnalyzeAllPerFrame(frames[1..], predict);
      if AnalyzeSingleFrame(frames[0], predict).Success? && AnalyzeAll(frames[1..], predict).Success? {
        forall k | 0 <= k < |frames| ensures AnalyzeSingleFrame(frames[k], predict).Success? {
          if k > 0 {
            assert frames[k] == frames[1..][k - 1];
          }
        }
      }
      if forall k :: 0 <= k < |frames| ==> AnalyzeSingleFrame(frames[k], predict).Success? {
        forall k | 0 <= k < |frames| - 1 ensures AnalyzeSingleFrame(frames[1..][k], predict).Success? {
          assert frames[1..][k] == frames[k + 1];
        }
      }
    }
  }

  /** Classifying a concatenation: the first part, then (if it succeeded) the second. */
  lemma {:induction false} AnalyzeAllAppend(a: seq<SavedFrame>, b: seq<SavedFrame>, predict: string -> Result<Prediction, string>)
    ensures AnalyzeAll(a + b, predict) ==
      match AnalyzeAll(a, predict)
      case Failure(e) => Failure(e)
      case Success(xs) =>
        match AnalyzeAll(b, predict)
        case Failure(e) => Failure(e)
        case Success(ys) => Success(xs + ys)
  {
    if |a| == 0 {
      assert a + b == b;
      if AnalyzeAll(b, predict).Success? {
        assert [] + AnalyzeAll(b, predict).value == AnalyzeAll(b, predict).value;
      }
    } else {
      assert (a + b)[0] == a[0];
      assert (a + b)[1..] == a[1..] + b;
      AnalyzeAllAppend(a[1..], b, predict);
      match AnalyzeAll(a[1..], predict)
      case Failure(e) =>
      case Success(xs) =>
        match AnalyzeAll(b, predict)
        case Failure(e) =>
        case Success(ys) =>
          match AnalyzeSingleFrame(a[0], predict)
          case Failure(e) =>
          case Success(x) =>
            assert [x] + (xs + ys) == ([x] + xs) + ys;
    }
  }

  /** The slices `frames[i:i + size]` for `i` in `range(0, len(frames), size)`. */
  function Batches<T>(xs: seq<T>, size: nat): (bs: seq<seq<T>>)
    requires size >= 1
    ensures |bs| <= |xs|
    ensures |bs| == 0 <==> |xs| == 0
    decreases |xs|
  {
    if |xs| == 0 then []
    else if |xs| <= size then [xs]
    else [xs[..size]] + Batches(xs[size..], size)
  }

  function Flatten<T>(xss: seq<seq<T>>): seq<T> {
    if |xss| == 0 then [] else xss[0] + Flatten(xss[1..])
  }

  /**
   * The batches are consecutive, non-empty, at most `size` long, all but the
   * last exactly `size` long, and together they are the input in order.
   */
  lemma {:induction false} BatchesPartition<T>(xs: seq<T>, size: nat)
    requires size >= 1
    ensures Flatten(Batches(xs, size)) == xs
    ensures forall j :: 0 <= j < |Batches(xs, size)| ==> 1 <= |Batches(xs, size)[j]| <= size
    ensures forall j :: 0 <= j < |Batches(xs, size)| - 1 ==> |Batches(xs, size)[j]| == size
    decreases |xs|
  {
    if |xs| > size {
      BatchesPartition(xs[size..], size);
      var rest := Batches(xs[size..], size);
      assert Batches(xs, size)[1..] == rest;
      assert xs[..size] + xs[size..] == xs;
    } else if |xs| > 0 {
      assert Flatten([xs]) == xs + Flatten([]);
    }
  }

  /** Adding a batch after whole batches adds exactly that batch. */
  lemma {:induction false} BatchesSnoc<T>(xs: seq<T>, chunk: seq<T>, size: nat, wholes: nat)
    requires size >= 1 && |xs| == wholes * size && 1 <= |chunk| <= size
    ensures Batches(xs + chunk, size) == Batches(xs, size) + [chunk]
    decreases wholes
  {
    if wholes == 0 {
      assert xs + chunk == chunk;
    } else {
      assert |xs| >= size;
      var ys := xs + chunk;
      assert ys[..size] == xs[..size];
      assert ys[size..] == xs[size..] + chunk;
      BatchesSnoc(xs[size..], chunk, size, wholes - 1);
      if |xs| == size {
        assert xs[size..] == [];
        assert Batches(xs, size) == [xs];
      }
    }
  }

  function Min(a: int, b: int): int {
    if a <= b then a else b
  }

  /**
   * `analyze_frames_in_parallel`: classifies the frames batch by batch and
   * concatenates the batch results; an exception in any frame propagates.
   * The result equals classifying the frames one by one, in order.
   */
  method AnalyzeFramesInBatches(frames: seq<SavedFrame>, batchSize: nat, predict: string -> Result<Prediction, string>)
    returns (r: Result<seq<FrameResult>, string>, ghost batches: seq<seq<SavedFrame>>)
    requires batchSize >= 1
    ensures r == AnalyzeAll(frames, predict)
    ensures r.Success? ==> batches == Batches(frames, batchSize)
  {
    var results := [];
    var i := 0;
    ghost var wholes := 0;
    batches := [];
    while i < |frames|
      invariant i <= |frames|
      invariant i < |frames| ==> i == wholes * batchSize
      invariant AnalyzeAll(frames[..i], predict) == Success(results)
      invariant batches == Batches(frames[..i], batchSize)
      decreases |frames| - i
    {
      var end := Min(i + batchSize, |frames|);
      var batch := frames[i..end];
      var batchResults := AnalyzeAll(batch, predict);   // list(executor.map(analyze_single_frame, batch))
      BatchStep(frames, i, end, batchSize, wholes, predict);
      if batchResults.Failure? {
        AnalyzeAllPrefixFailure(frames, end, predict);
        return Failure(batchResults.error), batches;
      }
      results := results + batchResults.value;
      batches := batches + [batch];
      i := end;
      wholes := wholes + 1;
    }
    assert frames[..i] == frames;
    return Success(results), batches;
  }

  /** Extending the processed prefix by one batch. */
  lemma BatchStep(frames: seq<SavedFrame>, i: nat, end: nat, size: nat, wholes: nat, predict: string -> Result<Prediction, string>)
    requires size >= 1 && i == wholes * size && i < end <= |frames| && end - i <= size
    requires end == |frames| || end == i + size
    ensures AnalyzeAll(frames[..end], predict) ==
      match AnalyzeAll(frames[..i], predict)
      case Failure(e) => Failure(e)
      case Success(xs) =>
        match AnalyzeAll(frames[i..end], predict)
        case Failure(e) => Failure(e)
        case Success(ys) => Success(xs + ys)
    ensures Batches(frames[..end], size) == Batches(frames[..i], size) + [frames[i..end]]
    ensures end < |frames| ==> end == (wholes + 1) * size
  {
    assert frames[..end] == frames[..i] + frames[i..end];
    AnalyzeAllAppend(frames[..i], frames[i..end], predict);
    BatchesSnoc(frames[..i], frames[i..end], size, wholes);
  }

  /** A failing prefix makes the whole run fail with the same exception. */
  lemma AnalyzeAllPrefixFailure(frames: seq<SavedFrame>, n: nat, predict: string -> Result<Prediction, string>)
    requires n <= |frames| && AnalyzeAll(frames[..n], predict).Failure?
    ensures AnalyzeAll(frames, predict) == AnalyzeAll(frames[..n], predict)
  {
    assert frames == frames[..n] + frames[n..];
    AnalyzeAllAppend(frames[..n], frames[n..], predict);
  }

  // ---- Summarising the per-frame results -------------------------------------------------------

  function Sum(xs: seq<real>): real {
    if |xs| == 0 then 0.0 else Sum(xs[..|xs| - 1]) + xs[|xs| - 1]
  }

  /** `sum(xs) / len(xs) if xs else 0`. */
  function Mean(xs: seq<real>): (m: real)
    ensures |xs| > 0 ==> m * |xs| as real == Sum(xs)
  {
    if |xs| == 0 then 0.0 else Sum(xs) / |xs| as real
  }

  lemma {:induction false} SumBounds(xs: seq<real>, lo: real, hi: real)
    requires forall k :: 0 <= k < |xs| ==> lo <= xs[k] <= hi
    ensures |xs| as real * lo <= Sum(xs) <= |xs| as real * hi
  {
    if |xs| > 0 {
      SumBounds(xs[..|xs| - 1], lo, hi);
      assert |xs| as real * lo == (|xs| - 1) as real * lo + lo;
      assert |xs| as real * hi == (|xs| - 1) as real * hi + hi;
    }
  }

  /** The mean of values in [lo, hi] is in [lo, hi]; with no values it is 0. */
  lemma MeanBounds(xs: seq<real>, lo: real, hi: real)
    requires forall k :: 0 <= k < |xs| ==> lo <= xs[k] <= hi
    ensures |xs| > 0 ==> lo <= Mean(xs) <= hi
    ensures |xs| == 0 ==> Mean(xs) == 0.0
  {
    if |xs| > 0 {
      SumBounds(xs, lo, hi);
      var n := |xs| as real;
      assert Sum(xs) / n * n == Sum(xs);
    }
  }

  /** The "fake_confidence" values present, in result order. */
  function FakeConfidences(results: seq<FrameResult>): seq<real> {
    if |results| == 0 then []
    else
      var last := results[|results| - 1];
      FakeConfidences(results[..|results| - 1]) + (if last.fakeConfidence.Some? then [last.fakeConfidence.value] else [])
  }

  /** The "real_confidence" values present, in result order. */
  function RealConfidences(results: seq<FrameResult>): seq<real> {
    if |results| == 0 then []
    else
      var last := results[|results| - 1];
      RealConfidences(results[..|results| - 1]) + (if last.realConfidence.Some? then [last.realConfidence.value] else [])
  }

  /** The loop that appends each result's "fake_confidence" and "real_confidence", when present. */
  method CollectConfidences(results: seq<FrameResult>) returns (fakes: seq<real>, reals: seq<real>)
    ensures fakes == FakeConfidences(results) && reals == RealConfidences(results)
  {
    fakes, reals := [], [];
    for i := 0 to |results|
      invariant fakes == FakeConfidences(results[..i])
      invariant reals == RealConfidences(results[..i])
    {
      assert results[..i + 1][..i] == results[..i];
      var r := results[i];
      if r.fakeConfidence.Some? {
        fakes := fakes + [r.fakeConfidence.value];
      }
      if r.realConfidence.Some? {
        reals := reals + [r.realConfidence.value];
      }
    }
    assert results[..|results|] == results;
  }

  /** Frames produced by `analyze_single_frame` never carry the two confidence keys. */
  lemma {:induction false} DetectorResultsHaveNoConfidenceKeys(results: seq<FrameResult>)
    requires forall k :: 0 <= k < |results| ==> results[k].fakeConfidence.None? && results[k].realConfidence.None?
    ensures FakeConfidences(results) == [] && RealConfidences(results) == []
    ensures Mean(FakeConfidences(results)) == 0.0 && Mean(RealConfidences(results)) == 0.0
  {
    if |results| > 0 {
      DetectorResultsHaveNoConfidenceKeys(results[..|results| - 1]);
    }
  }

  /** The number of results whose "ensemble_result" is `verdict`. */
  function CountVerdict(results: seq<FrameResult>, verdict: Label): nat {
    if |results| == 0 then 0
    else CountVerdict(results[..|results| - 1], verdict) + (if results[|results| - 1].prediction.ensemble == verdict then 1 else 0)
  }

  /** Every result is FAKE or REAL, so the two counts add up to the total. */
  lemma {:induction false} CountsPartitionTotal(results: seq<FrameResult>)
    ensures CountVerdict(results, Fake) + CountVerdict(results, Real) == |results|
  {
    if |results| > 0 {
      CountsPartitionTotal(results[..|results| - 1]);
    }
  }

  /** `fake_frames / total_frames if total_frames > 0 else 0`. */
  function FakeRatio(fakeFrames: nat, totalFrames: nat): real {
    if totalFrames > 0 then fakeFrames as real / totalFrames as real else 0.0
  }

  /** FAKE when at least half of the frames are FAKE. */
  function FinalLabel(fakeFrames: nat, totalFrames: nat): (l: Label)
    ensures fakeFrames == 0 ==> l == Real
    ensures 0 < totalFrames <= fakeFrames ==> l == Fake
  {
    if FakeRatio(fakeFrames, totalFrames) >= 0.5 then Fake else Real
  }

  /** The verdict is FAKE iff 2 * fake >= total, for a non-empty total; with no frames it is REAL. */
  lemma FinalLabelIff(fakeFrames: nat, totalFrames: nat)
    ensures totalFrames > 0 ==> (FinalLabel(fakeFrames, totalFrames) == Fake <==> 2 * fakeFrames >= totalFrames)
    ensures totalFrames == 0 ==> FinalLabel(fakeFrames, totalFrames) == Real
  {
    if totalFrames > 0 {
      var f, t := fakeFrames as real, totalFrames as real;
      assert FinalLabel(fakeFrames, totalFrames) == if f / t >= 0.5 then Fake else Real;
      assert f / t * t == f;
      if f / t >= 0.5 {
        assert f / t * t >= 0.5 * t;
      } else {
        assert f / t * t < 0.5 * t;
      }
    }
  }

  /** The "video_analysis" summary. */
  datatype VideoAnalysis = VideoAnalysis(
    overallResult: Label,
    overallConfidence: real,
    totalFrames: nat,
    fakeFrames: nat,
    realFrames: nat)

  function Summarize(results: seq<FrameResult>): (a: VideoAnalysis)
    ensures a.totalFrames == |results|
    ensures a.overallResult == Fake ==> a.fakeFrames > 0
  {
    var fakeFrames := CountVerdict(results, Fake);
    VideoAnalysis(
      FinalLabel(fakeFrames, |results|),
      Mean(FakeConfidences(results)),
      |results|,
      fakeFrames,
      CountVerdict(results, Real))
  }

  /**
   * The summary's counts add up, its verdict is the majority rule, and for
   * results produced by `analyze_single_frame` its confidence is always 0.
   */
  lemma SummaryProperties(results: seq<FrameResult>)
    ensures var s := Summarize(results);
      && s.fakeFrames + s.realFrames == s.totalFrames == |results|
      && (s.totalFrames > 0 ==> (s.overallResult == Fake <==> 2 * s.fakeFrames >= s.totalFrames))
      && (s.totalFrames == 0 ==> s.overallResult == Real)
    ensures (forall k :: 0 <= k < |results| ==> results[k].fakeConfidence.None?) ==>
      Summarize(results).overallConfidence == 0.0
  {
    CountsPartitionTotal(results);
    FinalLabelIff(CountVerdict(results, Fake), |results|);
    if forall k :: 0 <= k < |results| ==> results[k].fakeConfidence.None? {
      NoFakeConfidence(results);
    }
  }

  lemma {:induction false} NoFakeConfidence(results: seq<FrameResult>)
    requires forall k :: 0 <= k < |results| ==> results[k].fakeConfidence.None?
    ensures FakeConfidences(results) == []
  {
    if |results| > 0 {
      NoFakeConfidence(results[..|results| - 1]);
    }
  }

  /** The loop that attaches details to each timeline segment. */
  method DetailSegments<S, D>(timeline: seq<S>, details: S -> D) returns (detailed: seq<(S, D)>)
    ensures |detailed| == |timeline|
    ensures forall k :: 0 <= k < |timeline| ==> detailed[k] == (timeline[k], details(timeline[k]))
  {
    detailed := [];
    for k := 0 to |timeline|
      invariant |detailed| == k
      invariant forall j :: 0 <= j < k ==> detailed[j] == (timeline[j], details(timeline[j]))
    {
      detailed := detailed + [(timeline[k], details(timeline[k]))];
    }
  }

  // ---- The endpoint ----------------------------------------------------------------------------

  datatype VideoInfo = VideoInfo(duration: real, fps: real, frameCount: real, frameRateUsed: real)

  datatype EndpointError =
    | ExtractionFailed(cause: ExtractError)
    | NoFrames
    | FrameAnalysisFailed(message: string)
    | HelperFailed(message: string)   // raised by the audio, timeline, summary, detail or save helper

  /** The JSON the endpoint returns: the analysis, or `{"error": ..., "video_name": ...}`. */
  datatype Response<S, D> =
    | ErrorResponse(error: EndpointError, videoName: string)
    | AnalysisResponse(
        videoName: string,
        userId: string,
        videoInfo: VideoInfo,
        timeline: seq<(S, D)>,
        videoAnalysis: VideoAnalysis,
        rawFrameResults: seq<FrameResult>)

  const AnalysisBatchSize := 3

  /**
   * `analyze_video`: `fps` and `frameCount` are what the capture reports,
   * `outcomes` the read outcomes, `predict` the detector, and `smartTimeline`
   * and `segmentDetails` the timeline helpers, which are not part of this model.
   * `helperError` is the first exception raised after the frames are analysed
   * by the audio analysis, the timeline, summary or detail helpers, or saving.
   */
  method AnalyzeVideo<S, D>(
    userId: string, videoName: string, fps: real, frameCount: real, outcomes: seq<bool>,
    predict: string -> Result<Prediction, string>,
    smartTimeline: seq<FrameResult> -> seq<S>,
    segmentDetails: (S, VideoAnalysis) -> D,
    helperError: Option<string>)
    returns (resp: Response<S, D>)
    ensures var period := SamplingPeriod(Duration(fps, frameCount));
      var extracted := ExtractedFrames(fps, period, outcomes);
      && (extracted.Failure? ==> resp == ErrorResponse(ExtractionFailed(extracted.error), videoName))
      && (extracted == Success([]) ==> resp == ErrorResponse(NoFrames, videoName))
      && (extracted.Success? && extracted.value != [] && AnalyzeAll(extracted.value, predict).Failure? ==>
            resp == ErrorResponse(FrameAnalysisFailed(AnalyzeAll(extracted.value, predict).error), videoName))
      && (extracted.Success? && extracted.value != [] && AnalyzeAll(extracted.value, predict).Success? ==>
            if helperError.Some? then resp == ErrorResponse(HelperFailed(helperError.value), videoName)
            else resp.AnalysisResponse?)
      && (resp.AnalysisResponse? ==>
            && helperError.None?
            && extracted.Success? && extracted.value != []
            && AnalyzeAll(extracted.value, predict) == Success(resp.rawFrameResults)
            && resp.videoName == videoName && resp.userId == userId
            && resp.videoInfo == VideoInfo(Duration(fps, frameCount), fps, frameCount, period)
            && resp.videoAnalysis == Summarize(resp.rawFrameResults)
            && |resp.timeline| == |smartTimeline(resp.rawFrameResults)|
            && forall k :: 0 <= k < |resp.timeline| ==>
                 resp.timeline[k] == (smartTimeline(resp.rawFrameResults)[k],
                                      segmentDetails(smartTimeline(resp.rawFrameResults)[k], resp.videoAnalysis)))
  {
    var duration := Duration(fps, frameCount);
    var frameRate := SamplingPeriod(duration);
    var extracted := ExtractFrames(fps, frameRate, outcomes);
    if extracted.Failure? {
      return ErrorResponse(ExtractionFailed(extracted.error), videoName);
    }
    var frames := extracted.value;
    if frames == [] {
      return ErrorResponse(NoFrames, videoName);
    }
    var analysed, _ := AnalyzeFramesInBatches(frames, AnalysisBatchSize, predict);
    if analysed.Failure? {
      return ErrorResponse(FrameAnalysisFailed(analysed.error), videoName);
    }
    if helperError.Some? {
      return ErrorResponse(HelperFailed(helperError.value), videoName);
    }
    var results := analysed.value;
    var fakes, reals := CollectConfidences(results);
    var fakeFrames := CountVerdict(results, Fake);
    var totalFrames := |results|;
    var finalLabel := FinalLabel(fakeFrames, totalFrames);
    var videoAnalysis := VideoAnalysis(finalLabel, Mean(fakes), totalFrames, fakeFrames, CountVerdict(results, Real));
    var timeline := smartTimeline(results);
    var detailed := DetailSegments(timeline, s => segmentDetails(s, videoAnalysis));
    resp := AnalysisResponse(videoName, userId, VideoInfo(duration, fps, frameCount, frameRate), detailed, videoAnalysis, results);
  }
}
