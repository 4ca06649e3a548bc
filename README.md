# Deepfake detector app — capture orchestration and detection decisions in Dafny

This project models two parts of the deepfake-detector app.

The first part is the mobile client's capture-and-submission orchestration:
- the record screen's state machine (`RecordScreen`) covers the capture mode, camera readiness and re-keying, recording with its one-second start delay, the facing toggle and the `busy`-guarded analysis pipelines. A pipeline uploads, falls back to the local file when the upload fails, analyses, then navigates to the Result screen;
- the upload screen (`UploadScreen`) picks a video and runs a pipeline in which a failed upload aborts;
- the API client (`AnalysisApi`) builds the multipart request. It replaces any failed request with a fixed fallback result, so it never fails. `fetchAnalysisResult` passes errors on unchanged.

The second part is the backend's decision logic:
- the label mapping and the two-model ensemble vote (`DeepfakeDetector`);
- the load-once logic of both detector services (`DeepfakeDetector.ModelStore`, `DeepfakeDetectorOptimized.OptimizedModelStore`);
- frame sampling in `extract_frames` (`VideoProcessing`);
- the analysis endpoint (`AnalyzeVideoEndpoint`): it picks the sampling period by duration, classifies frames in batches of three, averages confidences, and reaches a verdict from the fraction of fake frames.

## How the model is built

Each screen is a class whose fields are the screen's `useState` hooks. More fields record what happens outside the screen:
- the pipelines in flight: on the upload screen at most one (idle, uploading or analysing); on the record screen a sequence of them (`flights`), each uploading or analysing;
- a log of their effects: upload started, analysis requested, navigated;
- on the record screen, the starts waiting out their one second (`pendingStarts`) and the `recordAsync` calls not yet settled (`recordings`).

Every handler, effect and callback is one method. Its postcondition ties the new state to a pure transition function over a `SessionState` value: on the record screen that is the event's own function (`WaitElapsed`, `UploadDone`, `AnalysisDone`, ...), which `Step` dispatches to; on the upload screen it is `Step` itself. The lemmas about `Step` and `Run` (a sequence of events) state the screen's guarantees, so they hold for every sequence of event methods called from the constructor. On the record screen `SetMode` and `HandleAnalyze` are helpers that the event methods call, not events: calling `SetMode` on its own while busy, say, skips the busy guard of `PressMode`, so `BusyDisablesControls` says nothing about it. The invariant `Inv` does survive both helpers: `SetMode` writes none of the fields it reads, and `AnalysisBegunInv` proves that `HandleAnalyze` keeps the pipeline part, the only part it writes, whatever `busy` it is given. The upload screen's class also carries its invariant on each method (`Valid`): `busy` is true exactly while the pipeline is in flight, and the log is a sequence of complete runs. The record screen's invariant is proved once over the transitions (`RecordScreen.RunInv`):
- `busy` implies some flight is in flight;
- every started upload has either navigated or is still in flight, and every analysis request has either navigated or is awaited by its flight;
- every flight under analysis submitted its URI with `user123`;
- `recording` implies a `recordAsync` is outstanding.

`cameraKey` never decreases, and each control is gated as described below.

A handler sees the `busy` of the render that created it. The callback that ends a recording (RecordScreen.tsx:128-136) calls the `handleAnalyze` of the render in which the record button was pressed; that button is disabled while busy, so its guard (line 191) sees `busy` false. `RecordScreen.Step` keeps this, and more than one pipeline can then be in flight (see Findings). `RecordScreen.GuardedStep` differs only in that this guard reads the current `busy`; for it `RecordScreen.GuardedRunInv` proves single flight: at most one flight, `busy` exactly while it runs, and a log of complete runs each navigating with the URI it submitted.

A user press takes effect only when its control is rendered and not `disabled`. The outcomes of the camera, the image picker, the permission prompts, the upload and the analysis request are all event parameters. Each `await` splits a handler into events: the press, the upload settling, and the analysis settling.

`analyzeVideo` never rejects. So `handleAnalyze`'s `catch` branch on the record screen (RecordScreen.tsx:226-228) is unreachable: once a pipeline starts, it always ends by navigating to Result and clearing `busy`, whatever other pipelines are still in flight.

On the backend, functions whose classes and loops the source has are methods, each proved against a specification function:
- `ExtractFrames` against `ExtractedFrames`;
- `AnalyzeFramesInBatches` against `AnalyzeAll`;
- `CollectConfidences` against `FakeConfidences` and `RealConfidences`;
- `PredictBatch` against `Predict`.

The lemmas then state the promised properties of those functions. The two detector services keep their four module globals (and the `models_loaded` flag) as fields of a class. The model inference is a parameter `classify` mapping an image and a model to a raw class name and a confidence.

Python's `int()` truncates toward zero, and the model writes this out (`VideoProcessing.Truncate`). For `frame_count % frame_interval == 0`, Dafny's Euclidean `%` and Python's floored `%` agree on whether the remainder is zero, for every non-zero interval.

With an interval that truncates to 0, the first successful read raises `ZeroDivisionError`. The model keeps this as an error result (`ExtractError.ZeroDivision`), and the endpoint turns it into an error response.

The endpoint calls `predict_image` from `deepfake_detector.py`. That function's dictionary has no `fake_confidence` or `real_confidence` key. So `overall_confidence` is always 0, and `AnalyzeVideoEndpoint.SummaryProperties` proves it.

Details of the code that the model keeps:
- the camera-init timeout is 5000 ms (RecordScreen.tsx:64). When it fires, it sets `ready` to false;
- `onCameraReady` and `onMountError` carry no camera generation. Only re-keying the `Camera` component separates mounts;
- `startRecording` neither checks nor sets `busy`. Only the record button's `disabled` gates it;
- the fallback timeline is normal, normal, suspect, normal, normal;
- the fallback's `status` is `'completed'`, the same as a genuine result;
- `fetchAnalysisResult` returns the get-result body as it is, with no conversion to the submit schema.

## Model

| member | source | states |
|---|---|---|
| Text.ContainsIff | backend/app/services/deepfake_detector.py:51 | Python's `in` on strings: the recursive search succeeds exactly when the pattern occurs at some index |
| DeepfakeDetector.MapLabel | backend/app/services/deepfake_detector.py:49-55 | a FAKE label always has a reason: "fake" in the lower-cased name, or the name "1" or "LABEL_1"; a name whose lower case holds "real" but not "fake" is REAL |
| DeepfakeDetector.MapLabelFakeIff | backend/app/services/deepfake_detector.py:49-55 | `map_label` is FAKE iff "fake" occurs in the lower-cased label, or the label is exactly "1" or "LABEL_1" with no "real" in it; otherwise REAL. The optimised service's `map_label` (deepfake_detector_optimized.py:76-83) has the same rules |
| DeepfakeDetector.MapLabelFakeWins | backend/app/services/deepfake_detector.py:50-52 | "fake" is checked before "real": a label holding both is FAKE |
| DeepfakeDetector.MapLabelDeepfake | backend/app/services/deepfake_detector.py:50-51 | "Deepfake" is FAKE: the "fake" test runs on the lower-cased name |
| DeepfakeDetector.MapLabelRealism | backend/app/services/deepfake_detector.py:50-52 | "Realism" is REAL through the lower-cased "real" test |
| DeepfakeDetector.MapLabelNumberedReal | backend/app/services/deepfake_detector.py:53 | "LABEL_0" is REAL |
| DeepfakeDetector.MapLabelNumberedFake | backend/app/services/deepfake_detector.py:54 | "LABEL_1" is FAKE |
| DeepfakeDetector.MapLabelLowercaseNumbered | backend/app/services/deepfake_detector.py:53-55 | the numbered names are compared before lower-casing, so "label_1" falls through to the default REAL |
| DeepfakeDetector.MapLabelBareIndices | backend/app/services/deepfake_detector.py:53-55 | "0" is REAL, "1" is FAKE, and an unmatched name such as "2" gets the default REAL |
| DeepfakeDetector.EnsembleLabel | backend/app/services/deepfake_detector.py:79 | the ensemble is REAL only when both models say REAL |
| DeepfakeDetector.EnsembleFakeIff | backend/app/services/deepfake_detector.py:79 | the ensemble is FAKE iff at least one model says FAKE, and the vote is symmetric. The optimised service (deepfake_detector_optimized.py:111) counts FAKE votes the same way |
| DeepfakeDetector.LoadedSlots | backend/app/services/deepfake_detector.py:20-47 | one loading attempt sets all four globals or none; a success stores the loaded processor and model of the first pair, and off the CPU the loaded second (ViT) pair, while on the CPU the second pair aliases the first |
| DeepfakeDetector.Predict | backend/app/services/deepfake_detector.py:57-87 | a prediction succeeds iff both models classify; model 1 runs first, so its exception is the one raised, and model 2's is raised only after model 1 succeeded |
| DeepfakeDetector.PredictShape | backend/app/services/deepfake_detector.py:57-87 | a successful prediction needs both models to classify; each per-model entry is that model's mapped label and confidence, the ensemble is the vote on the two labels, and the confidence is their mean (so between the two, and in [0, 1] when both are) |
| DeepfakeDetector.SharedModelEnsembleIsModel1 | backend/app/services/deepfake_detector.py:30-33 | with the aliased CPU model, both votes are equal and the ensemble is model 1's verdict |
| DeepfakeDetector.ModelStore.constructor | backend/app/services/deepfake_detector.py:9-12 | all four globals start as None |
| DeepfakeDetector.ModelStore.LoadModels | backend/app/services/deepfake_detector.py:14-47 | loads only while `processor1` is None, so calls after a success change nothing; a failure leaves all four None; on the CPU the second pair aliases the first |
| DeepfakeDetector.ModelStore.PredictImage | backend/app/services/deepfake_detector.py:57-87 | loads if needed, then opens the image: an `Image.open` error is raised first, even after a failed load; otherwise, after a failed load, the call on the None processor raises, and after a success both models predict |
| DeepfakeDetectorOptimized.OptimizedModelStore.constructor | backend/app/services/deepfake_detector_optimized.py:12-16 | globals None and `models_loaded` false |
| DeepfakeDetectorOptimized.OptimizedModelStore.LoadModels | backend/app/services/deepfake_detector_optimized.py:19-68 | returns True at once without reloading when the flag is set; a success sets the flag and returns True; a failure resets all four globals, clears the flag and returns False |
| DeepfakeDetectorOptimized.OptimizedModelStore.EnsureModelsLoaded | backend/app/services/deepfake_detector_optimized.py:70-74 | True when already loaded, otherwise the result of `load_models` |
| DeepfakeDetectorOptimized.OptimizedModelStore.PredictImage | backend/app/services/deepfake_detector_optimized.py:85-128 | never raises: a failed load gives the load-error dictionary, an exception gives an error dictionary, otherwise the prediction |
| DeepfakeDetectorOptimized.OptimizedModelStore.PredictBatch | backend/app/services/deepfake_detector_optimized.py:130-144 | exactly one result per image, in input order: all load errors when loading fails, otherwise each image's `predict_image` result |
| VideoProcessing.FrameInterval | backend/app/services/video_processing.py:9 | with a positive fps the interval is the whole number of frames in one period (x − 1 < interval ≤ x for x = fps · frame_rate); without one it is 1 |
| VideoProcessing.FrameIntervalZero | backend/app/services/video_processing.py:9 | the interval `int(fps * frame_rate)` is 0 exactly when less than one frame fits in the period |
| VideoProcessing.ReadableFrames | backend/app/services/video_processing.py:13-16 | the frame count reached is the number of successful reads before the first failed one |
| VideoProcessing.SampledFrames | backend/app/services/video_processing.py:11-22 | at most n frames are saved from n frames read, every one with an index below n |
| VideoProcessing.ExtractedFrames | backend/app/services/video_processing.py:4-24 | a success saves no more frames than were read before the first failed read, all among them; the only failure is the zero-interval `ZeroDivisionError` |
| VideoProcessing.ExtractFrames | backend/app/services/video_processing.py:4-24 | the read loop gives the sampled frames among the frames read; a zero interval raises on the first frame read |
| VideoProcessing.SampledFramesAreMultiples | backend/app/services/video_processing.py:11-22 | the j-th saved frame is frame j·interval; the count covers n and no more |
| VideoProcessing.SampledFramesMembership | backend/app/services/video_processing.py:17 | frame i < n is saved iff i mod interval = 0 |
| VideoProcessing.SampledFrameCount | backend/app/services/video_processing.py:17 | ⌈n / interval⌉ frames are saved, and frame 0 is saved whenever n ≥ 1 |
| VideoProcessing.SampledFileNamesDistinct | backend/app/services/video_processing.py:19 | saved indices strictly ascend and the `frame_{i}.jpg` names are pairwise distinct |
| VideoProcessing.SampledTimesAscending | backend/app/services/video_processing.py:18 | timestamps are i / fps and strictly ascend when fps > 0; all are 0 otherwise |
| AnalyzeVideoEndpoint.Duration | backend/app/api/endpoints/analyze_video.py:63 | with a positive fps, duration × fps is the frame count, and it is non-negative for a non-negative count |
| AnalyzeVideoEndpoint.SamplingPeriod | backend/app/api/endpoints/analyze_video.py:67-74 | the period is one of 0.5, 1, 2 and 3 s, and 0.5 s exactly for videos of at most 5 s |
| AnalyzeVideoEndpoint.SamplingPeriodMonotone | backend/app/api/endpoints/analyze_video.py:67-74 | the period is non-decreasing in the duration and lies in [0.5, 3] |
| AnalyzeVideoEndpoint.NoFpsUsesShortestPeriod | backend/app/api/endpoints/analyze_video.py:63-68 | with fps ≤ 0 the duration is 0 and the period is 0.5 s |
| AnalyzeVideoEndpoint.AnalyzeAll | backend/app/api/endpoints/analyze_video.py:13-14 | a success gives one result per frame, each carrying its own frame's time |
| AnalyzeVideoEndpoint.AnalyzeAllPerFrame | backend/app/api/endpoints/analyze_video.py:13-14 | classifying succeeds iff every frame does, giving one result per frame in frame order |
| AnalyzeVideoEndpoint.Batches | backend/app/api/endpoints/analyze_video.py:21-22 | never more batches than frames, and no batch exactly when there are no frames |
| AnalyzeVideoEndpoint.BatchesPartition | backend/app/api/endpoints/analyze_video.py:21-22 | batches are non-empty consecutive slices of at most `batch_size`, all full but the last, concatenating to the input |
| AnalyzeVideoEndpoint.AnalyzeFramesInBatches | backend/app/api/endpoints/analyze_video.py:16-34 | the batch loop equals classifying frame by frame in order, and it walked exactly those batches |
| AnalyzeVideoEndpoint.CollectConfidences | backend/app/api/endpoints/analyze_video.py:98-105 | collects each present confidence, in result order |
| AnalyzeVideoEndpoint.Mean | backend/app/api/endpoints/analyze_video.py:107-108 | for a non-empty list, the mean times the count is the sum |
| AnalyzeVideoEndpoint.MeanBounds | backend/app/api/endpoints/analyze_video.py:107-108 | the mean of values in [lo, hi] stays in [lo, hi], and is 0 with no values |
| AnalyzeVideoEndpoint.DetectorResultsHaveNoConfidenceKeys | backend/app/api/endpoints/analyze_video.py:101-108 | results without the two keys give empty lists and means of 0 |
| AnalyzeVideoEndpoint.CountsPartitionTotal | backend/app/api/endpoints/analyze_video.py:131-134 | fake frames plus real frames equals total frames |
| AnalyzeVideoEndpoint.FinalLabel | backend/app/api/endpoints/analyze_video.py:110-115 | no FAKE frame gives REAL, and all frames FAKE (at least one) gives FAKE |
| AnalyzeVideoEndpoint.FinalLabelIff | backend/app/api/endpoints/analyze_video.py:111-115 | FAKE iff 2·fake ≥ total when total > 0; REAL when there are no results |
| AnalyzeVideoEndpoint.Summarize | backend/app/api/endpoints/analyze_video.py:128-134 | the total is the number of results, and a FAKE verdict needs at least one FAKE frame |
| AnalyzeVideoEndpoint.SummaryProperties | backend/app/api/endpoints/analyze_video.py:128-134 | the summary's counts add up, its verdict is the majority rule, and it reports confidence 0 for results from `predict_image` |
| AnalyzeVideoEndpoint.DetailSegments | backend/app/api/endpoints/analyze_video.py:139-145 | exactly one detailed segment per timeline segment, in the same order, each with its details |
| AnalyzeVideoEndpoint.AnalyzeVideo | backend/app/api/endpoints/analyze_video.py:36-182 | extraction errors, an empty frame list, frame errors and then an exception from the audio, timeline, summary, detail or save helpers become `{error, video_name}` responses, in that order; a full response only when none of them occurs, carrying the per-frame results in order and their summary |
| AnalysisApi.FormData.constructor | frontend/src/api/index.ts:46 | a new form has no fields |
| AnalysisApi.FormData.Append | frontend/src/api/index.ts:48-56 | each append adds one field after the existing ones |
| AnalysisApi.Fallback | frontend/src/api/index.ts:76-87 | five entries with t = 0..4 strictly ascending; scores 0.85, 0.92, 0.15, 0.88, 0.91; only t = 2 suspect; id `fallback_` + timestamp; score 0.87; status 'completed' |
| AnalysisApi.FallbackIdsDistinct | frontend/src/api/index.ts:77-86 | fallbacks differ only in their id, and ids are equal iff the timestamps are |
| AnalysisApi.AnalyzeVideo | frontend/src/api/index.ts:37-91 | posts exactly `user_id` and the `video.mp4`/`video/mp4` part with the given uri, to `/analyze-video/` with a 120000 ms timeout; returns the body, or the fallback on any error |
| AnalysisApi.GetResultPath | frontend/src/api/index.ts:29 | the path is "/get-result/" followed by the video id, unchanged |
| AnalysisApi.FetchAnalysisResult | frontend/src/api/index.ts:27-35 | returns the GET body, and on failure the same error, with no fallback |
| ScreenTypes.TimelineParam | frontend/src/screens/RecordScreen.tsx:219 | the timeline is passed on iff the response's timeline is an array |
| UploadScreen.Step | frontend/src/screens/UploadScreen.tsx:26-71 | every event appends at most one effect to the log and keeps the earlier ones |
| UploadScreen.MediaPermission | frontend/src/screens/UploadScreen.tsx:18-23 | already granted: true with no prompt; otherwise the prompt's answer |
| UploadScreen.InitialInv | frontend/src/screens/UploadScreen.tsx:14-15 | the initial state (no video, not busy) satisfies the invariant |
| UploadScreen.StepInv | frontend/src/screens/UploadScreen.tsx:45-71 | every event keeps the invariant: `busy` iff a pipeline is in flight, and the log is runs that are an aborted upload or upload, analysis and navigation with the uploaded URL |
| UploadScreen.RunInv | frontend/src/screens/UploadScreen.tsx:45-71 | the invariant holds after any sequence of events |
| UploadScreen.PressAnalyzeGuards | frontend/src/screens/UploadScreen.tsx:46-53 | without a video, or while busy, pressing analyse changes nothing; otherwise `busy` is set and the upload starts |
| UploadScreen.UploadFailureAborts | frontend/src/screens/UploadScreen.tsx:54-70 | a failed upload requests no analysis and no navigation, and clears `busy` |
| UploadScreen.UploadSuccessNavigates | frontend/src/screens/UploadScreen.tsx:54-64 | a successful upload analyses the uploaded URL; navigation then carries that URL and the array timeline, and clears `busy` |
| UploadScreen.PickUpdatesOnlyOnAsset | frontend/src/screens/UploadScreen.tsx:26-42 | denied permission leaves the selection unchanged; only a non-cancelled pick whose first asset has a uri changes it |
| UploadScreen.Session.constructor | frontend/src/screens/UploadScreen.tsx:14-15 | no video selected, not busy |
| UploadScreen.Session.PickVideo | frontend/src/screens/UploadScreen.tsx:26-42 | opens the picker iff permission is granted, and then takes the first asset's uri when present |
| UploadScreen.Session.PressAnalyze | frontend/src/screens/UploadScreen.tsx:45-54 | the analyse button (disabled without a video or while busy, line 83) starts the upload and sets `busy` |
| UploadScreen.Session.UploadSettled | frontend/src/screens/UploadScreen.tsx:54-70 | success requests analysis of the uploaded URL; failure ends with `busy` false |
| UploadScreen.Session.AnalysisSettled | frontend/src/screens/UploadScreen.tsx:57-70 | navigates with the uploaded URL and the array timeline, and clears `busy` |
| RecordScreen.Step | frontend/src/screens/RecordScreen.tsx:41-231 | every event adds at most one effect to the log and starts at most one pipeline |
| RecordScreen.InitialInv | frontend/src/screens/RecordScreen.tsx:23-38 | the initial state satisfies the invariant |
| RecordScreen.OtherEventsKeepPipeline | frontend/src/screens/RecordScreen.tsx:41-163 | permission, mode, camera, recording, stop and facing events leave `busy`, the pipelines and the log alone |
| RecordScreen.StepInv | frontend/src/screens/RecordScreen.tsx:190-231 | every event keeps the invariant: `busy` only with a pipeline in flight; each started upload has navigated or is in flight; each analysis request has navigated or is awaited; every analysed URI was requested with `user123`; `recording` only with a `recordAsync` outstanding |
| RecordScreen.RunInv | frontend/src/screens/RecordScreen.tsx:190-231 | the invariant holds after any sequence of events |
| RecordScreen.CameraKeyStep | frontend/src/screens/RecordScreen.tsx:81-87 | `cameraKey` changes only on a switch into camera mode, which increments it by exactly one and clears `ready` |
| RecordScreen.CameraKeyMonotone | frontend/src/screens/RecordScreen.tsx:85 | `cameraKey` never decreases over any sequence of events |
| RecordScreen.CompletionIgnoresBusy | frontend/src/screens/RecordScreen.tsx:128-136 | a recording that ends with a uri starts a new pipeline and sets `busy`, even when a pipeline is already in flight |
| RecordScreen.BeginSetsBusy | frontend/src/screens/RecordScreen.tsx:190-203 | past its guard, `handleAnalyze` sets `busy` and starts the upload under `recorded_<now>.mp4`; a guard that sees `busy` changes nothing |
| RecordScreen.UploadFallsBackToLocal | frontend/src/screens/RecordScreen.tsx:200-216 | a failed upload still requests analysis, with the local URI; a successful one uses the uploaded URL |
| RecordScreen.AnalysisNavigates | frontend/src/screens/RecordScreen.tsx:216-231 | navigation carries the URI that pipeline submitted with `user123` and the timeline only when it is an array; the pipeline ends and `busy` is cleared |
| RecordScreen.FirstFlightClearsBusy | frontend/src/screens/RecordScreen.tsx:229-231 | when the older of two pipelines finishes, its `finally` clears `busy` while the other is still in flight |
| RecordScreen.StaleBusyStartsSecondPipeline | frontend/src/screens/RecordScreen.tsx:128-136 | record, switch to the gallery while recording, pick a video, and let the recording end: two pipelines are in flight; after the first finishes, `busy` is false with the second still running; the guarded screen keeps only the first |
| RecordScreen.GuardedCompletionWhileBusy | frontend/src/screens/RecordScreen.tsx:190-191 | when the guard reads the current `busy`, a recording that ends while busy starts nothing |
| RecordScreen.GuardedStepInv | frontend/src/screens/RecordScreen.tsx:190-231 | when the guard reads the current `busy`, every event keeps single flight: at most one pipeline, `busy` exactly while it runs, and the log complete runs each navigating with the URI it submitted |
| RecordScreen.GuardedRunInv | frontend/src/screens/RecordScreen.tsx:190-231 | single flight holds after any sequence of events of the guarded screen |
| RecordScreen.StartRecordingGuards | frontend/src/screens/RecordScreen.tsx:97-120 | the press never sets `recording`; it starts the one-second wait iff the button is enabled, the camera is ready, the microphone is granted and the camera is attached; not ready or a denied microphone changes nothing |
| RecordScreen.WaitStartsRecording | frontend/src/screens/RecordScreen.tsx:120-150 | when a wait ends, `recording` becomes true and a `recordAsync` starts if a camera is attached then; otherwise the catch sets `recording` back to false |
| RecordScreen.DoubleStartDuringWait | frontend/src/screens/RecordScreen.tsx:97-128 | two presses within one wait start two `recordAsync` calls |
| RecordScreen.RecordingWithoutReady | frontend/src/screens/RecordScreen.tsx:81-87 | leaving and re-entering camera mode during the wait starts recording while `ready` is false |
| RecordScreen.RecordSettledClearsRecording | frontend/src/screens/RecordScreen.tsx:128-142 | completion or failure leaves `recording` false with one fewer recording outstanding; the log changes iff the result has a uri, whatever `busy` is |
| RecordScreen.BusyDisablesControls | frontend/src/screens/RecordScreen.tsx:275-396 | mode buttons, record, facing and gallery do nothing while busy |
| RecordScreen.FacingToggle | frontend/src/screens/RecordScreen.tsx:381-387 | the toggle flips back and front only when the camera shows and is neither recording nor busy; twice restores the facing |
| RecordScreen.StopOnlyWhileRecording | frontend/src/screens/RecordScreen.tsx:154-163 | the camera's stop is called only with a camera attached and a recording in progress |
| RecordScreen.CameraReadyClearsTimeout | frontend/src/screens/RecordScreen.tsx:314-318 | `onCameraReady` sets `ready` and clears `initTimeout`, leaving the key alone |
| RecordScreen.Session.constructor | frontend/src/screens/RecordScreen.tsx:23-38 | select mode, back camera, key 0, nothing answered, not busy, nothing in flight |
| RecordScreen.Session.MountPermissions | frontend/src/screens/RecordScreen.tsx:41-47 | the mount prompts record both answers |
| RecordScreen.Session.EnsurePermissions | frontend/src/screens/RecordScreen.tsx:89-95 | prompts for the camera iff not granted and for the microphone iff not granted, recording the answers |
| RecordScreen.Session.SetMode | frontend/src/screens/RecordScreen.tsx:81-87 | a change of mode, re-keying and un-readying the camera when entering camera mode |
| RecordScreen.Session.PressMode | frontend/src/screens/RecordScreen.tsx:275-293 | mode buttons are ignored while busy (also lines 336-362) |
| RecordScreen.Session.InitTimeoutFired | frontend/src/screens/RecordScreen.tsx:50-64 | in camera mode and not ready: `initTimeout` set, `ready` false, the alert opened |
| RecordScreen.Session.AlertChoice | frontend/src/screens/RecordScreen.tsx:56-63 | the timeout alert switches to select or gallery; the mount-error alert (line 322) to gallery |
| RecordScreen.Session.CameraReady | frontend/src/screens/RecordScreen.tsx:314-318 | the mounted camera becomes ready |
| RecordScreen.Session.CameraMountError | frontend/src/screens/RecordScreen.tsx:319-324 | opens the alert offering the gallery |
| RecordScreen.Session.PressRecord | frontend/src/screens/RecordScreen.tsx:97-120 | reports NotReady, MicDenied, NoCamera or Started, and begins the one-second wait only for Started |
| RecordScreen.Session.StartWaitElapsed | frontend/src/screens/RecordScreen.tsx:120-150 | ends the oldest wait: `recording` set and a `recordAsync` started with a camera attached, `recording` cleared by the catch without one |
| RecordScreen.Session.HandleAnalyze | frontend/src/screens/RecordScreen.tsx:190-203 | nothing when the `busy` its closure sees is true; otherwise `busy` set and a new pipeline's upload started |
| RecordScreen.Session.RecordSettled | frontend/src/screens/RecordScreen.tsx:128-142 | clears `recording`, analysing a result with a uri through the press's `handleAnalyze`, which sees `busy` false |
| RecordScreen.Session.PressStop | frontend/src/screens/RecordScreen.tsx:154-163 | calls the camera's stop only while recording with the camera attached |
| RecordScreen.Session.PressFacing | frontend/src/screens/RecordScreen.tsx:381-387 | flips the facing when enabled |
| RecordScreen.Session.PressGallery | frontend/src/screens/RecordScreen.tsx:165-188 | analyses the first picked asset; a cancelled or failed pick does nothing |
| RecordScreen.Session.UploadSettled | frontend/src/screens/RecordScreen.tsx:200-216 | the given pipeline requests analysis of the uploaded URL, or of the local URI on failure |
| RecordScreen.Session.AnalysisSettled | frontend/src/screens/RecordScreen.tsx:216-231 | the given pipeline navigates with its URI and the array timeline, ends, and clears `busy` |

## Findings

| source | as written | input that shows it | evidently intended | confidence | as-written member | corrected member |
|---|---|---|---|---|---|---|
| frontend/src/screens/RecordScreen.tsx:128-136 | the recording's completion calls the `handleAnalyze` of the render where the record button was pressed, whose `busy` (line 191) is always false; the mode buttons are disabled only by `busy` | record, switch to the gallery while recording, pick a video, then the recording ends with a uri: two pipelines run at once, and the first one's `finally` clears `busy` while the second is in flight | the guard at line 191 sees the current `busy`, so at most one pipeline is in flight and `busy` is true exactly while it runs | medium; not executed | RecordScreen.StaleBusyStartsSecondPipeline | RecordScreen.GuardedRunInv |

## Left out

- Alerts and logging: the text of alerts and `console` output are not modelled. Only the two alerts whose buttons change the mode exist in the model. If several are open, only the latest one is kept.
- Rendering, styles, the navigator and the Home and Result screens are not part of this model. Navigation is logged as its parameters.
- Timers are events, not time. The 5000 ms init timer is `InitTimeoutFired`. The 1000 ms wait in `startRecording` (RecordScreen.tsx:120) ends with `StartWaitElapsed`; waits end in the order they began.
- RecordScreen.Session: its methods do not repeat the pipeline invariant in their own contracts. Each states its exact new state as its event's transition, and the invariant is proved once over those transitions (RecordScreen.RunInv).
- RecordScreen.Step: the microphone prompt of `startRecording` (RecordScreen.tsx:109) and the image picker (RecordScreen.tsx:169-174) resolve within their press, so no other event runs while they are open. The gallery's `handleAnalyze` therefore sees the `busy` of its own press, which is the current one. UploadScreen.Step likewise reads `busy` at the press of the analyse button.
- The effect at RecordScreen.tsx:70-78 is not modelled. Its cleanup runs on unmount and whenever `recording` changes, and when the previous `recording` was true it calls the camera's `stopRecording`, which ends nothing further once the recording has settled. These calls are not counted in `stopRequests`. Other React effect scheduling is modelled as atomic with the state change that triggers it.
- Whether the camera reference is attached is an input, `cameraAttached`. A synchronous throw from `recordAsync` is not distinguished from a missing camera.
- `uploadVideoAsync` is an outcome input: a URL or a failure. Its source is not part of this model. The `firebaseUrl ?? videoUri` default (UploadScreen.tsx:62) never applies, because the outcome's URL is a string.
- The axios transport and `API_BASE_URL`/`__DEV__` are not modelled. Paths are relative, and the POST and GET outcomes are parameters. The response body is taken as is, like the source's `as` cast.
- Backend inference is a parameter `classify`. This covers torch, transformers and softmax, and in `Predict` also `Image.open`, whose error is then model 1's. `DeepfakeDetector.ModelStore.PredictImage` takes the `Image.open` outcome as its own parameter, because there the image is opened before the None check on `processor1` matters. `round(..., 4)` on confidences and `round(..., 2)` on frame times are not modelled, and all arithmetic is on exact reals. For the fake ratio, exact reals and floats agree for fewer than 2^53 frames.
- Text.Lower lowers only ASCII `A`–`Z`. Python's `str.lower` also lowers other letters, which can matter only for labels with non-ASCII capitals.
- `ProcessPoolExecutor`, `threading.Lock` with its double check, `gc`, `cleanup_memory` and `time` are not modelled. Batching and loading are sequential.
- The `except` at deepfake_detector_optimized.py:140-142 is not modelled, because `predict_image` never raises.
- Video decoding and writing are not modelled. `cv2` reads are a sequence of success flags. The directories, temporary files, `shutil` and `os.remove` cleanup are not modelled either; a saved frame's path is its file name.
- The endpoint's response lacks `summary`, `audio_analysis`, `videoId` (uuid) and `analysis_timestamp`. `AudioProcessor`, `create_analysis_summary` and `save_analysis_result` are not part of this model. `create_smart_timeline` and `create_segment_analysis_details` are parameters. What these helpers and the audio analysis may raise is the single parameter `helperError` of `AnalyzeVideo`: the first such exception, which the endpoint's handler turns into an error response.
- Error responses from extraction and from an empty frame list carry the kind of error, not the text of `str(e)`. A failed frame analysis carries the exception's message (`FrameAnalysisFailed`).
- `extract_frames`'s default `frame_rate=0.2` (video_processing.py:4) is not a separate case: `frameRate` is always a parameter, and the endpoint, its only caller here, always passes its own period.

