/**
 * The optimised detector service (backend/app/services/deepfake_detector_optimized.py):
 * the same label rules and ensemble vote, a `models_loaded` flag guarding a
 * single load, and prediction calls that return an error dictionary instead
 * of raising.
 */
module DeepfakeDetectorOptimized {
  import opened Wrappers
  import opened DeepfakeDetector

  datatype ErrorReason = ModelLoadFailed | PredictionFailed(message: string)

  /** What `predict_image` returns: the prediction dictionary or `{"error": ...}`. */
  datatype ImageResult = Predicted(prediction: Prediction) | ErrorResult(reason: ErrorReason)

  /** The `except` clause of `predict_image`: an exception becomes an error dictionary. */
  function AsImageResult(r: Result<Prediction, string>): ImageResult {
    match r
    case Success(p) => Predicted(p)
    case Failure(m) => ErrorResult(PredictionFailed(m))
  }

  /** The module state: the device, the four globals and the `models_loaded` flag. */
  class OptimizedModelStore {
    const device: Device
    var processor1: Option<Handle>
    var model1: Option<Handle>
    var processor2: Option<Handle>
    var model2: Option<Handle>
    var modelsLoaded: bool

    function Globals(): Slots
      reads this
    {
      Slots(processor1, model1, processor2, model2)
    }

    /** The flag is true exactly when all four globals are set. */
    ghost predicate Valid()
      reads this
    {
      Coherent(device, Globals()) && (modelsLoaded <==> processor1.Some?)
    }

    constructor (device: Device)
      ensures Valid() && this.device == device && Globals() == Empty && !modelsLoaded
    {
      this.device := device;
      processor1, model1, processor2, model2 := None, None, None, None;
      modelsLoaded := false;
    }

    /**
     * `load_models`: returns True at once when the flag is set; otherwise one
     * loading attempt, whose failure resets every global and the flag.
     */
    method LoadModels(outcome: LoadOutcome) returns (ok: bool)
      requires Valid()
      modifies this
      ensures Valid()
      ensures old(modelsLoaded) ==> ok && Globals() == old(Globals()) && modelsLoaded
      ensures !old(modelsLoaded) ==> Globals() == LoadedSlots(device, outcome) && ok == outcome.Loaded?
      ensures ok == modelsLoaded
    {
      if modelsLoaded {
        return true;
      }
      match outcome {
        case LoadFailed =>
          processor1, processor2 := None, None;
          model1, model2 := None, None;
          modelsLoaded := false;
          return false;
        case Loaded(p1, m1, p2, m2) =>
          processor1, model1 := Some(p1), Some(m1);
          if device == Cpu {
            processor2, model2 := processor1, model1;
          } else {
            processor2, model2 := Some(p2), Some(m2);
          }
          modelsLoaded := true;
          return true;
      }
    }

    /** `ensure_models_loaded`: True when already loaded, otherwise whatever `load_models` returns. */
    method EnsureModelsLoaded(outcome: LoadOutcome) returns (ok: bool)
      requires Valid()
      modifies this
      ensures Valid()
      ensures old(modelsLoaded) ==> ok && Globals() == old(Globals()) && modelsLoaded
      ensures !old(modelsLoaded) ==> Globals() == LoadedSlots(device, outcome) && ok == outcome.Loaded?
      ensures ok == modelsLoaded
    {
      if !modelsLoaded {
        ok := LoadModels(outcome);
        return;
      }
      return true;
    }

    /** `predict_image`: never raises; a loading failure or an exception gives an error dictionary. */
    method PredictImage(image: string, outcome: LoadOutcome, classify: (string, Handle) -> Classification)
      returns (r: ImageResult)
      requires Valid()
      modifies this
      ensures Valid()
      ensures old(modelsLoaded) ==> Globals() == old(Globals()) && modelsLoaded
      ensures !old(modelsLoaded) ==> Globals() == LoadedSlots(device, outcome) && modelsLoaded == outcome.Loaded?
      ensures !modelsLoaded ==> r == ErrorResult(ModelLoadFailed)
      ensures modelsLoaded ==> r == AsImageResult(Predict(image, model1.value, model2.value, classify))
    {
      var ok := EnsureModelsLoaded(outcome);
      if !ok {
        return ErrorResult(ModelLoadFailed);
      }
      r := AsImageResult(Predict(image, model1.value, model2.value, classify));
    }

    /**
     * `predict_batch`: one result per image, in input order; when loading
     * fails, one error dictionary per image.
     */
    method PredictBatch(images: seq<string>, outcome: LoadOutcome, classify: (string, Handle) -> Classification)
      returns (results: seq<ImageResult>)
      requires Valid()
      modifies this
      ensures Valid()
      ensures old(modelsLoaded) ==> Globals() == old(Globals()) && modelsLoaded
      ensures !old(modelsLoaded) ==> Globals() == LoadedSlots(device, outcome) && modelsLoaded == outcome.Loaded?
      ensures |results| == |images|
      ensures !modelsLoaded ==> forall k :: 0 <= k < |results| ==> results[k] == ErrorResult(ModelLoadFailed)
      ensures modelsLoaded ==> forall k :: 0 <= k < |results| ==>
        results[k] == AsImageResult(Predict(images[k], model1.value, model2.value, classify))
    {
      var ok := EnsureModelsLoaded(outcome);
      if !ok {
        return seq(|images|, _ => ErrorResult(ModelLoadFailed));
      }
      ghost var loaded := Globals();
      results := [];
      for i := 0 to |images|
        invariant Valid() && modelsLoaded && Globals() == loaded
        invariant |results| == i
        invariant forall k :: 0 <= k < i ==>
          results[k] == AsImageResult(Predict(images[k], model1.value, model2.value, classify))
      {
        var result := PredictImage(images[i], outcome, classify);
        results := results + [result];
      }
    }
  }
}
