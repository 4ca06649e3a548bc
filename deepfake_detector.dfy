/**
 * The label logic and the lazily loaded model pair of the detector service
 * (backend/app/services/deepfake_detector.py). Inference itself is foreign:
 * a model is a `Handle`, and what a model says about an image is the input
 * `classify`.
 */
module DeepfakeDetector {
  import opened Wrappers
  import opened Text

  /** The two verdicts, "FAKE" and "REAL". */
  datatype Label = Fake | Real

  /** `map_label`: maps a model's raw class name to a verdict, rules tried in order. */
  function MapLabel(name: string): (l: Label)
    ensures l == Fake ==> Contains(Lower(name), "fake") || name == "1" || name == "LABEL_1"
    ensures Contains(Lower(name), "real") && !Contains(Lower(name), "fake") ==> l == Real
  {
    var lower := Lower(name);
    if Contains(lower, "fake") then Fake
    else if Contains(lower, "real") then Real
    else if name == "0" || name == "LABEL_0" then Real
    else if name == "1" || name == "LABEL_1" then Fake
    else Real
  }

  /**
   * A label is FAKE exactly when "fake" occurs in it case-insensitively, or
   * it is literally "1" or "LABEL_1" and "real" does not occur in it.
   */
  lemma MapLabelFakeIff(name: string)
    ensures MapLabel(name) == Fake <==>
      (exists i :: OccursAt(Lower(name), "fake", i)) ||
      ((forall i :: !OccursAt(Lower(name), "real", i)) && (name == "1" || name == "LABEL_1"))
  {
    ContainsIff(Lower(name), "fake");
    ContainsIff(Lower(name), "real");
  }

  /** "fake" is looked for before "real": a label holding both is FAKE. */
  lemma MapLabelFakeWins(name: string)
    requires Contains(Lower(name), "fake") && Contains(Lower(name), "real")
    ensures MapLabel(name) == Fake
  {
  }

  /** A class name holding "fake" in any case is FAKE. */
  lemma MapLabelDeepfake()
    ensures MapLabel("Deepfake") == Fake
  {
    assert Lower("Deepfake") == "deepfake";
    assert OccursAt("deepfake", "fake", 4);
    ContainsIff("deepfake", "fake");
  }

  /** A class name holding "real" but not "fake" is REAL. */
  lemma MapLabelRealism()
    ensures MapLabel("Realism") == Real
  {
    assert Lower("Realism") == "realism";
    NotContains("realism", "fake");
    assert Contains("realism", "real");
  }

  /** "LABEL_0" is REAL. */
  lemma MapLabelNumberedReal()
    ensures MapLabel("LABEL_0") == Real
  {
    assert Lower("LABEL_0") == "label_0";
    NotContains("label_0", "fake");
    NotContains("label_0", "real");
  }

  /** "LABEL_1" is FAKE. */
  lemma MapLabelNumberedFake()
    ensures MapLabel("LABEL_1") == Fake
  {
    assert Lower("LABEL_1") == "label_1";
    NotContains("label_1", "fake");
    NotContains("label_1", "real");
  }

  /** The numbered names are compared before lower-casing, so "label_1" falls through to REAL. */
  lemma MapLabelLowercaseNumbered()
    ensures MapLabel("label_1") == Real
  {
    assert Lower("label_1") == "label_1";
    NotContains("label_1", "fake");
    NotContains("label_1", "real");
  }

  /** The bare class indices, and the default for an unknown name. */
  lemma MapLabelBareIndices()
    ensures MapLabel("0") == Real && MapLabel("1") == Fake && MapLabel("2") == Real
  {
    assert Lower("0") == "0" && Lower("1") == "1" && Lower("2") == "2";
  }

  /** A string in which the pattern's first character never occurs does not contain the pattern. */
  lemma NotContains(s: string, pat: string)
    requires |pat| > 0 && pat[0] !in s
    ensures !Contains(s, pat)
    decreases |s|
  {
    if |s| >= |pat| {
      assert s[..|pat|][0] == s[0];
      assert s == [s[0]] + s[1..];
      NotContains(s[1..], pat);
    }
  }

  /** The number of FAKE votes in a list of labels. */
  function CountFake(labels: seq<Label>): nat {
    if |labels| == 0 then 0 else CountFake(labels[1..]) + (if labels[0] == Fake then 1 else 0)
  }

  /** The ensemble vote: FAKE when at least one of the two models says FAKE. */
  function EnsembleLabel(label1: Label, label2: Label): (l: Label)
    ensures l == Real ==> label1 == Real && label2 == Real
  {
    assert [label1, label2][1..] == [label2] && [label2][1..] == [];
    assert CountFake([label2]) == if label2 == Fake then 1 else 0;
    if CountFake([label1, label2]) >= 1 then Fake else Real
  }

  lemma EnsembleFakeIff(label1: Label, label2: Label)
    ensures EnsembleLabel(label1, label2) == Fake <==> label1 == Fake || label2 == Fake
    ensures EnsembleLabel(label1, label2) == EnsembleLabel(label2, label1)
  {
    assert [label1, label2][1..] == [label2];
    assert [label2, label1][1..] == [label1];
  }

  /** A loaded processor or model object. */
  datatype Handle = Handle(id: nat)

  datatype Device = Cpu | Cuda

  /** What loading the pretrained weights does: every object is produced, or some step raises. */
  datatype LoadOutcome = Loaded(processor1: Handle, model1: Handle, processor2: Handle, model2: Handle) | LoadFailed

  /** The four module globals `processor1`, `model1`, `processor2`, `model2`. */
  datatype Slots = Slots(processor1: Option<Handle>, model1: Option<Handle>, processor2: Option<Handle>, model2: Option<Handle>)

  const Empty := Slots(None, None, None, None)

  /** Either all four globals are set or none is, and on the CPU the second pair aliases the first. */
  predicate Coherent(device: Device, s: Slots) {
    && (s.processor1.None? <==> s.model1.None?)
    && (s.processor1.None? <==> s.processor2.None?)
    && (s.processor1.None? <==> s.model2.None?)
    && (device == Cpu && s.processor1.Some? ==> s.processor2 == s.processor1 && s.model2 == s.model1)
  }

  /** The globals after one loading attempt from the empty state. */
  function LoadedSlots(device: Device, outcome: LoadOutcome): (s: Slots)
    ensures Coherent(device, s)
    ensures s.processor1.Some? <==> outcome.Loaded?
    ensures outcome.Loaded? ==> s.processor1 == Some(outcome.processor1) && s.model1 == Some(outcome.model1)
    ensures outcome.Loaded? && device == Cuda ==> s.processor2 == Some(outcome.processor2) && s.model2 == Some(outcome.model2)
  {
    match outcome
    case LoadFailed => Empty
    case Loaded(p1, m1, p2, m2) =>
      if device == Cpu then Slots(Some(p1), Some(m1), Some(p1), Some(m1))
      else Slots(Some(p1), Some(m1), Some(p2), Some(m2))
  }

  /** What one model says about one image: a raw class name and its probability, or an exception. */
  datatype Classification = Classified(rawLabel: string, confidence: real) | ClassifyError(message: string)

  datatype ModelVote = ModelVote(verdict: Label, confidence: real)

  /** The dictionary `predict_image` returns. */
  datatype Prediction = Prediction(model1: ModelVote, model2: ModelVote, ensemble: Label, confidence: real)

  /** Both models classify the image in turn (model 1 first); the first exception propagates. */
  function Predict(image: string, model1: Handle, model2: Handle, classify: (string, Handle) -> Classification): (r: Result<Prediction, string>)
    ensures r.Success? <==> classify(image, model1).Classified? && classify(image, model2).Classified?
    ensures classify(image, model1).ClassifyError? ==> r == Failure(classify(image, model1).message)
    ensures classify(image, model1).Classified? && classify(image, model2).ClassifyError? ==>
      r == Failure(classify(image, model2).message)
  {
    match classify(image, model1)
    case ClassifyError(m) => Failure(m)
    case Classified(raw1, c1) =>
      match classify(image, model2)
      case ClassifyError(m) => Failure(m)
      case Classified(raw2, c2) =>
        var l1, l2 := MapLabel(raw1), MapLabel(raw2);
        Success(Prediction(ModelVote(l1, c1), ModelVote(l2, c2), EnsembleLabel(l1, l2), (c1 + c2) / 2.0))
  }

  /**
   * The shape of a successful prediction: the ensemble is the vote of the two
   * per-model labels, each label comes from `MapLabel`, and the confidence is
   * the mean of the two, within [0, 1] when both are.
   */
  lemma PredictShape(image: string, model1: Handle, model2: Handle, classify: (string, Handle) -> Classification)
    requires Predict(image, model1, model2, classify).Success?
    ensures var p := Predict(image, model1, model2, classify).value;
      && classify(image, model1).Classified? && classify(image, model2).Classified?
      && p.model1.verdict == MapLabel(classify(image, model1).rawLabel)
      && p.model2.verdict == MapLabel(classify(image, model2).rawLabel)
      && (p.ensemble == Fake <==> p.model1.verdict == Fake || p.model2.verdict == Fake)
      && p.model1.confidence == classify(image, model1).confidence
      && p.model2.confidence == classify(image, model2).confidence
      && p.confidence * 2.0 == p.model1.confidence + p.model2.confidence
      && (p.model1.confidence <= p.confidence <= p.model2.confidence ||
          p.model2.confidence <= p.confidence <= p.model1.confidence)
      && (0.0 <= p.model1.confidence <= 1.0 && 0.0 <= p.model2.confidence <= 1.0 ==> 0.0 <= p.confidence <= 1.0)
  {
    var p := Predict(image, model1, model2, classify).value;
    EnsembleFakeIff(p.model1.verdict, p.model2.verdict);
  }

  /** On the CPU the two models are one object, so the ensemble is just model 1's verdict. */
  lemma SharedModelEnsembleIsModel1(image: string, model: Handle, classify: (string, Handle) -> Classification)
    requires Predict(image, model, model, classify).Success?
    ensures var p := Predict(image, model, model, classify).value;
      p.ensemble == p.model1.verdict && p.model2 == p.model1 && p.confidence == p.model1.confidence
  {
    var p := Predict(image, model, model, classify).value;
    EnsembleFakeIff(p.model1.verdict, p.model2.verdict);
  }

  /** Python's message for calling a global that is still `None`. */
  const NoneNotCallable := "'NoneType' object is not callable"

  /** The module state of deepfake_detector.py: the device and the four lazily loaded globals. */
  class ModelStore {
    const device: Device
    var processor1: Option<Handle>
    var model1: Option<Handle>
    var processor2: Option<Handle>
    var model2: Option<Handle>

    function Globals(): Slots
      reads this
    {
      Slots(processor1, model1, processor2, model2)
    }

    ghost predicate Valid()
      reads this
    {
      Coherent(device, Globals())
    }

    /** Module import: all four globals start as `None`. */
    constructor (device: Device)
      ensures Valid() && this.device == device && Globals() == Empty
    {
      this.device := device;
      processor1, model1, processor2, model2 := None, None, None, None;
    }

    /**
     * `load_models`: loads only while `processor1` is None; on any exception
     * every global is reset to None, so the next call tries again.
     */
    method LoadModels(outcome: LoadOutcome)
      requires Valid()
      modifies this
      ensures Valid()
      ensures old(processor1).Some? ==> Globals() == old(Globals())
      ensures old(processor1).None? ==> Globals() == LoadedSlots(device, outcome)
    {
      if processor1.None? {
        match outcome {
          case LoadFailed =>
            processor1, processor2 := None, None;
            model1, model2 := None, None;
          case Loaded(p1, m1, p2, m2) =>
            processor1, model1 := Some(p1), Some(m1);
            if device == Cpu {
              processor2, model2 := processor1, model1;
            } else {
              processor2, model2 := Some(p2), Some(m2);
            }
        }
      }
    }

    /**
     * `predict_image`: loads if needed, opens the image (`openError` is the
     * exception `Image.open` raises, if any), then runs both models; when
     * loading failed the call on `processor1 = None` raises.
     */
    method PredictImage(image: string, outcome: LoadOutcome, openError: Option<string>, classify: (string, Handle) -> Classification)
      returns (r: Result<Prediction, string>)
      requires Valid()
      modifies this
      ensures Valid()
      ensures old(processor1).Some? ==> Globals() == old(Globals())
      ensures old(processor1).None? ==> Globals() == LoadedSlots(device, outcome)
      ensures openError.Some? ==> r == Failure(openError.value)
      ensures openError.None? && model1.None? ==> r == Failure(NoneNotCallable)
      ensures openError.None? && model1.Some? ==> r == Predict(image, model1.value, model2.value, classify)
    {
      LoadModels(outcome);
      if openError.Some? {
        return Failure(openError.value);
      }
      if processor1.None? {
        return Failure(NoneNotCallable);
      }
      r := Predict(image, model1.value, model2.value, classify);
    }
  }
}
