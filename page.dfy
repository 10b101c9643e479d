/** The classifier page of app/page.tsx: validation of an uploaded file,
    the readiness gate, the conversion of a prediction into the displayed
    result, and clearing. Image decoding, object URLs and rendering are not
    modelled; whether the image decodes and the canvas pixels are
    parameters. */
module Page {
  import opened Wrappers
  import opened Classes
  import opened Preprocessing
  import opened Ranking
  import opened ModelService
  import opened UseModel

  /** The File the user chose: its MIME type and size in bytes. */
  datatype UploadFile = UploadFile(mimeType: string, size: nat)

  /** One entry of the sample gallery. */
  datatype SampleImage = SampleImage(id: nat, src: string, displayLabel: string, tumorClass: TumorClass)

  /** What the page shows after a classification. */
  datatype ClassificationResult = ClassificationResult(
    tumorClass: TumorClass,
    confidence: real,
    probabilities: map<TumorClass, real>,
    inferenceTime: real)

  const MAX_FILE_SIZE: nat := 10 * 1024 * 1024
  const IMAGE_PREFIX := "image/"

  const NOT_AN_IMAGE := "Please upload a JPG or PNG image"
  const TOO_LARGE := "Image too large. Please use a smaller file."
  const NOT_READY := "Model is not ready yet. Please wait..."
  const PREDICTION_FAILED := "Prediction failed. Please try again."
  const CLASSIFY_FAILED := "Failed to classify image. Please try again."

  /** The MIME type begins with "image/". */
  predicate IsImageType(mimeType: string)
  {
    IMAGE_PREFIX <= mimeType
  }

  /** The record every classification starts from: 0 for each class. */
  function ZeroRecord(): map<TumorClass, real>
  {
    map[Glioma := 0.0, Meningioma := 0.0, NoTumor := 0.0, Pituitary := 0.0]
  }

  /** The record after predictions.forEach has written each entry's
      confidence under its class, in list order. */
  function Record(predictions: seq<PredictionResult>): map<TumorClass, real>
  {
    if predictions == [] then ZeroRecord()
    else
      var last := predictions[|predictions| - 1];
      Record(predictions[..|predictions| - 1])[last.className := last.confidence]
  }

  /** The probability vector as a record keyed by class. */
  function ProbabilityRecord(probabilities: seq<real>): map<TumorClass, real>
    requires |probabilities| >= |CLASSES|
  {
    map c | c in CLASSES :: probabilities[ClassIndex(c)]
  }

  /** Builds the probability record with the loop of lines 112-121. */
  method ToProbabilities(predictions: seq<PredictionResult>) returns (probabilities: map<TumorClass, real>)
    ensures probabilities == Record(predictions)
  {
    probabilities := ZeroRecord();
    for i := 0 to |predictions|
      invariant probabilities == Record(predictions[..i])
    {
      assert predictions[..i + 1][..i] == predictions[..i];
      probabilities := probabilities[predictions[i].className := predictions[i].confidence];
    }
    assert predictions[..|predictions|] == predictions;
  }

  /** The record has an entry for every class. */
  lemma {:induction false} RecordHasEveryClass(predictions: seq<PredictionResult>, c: TumorClass)
    ensures c in Record(predictions)
  {
    if predictions != [] {
      RecordHasEveryClass(predictions[..|predictions| - 1], c);
    }
  }

  /** A class absent from the list keeps its default 0. */
  lemma {:induction false} RecordDefault(predictions: seq<PredictionResult>, c: TumorClass)
    requires forall k :: 0 <= k < |predictions| ==> predictions[k].className != c
    ensures c in Record(predictions) && Record(predictions)[c] == 0.0
  {
    if predictions != [] {
      RecordDefault(predictions[..|predictions| - 1], c);
    }
  }

  /** A class holds the confidence of its last entry in the list. */
  lemma {:induction false} RecordLastEntry(predictions: seq<PredictionResult>, k: nat)
    requires k < |predictions|
    requires forall l :: k < l < |predictions| ==> predictions[l].className != predictions[k].className
    ensures predictions[k].className in Record(predictions)
    ensures Record(predictions)[predictions[k].className] == predictions[k].confidence
  {
    var n := |predictions|;
    if k < n - 1 {
      RecordLastEntry(predictions[..n - 1], k);
    }
  }

  /** When every entry carries its own class's probability and class c
      occurs, the record holds c's probability. */
  lemma {:induction false} RecordOfConsistent(predictions: seq<PredictionResult>, probabilities: seq<real>, c: TumorClass)
    requires |probabilities| >= |CLASSES|
    requires forall k :: 0 <= k < |predictions| ==>
      predictions[k].confidence == probabilities[ClassIndex(predictions[k].className)]
    requires exists k :: 0 <= k < |predictions| && predictions[k].className == c
    ensures c in Record(predictions) && Record(predictions)[c] == probabilities[ClassIndex(c)]
  {
    var n := |predictions|;
    if predictions[n - 1].className != c {
      var k :| 0 <= k < n && predictions[k].className == c;
      assert predictions[..n - 1][k].className == c;
      RecordOfConsistent(predictions[..n - 1], probabilities, c);
    }
  }

  /** The record built from a ranking gives back the probability vector:
      ranking loses nothing. */
  lemma RecordOfRanking(predictions: seq<PredictionResult>, probabilities: seq<real>)
    requires IsRankingOf(predictions, probabilities)
    ensures Record(predictions) == ProbabilityRecord(probabilities)
  {
    var paired := Paired(probabilities);
    forall k | 0 <= k < |predictions|
      ensures predictions[k].confidence == probabilities[ClassIndex(predictions[k].className)]
    {
      assert predictions[k] in multiset(paired);
      var m :| 0 <= m < |paired| && paired[m] == predictions[k];
      ClassIndexOfClasses(m);
    }
    forall c: TumorClass
      ensures c in Record(predictions) && Record(predictions)[c] == probabilities[ClassIndex(c)]
    {
      assert paired[ClassIndex(c)] in multiset(predictions);
      RecordOfConsistent(predictions, probabilities, c);
    }
    forall c: TumorClass
      ensures c in ProbabilityRecord(probabilities)
    {
      assert CLASSES[ClassIndex(c)] == c;
    }
  }

  /** res is the result shown for a prediction of these probabilities. */
  ghost predicate IsClassificationOf(res: ClassificationResult, probabilities: seq<real>, elapsed: real)
  {
    && IsTopOf(PredictionResult(res.tumorClass, res.confidence), probabilities)
    && res.probabilities == ProbabilityRecord(probabilities)
    && res.inferenceTime == elapsed
  }

  /** The page's error after a classification attempt that found the error
      `before`. */
  function ErrorAfterClassify(decoded: bool, loaded: bool, hasCanvas: bool, run: RunOutcome, before: Option<string>): Option<string>
  {
    if !decoded then Some(CLASSIFY_FAILED)
    else if PredictError(loaded, hasCanvas, run).Some? then Some(PREDICTION_FAILED)
    else before
  }

  /** The hook's error after a classification attempt that found the error
      `before`. */
  function HookErrorAfterClassify(decoded: bool, loaded: bool, hasCanvas: bool, run: RunOutcome, before: Option<string>): Option<string>
  {
    if !decoded then before
    else if !loaded then Some(HOOK_NOT_LOADED)
    else if PredictError(true, hasCanvas, run).Some? then PredictError(true, hasCanvas, run)
    else before
  }

  /** The page's result after a classification attempt that found the
      result `before`: replaced exactly when a prediction came back. */
  ghost predicate ResultAfterClassify(res: Option<ClassificationResult>, decoded: bool, loaded: bool, hasCanvas: bool,
                                      run: RunOutcome, elapsed: real, before: Option<ClassificationResult>)
  {
    if !decoded || PredictError(loaded, hasCanvas, run).Some? then res == before
    else run.Ran? && res.Some? && IsClassificationOf(res.value, run.probabilities, elapsed)
  }

  /** The state of the BrainTumorClassifier component. */
  class ClassifierPage {
    var imagePreview: Option<string>
    var result: Option<ClassificationResult>
    var loading: bool
    var error: Option<string>
    /** The component's useModel hook. */
    const model: ModelHook

    constructor (model: ModelHook)
      ensures this.model == model
      ensures imagePreview.None? && result.None? && !loading && error.None?
    {
      this.model := model;
      imagePreview := None;
      result := None;
      loading := false;
      error := None;
    }

    /** Lines 89-136 (and 148-193): with loading shown, decode the image,
        predict, and store the classification; loading is off afterwards on
        every path. */
    method Classify(decoded: bool, canvas: Option<array<byte>>, run: RunOutcome, elapsed: real)
      requires canvas.Some? ==> canvas.value.Length == BYTES_PER_PIXEL * PIXEL_COUNT
      requires run.Ran? ==> |run.probabilities| >= |CLASSES|
      modifies this, model
      ensures !loading && imagePreview == old(imagePreview)
      ensures model.status == old(model.status)
      ensures error == ErrorAfterClassify(decoded, model.service.IsModelLoaded(), canvas.Some?, run, old(error))
      ensures model.error == HookErrorAfterClassify(decoded, model.service.IsModelLoaded(), canvas.Some?, run, old(model.error))
      ensures ResultAfterClassify(result, decoded, model.service.IsModelLoaded(), canvas.Some?, run, elapsed, old(result))
    {
      loading := true;
      if !decoded {
        error := Some(CLASSIFY_FAILED);
        loading := false;
        return;
      }
      var prediction := model.PredictImage(canvas, run, elapsed);
      if prediction.None? {
        error := Some(PREDICTION_FAILED);
        loading := false;
        return;
      }
      var p := prediction.value;
      var probabilities := ToProbabilities(p.predictions);
      PredictionTop(p, run.probabilities, elapsed);
      RecordOfRanking(p.predictions, run.probabilities);
      result := Some(ClassificationResult(p.topPrediction.className, p.topPrediction.confidence, probabilities, p.inferenceTime));
      loading := false;
    }

    /** handleImageUpload: reject a non-image type, then a file over 10 MiB,
        then show the preview, then refuse while the model is not ready,
        then classify. */
    method HandleImageUpload(file: UploadFile, objectUrl: string, decoded: bool, canvas: Option<array<byte>>,
                             run: RunOutcome, elapsed: real)
      requires canvas.Some? ==> canvas.value.Length == BYTES_PER_PIXEL * PIXEL_COUNT
      requires run.Ran? ==> |run.probabilities| >= |CLASSES|
      modifies this, model
      ensures !IsImageType(file.mimeType) ==>
        error == Some(NOT_AN_IMAGE) && imagePreview == old(imagePreview) && result == old(result)
        && loading == old(loading) && unchanged(model)
      ensures IsImageType(file.mimeType) && file.size > MAX_FILE_SIZE ==>
        error == Some(TOO_LARGE) && imagePreview == old(imagePreview) && result == old(result)
        && loading == old(loading) && unchanged(model)
      ensures IsImageType(file.mimeType) && file.size <= MAX_FILE_SIZE ==> imagePreview == Some(objectUrl)
      ensures IsImageType(file.mimeType) && file.size <= MAX_FILE_SIZE && !old(model.IsReady()) ==>
        error == Some(NOT_READY) && result == old(result) && loading == old(loading) && unchanged(model)
      ensures IsImageType(file.mimeType) && file.size <= MAX_FILE_SIZE && old(model.IsReady()) ==>
        && !loading
        && model.status == old(model.status)
        && error == ErrorAfterClassify(decoded, model.service.IsModelLoaded(), canvas.Some?, run, None)
        && model.error == HookErrorAfterClassify(decoded, model.service.IsModelLoaded(), canvas.Some?, run, old(model.error))
        && ResultAfterClassify(result, decoded, model.service.IsModelLoaded(), canvas.Some?, run, elapsed, old(result))
    {
      if !(IMAGE_PREFIX <= file.mimeType) {
        error := Some(NOT_AN_IMAGE);
        return;
      }
      if file.size > 10 * 1024 * 1024 {
        error := Some(TOO_LARGE);
        return;
      }
      error := None;
      imagePreview := Some(objectUrl);
      if !model.IsReady() {
        error := Some(NOT_READY);
        return;
      }
      Classify(decoded, canvas, run, elapsed);
    }

    /** handleSampleClick: show the sample, clear the error, refuse while
        the model is not ready, then classify. */
    method HandleSampleClick(sample: SampleImage, decoded: bool, canvas: Option<array<byte>>,
                             run: RunOutcome, elapsed: real)
      requires canvas.Some? ==> canvas.value.Length == BYTES_PER_PIXEL * PIXEL_COUNT
      requires run.Ran? ==> |run.probabilities| >= |CLASSES|
      modifies this, model
      ensures imagePreview == Some(sample.src)
      ensures !old(model.IsReady()) ==>
        error == Some(NOT_READY) && result == old(result) && loading == old(loading) && unchanged(model)
      ensures old(model.IsReady()) ==>
        && !loading
        && model.status == old(model.status)
        && error == ErrorAfterClassify(decoded, model.service.IsModelLoaded(), canvas.Some?, run, None)
        && model.error == HookErrorAfterClassify(decoded, model.service.IsModelLoaded(), canvas.Some?, run, old(model.error))
        && ResultAfterClassify(result, decoded, model.service.IsModelLoaded(), canvas.Some?, run, elapsed, old(result))
    {
      imagePreview := Some(sample.src);
      error := None;
      if !model.IsReady() {
        error := Some(NOT_READY);
        return;
      }
      Classify(decoded, canvas, run, elapsed);
    }

    /** clearImage: drop the preview, the result and the error. */
    method ClearImage()
      modifies this
      ensures imagePreview.None? && result.None? && error.None?
      ensures loading == old(loading)
    {
      imagePreview := None;
      result := None;
      error := None;
    }
  }
}
