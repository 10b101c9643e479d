/** The fixed label set of the brain-tumour classifier and the shapes of a
    prediction (lib/modelService.ts, lines 7-21). */
module Classes {

  /** The four output categories of the network. */
  datatype TumorClass = Glioma | Meningioma | NoTumor | Pituitary

  /** The network's output order: logit k belongs to CLASSES[k]. */
  const CLASSES: seq<TumorClass> := [Glioma, Meningioma, NoTumor, Pituitary]

  /** Position of a class in CLASSES. */
  function ClassIndex(c: TumorClass): (k: nat)
    ensures k < |CLASSES| && CLASSES[k] == c
  {
    match c
    case Glioma => 0
    case Meningioma => 1
    case NoTumor => 2
    case Pituitary => 3
  }

  /** ClassIndex is the inverse of indexing CLASSES. */
  lemma ClassIndexOfClasses(k: nat)
    requires k < |CLASSES|
    ensures ClassIndex(CLASSES[k]) == k
  {
  }

  /** One (label, confidence) pair. */
  datatype PredictionResult = PredictionResult(className: TumorClass, confidence: real)

  /** What one inference returns: the ranked list, its first entry and the
      elapsed time of the forward pass in milliseconds. */
  datatype ModelPrediction = ModelPrediction(
    predictions: seq<PredictionResult>,
    topPrediction: PredictionResult,
    inferenceTime: real)
}
