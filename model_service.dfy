/** The inference runner of lib/modelService.ts: the process-wide session
    handle with its loading guard (lines 24-69) and `predict` (lines
    134-184). The runtime's calls (creating a session, running it) are
    foreign; their outcomes are parameters. */
module ModelService {
  import opened Wrappers
  import opened Classes
  import opened Preprocessing
  import opened Ranking

  /** A loaded inference session, named by its input and output. */
  datatype Session = Session(inputName: string, outputName: string)

  /** A value thrown by a foreign call: an Error object or anything else. */
  datatype Thrown = ErrorObject(message: string) | OtherValue

  /** What creating a session from the model artifact does. */
  datatype CreateOutcome = Created(session: Session) | CreateThrew(thrown: Thrown)

  /** What running the session does: the probabilities are the softmax of
      the network's logits, in CLASSES order. */
  datatype RunOutcome = Ran(probabilities: seq<real>) | RunThrew(thrown: Thrown)

  const NOT_LOADED := "Model not loaded. Call loadModel() first."
  const NO_CANVAS := "Failed to get canvas context"

  /** The message of a thrown value, "Unknown error" when it is not an Error. */
  function Message(thrown: Thrown): string
  {
    match thrown
    case ErrorObject(message) => message
    case OtherValue => "Unknown error"
  }

  /** The message of the error loadModel throws when the session cannot be created. */
  function LoadError(thrown: Thrown): string
  {
    "Failed to load ONNX model: " + Message(thrown)
  }

  /** The message of the error predict throws, or None when it returns a
      prediction. */
  function PredictError(loaded: bool, hasCanvas: bool, run: RunOutcome): (e: Option<string>)
    ensures !loaded ==> e == Some(NOT_LOADED)
    ensures e.None? <==> loaded && hasCanvas && run.Ran?
  {
    if !loaded then Some(NOT_LOADED)
    else if !hasCanvas then Some("Prediction failed: " + NO_CANVAS)
    else match run
      case RunThrew(thrown) => Some("Prediction failed: " + Message(thrown))
      case Ran(_) => None
  }

  /** m is what predict returns for these probabilities and this elapsed time. */
  ghost predicate IsPredictionOf(m: ModelPrediction, probabilities: seq<real>, elapsed: real)
  {
    && |m.predictions| == |CLASSES|
    && IsRankingOf(m.predictions, probabilities)
    && m.topPrediction == m.predictions[0]
    && m.inferenceTime == elapsed
  }

  /** The top prediction of a prediction has the highest probability, ties
      going to the class earliest in CLASSES. */
  lemma PredictionTop(m: ModelPrediction, probabilities: seq<real>, elapsed: real)
    requires IsPredictionOf(m, probabilities, elapsed)
    ensures IsTopOf(m.topPrediction, probabilities)
  {
    TopPrediction(m.predictions, probabilities);
  }

  /** Inference on the same probabilities yields the same prediction. */
  lemma PredictionDeterministic(m: ModelPrediction, m': ModelPrediction, probabilities: seq<real>, elapsed: real)
    requires IsPredictionOf(m, probabilities, elapsed) && IsPredictionOf(m', probabilities, elapsed)
    ensures m == m'
  {
    RankingUnique(m.predictions, m'.predictions, probabilities);
  }

  /** The module-level state of lib/modelService.ts. */
  class Service {
    var session: Option<Session>
    var isLoading: bool

    /** A load is in flight only while no session exists: the states are
        unloaded, loading and loaded. */
    ghost predicate Valid()
      reads this
    {
      isLoading ==> session.None?
    }

    /** The state at module initialisation. */
    constructor ()
      ensures Valid() && session.None? && !isLoading
    {
      session := None;
      isLoading := false;
    }

    /** isModelLoaded: a session exists. */
    function IsModelLoaded(): bool
      reads this
    {
      session.Some?
    }

    /** The part of loadModel before its await: the two guards, then the
        loading flag is raised. */
    method BeginLoad() returns (started: bool)
      requires Valid()
      modifies this
      ensures Valid()
      ensures started <==> old(session).None? && !old(isLoading)
      ensures started ==> isLoading && session == old(session)
      ensures !started ==> unchanged(this)
    {
      if session.Some? {
        return false;
      }
      if isLoading {
        return false;
      }
      isLoading := true;
      started := true;
    }

    /** The part of loadModel after its await: store the created session or
        clear it and throw, and lower the loading flag either way. */
    method FinishLoad(outcome: CreateOutcome) returns (r: Outcome<string>)
      requires Valid() && isLoading
      modifies this
      ensures Valid() && !isLoading
      ensures outcome.Created? ==> session == Some(outcome.session) && r == Pass
      ensures outcome.CreateThrew? ==> session.None? && r == Fail(LoadError(outcome.thrown))
    {
      match outcome {
        case Created(s) =>
          session := Some(s);
          r := Pass;
        case CreateThrew(thrown) =>
          session := None;
          r := Fail(LoadError(thrown));
      }
      isLoading := false;
    }

    /** loadModel: a no-op when a session exists or a load is in flight;
        otherwise one load attempt. */
    method LoadModel(outcome: CreateOutcome) returns (r: Outcome<string>)
      requires Valid()
      modifies this
      ensures Valid()
      ensures old(session).Some? || old(isLoading) ==> r == Pass && unchanged(this)
      ensures old(session).None? && !old(isLoading) ==> !isLoading
      ensures old(session).None? && !old(isLoading) && outcome.Created? ==>
        session == Some(outcome.session) && r == Pass
      ensures old(session).None? && !old(isLoading) && outcome.CreateThrew? ==>
        session.None? && r == Fail(LoadError(outcome.thrown))
    {
      var started := BeginLoad();
      if !started {
        return Pass;
      }
      r := FinishLoad(outcome);
    }

    /** predict: refuse without a session; otherwise preprocess the pixels of
        the canvas (None when no 2d context is available), run the session and
        rank the probabilities. Nothing in the state changes. */
    method Predict(canvas: Option<array<byte>>, run: RunOutcome, elapsed: real)
      returns (r: Result<ModelPrediction, string>)
      requires canvas.Some? ==> canvas.value.Length == BYTES_PER_PIXEL * PIXEL_COUNT
      requires run.Ran? ==> |run.probabilities| >= |CLASSES|
      ensures r.Failure? <==> PredictError(session.Some?, canvas.Some?, run).Some?
      ensures r.Failure? ==> Some(r.error) == PredictError(session.Some?, canvas.Some?, run)
      ensures r.Success? ==> run.Ran? && IsPredictionOf(r.value, run.probabilities, elapsed)
    {
      if session.None? {
        return Failure(NOT_LOADED);
      }
      if canvas.None? {
        return Failure("Prediction failed: " + NO_CANVAS);
      }
      // The tensor is the session's input; the run itself is foreign, so
      // its outcome arrives as a parameter.
      var tensor := Preprocess(canvas.value);
      match run {
        case RunThrew(thrown) =>
          r := Failure("Prediction failed: " + Message(thrown));
        case Ran(probabilities) =>
          var predictions := RankPredictions(probabilities);
          r := Success(ModelPrediction(predictions[..], predictions[0], elapsed));
      }
    }
  }
}
