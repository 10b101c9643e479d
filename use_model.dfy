/** The useModel hook of lib/useModel.ts: the model status and error the UI
    shows, kept beside the module-level service. React state updates are
    field assignments made in order; awaited calls are the service's
    methods with their outcomes as parameters. */
module UseModel {
  import opened Wrappers
  import opened Classes
  import opened Preprocessing
  import opened ModelService

  datatype ModelStatus = Idle | Loading | Ready | Error

  const HOOK_NOT_LOADED := "Model not loaded"

  class ModelHook {
    var status: ModelStatus
    var error: Option<string>
    /** The module-level state the hook calls into. */
    const service: Service

    ghost predicate Valid()
      reads this, service
    {
      service.Valid()
    }

    /** The state of a freshly mounted hook. */
    constructor (service: Service)
      requires service.Valid()
      ensures Valid() && this.service == service
      ensures status == Idle && error.None?
    {
      this.service := service;
      status := Idle;
      error := None;
    }

    /** isReady: the status is "ready". */
    function IsReady(): bool
      reads this
    {
      status == Ready
    }

    /** Lines 33-45 and 58-68: show "loading", clear the error, await
        loadModel, and show "ready" or the error. A loadModel that returned
        early because another load is in flight counts as success. */
    method LoadTracked(outcome: CreateOutcome) returns (r: Outcome<string>)
      requires Valid()
      modifies this, service
      ensures Valid()
      ensures old(service.isLoading) ==>
        r == Pass && status == Ready && error.None? && unchanged(service)
      ensures old(service.session).None? && !old(service.isLoading) && outcome.Created? ==>
        r == Pass && status == Ready && error.None?
        && service.session == Some(outcome.session) && !service.isLoading
      ensures old(service.session).None? && !old(service.isLoading) && outcome.CreateThrew? ==>
        r == Fail(LoadError(outcome.thrown)) && status == Error && error == Some(LoadError(outcome.thrown))
        && service.session.None? && !service.isLoading
      ensures old(service.session).Some? ==>
        r == Pass && status == Ready && error.None? && unchanged(service)
    {
      status := Loading;
      error := None;
      r := service.LoadModel(outcome);
      match r {
        case Pass =>
          status := Ready;
        case Fail(message) =>
          error := Some(message);
          status := Error;
      }
    }

    /** initModel, run on mount: "ready" at once when a session exists,
        otherwise one tracked load whose error is not rethrown. */
    method InitModel(outcome: CreateOutcome)
      requires Valid()
      modifies this, service
      ensures Valid()
      ensures old(service.session).Some? ==>
        status == Ready && error == old(error) && unchanged(service)
      ensures old(service.session).None? && old(service.isLoading) ==>
        status == Ready && error.None? && unchanged(service)
      ensures old(service.session).None? && !old(service.isLoading) ==> !service.isLoading
      ensures old(service.session).None? && !old(service.isLoading) && outcome.Created? ==>
        status == Ready && error.None? && service.session == Some(outcome.session)
      ensures old(service.session).None? && !old(service.isLoading) && outcome.CreateThrew? ==>
        status == Error && error == Some(LoadError(outcome.thrown)) && service.session.None?
    {
      if service.IsModelLoaded() {
        status := Ready;
        return;
      }
      var _ := LoadTracked(outcome);
    }

    /** loadModelManually: a no-op when a session exists, otherwise one
        tracked load whose error is rethrown. */
    method LoadModelManually(outcome: CreateOutcome) returns (r: Outcome<string>)
      requires Valid()
      modifies this, service
      ensures Valid()
      ensures old(service.session).Some? ==> r == Pass && unchanged(this) && unchanged(service)
      ensures old(service.session).None? && old(service.isLoading) ==>
        r == Pass && status == Ready && error.None? && unchanged(service)
      ensures old(service.session).None? && !old(service.isLoading) ==> !service.isLoading
      ensures old(service.session).None? && !old(service.isLoading) && outcome.Created? ==>
        r == Pass && status == Ready && error.None? && service.session == Some(outcome.session)
      ensures old(service.session).None? && !old(service.isLoading) && outcome.CreateThrew? ==>
        r == Fail(LoadError(outcome.thrown)) && status == Error && error == Some(LoadError(outcome.thrown))
        && service.session.None?
    {
      if service.IsModelLoaded() {
        return Pass;
      }
      r := LoadTracked(outcome);
    }

    /** predictImage: null with "Model not loaded" when no session exists;
        otherwise predict, turning its error into null plus the error's
        message. It never throws and never changes the status. */
    method PredictImage(canvas: Option<array<byte>>, run: RunOutcome, elapsed: real)
      returns (p: Option<ModelPrediction>)
      requires canvas.Some? ==> canvas.value.Length == BYTES_PER_PIXEL * PIXEL_COUNT
      requires run.Ran? ==> |run.probabilities| >= |CLASSES|
      modifies this
      ensures status == old(status)
      ensures p.None? <==> PredictError(service.IsModelLoaded(), canvas.Some?, run).Some?
      ensures !service.IsModelLoaded() ==> error == Some(HOOK_NOT_LOADED)
      ensures service.IsModelLoaded() && p.None? ==>
        error == PredictError(true, canvas.Some?, run)
      ensures p.Some? ==> run.Ran? && IsPredictionOf(p.value, run.probabilities, elapsed) && error == old(error)
    {
      if !service.IsModelLoaded() {
        error := Some(HOOK_NOT_LOADED);
        return None;
      }
      var r := service.Predict(canvas, run, elapsed);
      match r {
        case Success(prediction) =>
          p := Some(prediction);
        case Failure(message) =>
          error := Some(message);
          p := None;
      }
    }
  }
}
