# Brain tumour classifier: inference pipeline and UI state, in Dafny

This project models the client-side inference path of the BrainTumorAI web
classifier and proves properties of that model. An MRI image is resized to
128x128 and repacked into a channel-major tensor normalised to [-1, 1]. The
tensor is fed to a neural network held in a process-wide session. The four
class probabilities (glioma, meningioma, notumor, pituitary) are ranked by
descending confidence. The page then shows the top class and a per-class
probability record.

Modules, one per piece of the source:

- `Wrappers` (wrappers.dfy): `Option`, `Result` and `Outcome`. These stand for nullable values and thrown errors.
- `Classes` (classes.dfy): the label set `CLASSES`, `PredictionResult` and `ModelPrediction` (lib/modelService.ts).
- `Preprocessing` (preprocessing.dfy): the repack-and-normalise loop of `preprocessImage`. It works over an `array<byte>` RGBA buffer and fills an `array<real>` tensor. The specification function `Tensor` lays out all red, then all green, then all blue.
- `Ranking` (ranking.dfy): the pairing of `CLASSES` with the probabilities and the in-place sort by descending confidence. Insertion sort stands for the stable JavaScript sort.
- `ModelService` (model_service.dfy): class `Service` with the module-level `session` and `isLoading` fields. `IsModelLoaded` (lib/modelService.ts:67-69) is a transparent one-line observer: a session exists. `loadModel` is split at its `await` into `BeginLoad` and `FinishLoad`, so a second call made while a load is in flight can be expressed. `Predict` is also here.
- `UseModel` (use_model.dfy): class `ModelHook`, holding the hook's `status` and `error`. `IsReady` (lib/useModel.ts:93) is a transparent one-line observer: the status is "ready".
- `Page` (page.dfy): class `ClassifierPage`, holding the component's `imagePreview`, `result`, `loading` and `error`. This module also has the probability record, as the spec function `Record` and the loop `ToProbabilities`.

Foreign or nondeterministic calls are method parameters:
- creating the session: `CreateOutcome`
- running it: `RunOutcome`, which carries the probabilities the softmax would produce
- whether the image decodes: `decoded`
- the canvas pixel buffer, or its absence: `canvas`
- the object URL: `objectUrl`
- the elapsed time: `elapsed`

Points where the code's behaviour is worth stating outright:

- **Tie-breaking.** `Array.prototype.sort` is stable and the pairs start in `CLASSES` order, so equal confidences stay in `CLASSES` order (`RankedBefore`; `RankedUnique` shows this fixes the ranking).
- **Output length.** `predict` does not check that the network returns four outputs.
- **Failed loads.** A failed load returns to the unloaded state (`session` null, `isLoading` false), and the next `loadModel` tries again.
- **Status with no session.** `initModel` and `loadModelManually` set the status to "ready" whenever `loadModel` returns normally. That includes the early return taken while another load is in flight. So the hook can show "ready" while no session exists. `LoadTracked` and `InitModel` state this case. If `predictImage` is then called, it returns null with "Model not loaded".

## Model

| member | source | states |
|---|---|---|
| `Classes.ClassIndex` | lib/modelService.ts:7 | every class has a position in `CLASSES`, and that position holds the class |
| `Preprocessing.Normalize` | lib/modelService.ts:100-113 | `(p/255 - 0.5)/0.5` lies in [-1, 1] for every byte and equals `(2p - 255)/255` |
| `Preprocessing.NormalizeEndpoints` | lib/modelService.ts:100-113 | byte 0 maps to -1 and byte 255 maps to 1 |
| `Preprocessing.NormalizeStrictlyMonotone` | lib/modelService.ts:100-113 | a brighter byte gives a strictly larger tensor value |
| `Preprocessing.TensorAt` | lib/modelService.ts:96-114 | the tensor has 3*128*128 elements; element `c*pixelCount + i` is channel c of pixel i, i.e. byte `4*i + c`, normalised |
| `Preprocessing.TensorInRange` | lib/modelService.ts:100-113 | every tensor element lies in [-1, 1] |
| `Preprocessing.AlphaIgnored` | lib/modelService.ts:103-114 | two buffers that differ only in alpha bytes (`4*i + 3`) give the same tensor |
| `Preprocessing.BlackImage` | lib/modelService.ts:100-113 | an image whose colour bytes are all 0 gives a tensor of all -1 |
| `Preprocessing.Preprocess` | lib/modelService.ts:95-116 | the filled array has 49152 elements and equals `Tensor` of the pixel buffer (all red, then green, then blue, alpha dropped) |
| `Ranking.RankPredictions` | lib/modelService.ts:162-168 | the result has four entries; it is a permutation of `CLASSES` zipped with the probabilities; confidences are non-increasing; ties stay in `CLASSES` order |
| `Ranking.Insert` | lib/modelService.ts:168 | one insertion step keeps the prefix ranked, the multiset of entries unchanged and the unsorted suffix untouched |
| `Ranking.TopPrediction` | lib/modelService.ts:173-177 | element 0 of a ranking carries its own class's probability; no probability exceeds it; among equal maxima it is the earliest class |
| `Ranking.RankedUnique` | lib/modelService.ts:168 | two ranked lists with the same entries are equal, so the comparator and stability leave no choice |
| `Ranking.RankingUnique` | lib/modelService.ts:162-168 | a probability vector has exactly one ranking |
| `ModelService.PredictError` | lib/modelService.ts:134-183 | predict fails with "Model not loaded…" when there is no session; it returns without an error exactly when a session exists, the canvas is available and the run succeeds |
| `ModelService.PredictionTop` | lib/modelService.ts:175-179 | `topPrediction` of a prediction is the maximum-probability class, ties going to the earliest class |
| `ModelService.PredictionDeterministic` | lib/modelService.ts:162-179 | two predictions of the same probabilities and elapsed time are equal |
| `ModelService.Service.constructor` | lib/modelService.ts:24-25 | the service starts with no session and no load in flight |
| `ModelService.Service.BeginLoad` | lib/modelService.ts:31-43 | starts a load only when there is no session and no load in flight; then `isLoading` is set; otherwise nothing changes |
| `ModelService.Service.FinishLoad` | lib/modelService.ts:47-61 | stores the created session, or clears the session and fails with "Failed to load ONNX model: <message>"; `isLoading` is false on both paths |
| `ModelService.Service.LoadModel` | lib/modelService.ts:31-62 | no-op returning normally when a session exists or a load is in flight; otherwise one attempt, after which `isLoading` is false and the session is the created one or null with the error raised; `isLoading` implies no session throughout |
| `ModelService.Service.Predict` | lib/modelService.ts:134-184 | without a session, fails with "Model not loaded. Call loadModel() first." and changes nothing; other failures carry the "Prediction failed: " prefix; on success the predictions are the ranking of the probabilities, `topPrediction` is element 0 and the time is the elapsed time |
| `UseModel.ModelHook.constructor` | lib/useModel.ts:21-22 | status starts `idle` and error null |
| `UseModel.ModelHook.LoadTracked` | lib/useModel.ts:33-45 | error is cleared; after loadModel, success gives `ready` with no error, failure gives `error` with the load message, and an early-returning loadModel gives `ready` |
| `UseModel.ModelHook.InitModel` | lib/useModel.ts:26-46 | already loaded: status `ready` without calling loadModel; otherwise `ready` with no error on success, or `error` with the load message on failure; the error is not rethrown |
| `UseModel.ModelHook.LoadModelManually` | lib/useModel.ts:52-70 | no-op when already loaded; otherwise as initModel, and on failure the load error is returned as thrown |
| `UseModel.ModelHook.PredictImage` | lib/useModel.ts:73-88 | without a session: returns null with error "Model not loaded", never calling predict; otherwise null exactly when predict fails, with predict's message as the error; a success returns the prediction unchanged and keeps the error; status never changes |
| `Page.ToProbabilities` | app/page.tsx:112-121 | the loop builds exactly `Record` of the prediction list |
| `Page.RecordHasEveryClass` | app/page.tsx:112-117 | the record has an entry for all four classes |
| `Page.RecordDefault` | app/page.tsx:112-117 | a class absent from the list keeps 0 |
| `Page.RecordLastEntry` | app/page.tsx:119-121 | each class holds the confidence of its last entry in the list |
| `Page.RecordOfRanking` | app/page.tsx:112-121 | the record built from a ranking maps each class to its own probability |
| `Page.ClassifierPage.constructor` | app/page.tsx:57-61 | no preview, no result, not loading, no error |
| `Page.ClassifierPage.Classify` | app/page.tsx:89-136 | `loading` is false on every path; a decode failure sets "Failed to classify image…"; a null prediction sets "Prediction failed…" and keeps `result`; a prediction stores its top class and confidence, the per-class probability record and the time |
| `Page.ClassifierPage.HandleImageUpload` | app/page.tsx:65-137 | checks run in order: a non-`image/` type is rejected first, then a size over 10*1024*1024 (exactly 10 MiB passes), then the preview is shown, then a model that is not ready sets an error and nothing is predicted; otherwise it classifies |
| `Page.ClassifierPage.HandleSampleClick` | app/page.tsx:139-194 | shows the sample and clears the error; when not ready, sets the not-ready error and predicts nothing; otherwise it classifies |
| `Page.ClassifierPage.ClearImage` | app/page.tsx:222-229 | preview, result and error become null |

## Left out

- `softmax` (lib/modelService.ts:122-127) is not modelled because it uses `Math.exp` on floating point. The probabilities arrive in `RunOutcome`.
- The ONNX runtime calls are not modelled: `InferenceSession.create`, `session.run`, `ort.Tensor` and the execution-provider choice. Their results are the `CreateOutcome` and `RunOutcome` parameters, and the tensor `Predict` builds does not determine the run outcome.
- The canvas is not modelled: creating it, `drawImage` resizing and `getImageData`. The RGBA buffer, or its absence when no 2d context exists, is the `canvas` parameter.
- Image decoding through `new Image()` (app/page.tsx:93-100, 152-159) is not modelled. Its success is the `decoded` parameter.
- Float32 storage and JavaScript floating point are not modelled. Values are exact reals, so the NaN behaviour of the sort comparator is not covered.
- `performance.now()` and `console` logging are not modelled. The elapsed time is a parameter.
- `URL.createObjectURL` and `URL.revokeObjectURL` are not modelled. The object URL is a parameter, and `ClearImage` does not model revoking it.
- `ModelService.Service.Predict`: requires at least four probabilities. The network's output layer always supplies four, so a shorter vector, which would give `undefined` confidences in JavaScript, is not modelled.
- `Ranking.RankPredictions`: requires at least four probabilities, for the same reason.
- `UseModel.ModelHook.LoadTracked`: the fallback message "Failed to load model" (lib/useModel.ts:41, 65) is not modelled. It applies only to a thrown value that is not an `Error` object, and `loadModel` always throws an `Error`.
- `UseModel.ModelHook.PredictImage`: the fallback message "Prediction failed" (lib/useModel.ts:83) is not modelled. It applies only to a thrown value that is not an `Error` object, and `predict` always throws an `Error`.
- `UseModel.ModelHook.LoadTracked`: the transient `loading` status (lib/useModel.ts:33 and :58) is assigned but never observable, because the model runs the awaited `loadModel` in the same step, so every path ends in `ready` or `error`.
- React mechanics are not modelled: `useState`, `useEffect`, `useCallback`, re-rendering, and the render-time snapshot of `isReady`. State updates are direct field assignments, and the page reads the hook's current status.
- Interleavings of asynchronous handlers are not modelled. The one exception is a second `loadModel` during a pending load, expressed through `BeginLoad` and `FinishLoad`.
- The drag handlers `handleDrag` and `handleDrop`, and the `dragActive` flag they toggle (app/page.tsx:60, 196-214), are not modelled, because the flag only drives rendering. `handleDrop` and `handleFileInput` (app/page.tsx:216-220) pass only the first file to `handleImageUpload`, which is modelled.
- Presentation is not modelled: JSX, the sample gallery contents, the accordion and the `classColors`/`classLabels` tables.
- next.config.mjs is not part of this model, because it is build configuration.
