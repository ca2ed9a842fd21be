# MediClear report simplification: a verified model of the control logic

MediClear turns a medical report, uploaded as an image or pasted as text, into
a list of lab results with a patient-friendly summary. The text is read by a
Tesseract OCR worker. A generative model is then called three times: to split
the text into candidate lines (`tests_raw`), to turn those lines into records,
and to write a summary with explanations. Between the calls the code makes
decisions of its own. It strips code fences from each answer. It stops when
the first answer holds no tests. It applies a count guardrail. It copies the
three results into the report. It maps every outcome to one HTTP response.
It terminates the OCR worker on every exit path.

This project models that control logic in Dafny. The model language and
`JSON.parse` are opaque capabilities: fields of a `Capabilities` record, each
returning a value or a failure. The OCR library's `createWorker`, `recognize`
and `terminate` are the fields of an `OcrEngine` record in the same way.

- `wrappers.dfy`: `Option`, `Result` and `Outcome` for values that may be
  missing and calls that may throw.
- `js_runtime.dfy` (module `JsRuntime`): the JavaScript semantics the code
  relies on. That is the values `JSON.parse` yields, truthiness, reading a
  property (a TypeError on `null`), `.length`, `replace(/lit/g, "")` as a
  left-to-right removal without overlap, and `trim()` with JavaScript's set
  of whitespace characters.
- `ai_service.dfy` (module `AiService`): `callAI` and `getSimplifiedReport`,
  written as pure functions. A pipeline run returns its outcome together with
  the prompts it sent, in order. That is how stage order and early abort are
  stated.
- `ocr_service.dfy` (module `OcrService`): `performOCR` as the class
  `OcrSession`. Its field `worker` moves from `NoWorker` to `Live` to
  `Terminated`. Its field `calls` logs the library calls. The method
  `PerformOcr` follows the `try`/`catch`/`finally` of the source step by step.
- `report_controller.dfy` (module `ReportController`): `simplifyReport` as a
  method. Its `rawText` is assigned per branch. It returns the one response it
  sends and the services it called.

The controller imports `../services/aiService.js`. That file is
`src/services/aiService.js`, which is not part of this model. Its live
pipeline is taken to be the one in `backend/src/services/aiService.js`,
lines 84-165. The commented-out older revision in lines 1-82 is not modelled.

Behaviour of the code worth noting:

- No status is computed locally. The normalization prompt asks the model for
  `status` (line 127), and the records are returned as the model gave them.
- The guardrail count check runs after the summary call, not before it.
- An image on which OCR finds no text is not an error. `performOCR` returns the
  empty text, and the controller passes `""` to the pipeline.
- A request with both a file and a `text` field is not refused. The file wins.

## Model

| member | source | states |
|---|---|---|
| `JsRuntime.RemoveAll` | backend/src/services/aiService.js:98-100 | `replace(/p/g, "")` never lengthens the string |
| `JsRuntime.RemoveAllAbsent` | backend/src/services/aiService.js:98-100 | removing a pattern that does not occur leaves the string unchanged |
| `JsRuntime.RemoveAllKeepsPrefix` | backend/src/services/aiService.js:98-100 | a prefix none of whose characters can start the pattern passes through removal unchanged |
| `JsRuntime.TrimStart` | backend/src/services/aiService.js:101 | the result is a suffix of the input; exactly the leading whitespace is cut, and what is left does not start with whitespace |
| `JsRuntime.TrimEnd` | backend/src/services/aiService.js:101 | the result is a prefix of the input; exactly the trailing whitespace is cut, and what is left does not end with whitespace |
| `JsRuntime.Trim` | backend/src/services/aiService.js:101 | `trim()` leaves whitespace at neither end and never lengthens the string |
| `JsRuntime.TrimIsSlice` | backend/src/services/aiService.js:101 | the trimmed text is a contiguous slice of the input, with only whitespace cut on either side |
| `JsRuntime.TrimKeepsAbsence` | backend/src/services/aiService.js:101 | trimming cannot create an occurrence of a pattern |
| `JsRuntime.TrimIdempotent` | backend/src/services/aiService.js:101 | trimming twice is trimming once |
| `AiService.Clean` | backend/src/services/aiService.js:98-101 | the cleaned text contains neither "```json" nor "```" and has no whitespace at either end |
| `AiService.JsonFenceContainsFence` | backend/src/services/aiService.js:99-100 | every "```json" contains a "```", so the second removal also covers the first |
| `AiService.NoFenceAfterRemoval` | backend/src/services/aiService.js:100 | after the left-to-right removal of "```" no "```" remains, even where removal brought backticks together |
| `AiService.CleanIdempotent` | backend/src/services/aiService.js:98-101 | cleaning already clean text changes nothing |
| `AiService.CleanFencedJson` | backend/src/services/aiService.js:98-101 | a body without backticks wrapped as "```json" + body + "```" comes out as the trimmed body |
| `AiService.CallAI` | backend/src/services/aiService.js:92-107 | success iff generation succeeds and `JSON.parse` accepts the cleaned text, with the value parsed; any failure is the one fixed "Failed to get a valid response from the AI model." error |
| `AiService.NoTests` | backend/src/services/aiService.js:119 | the test `!testsRaw` or `testsRaw.length === 0`: a missing `tests_raw` is empty, and an array or a string is empty iff it has no elements or characters |
| `AiService.ParseStage` | backend/src/services/aiService.js:117-121 | the `tests_raw` it passes on is truthy and does not have length 0 |
| `AiService.NoTestsIff` | backend/src/services/aiService.js:117-121 | for any non-null parse answer, the no-tests error is thrown iff `tests_raw` is missing, falsy or of length 0; otherwise `tests_raw` is passed on unchanged |
| `AiService.EmptyTestsAbort` | backend/src/services/aiService.js:117-121 | for any non-null parse answer, a missing, `null`, `""` or `[]` `tests_raw` throws the no-tests error after the parse call, and no other call is made |
| `AiService.NonObjectAnswerAborts` | backend/src/services/aiService.js:117-121 | a parse answer that is a bare array, a string, a number or a boolean has no `tests_raw`, so the no-tests error is thrown after the parse call alone |
| `AiService.ParseFailureStopsPipeline` | backend/src/services/aiService.js:117-121 | whenever the parse stage fails, its error is the pipeline's and the parse prompt is the only one sent |
| `AiService.StageOrder` | backend/src/services/aiService.js:117-144 | prompts go out as parse on the raw text, then normalize on `tests_raw`, then summarize on the normalization result; a report needs all three |
| `AiService.Guardrail` | backend/src/services/aiService.js:148-153 | a violation carries the two lengths as read and only when normalized > raw + 2; any other throw is the TypeError of reading `.length` of a `null` normalization result |
| `AiService.GuardrailIff` | backend/src/services/aiService.js:148-153 | the guardrail throws iff both lengths are numbers and normalized > raw + 2, and then reports both counts |
| `AiService.GuardrailOnArrays` | backend/src/services/aiService.js:148 | on arrays the guardrail throws iff the normalized count exceeds the raw count plus 2 |
| `AiService.GuardrailDependsOnlyOnLengths` | backend/src/services/aiService.js:148 | arrays with equal lengths get the same verdict whatever their elements; unlike the old name check (lines 67-73), names play no part |
| `AiService.GuardrailAfterAllCalls` | backend/src/services/aiService.js:144-153 | a guardrail violation is thrown only after all three calls succeeded, and no report is returned |
| `AiService.GuardrailDecidesOutcome` | backend/src/services/aiService.js:144-164 | once the three calls have answered, the pipeline throws a violation iff the count rule is broken; within the bound it returns a report whose tests are the normalization result |
| `AiService.Assemble` | backend/src/services/aiService.js:160-164 | the assembly throws iff the summary answer is `null`; otherwise the report's tests are the normalization result |
| `AiService.GetSimplifiedReport` | backend/src/services/aiService.js:110-165 | the whole pipeline: one to three prompts, the first always the parse prompt on the raw text, and all three sent before a report is returned |
| `AiService.SuccessIsAssembly` | backend/src/services/aiService.js:160-164 | a returned report is exactly the normalization result with the summary answer's `summary` and `explanations`, unchanged |
| `AiService.ReportNeedsAllCalls` | backend/src/services/aiService.js:117-164 | a returned report implies that the parse stage succeeded and that both the normalize and summary calls answered |
| `OcrService.OcrOutcome` | src/services/ocrService.js:3-28 | what `performOCR` returns or throws: the recognized text exactly when creation, recognition and termination all succeed |
| `OcrService.OcrCalls` | src/services/ocrService.js:3-28 | the library calls made: creation first, with recognize and terminate made iff the worker was created |
| `OcrService.OcrSession.constructor` | src/services/ocrService.js:5 | a session starts with no worker and no library calls |
| `OcrService.OcrSession.PerformOcr` | src/services/ocrService.js:3-28 | the result and the library calls are those of `OcrOutcome` and `OcrCalls`; the worker ends `Terminated` if it was created and is never left live |
| `OcrService.TerminatedExactlyOnce` | src/services/ocrService.js:21-26 | `terminate` is called exactly once when a worker was created and never otherwise; the worker is created once |
| `OcrService.RecognizedTextReturned` | src/services/ocrService.js:13-17 | the recognized text is returned unchanged, the empty text included, after create, recognize and terminate |
| `OcrService.CreateFailureRethrown` | src/services/ocrService.js:9-23 | when `createWorker` throws, its error is rethrown and `terminate` is not called |
| `OcrService.RecognizeFailureRethrown` | src/services/ocrService.js:13-24 | a `recognize` error is rethrown unchanged, and the last library call is `terminate` |
| `OcrService.OutcomeFromLibrary` | src/services/ocrService.js:17-26 | every result is one the library produced: no error is wrapped or invented |
| `ReportController.BodyText` | src/controllers/reportController.js:13 | `req.body && req.body.text`: the `text` field, present only when the body has one and it is non-empty |
| `ReportController.SelectInput` | src/controllers/reportController.js:9-23 | the input decision: the file's buffer when there is a file, else the body's non-empty `text`, else no input |
| `ReportController.PipelineResponse` | src/controllers/reportController.js:27-36 | a report is answered with 200 and that report; any throw with 500 and the generic message, with no report |
| `ReportController.SimplifyReport` | src/controllers/reportController.js:4-38 | exactly one response, with code 200, 400 or 500; no input gives 400 with the guidance message and no call; OCR failure gives 500, and the pipeline is not called; otherwise the pipeline runs on the selected text, a report gives 200 "success", and an error gives 500 |
| `ReportController.FileTakesPrecedence` | src/controllers/reportController.js:9-12 | with a file present its buffer is the input, and the body is ignored |
| `ReportController.TextUsedVerbatim` | src/controllers/reportController.js:13-15 | without a file, a non-empty `text` is used exactly as given, whatever other fields the body has |
| `ReportController.EmptyTextIsMissing` | src/controllers/reportController.js:13-23 | without a file, an empty or absent `text` or a missing body is no input |
| `ReportController.InputCases` | src/controllers/reportController.js:9-23 | the image is chosen iff there is a file, and the text iff there is no file and a non-empty `text` |
| `ReportController.SuccessResponse` | src/controllers/reportController.js:30-33 | a report is answered with 200, "success" and the report exactly as returned |
| `ReportController.ErrorsAreNotLeaked` | src/controllers/reportController.js:34-37 | every error gets the same 500 "Internal Server Error" answer, with no detail of the error |

## Left out

- The Gemini SDK, the wording of the prompts and the model's behaviour. A prompt is modelled by the data it embeds.
- `JSON.parse` itself. It is an opaque partial function from the cleaned text to a JSON value. JSON numbers are exact reals, with no IEEE rounding or `Infinity`.
- `JsRuntime.LengthOf`: a `length` member of an object that is not a number is treated as `undefined`. In the guardrail comparison, JavaScript would coerce it (strings, booleans, `null`) instead. String lengths count characters, not UTF-16 code units.
- `JsRuntime.ReadProperty` covers only the property names the pipeline reads (`tests_raw`, `summary`, `explanations`). Inherited prototype members are not modelled.
- The text of the guardrail error and of the TypeErrors. They are logged but never sent to the client. The model keeps the counts and the property name.
- `ReportController.SimplifyReport`: `req.body.text` is modelled as a string field. A non-string `text` value, which a JSON body parser could deliver, is not modelled.
- The Express, CORS and multer wiring in `index.js`, `backend/index.js` and `src/routes/reportRoutes.js`. The route and the upload field name are not modelled.
- The Google Cloud Vision wrapper `backend/src/services/ocrService.js`, the script `backend/src/services/testModels.js` and the frontend (`frontend/src/App.jsx`, `frontend/src/main.jsx`).
- async/await scheduling, console logging and concurrency across requests. Each call is modelled as completing before the next starts.
