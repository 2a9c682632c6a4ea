# Face-analysis client and relay: a Dafny model

This project models the logic of a mobile web client and its server relay.
A user photographs or uploads an image. The client sends it to a
vision-language model and shows, for each person detected, a gender, an age
and a short description. Three pieces are modelled:

- **The analysis session** (`App.tsx`, with the record and enum of
  `types.ts`). It holds four state variables: `image`, `results`, `status`
  and `errorMessage`. The file-input handler, the file read's completion,
  the analyze handler and the analyze call's completion move it between
  Idle, Analyzing, Success and Error. Module `Session` has:
  - the transitions as functions of the state before (`Step`);
  - the three button-disabled predicates;
  - a screen model (`Ui`) that counts analyze calls in flight and lets only
    the events the buttons permit happen;
  - class `Session.Session`, whose fields are the four variables and whose
    methods are the handlers, each proved to move its state as `Step` does.
  The file read's completion and the analyze call's completion are separate
  events.
- **The direct analysis client** (`geminiService.ts`, module
  `GeminiService`). It covers the anchored, single-shot removal of a
  `data:image/(png|jpeg|jpg|webp);base64,` header, the `API_KEY` guard, the
  request sent to the model and the throw/rethrow paths of `analyzeImage`.
  The SDK call and `JSON.parse` are inputs.
- **The relay handler** (`analyze.js`, module `Relay`). It sets four CORS
  headers on a response object, then branches on the method, the request
  body, the `GEMINI_API_KEY` setting and the upstream outcome. The pure
  function `Dispatch` is its decision table. Method `Relay.Handler` mutates
  a `ServerResponse` object and is proved to agree with `Dispatch` and with
  `UpstreamCall`, the one upstream request it may make. The `fetch` outcome
  is an input.

Module `Js` holds the shared JavaScript notions. `Truthy` is the
truthiness of `string | null | undefined`: a guard `if (!x)` rejects `null`,
`undefined` and `""` alike. `Json` is a JSON value.

Environment settings (`process.env.API_KEY`, `process.env.GEMINI_API_KEY`)
are `Option<string>` parameters.

Where the intended design and the code disagree, the model follows
the code:
- The direct client always labels the image `image/jpeg`. It strips no
  markdown fences and validates no records. A `JSON.parse` failure is
  rethrown as it is, not turned into a distinct error kind.
- The relay answers any ok (2xx) upstream reply with status 200. Only non-ok
  statuses are mirrored.
- The relay destructures the request body before it reads the key. An
  unreadable body is answered 500 with the `TypeError`'s message, even when
  the key is missing.
- The relay parses the upstream body before it tests `ok`. A non-ok reply
  whose body does not parse is answered 500, not with the upstream status.
- A failed file read has no error path of its own. `onloadend` stores the
  reader's `null` result as the image.
- The session itself has no in-flight guard. `Session.OverlappingAnalysesBreakConsistency`
  shows that two overlapping analyses can end in Success with the error
  message still set. Only the disabled buttons exclude this, and
  `Session.RunKeepsInv` proves that under them it never happens.

## Model

| member | source | states |
|---|---|---|
| Session.FirstFile | App.tsx:19-20 | definition of `files?.[0]`: the first file of a non-null, non-empty list, otherwise none; `Session.Session.HandleFileChange` and `Session.FilesChosenResets` prove what the handler does with it |
| Session.AnalyzeRequest | App.tsx:41-48 | definition of the image handed to the client: the image when truthy, otherwise none; `Session.AnalyzeWithoutImageIsNoOp`, `Session.AnalyzeButtonGuardsTheCall` and `Session.Session.HandleAnalyze` prove its use |
| Session.AnalyzeButtonDisabled | App.tsx:191 | definition of the analyze button's `disabled`: no truthy image, or Analyzing; `Session.AnalyzeButtonGuardsTheCall` proves what it guards |
| Session.CameraButtonDisabled | App.tsx:180 | definition of the camera button's `disabled`: Analyzing; `Session.FileButtonsDisabledExactlyWhileCallInFlight` proves what it guards |
| Session.GalleryButtonDisabled | App.tsx:215 | definition of the gallery button's `disabled`: Analyzing; `Session.FileButtonsDisabledExactlyWhileCallInFlight` proves what it guards |
| Session.AfterProcessFile | App.tsx:27-30 | definition of the file-choice setters: Idle, no results, no message, image kept; proved by `Session.FilesChosenResets` |
| Session.AfterReadComplete | App.tsx:33-35 | definition of `onloadend`: the image becomes the reader's result; proved by `Session.ReadReplacesImage` |
| Session.AfterAnalyzeStart | App.tsx:41-45 | definition of the analyze handler before its call: no-op without a truthy image, else Analyzing with message and results cleared; proved by `Session.AnalyzeWithoutImageIsNoOp` and the analysis lemmas |
| Session.AfterAnalyzeSettled | App.tsx:47-53 | definition of the try/catch after the call: returned list and Success, or fixed message and Error; proved by `Session.AnalysisSuccessReplacesResults` and `Session.AnalysisFailureShowsFixedMessage` |
| Session.Step | App.tsx:18-53 | definition of one event's effect, dispatching to the four transitions; `Session.StepKeepsInv` and `Session.RunKeepsInv` state its invariant |
| Session.InitialInv | App.tsx:9-12 | the initial state (no image, no results, Idle, no message) satisfies the screen invariant |
| Session.StepKeepsInv | App.tsx:18-55 | every event the buttons permit keeps the invariant: message present exactly in Error and equal to the fixed text, results non-empty only in Success, one call in flight exactly while Analyzing |
| Session.RunKeepsInv | App.tsx:18-55 | every sequence of permitted events keeps that invariant, so at most one analysis is ever in flight |
| Session.RunIsRawRun | App.tsx:18-55 | the session part of the screen model is just the transitions applied in order; the in-flight count adds no behaviour |
| Session.FilesChosenResets | App.tsx:18-31 | choosing a file sets Idle, no results and no message and leaves the image until the read completes; an empty choice changes nothing |
| Session.ReadReplacesImage | App.tsx:33-35 | the read's completion replaces the image wholesale by the reader's result and changes nothing else |
| Session.AnalyzeWithoutImageIsNoOp | App.tsx:41 | with no truthy image the analyze handler changes no state and issues no call |
| Session.AnalysisSuccessReplacesResults | App.tsx:43-50 | a successful analysis ends in Success with exactly the returned list (possibly empty), no message, and the image unchanged |
| Session.AnalysisFailureShowsFixedMessage | App.tsx:43-53 | a failed analysis, whatever the error, ends in Error with the fixed message, no results, and the image unchanged |
| Session.ReanalysisReplacesResults | App.tsx:43-50 | analysing the same image twice leaves only the second result list; nothing is merged |
| Session.AnalyzeButtonGuardsTheCall | App.tsx:191 | under the invariant, the analyze button is enabled exactly when the handler would issue a call and none is in flight |
| Session.FileButtonsDisabledExactlyWhileCallInFlight | App.tsx:180 | under the invariant, the camera button is disabled exactly while a call is in flight; so is the gallery button (line 215) |
| Session.OverlappingAnalysesBreakConsistency | App.tsx:40-55 | without the disabled buttons, two overlapping analyses (first fails, second succeeds) end in Success with the error message still set |
| Session.Session.constructor | App.tsx:9-12 | the four state variables start as no image, no results, Idle, no message |
| Session.Session.HandleFileChange | App.tsx:18-25 | processes the first file if there is one (taken before the reset), always clears the input's value, which also empties its list of selected files, and moves the state as the file-choice transition says |
| Session.Session.ProcessFile | App.tsx:27-37 | sets Idle, clears results and message, and leaves the image alone |
| Session.Session.OnReadComplete | App.tsx:33-35 | stores the reader's result as the image, nothing else |
| Session.Session.HandleAnalyze | App.tsx:40-48 | returns the image handed to the client (none when there is no image) and moves the state as the analyze-start transition says |
| Session.Session.OnAnalyzeSettled | App.tsx:47-54 | on a returned list sets results to it and Success; on a thrown error sets the fixed message and Error |
| GeminiService.MatchFormat | geminiService.ts:17 | the format found is one whose header starts the input; when none is found, no format's header starts it |
| GeminiService.HeadersExclusive | geminiService.ts:17 | at most one of the four image headers can start a string |
| GeminiService.StripDataUrlHeader | geminiService.ts:17 | when an image header starts the input, the result is the input minus exactly that header; otherwise the input is returned unchanged; something is removed exactly when a header is present |
| GeminiService.DoubledHeaderKeepsSecond | geminiService.ts:17 | the rewrite is not global: of a doubled header only the first copy is removed |
| GeminiService.LaterHeaderUntouched | geminiService.ts:17 | the rewrite is anchored: for any non-empty prefix, even one that is itself a header, a header after it and everything following stay in place at the end of the result |
| GeminiService.GetAiClient | geminiService.ts:5-11 | definition of the key guard: a client carrying the key when the key is truthy, else the missing-key error; `GeminiService.AnalyzeImage` proves that no request is made without it |
| GeminiService.PersonRecordsConform | geminiService.ts:37-47 | every list of person records satisfies the requested response schema |
| GeminiService.ConformingValuesArePersonRecords | geminiService.ts:37-47 | a value satisfying the requested schema is an array whose every element has gender, age and description, all strings |
| GeminiService.AnalyzeImage | geminiService.ts:13-61 | with a falsy key it throws the missing-key error and makes no request; otherwise it sends one request, labelled image/jpeg and carrying the stripped image, the fixed prompt and the schema; an SDK error is rethrown unchanged, absent or empty text throws "No response from AI", and it returns a value only as the parse of non-empty text |
| Relay.Dispatch | analyze.js:13-65 | definition of the handler's decision table (status and body per method, body, key and upstream outcome); its consequences are the lemmas below and `Relay.Handler` is proved equal to it |
| Relay.UpstreamCall | analyze.js:24-51 | definition of the one upstream request (endpoint plus key, POST, JSON, the built body) on the forwarding path and none elsewhere; proved by `Relay.UpstreamCalledExactlyWhenForwarding` |
| Relay.UpstreamBody | analyze.js:38-50 | definition of the upstream request body with undefined members omitted; its shape is proved by `Relay.UpstreamBodyCopiesRequest` |
| Relay.PreflightIsAnswered | analyze.js:13-16 | OPTIONS is answered 200 with no body, whatever the request body, and makes no upstream call |
| Relay.OtherMethodsRejected | analyze.js:18-20 | any method other than OPTIONS and POST is answered 405 with the error "Method not allowed" and makes no upstream call |
| Relay.MissingKeyRejected | analyze.js:22-28 | a POST without a key is answered 500 with "Server API Key not configured" when its body is readable, and with the TypeError's message when it is not; no upstream call is made |
| Relay.UpstreamCalledExactlyWhenForwarding | analyze.js:13-33 | exactly one upstream call is made exactly on the POST path with a readable body and a truthy key, to the endpoint with the key appended |
| Relay.UpstreamAnswerMirrored | analyze.js:53-60 | a parsed upstream body is passed back verbatim, with the upstream status when not ok and 200 when ok |
| Relay.UpstreamFailureIsInternalError | analyze.js:53-65 | a thrown fetch or an unparsable upstream body is answered 500 with the error's message, whatever the upstream status |
| Relay.OkExactly | analyze.js:13-65 | the relay answers 200 exactly for a preflight or for a forwarded call whose upstream reply was 2xx with a parsed body |
| Relay.UpstreamBodyCopiesRequest | analyze.js:38-50 | the upstream body is an object with only `contents`, holding one content with only `parts`, of exactly two parts: the prompt as text (one member when the prompt is defined, none otherwise), then an object with only `inline_data`, whose mime_type and data are the request's, unchanged, with exactly one member per defined value; nothing else is sent |
| Relay.SetCorsHeaders | analyze.js:4-10 | the four CORS headers are set to their fixed values and nothing else about the response changes |
| Relay.Handler | analyze.js:2-66 | every response carries the four CORS headers, is sent exactly once, and has the status and body of the decision table; the upstream call made is exactly the one the table names |

## Left out

- The JSX rendering (App.tsx:58-225) and `ScannerEffect.tsx` are presentation only. The model keeps just the three `disabled` expressions.
- The `FileReader` encoding of a file as a data URL is foreign code. Its completion is an event carrying the result (none on a failed read).
- The `@google/genai` SDK call is foreign code. Its outcome is an input: text that may be absent, or a thrown error.
- `JSON.parse` is foreign code. It is a function parameter from text to a list of records or a thrown error. The `as AnalysisResult[]` cast checks nothing, but the model's parse only ever yields records, so a parsed value of another shape is not modelled.
- `fetch` to the model endpoint and `.json()` on its reply are foreign code. Their outcome is an input. `ok` is taken as a status of 200 to 299, as the Fetch standard defines it.
- `res.json` and `JSON.stringify` are library serialisers. Bodies are JSON values passed through unchanged. Only the omission of `undefined` members is modelled.
- Relay.ServerResponse.Json: the headers the framework's `res.json` and `res.end` set themselves (such as `Content-Type`) are not modelled; so `Relay.Handler`'s equation `headers == old(headers) + CorsHeaders` covers only the headers the handler sets.
- The JavaScript engine's text of the destructuring `TypeError` is part of the request input, not a fixed string.
- A status the framework would refuse in `res.status(...)` (outside 100 to 999) is not modelled. Upstream statuses are any natural number.
- JSON numbers are exact reals, so pass-through values keep any number; IEEE double rounding, NaN and infinities are not modelled (the core never inspects a number).
- Asynchronous interleaving beyond the sequential event model is left out, and so is `console.error` logging.
- Behaviour the code does not have is not modelled: markdown-fence stripping, record validation, timeouts, retries, and a relay path in the client.
