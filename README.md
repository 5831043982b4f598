# PaperSage review pipeline, modelled in Dafny

PaperSage lets a user paste a research paper, pick a reviewer persona
(Expert, Strict or Friendly) and get back a structured review written by a
hosted language model. The program has no algorithm of its own. What it
decides is how a submission travels:

- the page (`App.tsx`) turns a click into a request, or into a local error,
  and afterwards shows a loader, an error, the report or the welcome panel;
- the browser-side service (`services/geminiService.ts`) posts the text and
  persona to `/api/analyze`. It turns a failed response into an error
  message and checks a successful one;
- the endpoint (`api/analyze.ts`) applies its guards in order (method, body,
  API key). It builds the system instruction and the prompt, calls the model
  once, checks what comes back, and maps every thrown value to a 500;
- the form (`components/PaperInput.tsx`) and the report
  (`components/ReviewReport.tsx`) derive enabled states, labels and colours.

The model follows the source's own form. The endpoint, the service, the form
and the report are pure functions over an explicit JSON value type
(`JsValues.Json`). That type has JavaScript truthiness written out: `null`,
`false`, `0` and `""` are falsy, and arrays and objects are truthy. Property
reads follow JavaScript: reading a field of `null` throws, and a missing key
is `undefined`. The page is a class, `AppState.App`, with the state cells
that `handleAnalyze` updates.

Things that cannot be seen or run are inputs:
- the model call is `reply` (what `generateContent` and `response.text`
  give, or what they throw);
- `fetch` is `fetched`;
- `process.env.API_KEY` is `apiKey`;
- `JSON.parse`, `JSON.stringify` and the runtime's number-to-text conversion
  are the fields of a `Runtime` value.

A handler run returns the response together with the model call it made, if
any. So "no model call" is a statement about its result.

Files: `JsValues.dfy`, `JsText.dfy` (JavaScript's `trim` and status-code
text), `Types.dfy` (the records of `types.ts`), `Analyze.dfy`,
`GeminiService.dfy`, `PaperInput.dfy`, `ReviewReport.dfy`, `App.dfy`.

Behaviour of the code worth knowing:
- The endpoint does not check that `overallScore` is a number in range.
  It checks that it is truthy, so a score of exactly 0 is rejected and a
  non-numeric truthy score passes.
- `aiContentAnalysis` only has to be present. `null` passes the endpoint;
  the client rejects it.
- The 400 guard rejects any falsy field (`0`, `false`, `null`, `""`, absent),
  not only absent ones. It accepts persona values outside the three, which
  then get the expert stance.
- No range or enum check is applied to the model's output anywhere.
- The page does not keep the error and the result exclusive. If text that
  trims to nothing is submitted after a success, both are set
  (`AppState.EmptyResubmitKeepsResult`). The panel rule then shows only the
  error.
- An unparsable request body gives a 500 from the catch-all, not a 400.
  So does a body that parses to `null`: destructuring it throws.
- A `paperText` object with its own `toString` key passes the 400 guard.
  Building the prompt then throws a `TypeError`, so the model is never
  called. On the client, an `error` field of that kind makes
  `new Error(...)` throw that `TypeError` in place of the intended error.

## Model

| member | source | states |
|---|---|---|
| `Analyze.PersonaInstruction` | api/analyze.ts:81-91 | the strict stance exactly for the string "Strict", the friendly one exactly for "Friendly", the expert one for every other value (any other string, or a non-string) |
| `Analyze.InstructionsDistinct` | api/analyze.ts:83-89 | the three stance texts are pairwise different |
| `Analyze.PersonaSelectsItsStance` | api/analyze.ts:81-91 | each persona the form offers selects its own stance |
| `Analyze.SystemInstructionOpensWithStance` | api/analyze.ts:115-123 | the system instruction is the indentation, then the persona's stance, then a persona-independent task description |
| `Analyze.PromptFramesPaperText` | api/analyze.ts:125-131 | the paper text sits verbatim between two `---` lines, and can be read back from the prompt (round trip through `FramedText`) |
| `Analyze.CheckModelOutput` | api/analyze.ts:147-149 | passes exactly the objects with truthy `overallScore` and `sectionReviews` and a present `aiContentAnalysis`, and returns them unchanged; otherwise throws the invalid-review error (a `TypeError` for `null`) |
| `Analyze.ZeroScoreRejected` | api/analyze.ts:147-148 | an output whose `overallScore` is 0 is rejected whatever else it holds |
| `Analyze.NullAnalysisAndNoSectionsPass` | api/analyze.ts:147 | `aiContentAnalysis: null` together with an empty `sectionReviews` array passes |
| `Analyze.CatchAll` | api/analyze.ts:156-162 | every thrown value becomes 500 with `{error}` made of the prefix and the error's message, or "An unknown error occurred" for a non-Error |
| `Analyze.HandleBody` | api/analyze.ts:99-154 | after parsing: statuses 200/400/500 only; the model is called exactly when the body is not null, both fields are truthy, a key is set and the paper text converts to a string; a 200 carries an accepted output; every other status carries a non-empty `{error}` body |
| `Analyze.Handle` | api/analyze.ts:94-163 | statuses are 200, 400, 405 or 500 only; the model is called exactly when every guard passes and the paper text converts (`ReachesModel`); a 200 carries an accepted output; every other status carries a non-empty `{error}` body |
| `Analyze.NonPostRejected` | api/analyze.ts:95-97 | any method other than POST gives 405 `{error: "Method Not Allowed"}` and no model call |
| `Analyze.MissingFieldRejected` | api/analyze.ts:102-104 | a falsy `paperText` or `persona` gives 400 with the missing-field message and no model call |
| `Analyze.OnlyEmptyStringsAreMissing` | api/analyze.ts:102-104 | for string fields, the model is called exactly when neither string is empty, so whitespace-only text and unknown personas pass |
| `Analyze.GuardPrecedence` | api/analyze.ts:95-112 | 405 is decided before the body is read and 400 before the key is read; two unconfigured keys give the same response; a response decided by a guard does not depend on the model's reply and makes no model call |
| `Analyze.NullBodyIsServerError` | api/analyze.ts:100 | a body that parses to `null` gives the catch-all 500 with the destructuring `TypeError`'s message and no model call |
| `Analyze.MissingKeyRejected` | api/analyze.ts:106-110 | with both fields present and no key (absent or empty), the response is 500 `{error: "Server configuration error: API key not found."}` and no model call |
| `Analyze.UnconvertibleTextIsServerError` | api/analyze.ts:125-131 | past the guards, a paper text that does not convert to a string gives the catch-all 500 of the conversion `TypeError` and no model call |
| `Analyze.UnparsableBodyIsServerError` | api/analyze.ts:99-162 | a body that does not parse gives the catch-all 500 with the parser's message, not 400, and no model call |
| `Analyze.ModelSeesTextAndStance` | api/analyze.ts:112-142 | when the guards pass and the text converts, the model gets `gemini-2.5-flash` at temperature 0.5, the paper text as `String()` converts it, framed in the prompt, and the persona's stance |
| `Analyze.ModelOutcome` | api/analyze.ts:133-162 | once the model is called: a thrown call or unparsable output gives the catch-all 500; parsed output gives 200 with that output unchanged exactly when it is acceptable, otherwise the catch-all 500 of the check's error |
| `GeminiService.DefaultMessageNamesStatus` | services/geminiService.ts:13 | the default message is "Request failed with status: " followed by digits that read back as the status |
| `GeminiService.ErrorMessage` | services/geminiService.ts:13-22 | a truthy `error` field in a parsed JSON body replaces the default message (as `String()` of that value, which may throw the conversion `TypeError`); an unparsable, `null` or error-less body keeps the default |
| `GeminiService.CheckServerResult` | services/geminiService.ts:25-32 | passes exactly the objects whose `overallScore`, `sectionReviews` and `aiContentAnalysis` are all truthy, and returns them unchanged |
| `GeminiService.AnalyzePaper` | services/geminiService.ts:3-33 | posts `{paperText, persona}` to `/api/analyze`; returns a value exactly when the response is ok, its body parses and the value passes the check, and then returns the parsed body |
| `GeminiService.NotOkAlwaysThrows` | services/geminiService.ts:12-23 | a response that is not ok always throws an Error: the one with the chosen message, or the conversion `TypeError` when that message does not convert |
| `GeminiService.UnconvertibleErrorFieldThrowsTypeError` | services/geminiService.ts:16-22 | an `error` field that is an object with its own `toString` key makes the caller see the conversion `TypeError` |
| `JsValues.JsString` | api/analyze.ts:128 | `String()` of a JSON value returns exactly for values without an object that has its own `toString` key (through arrays), and otherwise throws V8's conversion `TypeError`; a string converts to itself, any other object to "[object Object]" |
| `GeminiService.ClientAcceptanceImpliesServer` | services/geminiService.ts:28 | whatever the client accepts, the endpoint's check accepts too |
| `GeminiService.NullAnalysisSplitsTheChecks` | services/geminiService.ts:28 | the converse fails: `aiContentAnalysis: null` passes the endpoint and fails the client |
| `GeminiService.DeclaredShapeTurnsOnScore` | types.ts:14-36 | for output of the shape `types.ts` declares, both checks accept exactly when `overallScore` is not 0 |
| `GeminiService.SubmissionReachesModel` | services/geminiService.ts:4-10 | the request of a submission with non-empty text reaches the model, given a key: the prompt frames that text unchanged and the instruction carries the persona's stance |
| `GeminiService.HandlerErrorReachesCaller` | services/geminiService.ts:12-22 | every non-200 response of the endpoint reaches the caller as an Error carrying the endpoint's own message |
| `GeminiService.HandlerSuccessReachesCaller` | services/geminiService.ts:25-32 | a 200 from the endpoint reaches the caller unchanged exactly when `aiContentAnalysis` is truthy; otherwise the client throws |
| `JsText.TrimEmptyIffAllWhitespace` | App.tsx:19 | `text.trim()` is empty exactly when every character is JavaScript whitespace |
| `JsText.DecimalRoundTrip` | services/geminiService.ts:13 | the decimal text of a status reads back as that status |
| `AppState.FailureText` | App.tsx:32 | an Error's message, or "An unknown error occurred during analysis." for anything else |
| `AppState.ShownPanels` | App.tsx:52-55 | the loader shows exactly while loading, the error exactly for a truthy error; the report shows exactly when not loading, with no (truthy) error and a truthy result; the welcome exactly when all three are absent; never both |
| `AppState.ExactlyOnePanel` | App.tsx:52-55 | in a state where loading implies no error, exactly one panel renders |
| `AppState.App.constructor` | App.tsx:12-16 | empty text, persona Expert, no result, not loading, no error |
| `AppState.App.EditText` | components/PaperInput.tsx:37 | the text changes unless loading; nothing else changes |
| `AppState.App.ChoosePersona` | components/PaperInput.tsx:50 | the persona changes unless loading; nothing else changes |
| `AppState.App.Submit` | App.tsx:19-25 | text that trims to nothing sets "Paper content cannot be empty.", sends nothing and leaves loading and the result as they were; otherwise loading starts with error and result cleared and the text and persona are sent |
| `AppState.App.Succeed` | App.tsx:29-35 | the result is stored, the error stays cleared, loading ends |
| `AppState.App.Fail` | App.tsx:30-35 | the failure text is stored, the result stays cleared, loading ends |
| `AppState.App.ClickAnalyze` | App.tsx:18-36 | a click while the button is disabled changes nothing; otherwise, once the request settles, loading is over and exactly one of result and error is set, from what `analyzePaper` gave |
| `AppState.AcceptedResultShowsReport` | App.tsx:54 | a result the client accepted shows the report and no other panel |
| `AppState.EmptyResubmitKeepsResult` | App.tsx:19-22 | after a success, submitting blank text sets the error and keeps the old result, and only the error panel shows |
| `PaperInput.PersonasOfferedOnce` | components/PaperInput.tsx:22 | the options are Expert, Strict, Friendly: every persona, each once, Expert first |
| `PaperInput.SubmitDisabled` | components/PaperInput.tsx:60 | disabled whenever loading; when not loading, disabled exactly for the empty string |
| `PaperInput.ButtonLabel` | components/PaperInput.tsx:64 | the label is "Analyzing..." exactly while loading |
| `PaperInput.LoadingLocksTheForm` | components/PaperInput.tsx:37-64 | while loading the text area, select and button are disabled; otherwise the inputs are enabled and the label is "Analyze Paper" |
| `PaperInput.WhitespaceOnlyTextEnablesSubmit` | components/PaperInput.tsx:60 | whitespace-only text enables the button, and that text trims to nothing, so the page's own check rejects it |
| `ReviewReport.ScoreColor` | components/ReviewReport.tsx:9-13 | green exactly for score ≥ 8, yellow exactly for 5 ≤ score < 8, red exactly below 5 |
| `ReviewReport.ScoreColorMonotone` | components/ReviewReport.tsx:9-13 | a higher score never gets a worse band |
| `ReviewReport.PlagiarismLook` | components/ReviewReport.tsx:47-52 | red exactly for "High Similarity", yellow exactly for "Possible Issues", green for anything else; the warning icon exactly when not green |
| `ReviewReport.CitationTone` | components/ReviewReport.tsx:76 | blue exactly for "Good", yellow for every other status |
| `ReviewReport.StatusesGradeAsNamed` | components/ReviewReport.tsx:47-76 | on the enumerated statuses: High Similarity red, Possible Issues yellow, Clear green; Good blue, Needs Improvement yellow |

## Left out

- The `responseSchema` literal (api/analyze.ts:12-79). It is only passed to the provider, and nothing in the code enforces its enums or ranges. `ModelRequest` carries every other argument of the call.
- The model call, `fetch` and the environment variable. They are external; they appear as the inputs `reply`, `fetched` and `apiKey`.
- `JSON.parse`, `JSON.stringify` and the conversion of a number to text. They are runtime built-ins and are fields of `Runtime`. The end-to-end lemmas assume only that parsing the stringified value gives it back.
- The text of runtime `TypeError`s. Destructuring `null`, reading a field of `null` and converting an unconvertible object use V8's message text, written as constants.
- HTTP headers of the responses (always `Content-Type: application/json`).
- Case normalisation of method names by the `Request` constructor: `verb` is the method as the handler sees it.
- Keys inherited from `Object.prototype`. `ReadProperty` looks only at an object's own keys, which is exact for the keys the core reads; `JsString` accounts for an own `toString` key shadowing the inherited one.
- React rendering, JSX, Tailwind class strings (modelled as colours), icons, `toFixed(1)` and the footer year.
- components/Welcome.tsx, components/Header.tsx and components/ErrorDisplay.tsx. They are static UI with no logic.
- The loader component (components/Loader.tsx is not part of this model).
- components/ReviewReport.tsx:83. It reads an `aiContentPercentage` field that `types.ts` does not declare.
- `console.error` logging, the asynchronous scheduling of `handleAnalyze` and `useCallback`'s dependency tracking. Only the sequential effect of one click is modelled; the `await` is the split between `Submit` and `Succeed`/`Fail`.
- `AppState.App.Submit` requires that no request is outstanding. The submit button, its only caller, is disabled while loading (`ClickAnalyze` models the click with that guard).
- Idempotence of the endpoint holds by construction: `Handle` is a function of its inputs.
