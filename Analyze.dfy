/** The review endpoint (api/analyze.ts): the method guard, the request-body
    guard, the configuration guard, the instruction and prompt sent to the
    model, the check on the model's output and the catch-all that turns every
    thrown value into a 500. The model call, the environment variable and
    the JSON built-ins are inputs: `reply` is what `generateContent` and
    `response.text` yield, `apiKey` is `process.env.API_KEY`. */
module Analyze {
  import opened JsValues
  import opened JsText
  import opened Types

  // ---- persona instructions ----

  const StrictInstruction :=
    "You are a highly critical and strict academic reviewer."
    + " Your feedback should be direct,"
    + " pointing out flaws and demanding rigorous improvements."
    + " Your standards are exceptionally high."
  const FriendlyInstruction :=
    "You are a friendly and encouraging peer reviewer."
    + " Your feedback should be constructive and supportive,"
    + " aiming to help the author improve their work while highlighting strengths."
  const ExpertInstruction :=
    "You are an expert academic reviewer in the paper's field."
    + " Your feedback should be balanced,"
    + " insightful, and professional,"
    + " focusing on the scientific merit,"
    + " structure, and clarity of the work."

  /** The three stances are told apart by their text. */
  lemma InstructionsDistinct()
    ensures StrictInstruction != FriendlyInstruction
    ensures FriendlyInstruction != ExpertInstruction
    ensures ExpertInstruction != StrictInstruction
  {
  }

  /** `getPersonaInstruction`: a `switch` compares with `===`, so only the
      exact strings "Strict" and "Friendly" select their stance; "Expert",
      any other string and any value that is not a string get the expert
      stance. */
  function PersonaInstruction(persona: Json): (text: string)
    ensures text == StrictInstruction <==> persona == JStr("Strict")
    ensures text == FriendlyInstruction <==> persona == JStr("Friendly")
    ensures text == ExpertInstruction <==> persona != JStr("Strict") && persona != JStr("Friendly")
  {
    InstructionsDistinct();
    if persona == JStr("Strict") then StrictInstruction
    else if persona == JStr("Friendly") then FriendlyInstruction
    else ExpertInstruction
  }

  /** The stance each persona of the form selects. */
  lemma PersonaSelectsItsStance(p: Persona)
    ensures PersonaInstruction(JStr(PersonaName(p))) ==
      match p
      case Expert => ExpertInstruction
      case Strict => StrictInstruction
      case Friendly => FriendlyInstruction
  {
    assert "Expert" != "Strict" && "Expert" != "Friendly" by {
      assert "Expert"[0] != "Strict"[0] && "Expert"[0] != "Friendly"[0];
    }
  }

  // ---- what is sent to the model ----

  /** The indentation that opens the system instruction. */
  const InstructionLead := "\n      "
  /** The rest of the template, one source line per piece (the longest line
      split at its sentences). */
  const TaskDescription :=
    "\n      Your task is to analyze the provided research paper text."
    + "\n      Evaluate each major section (Abstract, Introduction, Methods, Results, Conclusion, etc.)."
    + "\n      Provide a detailed review based on the following criteria: clarity, coherence, originality, and citation quality."
    + "\n      Also, perform a plagiarism check against public knowledge."
    + "\n      Crucially, conduct a detailed analysis to detect AI-generated content."
    + " Instead of just a percentage, identify specific sentences or passages that exhibit AI-like patterns"
    + " (e.g., generic phrasing, lack of depth, overly complex vocabulary, unnatural flow)."
    + " For each passage you flag, provide the text, a reason for suspicion, and a confidence level (High, Medium, Low)."
    + " Based on these findings, calculate an overall estimated percentage of AI-generated content."
    + "\n      You must provide your entire response in the JSON format defined by the provided schema."
    + " Do not include any markdown formatting like ```json."
    + "\n    "

  function SystemInstruction(persona: Json): string
  {
    InstructionLead + PersonaInstruction(persona) + TaskDescription
  }

  /** The system instruction opens, after its indentation, with the persona's
      stance, and the rest of it does not depend on the persona. */
  lemma SystemInstructionOpensWithStance(persona: Json)
    ensures var s := SystemInstruction(persona);
      var n := |InstructionLead|;
      var m := |PersonaInstruction(persona)|;
      n + m <= |s| && s[..n] == InstructionLead && s[n..n + m] == PersonaInstruction(persona) && s[n + m..] == TaskDescription
  {
    ThreeParts(InstructionLead, PersonaInstruction(persona), TaskDescription);
  }

  /** The parts of a three-part concatenation are read back by slicing. */
  lemma ThreeParts(a: string, b: string, c: string)
    ensures var s := a + b + c;
      s[..|a|] == a && s[|a|..|a| + |b|] == b && s[|a| + |b|..] == c
  {
    var s := a + b + c;
    assert s[..|a|] == a;
    assert s[|a|..|a| + |b|] == b;
    assert s[|a| + |b|..] == c;
  }

  const Indent := "\n      "
  const Delimiter := "---"
  const PromptIntro := Indent + "Please review the following research paper content:"
  const PromptOutro := Indent + "Provide your full analysis in the specified JSON format.\n    "
  /** The prompt text up to and including the opening `---` line. */
  const PromptHead := PromptIntro + Indent + Delimiter + Indent
  /** The prompt text from the closing `---` line on. */
  const PromptTail := Indent + Delimiter + PromptOutro

  function Prompt(paperText: string): string
  {
    PromptHead + paperText + PromptTail
  }

  /** The paper text framed by a prompt: what lies between the opening and
      the closing `---` lines, if the string is framed that way. */
  function FramedText(prompt: string): (r: Option<string>)
    ensures r.Some? ==> |PromptHead| + |r.value| + |PromptTail| == |prompt|
  {
    var h, t := |PromptHead|, |PromptTail|;
    if h + t <= |prompt| && prompt[..h] == PromptHead && prompt[|prompt| - t..] == PromptTail
    then Some(prompt[h..|prompt| - t])
    else None
  }

  /** The paper text stands verbatim on its own lines between two `---`
      delimiter lines, so the prompt determines it. */
  lemma {:induction false} PromptFramesPaperText(paperText: string)
    ensures FramedText(Prompt(paperText)) == Some(paperText)
    ensures Prompt(paperText) ==
      PromptIntro + Indent + Delimiter + Indent + paperText + Indent + Delimiter + PromptOutro
  {
    var p := Prompt(paperText);
    var h := |PromptHead|;
    assert p[..h] == PromptHead;
    assert p[h..|p| - |PromptTail|] == paperText;
    assert p[|p| - |PromptTail|..] == PromptTail;
  }

  const ModelName := "gemini-2.5-flash"
  const Temperature: real := 0.5

  /** The arguments of the one `generateContent` call (the response schema,
      a fixed literal, is left out). */
  datatype ModelRequest = ModelRequest(
    model: string,
    contents: string,
    systemInstruction: string,
    responseMimeType: string,
    temperature: real)

  /** The call made with the paper text as line 128 converted it. */
  function BuildModelRequest(paperText: string, persona: Json): ModelRequest
  {
    ModelRequest(ModelName, Prompt(paperText), SystemInstruction(persona),
                 "application/json", Temperature)
  }

  // ---- the check on the model's output ----

  const InvalidReviewMessage := "Received an invalid or incomplete review from the AI."

  /** What the handler lets through: an object whose `overallScore` and
      `sectionReviews` are truthy and that has an `aiContentAnalysis` key at
      all (`=== undefined` is the test, so `null` passes). */
  predicate ServerAcceptable(result: Json)
  {
    && result.JObj?
    && "overallScore" in result.fields && Truthy(result.fields["overallScore"])
    && "sectionReviews" in result.fields && Truthy(result.fields["sectionReviews"])
    && "aiContentAnalysis" in result.fields
  }

  /** Line 147: returns the parsed value untouched when it passes, throws
      otherwise (reading a field of `null` throws a `TypeError` first). */
  function CheckModelOutput(result: Json): (r: Attempt<Json>)
    ensures r.Returned? <==> ServerAcceptable(result)
    ensures r.Returned? ==> r.value == result
    ensures r.Threw? ==> r.thrown.ErrorValue?
    ensures r.Threw? && result != JNull ==> r.thrown.message == InvalidReviewMessage
  {
    match ReadProperty(result, "overallScore")
    case Threw(t) => Threw(t)
    case Returned(score) =>
      var sections := ReadProperty(result, "sectionReviews").value;
      var analysis := ReadProperty(result, "aiContentAnalysis").value;
      if !TruthyField(score) || !TruthyField(sections) || analysis.None? then
        Threw(ErrorValue(InvalidReviewMessage))
      else
        Returned(result)
  }

  /** A score of exactly 0 is turned away, whatever else the output holds. */
  lemma ZeroScoreRejected(result: Json)
    requires result.JObj? && "overallScore" in result.fields && result.fields["overallScore"] == JNum(0.0)
    ensures CheckModelOutput(result) == Threw(ErrorValue(InvalidReviewMessage))
  {
  }

  /** `aiContentAnalysis: null` and `sectionReviews: []` both pass. */
  lemma NullAnalysisAndNoSectionsPass(score: real)
    requires score != 0.0
    ensures var result := JObj(map["overallScore" := JNum(score), "sectionReviews" := JArr([]),
                                   "aiContentAnalysis" := JNull]);
      CheckModelOutput(result) == Returned(result)
  {
  }

  // ---- the handler ----

  /** An HTTP request: its method and its body text. */
  datatype Request = Request(verb: string, body: string)

  /** The response: a status and the JSON value its body is the text of. */
  datatype Response = Response(status: nat, body: Json)

  /** A run of the handler: its response and the model call it made, if any. */
  datatype Run = Run(response: Response, call: Option<ModelRequest>)

  const MethodNotAllowedMessage := "Method Not Allowed"
  const MissingFieldsMessage := "Missing paperText or persona in request body"
  const MissingKeyMessage := "Server configuration error: API key not found."
  const FailurePrefix := "Failed to get a valid response from the AI: "
  const UnknownErrorMessage := "An unknown error occurred"
  /** The message V8 gives the `TypeError` of destructuring `null`. */
  const DestructureNullMessage := "Cannot destructure property 'paperText' of '(intermediate value)' as it is null."

  function ErrorBody(message: string): (body: Json)
    ensures IsErrorBody(body) <==> message != ""
  {
    JObj(map["error" := JStr(message)])
  }

  /** An error body `{error: message}` with a message that is not empty. */
  predicate IsErrorBody(body: Json)
  {
    body.JObj? && body.fields.Keys == {"error"} && body.fields["error"].JStr? && body.fields["error"].s != ""
  }

  /** The `catch` block: every thrown value becomes a 500 whose message is
      the prefix followed by the error's message, or by a fixed text when
      what was thrown is not an `Error`. */
  function CatchAll(t: Thrown): (r: Response)
    ensures r.status == 500 && IsErrorBody(r.body)
    ensures r.body.fields["error"] == JStr(FailurePrefix + if t.ErrorValue? then t.message else UnknownErrorMessage)
  {
    Response(500, ErrorBody(FailurePrefix + match t case ErrorValue(m) => m case OtherValue => UnknownErrorMessage))
  }

  /** Everything after the model call, inside the `try`. */
  function AfterModelCall(reply: Attempt<string>, rt: Runtime): (r: Response)
    ensures r.status == 200 || r.status == 500
    ensures r.status == 200 ==> ServerAcceptable(r.body)
    ensures r.status == 500 ==> IsErrorBody(r.body)
  {
    match reply
    case Threw(t) => CatchAll(t)
    case Returned(text) =>
      match rt.parseJson(Trim(text))
      case Threw(t) => CatchAll(t)
      case Returned(result) =>
        match CheckModelOutput(result)
        case Threw(t) => CatchAll(t)
        case Returned(accepted) => Response(200, accepted)
  }

  /** A key that `!API_KEY` lets through: set and not empty. */
  predicate KeyConfigured(apiKey: Option<string>)
  {
    apiKey.Some? && apiKey.value != ""
  }

  /** The two fields line 100 destructures from a body other than `null`. */
  function BodyFields(body: Json): (Option<Json>, Option<Json>)
    requires body != JNull
  {
    (ReadProperty(body, "paperText").value, ReadProperty(body, "persona").value)
  }

  /** The line 102 guard: both fields truthy. */
  predicate FieldsPresent(body: Json)
    requires body != JNull
  {
    TruthyField(BodyFields(body).0) && TruthyField(BodyFields(body).1)
  }

  /** Every guard before the model call passes. */
  predicate GuardsPass(req: Request, apiKey: Option<string>, rt: Runtime)
  {
    && req.verb == "POST"
    && rt.parseJson(req.body).Returned?
    && rt.parseJson(req.body).value != JNull
    && FieldsPresent(rt.parseJson(req.body).value)
    && KeyConfigured(apiKey)
  }

  /** Every guard passes and the paper text converts to a string at line
      128, so the model is called. */
  predicate ReachesModel(req: Request, apiKey: Option<string>, rt: Runtime)
  {
    GuardsPass(req, apiKey, rt) && Convertible(BodyFields(rt.parseJson(req.body).value).0.value)
  }

  /** The handler once the body has parsed (lines 100-154). */
  function HandleBody(body: Json, apiKey: Option<string>, reply: Attempt<string>, rt: Runtime): (run: Run)
    ensures run.response.status == 200 || run.response.status == 400 || run.response.status == 500
    ensures run.call.Some? <==>
      body != JNull && FieldsPresent(body) && KeyConfigured(apiKey) && Convertible(BodyFields(body).0.value)
    ensures run.response.status == 200 ==> run.call.Some? && ServerAcceptable(run.response.body)
    ensures run.response.status != 200 ==> IsErrorBody(run.response.body)
  {
    if body == JNull then
      Run(CatchAll(ErrorValue(DestructureNullMessage)), None)
    else if !FieldsPresent(body) then
      Run(Response(400, ErrorBody(MissingFieldsMessage)), None)
    else if !KeyConfigured(apiKey) then
      Run(Response(500, ErrorBody(MissingKeyMessage)), None)
    else
      var (paperText, persona) := BodyFields(body);
      match JsString(paperText.value, rt)
      case Threw(t) => Run(CatchAll(t), None)
      case Returned(text) => Run(AfterModelCall(reply, rt), Some(BuildModelRequest(text, persona.value)))
  }

  /** `handler`. */
  function Handle(req: Request, apiKey: Option<string>, reply: Attempt<string>, rt: Runtime): (run: Run)
    ensures run.response.status in {200, 400, 405, 500}
    ensures run.call.Some? <==> ReachesModel(req, apiKey, rt)
    ensures run.response.status == 200 ==> run.call.Some? && ServerAcceptable(run.response.body)
    ensures run.response.status != 200 ==> IsErrorBody(run.response.body)
  {
    if req.verb != "POST" then
      Run(Response(405, ErrorBody(MethodNotAllowedMessage)), None)
    else
      match rt.parseJson(req.body)
      case Threw(t) => Run(CatchAll(t), None)
      case Returned(body) => HandleBody(body, apiKey, reply, rt)
  }

  // ---- properties of the handler ----

  /** Any method but POST gets 405 and nothing else happens. */
  lemma NonPostRejected(req: Request, apiKey: Option<string>, reply: Attempt<string>, rt: Runtime)
    requires req.verb != "POST"
    ensures Handle(req, apiKey, reply, rt) == Run(Response(405, ErrorBody(MethodNotAllowedMessage)), None)
  {
  }

  /** A falsy `paperText` or `persona` (absent, `null`, `""`, `0`, `false`)
      gets 400 and no model call. */
  lemma MissingFieldRejected(req: Request, apiKey: Option<string>, reply: Attempt<string>, rt: Runtime)
    requires req.verb == "POST" && rt.parseJson(req.body).Returned?
    requires rt.parseJson(req.body).value != JNull && !FieldsPresent(rt.parseJson(req.body).value)
    ensures Handle(req, apiKey, reply, rt) == Run(Response(400, ErrorBody(MissingFieldsMessage)), None)
  {
  }

  /** Whitespace-only text and persona strings outside the three both pass
      the 400 guard: with a key configured, the model is called exactly when
      neither string is empty. */
  lemma OnlyEmptyStringsAreMissing(req: Request, text: string, persona: string, apiKey: Option<string>,
                                   reply: Attempt<string>, rt: Runtime)
    requires req.verb == "POST" && KeyConfigured(apiKey)
    requires rt.parseJson(req.body) == Returned(JObj(map["paperText" := JStr(text), "persona" := JStr(persona)]))
    ensures Handle(req, apiKey, reply, rt).call.Some? <==> text != "" && persona != ""
  {
    var body := JObj(map["paperText" := JStr(text), "persona" := JStr(persona)]);
    assert BodyFields(body) == (Some(JStr(text)), Some(JStr(persona)));
  }

  /** Guard precedence: 405 before reading the body, then the body's parse
      and the 400 guard, then the key; each response decided by a guard is
      the same whatever the inputs looked at later are, and none calls the
      model. */
  lemma GuardPrecedence(req: Request, k1: Option<string>, k2: Option<string>,
                        r1: Attempt<string>, r2: Attempt<string>, rt1: Runtime, rt2: Runtime)
    ensures req.verb != "POST" ==>
      Handle(req, k1, r1, rt1) == Handle(req, k2, r2, rt2) && Handle(req, k1, r1, rt1).response.status == 405
    ensures (&& req.verb == "POST" && rt1.parseJson(req.body).Returned? && rt1.parseJson(req.body).value != JNull
             && !FieldsPresent(rt1.parseJson(req.body).value)) ==>
      Handle(req, k1, r1, rt1) == Handle(req, k2, r2, rt1) && Handle(req, k1, r1, rt1).response.status == 400
    ensures !KeyConfigured(k1) && !KeyConfigured(k2) ==> Handle(req, k1, r1, rt1) == Handle(req, k2, r2, rt1)
    ensures !GuardsPass(req, k1, rt1) ==> Handle(req, k1, r1, rt1) == Handle(req, k1, r2, rt1)
    ensures !GuardsPass(req, k1, rt1) ==> Handle(req, k1, r1, rt1).call == None
  {
  }

  /** A body that does not parse is not a 400 but a 500 from the catch-all,
      and no model call is made. */
  lemma UnparsableBodyIsServerError(req: Request, apiKey: Option<string>, reply: Attempt<string>, rt: Runtime)
    requires req.verb == "POST" && rt.parseJson(req.body).Threw?
    ensures Handle(req, apiKey, reply, rt) == Run(CatchAll(rt.parseJson(req.body).thrown), None)
  {
  }

  /** A body that parses to `null` fails the destructuring of line 100: the
      `TypeError` goes to the catch-all, and no model call is made. */
  lemma NullBodyIsServerError(req: Request, apiKey: Option<string>, reply: Attempt<string>, rt: Runtime)
    requires req.verb == "POST" && rt.parseJson(req.body) == Returned(JNull)
    ensures Handle(req, apiKey, reply, rt) == Run(CatchAll(ErrorValue(DestructureNullMessage)), None)
    ensures Handle(req, apiKey, reply, rt).response.body.fields["error"].s ==
      FailurePrefix + DestructureNullMessage
  {
  }

  /** With both fields present and no key configured, the answer is the
      configuration 500 and no model call is made. */
  lemma MissingKeyRejected(req: Request, apiKey: Option<string>, reply: Attempt<string>, rt: Runtime)
    requires req.verb == "POST" && rt.parseJson(req.body).Returned?
    requires rt.parseJson(req.body).value != JNull && FieldsPresent(rt.parseJson(req.body).value)
    requires !KeyConfigured(apiKey)
    ensures Handle(req, apiKey, reply, rt) == Run(Response(500, ErrorBody(MissingKeyMessage)), None)
  {
  }

  /** Past the guards, a paper text that `${paperText}` cannot convert (an
      object with its own `toString` key, or an array holding one) throws a
      `TypeError` while the prompt is built: the catch-all answers 500 and
      the model is never called. */
  lemma UnconvertibleTextIsServerError(req: Request, apiKey: Option<string>, reply: Attempt<string>, rt: Runtime)
    requires GuardsPass(req, apiKey, rt)
    requires !Convertible(BodyFields(rt.parseJson(req.body).value).0.value)
    ensures Handle(req, apiKey, reply, rt) == Run(CatchAll(ErrorValue(PrimitiveConversionMessage)), None)
  {
  }

  /** When the guards pass and the text converts, the model receives the
      paper text, converted by `String()`, framed by the prompt, and the
      persona's stance. */
  lemma ModelSeesTextAndStance(req: Request, apiKey: Option<string>, reply: Attempt<string>, rt: Runtime)
    requires ReachesModel(req, apiKey, rt)
    ensures var call := Handle(req, apiKey, reply, rt).call.value;
      var (text, persona) := BodyFields(rt.parseJson(req.body).value);
      && FramedText(call.contents) == Some(JsString(text.value, rt).value)
      && call.systemInstruction == InstructionLead + PersonaInstruction(persona.value) + TaskDescription
      && call.model == ModelName && call.temperature == Temperature
  {
    PromptFramesPaperText(JsString(BodyFields(rt.parseJson(req.body).value).0.value, rt).value);
  }

  /** Once the model is called, the output is returned with 200 unchanged
      exactly when it parses and passes the check; every thrown value, from
      the call, the parse or the check, becomes the catch-all's 500. */
  lemma ModelOutcome(req: Request, apiKey: Option<string>, reply: Attempt<string>, rt: Runtime)
    requires ReachesModel(req, apiKey, rt)
    ensures var resp := Handle(req, apiKey, reply, rt).response;
      && (reply.Threw? ==> resp == CatchAll(reply.thrown))
      && (reply.Returned? && rt.parseJson(Trim(reply.value)).Threw? ==>
            resp == CatchAll(rt.parseJson(Trim(reply.value)).thrown))
      && (reply.Returned? && rt.parseJson(Trim(reply.value)).Returned? ==>
            var result := rt.parseJson(Trim(reply.value)).value;
            if ServerAcceptable(result) then resp == Response(200, result)
            else resp == CatchAll(CheckModelOutput(result).thrown))
  {
  }
}
