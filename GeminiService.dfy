/** The browser-side call (services/geminiService.ts): the request it sends,
    how a failed HTTP response becomes a thrown message, and the check on a
    successful one. `fetch` is an input: `fetched` is what it resolves to,
    or what it throws. */
module GeminiService {
  import opened JsValues
  import opened JsText
  import opened Types
  import Analyze

  /** What `fetch` resolves to: the status and the body text. */
  datatype HttpResponse = HttpResponse(status: nat, body: string)

  /** `response.ok`. */
  predicate Ok(resp: HttpResponse)
  {
    200 <= resp.status <= 299
  }

  /** The request `analyzePaper` sends. */
  datatype ClientRequest = ClientRequest(url: string, verb: string, contentType: string, body: string)

  function RequestBody(paperText: string, persona: Persona): Json
  {
    JObj(map["paperText" := JStr(paperText), "persona" := JStr(PersonaName(persona))])
  }

  function RequestFor(paperText: string, persona: Persona, rt: Runtime): ClientRequest
  {
    ClientRequest("/api/analyze", "POST", "application/json", rt.stringify(RequestBody(paperText, persona)))
  }

  const StatusPrefix := "Request failed with status: "

  /** The message a failed response gets when its body says nothing better. */
  function DefaultErrorMessage(status: nat): string
  {
    StatusPrefix + NatToString(status)
  }

  /** The default message names the status: the text after the prefix reads
      back as the status code. */
  lemma DefaultMessageNamesStatus(status: nat)
    ensures var m := DefaultErrorMessage(status);
      |StatusPrefix| < |m| && m[..|StatusPrefix|] == StatusPrefix
      && (forall i :: |StatusPrefix| <= i < |m| ==> IsDigit(m[i]))
      && DecimalValue(m[|StatusPrefix|..]) == status
  {
    var m := DefaultErrorMessage(status);
    assert m[|StatusPrefix|..] == NatToString(status);
    DecimalRoundTrip(status);
  }

  /** Lines 13-22: the message of the error a failed response throws. The
      body's `error` field replaces the default when it is truthy; a body
      that does not parse, is `null` (reading `.error` throws inside the
      `try`) or has a falsy `error` keeps the default. `new Error(x)` at line
      22, outside the `try`, converts the message to a string, which throws
      a `TypeError` for a value that does not convert. */
  function ErrorMessage(resp: HttpResponse, rt: Runtime): (msg: Attempt<string>)
    ensures var data := rt.parseJson(resp.body);
      if data.Returned? && data.value.JObj? && "error" in data.value.fields && Truthy(data.value.fields["error"])
      then msg == JsString(data.value.fields["error"], rt)
      else msg == Returned(DefaultErrorMessage(resp.status))
    ensures msg.Threw? ==> msg.thrown == ErrorValue(PrimitiveConversionMessage)
  {
    var fallback := DefaultErrorMessage(resp.status);
    match rt.parseJson(resp.body)
    case Threw(_) => Returned(fallback)
    case Returned(data) =>
      match ReadProperty(data, "error")
      case Threw(_) => Returned(fallback)
      case Returned(e) => if TruthyField(e) then JsString(e.value, rt) else Returned(fallback)
  }

  const InvalidServerReviewMessage := "Received an invalid or incomplete review from the server."

  /** What the client accepts: an object whose `overallScore`,
      `sectionReviews` and `aiContentAnalysis` are all truthy. */
  predicate ClientAcceptable(result: Json)
  {
    && result.JObj?
    && "overallScore" in result.fields && Truthy(result.fields["overallScore"])
    && "sectionReviews" in result.fields && Truthy(result.fields["sectionReviews"])
    && "aiContentAnalysis" in result.fields && Truthy(result.fields["aiContentAnalysis"])
  }

  /** Lines 25-32: the parsed body is returned untouched when it passes. */
  function CheckServerResult(result: Json): (r: Attempt<Json>)
    ensures r.Returned? <==> ClientAcceptable(result)
    ensures r.Returned? ==> r.value == result
    ensures r.Threw? && result != JNull ==> r.thrown == ErrorValue(InvalidServerReviewMessage)
  {
    match ReadProperty(result, "overallScore")
    case Threw(t) => Threw(t)
    case Returned(score) =>
      var sections := ReadProperty(result, "sectionReviews").value;
      var analysis := ReadProperty(result, "aiContentAnalysis").value;
      if !TruthyField(score) || !TruthyField(sections) || !TruthyField(analysis) then
        Threw(ErrorValue(InvalidServerReviewMessage))
      else
        Returned(result)
  }

  /** One call of `analyzePaper`: the request it sent and what it returned
      or threw. */
  datatype Call = Call(request: ClientRequest, outcome: Attempt<Json>)

  /** `analyzePaper`. */
  function AnalyzePaper(paperText: string, persona: Persona, fetched: Attempt<HttpResponse>, rt: Runtime): (c: Call)
    ensures c.request.url == "/api/analyze" && c.request.verb == "POST"
    ensures c.request.body == rt.stringify(RequestBody(paperText, persona))
    ensures c.outcome.Returned? <==>
      fetched.Returned? && Ok(fetched.value) && rt.parseJson(fetched.value.body).Returned?
      && ClientAcceptable(rt.parseJson(fetched.value.body).value)
    ensures c.outcome.Returned? ==> c.outcome.value == rt.parseJson(fetched.value.body).value
  {
    var outcome :=
      match fetched
      case Threw(t) => Threw(t)
      case Returned(resp) =>
        if !Ok(resp) then
          match ErrorMessage(resp, rt)
          case Returned(m) => Threw(ErrorValue(m))
          case Threw(t) => Threw(t)
        else
          match rt.parseJson(resp.body)
          case Threw(t) => Threw(t)
          case Returned(result) => CheckServerResult(result);
    Call(RequestFor(paperText, persona, rt), outcome)
  }

  /** A response that is not ok always throws an `Error`, never returns:
      the one with the chosen message, or the `TypeError` of converting it. */
  lemma NotOkAlwaysThrows(paperText: string, persona: Persona, resp: HttpResponse, rt: Runtime)
    requires !Ok(resp)
    ensures var outcome := AnalyzePaper(paperText, persona, Returned(resp), rt).outcome;
      && outcome.Threw? && outcome.thrown.ErrorValue?
      && (ErrorMessage(resp, rt).Returned? ==> outcome.thrown.message == ErrorMessage(resp, rt).value)
      && (ErrorMessage(resp, rt).Threw? ==> outcome.thrown.message == PrimitiveConversionMessage)
  {
  }

  /** An `error` field holding an object with its own `toString` key makes
      `new Error(errorMsg)` itself throw: the caller sees that `TypeError`,
      not the default message. */
  lemma UnconvertibleErrorFieldThrowsTypeError(paperText: string, persona: Persona, resp: HttpResponse,
                                               fields: map<string, Json>, rt: Runtime)
    requires !Ok(resp) && "toString" in fields
    requires rt.parseJson(resp.body) == Returned(JObj(map["error" := JObj(fields)]))
    ensures AnalyzePaper(paperText, persona, Returned(resp), rt).outcome == Threw(ErrorValue(PrimitiveConversionMessage))
  {
  }

  // ---- the client's check against the handler's ----

  /** Whatever the client accepts the handler accepted too. */
  lemma ClientAcceptanceImpliesServer(result: Json)
    ensures ClientAcceptable(result) ==> Analyze.ServerAcceptable(result)
    ensures CheckServerResult(result).Returned? ==> Analyze.CheckModelOutput(result).Returned?
  {
  }

  /** The converse fails: `aiContentAnalysis: null` passes the handler and
      is turned away by the client. */
  lemma NullAnalysisSplitsTheChecks()
    ensures var result := JObj(map["overallScore" := JNum(7.0), "sectionReviews" := JArr([]),
                                   "aiContentAnalysis" := JNull]);
      Analyze.ServerAcceptable(result) && !ClientAcceptable(result)
  {
  }

  /** For output of the declared shape both checks agree, and what they test
      comes down to the score: a score of exactly 0 is refused by both. */
  lemma DeclaredShapeTurnsOnScore(r: ReviewResult)
    ensures Analyze.ServerAcceptable(ToJson(r)) <==> r.overallScore != 0.0
    ensures ClientAcceptable(ToJson(r)) <==> r.overallScore != 0.0
  {
  }

  // ---- client and handler together ----

  /** The request a submission sends reaches the handler with its text and
      persona unchanged: if the text is not empty and a key is configured,
      the model is called with the text framed in the prompt and the
      persona's stance, whatever the text's whitespace. */
  lemma SubmissionReachesModel(paperText: string, persona: Persona, apiKey: Option<string>,
                               reply: Attempt<string>, rt: Runtime)
    requires rt.parseJson(rt.stringify(RequestBody(paperText, persona))) == Returned(RequestBody(paperText, persona))
    requires paperText != "" && Analyze.KeyConfigured(apiKey)
    ensures var req := RequestFor(paperText, persona, rt);
      var run := Analyze.Handle(Analyze.Request(req.verb, req.body), apiKey, reply, rt);
      && run.call.Some?
      && Analyze.FramedText(run.call.value.contents) == Some(paperText)
      && run.call.value.systemInstruction ==
           Analyze.InstructionLead + Analyze.PersonaInstruction(JStr(PersonaName(persona))) + Analyze.TaskDescription
  {
    var body := RequestBody(paperText, persona);
    assert Analyze.BodyFields(body) == (Some(JStr(paperText)), Some(JStr(PersonaName(persona))));
    Analyze.PromptFramesPaperText(paperText);
  }

  /** Every error response of the handler reaches the caller as an `Error`
      carrying the handler's own message. */
  lemma HandlerErrorReachesCaller(req: Analyze.Request, apiKey: Option<string>, reply: Attempt<string>,
                                  rt: Runtime, paperText: string, persona: Persona)
    requires var resp := Analyze.Handle(req, apiKey, reply, rt).response;
      rt.parseJson(rt.stringify(resp.body)) == Returned(resp.body)
    requires Analyze.Handle(req, apiKey, reply, rt).response.status != 200
    ensures var resp := Analyze.Handle(req, apiKey, reply, rt).response;
      var c := AnalyzePaper(paperText, persona, Returned(HttpResponse(resp.status, rt.stringify(resp.body))), rt);
      c.outcome == Threw(ErrorValue(resp.body.fields["error"].s))
  {
  }

  /** A 200 from the handler reaches the caller unchanged exactly when its
      `aiContentAnalysis` is truthy; otherwise the client throws. */
  lemma HandlerSuccessReachesCaller(req: Analyze.Request, apiKey: Option<string>, reply: Attempt<string>,
                                    rt: Runtime, paperText: string, persona: Persona)
    requires var resp := Analyze.Handle(req, apiKey, reply, rt).response;
      rt.parseJson(rt.stringify(resp.body)) == Returned(resp.body)
    requires Analyze.Handle(req, apiKey, reply, rt).response.status == 200
    ensures var resp := Analyze.Handle(req, apiKey, reply, rt).response;
      var c := AnalyzePaper(paperText, persona, Returned(HttpResponse(200, rt.stringify(resp.body))), rt);
      c.outcome == if Truthy(resp.body.fields["aiContentAnalysis"]) then Returned(resp.body)
                   else Threw(ErrorValue(InvalidServerReviewMessage))
  {
  }
}
