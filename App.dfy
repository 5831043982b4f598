/** The page's state (App.tsx): the three cells `handleAnalyze` updates, the
    text and persona the form edits, and the rule for which panel shows. The
    `await` splits `handleAnalyze` in two: `Submit` is what runs before it,
    `Succeed` and `Fail` what runs after it. */
module AppState {
  import opened JsValues
  import opened JsText
  import opened Types
  import PaperInput
  import GeminiService

  const EmptyPaperMessage := "Paper content cannot be empty."
  const UnknownAnalysisError := "An unknown error occurred during analysis."

  /** Line 32: the message shown for what `analyzePaper` threw. */
  function FailureText(thrown: Thrown): (text: string)
    ensures thrown.ErrorValue? ==> text == thrown.message
    ensures thrown.OtherValue? ==> text == UnknownAnalysisError
  {
    match thrown
    case ErrorValue(m) => m
    case OtherValue => UnknownAnalysisError
  }

  /** Which of the four panels of lines 52-55 render. */
  datatype Panels = Panels(loader: bool, errorDisplay: bool, report: bool, welcome: bool)

  /** `error && ...`: an empty message is falsy, like `null`. */
  predicate TruthyText(e: Option<string>)
  {
    e.Some? && e.value != ""
  }

  /** `reviewResult && ...`. */
  predicate TruthyResult(r: Option<Json>)
  {
    r.Some? && Truthy(r.value)
  }

  function ShownPanels(isLoading: bool, error: Option<string>, reviewResult: Option<Json>): (p: Panels)
    ensures p.loader <==> isLoading
    ensures p.errorDisplay <==> TruthyText(error)
    ensures p.report <==> !isLoading && !TruthyText(error) && TruthyResult(reviewResult)
    ensures p.welcome <==> !isLoading && !TruthyText(error) && !TruthyResult(reviewResult)
    ensures !(p.report && p.welcome)
  {
    Panels(
      isLoading,
      TruthyText(error),
      !isLoading && !TruthyText(error) && TruthyResult(reviewResult),
      !isLoading && !TruthyText(error) && !TruthyResult(reviewResult))
  }

  /** When nothing is shown while loading but the loader, exactly one panel
      renders: the loader, else the error, else the report or the welcome. */
  lemma ExactlyOnePanel(isLoading: bool, error: Option<string>, reviewResult: Option<Json>)
    requires isLoading ==> error == None
    ensures var p := ShownPanels(isLoading, error, reviewResult);
      (if p.loader then 1 else 0) + (if p.errorDisplay then 1 else 0)
      + (if p.report then 1 else 0) + (if p.welcome then 1 else 0) == 1
  {
  }

  class App {
    var paperText: string
    var persona: Persona
    var reviewResult: Option<Json>
    var isLoading: bool
    var error: Option<string>

    /** While a request is outstanding, both outcomes are cleared. */
    ghost predicate Valid()
      reads this
    {
      isLoading ==> error == None && reviewResult == None
    }

    /** Lines 12-16. */
    constructor()
      ensures Valid()
      ensures paperText == "" && persona == Expert
      ensures reviewResult == None && !isLoading && error == None
    {
      paperText := "";
      persona := Expert;
      reviewResult := None;
      isLoading := false;
      error := None;
    }

    function Shown(): Panels
      reads this
    {
      ShownPanels(isLoading, error, reviewResult)
    }

    /** Typing in the text area, which ignores input while loading. */
    method EditText(text: string)
      modifies this
      ensures paperText == if old(isLoading) then old(paperText) else text
      ensures persona == old(persona) && reviewResult == old(reviewResult)
      ensures isLoading == old(isLoading) && error == old(error)
    {
      if !PaperInput.InputsDisabled(isLoading) {
        paperText := text;
      }
    }

    /** Choosing in the persona select, which ignores input while loading. */
    method ChoosePersona(p: Persona)
      modifies this
      ensures persona == if old(isLoading) then old(persona) else p
      ensures paperText == old(paperText) && reviewResult == old(reviewResult)
      ensures isLoading == old(isLoading) && error == old(error)
    {
      if !PaperInput.InputsDisabled(isLoading) {
        persona := p;
      }
    }

    /** Lines 19-25, up to the `await`: text that trims to nothing sets the
        error and stops; otherwise loading starts with both outcomes
        cleared, and the text and persona to send are returned. It is
        reached only through the submit button, which is disabled while
        loading. */
    method Submit() returns (sent: Option<(string, Persona)>)
      requires Valid() && !isLoading
      modifies this
      ensures Valid()
      ensures paperText == old(paperText) && persona == old(persona)
      ensures Trim(paperText) == "" ==>
        sent == None && error == Some(EmptyPaperMessage) && !isLoading && reviewResult == old(reviewResult)
      ensures Trim(paperText) != "" ==>
        sent == Some((paperText, persona)) && isLoading && error == None && reviewResult == None
    {
      if Trim(paperText) == "" {
        error := Some(EmptyPaperMessage);
        return None;
      }
      isLoading := true;
      error := None;
      reviewResult := None;
      sent := Some((paperText, persona));
    }

    /** Lines 29 and 34: the result is shown and loading ends. */
    method Succeed(result: Json)
      requires Valid() && isLoading
      modifies this
      ensures Valid() && !isLoading
      ensures reviewResult == Some(result) && error == None
      ensures paperText == old(paperText) && persona == old(persona)
    {
      reviewResult := Some(result);
      isLoading := false;
    }

    /** Lines 32 and 34: the message is shown and loading ends. */
    method Fail(thrown: Thrown)
      requires Valid() && isLoading
      modifies this
      ensures Valid() && !isLoading
      ensures error == Some(FailureText(thrown)) && reviewResult == None
      ensures paperText == old(paperText) && persona == old(persona)
    {
      error := Some(FailureText(thrown));
      isLoading := false;
    }

    /** A click on the submit button, run to completion: nothing happens
        while the button is disabled; otherwise `handleAnalyze` runs, and if
        it sends the request, `fetched` is what `fetch` gives back for it.
        Afterwards loading is over, and a request that went out leaves
        exactly one of the result and the error set. */
    method ClickAnalyze(fetched: Attempt<GeminiService.HttpResponse>, rt: Runtime)
      returns (call: Option<GeminiService.Call>)
      requires Valid()
      modifies this
      ensures Valid()
      ensures paperText == old(paperText) && persona == old(persona)
      ensures PaperInput.SubmitDisabled(old(isLoading), old(paperText)) ==>
        call == None && isLoading == old(isLoading) && error == old(error) && reviewResult == old(reviewResult)
      ensures !old(isLoading) ==> !isLoading
      ensures !PaperInput.SubmitDisabled(old(isLoading), old(paperText)) && Trim(paperText) == "" ==>
        call == None && error == Some(EmptyPaperMessage) && reviewResult == old(reviewResult)
      ensures call.Some? ==>
        && call.value == GeminiService.AnalyzePaper(paperText, persona, fetched, rt)
        && (call.value.outcome.Returned? ==> reviewResult == Some(call.value.outcome.value) && error == None)
        && (call.value.outcome.Threw? ==> error == Some(FailureText(call.value.outcome.thrown)) && reviewResult == None)
      ensures !PaperInput.SubmitDisabled(old(isLoading), old(paperText)) && Trim(paperText) != "" ==> call.Some?
    {
      if PaperInput.SubmitDisabled(isLoading, paperText) {
        return None;
      }
      var sent := Submit();
      if sent == None {
        return None;
      }
      var c := GeminiService.AnalyzePaper(sent.value.0, sent.value.1, fetched, rt);
      match c.outcome {
        case Returned(result) => Succeed(result);
        case Threw(thrown) => Fail(thrown);
      }
      call := Some(c);
    }
  }

  /** A result shown by a completed click is one the client accepted, so
      the report panel takes the place of the welcome panel. */
  lemma AcceptedResultShowsReport(result: Json)
    requires GeminiService.ClientAcceptable(result)
    ensures var p := ShownPanels(false, None, Some(result));
      p.report && !p.welcome && !p.loader && !p.errorDisplay
  {
  }

  /** The error and the result are not exclusive in the code: a text that
      trims to nothing, submitted after a success, sets the error and keeps
      the old result; the panel rule then shows only the error. */
  method EmptyResubmitKeepsResult(app: App, result: Json, blank: string)
    requires app.Valid() && !app.isLoading && Trim(app.paperText) != ""
    requires GeminiService.ClientAcceptable(result)
    requires blank != "" && AllWhitespace(blank)
    modifies app
    ensures app.error == Some(EmptyPaperMessage) && app.reviewResult == Some(result)
    ensures app.Shown().errorDisplay && !app.Shown().report && !app.Shown().welcome
  {
    var sent := app.Submit();
    app.Succeed(result);
    assert app.Shown().report;
    app.EditText(blank);
    TrimEmptyIffAllWhitespace(blank);
    assert !PaperInput.SubmitDisabled(app.isLoading, app.paperText);
    sent := app.Submit();
  }
}
