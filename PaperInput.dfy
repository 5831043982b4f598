/** The submission form (components/PaperInput.tsx): the persona options and
    the values its controls are given from `isLoading` and `paperText`. */
module PaperInput {
  import opened JsText
  import opened Types

  /** The options of the persona select, in the order shown. */
  const Personas: seq<Persona> := [Expert, Strict, Friendly]

  /** Every persona is offered, each once, Expert first. */
  lemma PersonasOfferedOnce()
    ensures |Personas| == 3 && Personas[0] == Expert
    ensures forall p: Persona :: p in Personas
    ensures forall i, j :: 0 <= i < j < |Personas| ==> Personas[i] != Personas[j]
  {
    forall p: Persona ensures p in Personas {
      match p
      case Expert => assert Personas[0] == p;
      case Strict => assert Personas[1] == p;
      case Friendly => assert Personas[2] == p;
    }
  }

  /** `disabled={isLoading || !paperText}` on the submit button. */
  function SubmitDisabled(isLoading: bool, paperText: string): (disabled: bool)
    ensures isLoading ==> disabled
    ensures !isLoading ==> (disabled <==> paperText == "")
  {
    isLoading || paperText == ""
  }

  /** `disabled={isLoading}` on the text area and on the persona select. */
  function InputsDisabled(isLoading: bool): bool
  {
    isLoading
  }

  const BusyLabel := "Analyzing..."
  const IdleLabel := "Analyze Paper"

  function ButtonLabel(isLoading: bool): (text: string)
    ensures text == BusyLabel <==> isLoading
  {
    if isLoading then BusyLabel else IdleLabel
  }

  /** While loading, the text area, the select and the button are all
      disabled and the button reads "Analyzing..."; when not loading, the
      inputs are enabled and the button reads "Analyze Paper". */
  lemma LoadingLocksTheForm(isLoading: bool, paperText: string)
    ensures isLoading ==> InputsDisabled(isLoading) && SubmitDisabled(isLoading, paperText) && ButtonLabel(isLoading) == BusyLabel
    ensures !isLoading ==> !InputsDisabled(isLoading) && ButtonLabel(isLoading) == IdleLabel
  {
  }

  /** The button tests only for the empty string: text made of whitespace
      alone enables it, and it is the trim check of the submit handler that
      then turns it away. */
  lemma WhitespaceOnlyTextEnablesSubmit(paperText: string)
    requires paperText != "" && AllWhitespace(paperText)
    ensures !SubmitDisabled(false, paperText) && Trim(paperText) == ""
  {
    TrimEmptyIffAllWhitespace(paperText);
  }
}
