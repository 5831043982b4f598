/** The colour decisions of the report (components/ReviewReport.tsx): the
    band of a score, the look of the plagiarism card and of the citation
    card. Colours stand for the Tailwind classes the source picks. */
module ReviewReport {
  import opened Types

  datatype Tone = Red | Yellow | Green | Blue

  /** `getScoreColor`. */
  function ScoreColor(score: real): (tone: Tone)
    ensures tone == Green <==> score >= 8.0
    ensures tone == Yellow <==> 5.0 <= score < 8.0
    ensures tone == Red <==> score < 5.0
  {
    if score >= 8.0 then Green
    else if score >= 5.0 then Yellow
    else Red
  }

  /** The order of the score bands, worst first (blue is no score band). */
  function BandRank(tone: Tone): nat
    requires tone != Blue
  {
    match tone
    case Red => 0
    case Yellow => 1
    case Green => 2
  }

  /** A higher score never gets a worse band. */
  lemma ScoreColorMonotone(lower: real, higher: real)
    requires lower <= higher
    ensures BandRank(ScoreColor(lower)) <= BandRank(ScoreColor(higher))
  {
  }

  /** How `PlagiarismCard` looks: its colour (background and text alike)
      and whether it shows the warning icon rather than the check mark. */
  datatype CardLook = CardLook(tone: Tone, warningIcon: bool)

  function PlagiarismLook(status: string): (look: CardLook)
    ensures look.tone == Red <==> status == "High Similarity"
    ensures look.tone == Yellow <==> status == "Possible Issues"
    ensures look.tone == Green <==> status != "High Similarity" && status != "Possible Issues"
    ensures look.warningIcon <==> look.tone != Green
  {
    var isHighAlert := status == "High Similarity";
    var isWarning := status == "Possible Issues";
    CardLook(if isHighAlert then Red else if isWarning then Yellow else Green, isHighAlert || isWarning)
  }

  /** The citation card is blue for "Good" and yellow for anything else. */
  function CitationTone(status: string): (tone: Tone)
    ensures tone == Blue <==> status == "Good"
    ensures tone == Yellow <==> status != "Good"
  {
    if status == "Good" then Blue else Yellow
  }

  /** On the enumerated statuses the cards grade as the names say. */
  lemma StatusesGradeAsNamed(p: PlagiarismStatus, c: CitationStatus)
    ensures PlagiarismLook(PlagiarismName(p)).tone == match p
      case HighSimilarity => Red
      case PossibleIssues => Yellow
      case Clear => Green
    ensures CitationTone(CitationName(c)) == if c == Good then Blue else Yellow
  {
  }
}
