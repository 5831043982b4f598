/** The records and string enumerations of types.ts, and the JSON shape they
    declare. TypeScript never checks that shape at run time (the parsed body
    is only cast to `ReviewResult`); `ToJson` says what a value "of that
    type" is as JSON, so that the checks in the handler and the client can be
    compared with it. */
module Types {
  import opened JsValues

  datatype Persona = Expert | Strict | Friendly
  datatype Confidence = High | Medium | Low
  datatype PlagiarismStatus = Clear | PossibleIssues | HighSimilarity
  datatype CitationStatus = Good | NeedsImprovement

  datatype SectionReview = SectionReview(
    sectionName: string,
    clarity: string,
    originality: string,
    suggestions: seq<string>)

  datatype AiFlaggedPassage = AiFlaggedPassage(passage: string, reason: string, confidence: Confidence)

  datatype AiContentAnalysis = AiContentAnalysis(
    estimatedPercentage: real,
    flaggedPassages: seq<AiFlaggedPassage>)

  datatype Originality = Originality(score: real, comment: string)
  datatype Plagiarism = Plagiarism(status: PlagiarismStatus, details: string)
  datatype Citations = Citations(status: CitationStatus, comment: string)

  datatype ReviewResult = ReviewResult(
    overallScore: real,
    verdict: string,
    originality: Originality,
    plagiarism: Plagiarism,
    citations: Citations,
    aiContentAnalysis: AiContentAnalysis,
    sectionReviews: seq<SectionReview>)

  // ---- the string literals of the enumerations ----

  function PersonaName(p: Persona): string
  {
    match p
    case Expert => "Expert"
    case Strict => "Strict"
    case Friendly => "Friendly"
  }

  function ConfidenceName(c: Confidence): string
  {
    match c
    case High => "High"
    case Medium => "Medium"
    case Low => "Low"
  }

  function PlagiarismName(s: PlagiarismStatus): string
  {
    match s
    case Clear => "Clear"
    case PossibleIssues => "Possible Issues"
    case HighSimilarity => "High Similarity"
  }

  function CitationName(s: CitationStatus): string
  {
    match s
    case Good => "Good"
    case NeedsImprovement => "Needs Improvement"
  }

  // ---- the declared shape as JSON ----

  function StringsToJson(xs: seq<string>): seq<Json>
  {
    seq(|xs|, i requires 0 <= i < |xs| => JStr(xs[i]))
  }

  function SectionToJson(s: SectionReview): Json
  {
    JObj(map[
      "sectionName" := JStr(s.sectionName),
      "clarity" := JStr(s.clarity),
      "originality" := JStr(s.originality),
      "suggestions" := JArr(StringsToJson(s.suggestions))])
  }

  function PassageToJson(p: AiFlaggedPassage): Json
  {
    JObj(map[
      "passage" := JStr(p.passage),
      "reason" := JStr(p.reason),
      "confidence" := JStr(ConfidenceName(p.confidence))])
  }

  function AnalysisToJson(a: AiContentAnalysis): Json
  {
    JObj(map[
      "estimatedPercentage" := JNum(a.estimatedPercentage),
      "flaggedPassages" := JArr(seq(|a.flaggedPassages|, i requires 0 <= i < |a.flaggedPassages| =>
        PassageToJson(a.flaggedPassages[i])))])
  }

  /** The JSON object a `ReviewResult` stands for. */
  function ToJson(r: ReviewResult): Json
  {
    JObj(map[
      "overallScore" := JNum(r.overallScore),
      "verdict" := JStr(r.verdict),
      "originality" := JObj(map["score" := JNum(r.originality.score), "comment" := JStr(r.originality.comment)]),
      "plagiarism" := JObj(map["status" := JStr(PlagiarismName(r.plagiarism.status)), "details" := JStr(r.plagiarism.details)]),
      "citations" := JObj(map["status" := JStr(CitationName(r.citations.status)), "comment" := JStr(r.citations.comment)]),
      "aiContentAnalysis" := AnalysisToJson(r.aiContentAnalysis),
      "sectionReviews" := JArr(seq(|r.sectionReviews|, i requires 0 <= i < |r.sectionReviews| =>
        SectionToJson(r.sectionReviews[i])))])
  }
}
