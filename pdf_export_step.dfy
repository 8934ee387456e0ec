/**
 * The PDF export step (step 5): the unconditional gate on entry, the preview's
 * field-or-placeholder rule, its recommendation and probability lines, and the
 * back and new-analysis handlers. Hebrew labels are replaced by tokens.
 */
module PdfExportStep {
  import opened Wrappers
  import opened JsText
  import opened PocFlow
  import ResultsStep

  /** A preview line: the value, or the "not identified" placeholder. */
  datatype Shown<T> = Shown(value: T) | NotIdentified

  /** `extractedFields?.[name] || placeholder`: the placeholder when the field
      is missing, null/undefined or the empty string; a value of spaces is shown. */
  function FieldOrPlaceholder(fields: Fields, name: string): (r: Shown<string>)
    ensures r.NotIdentified? <==> name !in fields || !Truthy(fields[name])
    ensures r.Shown? ==> name in fields && fields[name] == Some(r.value)
  {
    if name in fields && Truthy(fields[name]) then Shown(fields[name].value) else NotIdentified
  }

  /** `analysisResults?.legalSection || placeholder`. */
  function SectionShown(results: Option<AnalysisResults>): (r: Shown<string>)
    ensures r.NotIdentified? <==> results.None? || !Truthy(results.value.legalSection)
    ensures r.Shown? ==> results.Some? && results.value.legalSection == Some(r.value)
  {
    if results.Some? && Truthy(results.value.legalSection) then Shown(results.value.legalSection.value)
    else NotIdentified
  }

  /** `analysisResults?.points || placeholder`: 0 points is falsy, so it shows
      the placeholder like missing points. */
  function PointsShown(results: Option<AnalysisResults>): (r: Shown<int>)
    ensures r.NotIdentified? <==> results.None? || results.value.points.None? || results.value.points == Some(0)
    ensures r.Shown? ==> results.Some? && results.value.points == Some(r.value) && r.value != 0
  {
    if results.Some? && results.value.points.Some? && results.value.points.value != 0 then
      Shown(results.value.points.value)
    else NotIdentified
  }

  /** The recommendation line: worth appealing, or not worth appealing. */
  datatype RecommendationLine = WorthAppealing | NotWorthAppealing

  /** Worth appealing exactly for `appeal`; every other value, `maybe`
      included, and missing results read as not worth appealing. */
  function RecommendationLineOf(results: Option<AnalysisResults>): (l: RecommendationLine)
    ensures l == WorthAppealing <==> results.Some? && results.value.recommendation == Some("appeal")
  {
    if results.Some? && results.value.recommendation == Some("appeal") then WorthAppealing else NotWorthAppealing
  }

  /** `analysisResults?.appealProbability`, undefined without results. */
  function ProbabilityOf(results: Option<AnalysisResults>): (p: Option<string>)
    ensures results.None? ==> p.None?
    ensures results.Some? ==> p == results.value.appealProbability
  {
    if results.Some? then results.value.appealProbability else None
  }

  /** The explanation paragraph: the reasoning, or this step's own default
      sentence saying the report was analysed (not the results step's text). */
  datatype ExplanationLine = Reasoning(text: string) | DefaultSummary

  /** `analysisResults?.reasoning || default`: the default sentence iff there
      are no results or the reasoning is falsy. */
  function ExplanationShown(results: Option<AnalysisResults>): (r: ExplanationLine)
    ensures r == DefaultSummary <==> results.None? || !Truthy(results.value.reasoning)
    ensures r.Reasoning? ==> results.Some? && results.value.reasoning == Some(r.text)
  {
    if results.Some? && Truthy(results.value.reasoning) then Reasoning(results.value.reasoning.value) else DefaultSummary
  }

  /** The preview page (without the current date, which is read from the clock). */
  datatype Preview = Preview(
    reportNumber: Shown<string>, date: Shown<string>, violationType: Shown<string>, fineAmount: Shown<string>,
    legalSection: Shown<string>, points: Shown<int>, recommendation: RecommendationLine,
    probability: ResultsStep.ProbabilityLabel, explanation: ExplanationLine)

  /** The preview of a state. Once the reducer's required-field check passes,
      the four report lines show the stored values; without results every
      analysis line is a default: placeholders, not worth appealing, a low
      chance and the default sentence. */
  function PreviewOf(s: FlowState): (p: Preview)
    ensures HasAllRequired(s.stepData.ocr.extractedFields) ==>
      var fields := s.stepData.ocr.extractedFields;
      && p.reportNumber == Shown(fields["reportNumber"].value)
      && p.date == Shown(fields["date"].value)
      && p.violationType == Shown(fields["violationType"].value)
      && p.fineAmount == Shown(fields["fineAmount"].value)
    ensures s.stepData.analysis.results.None? ==>
      && p.legalSection == NotIdentified && p.points == NotIdentified
      && p.recommendation == NotWorthAppealing && p.probability == ResultsStep.LowChance
      && p.explanation == DefaultSummary
    ensures
      var fields := s.stepData.ocr.extractedFields;
      var results := s.stepData.analysis.results;
      && p.reportNumber == FieldOrPlaceholder(fields, "reportNumber")
      && p.date == FieldOrPlaceholder(fields, "date")
      && p.violationType == FieldOrPlaceholder(fields, "violationType")
      && p.fineAmount == FieldOrPlaceholder(fields, "fineAmount")
      && p.legalSection == SectionShown(results)
      && p.points == PointsShown(results)
      && p.recommendation == RecommendationLineOf(results)
      && p.probability == ResultsStep.ProbabilityLabelOf(ProbabilityOf(results))
      && p.explanation == ExplanationShown(results)
  {
    var fields := s.stepData.ocr.extractedFields;
    var results := s.stepData.analysis.results;
    assert HasAllRequired(fields) ==>
      Filled(fields, RequiredFields[0]) && Filled(fields, RequiredFields[1]) &&
      Filled(fields, RequiredFields[2]) && Filled(fields, RequiredFields[3]);
    Preview(
      FieldOrPlaceholder(fields, "reportNumber"), FieldOrPlaceholder(fields, "date"),
      FieldOrPlaceholder(fields, "violationType"), FieldOrPlaceholder(fields, "fineAmount"),
      SectionShown(results), PointsShown(results), RecommendationLineOf(results),
      ResultsStep.ProbabilityLabelOf(ProbabilityOf(results)), ExplanationShown(results))
  }

  /** A required field that passes the reducer's gate is always shown here. */
  lemma FilledFieldIsShown(fields: Fields, name: string)
    requires Filled(fields, name)
    ensures FieldOrPlaceholder(fields, name) == Shown(fields[name].value)
  {
  }

  /** `maybe` is a recommendation to consider appealing on the results step
      but reads as not worth appealing in the preview. */
  lemma MaybeReadsDifferently(results: AnalysisResults)
    requires results.recommendation == Some("maybe")
    ensures ResultsStep.ConclusionTextOf(results.recommendation) == ResultsStep.ConsiderAppealing
    ensures RecommendationLineOf(Some(results)) == NotWorthAppealing
  {
  }

  /** With results present, the preview and the results step give the same
      probability wording. */
  lemma ProbabilityAgreesWithResultsStep(results: AnalysisResults)
    ensures ResultsStep.ProbabilityLabelOf(ProbabilityOf(Some(results))) ==
      ResultsStep.ProbabilityLabelOf(results.appealProbability)
  {
  }

  /** From the initial state every report and analysis line is a
      placeholder, the advice is not to appeal, the chance is low and the
      explanation is the default sentence. */
  lemma InitialPreview()
    ensures PreviewOf(Initial()) ==
      Preview(NotIdentified, NotIdentified, NotIdentified, NotIdentified,
              NotIdentified, NotIdentified, NotWorthAppealing, ResultsStep.LowChance, DefaultSummary)
  {
  }

  /** The entry effect: opens the gate whatever the state. */
  method EnterEffect(store: Store)
    modifies store
    ensures store.state == SetCanProceed(old(store.state), true)
    ensures store.state.canProceed
  {
    store.Dispatch(Action.setCanProceed(true));
  }

  /** `handleBack`. */
  method HandleBack(store: Store)
    modifies store
    ensures store.state == PrevStep(old(store.state))
  {
    store.Dispatch(Action.prevStep);
  }

  /** `handleNewAnalysis`. */
  method HandleNewAnalysis(store: Store)
    modifies store
    ensures store.state == Initial()
  {
    store.Dispatch(Action.resetFlow);
  }
}
