/**
 * The results step (step 4): the gate effect on entry, the conclusion class,
 * text and icon chosen by the recommendation, the probability label, the
 * issue count and the loading view. Hebrew labels are replaced by tokens.
 */
module ResultsStep {
  import opened Wrappers
  import opened JsText
  import opened PocFlow

  /** A colour class: `success`, `warning` or `danger`. */
  datatype Tone = Success | Warning | Danger

  /** The four conclusion texts: worth appealing, consider appealing, not
      recommended, and further review needed. */
  datatype ConclusionText = WorthAppealing | ConsiderAppealing | NotRecommended | NeedsReview

  /** The four conclusion icons: check mark, warning sign, cross, question mark. */
  datatype ConclusionIcon = CheckMark | WarningSign | CrossMark | QuestionMark

  /** The probability wording: high, medium, low. */
  datatype ProbabilityLabel = HighChance | MediumChance | LowChance

  /** `getConclusionClass`: only `appeal` and `dont_appeal` leave the warning tone. */
  function ConclusionClass(recommendation: Option<string>): (t: Tone)
    ensures t == Success <==> recommendation == Some("appeal")
    ensures t == Danger <==> recommendation == Some("dont_appeal")
    ensures t == Warning <==> recommendation != Some("appeal") && recommendation != Some("dont_appeal")
  {
    match recommendation
    case Some(v) =>
      if v == "appeal" then Success
      else if v == "maybe" then Warning
      else if v == "dont_appeal" then Danger
      else Warning
    case None => Warning
  }

  /** `getConclusionText`: one text per known value, the review text otherwise. */
  function ConclusionTextOf(recommendation: Option<string>): (t: ConclusionText)
    ensures t == WorthAppealing <==> recommendation == Some("appeal")
    ensures t == ConsiderAppealing <==> recommendation == Some("maybe")
    ensures t == NotRecommended <==> recommendation == Some("dont_appeal")
    ensures t == NeedsReview <==>
      recommendation != Some("appeal") && recommendation != Some("maybe") && recommendation != Some("dont_appeal")
  {
    match recommendation
    case Some(v) =>
      if v == "appeal" then WorthAppealing
      else if v == "maybe" then ConsiderAppealing
      else if v == "dont_appeal" then NotRecommended
      else NeedsReview
    case None => NeedsReview
  }

  /** `getConclusionIcon`: one icon per known value, the question mark otherwise. */
  function ConclusionIconOf(recommendation: Option<string>): (i: ConclusionIcon)
    ensures i == CheckMark <==> recommendation == Some("appeal")
    ensures i == WarningSign <==> recommendation == Some("maybe")
    ensures i == CrossMark <==> recommendation == Some("dont_appeal")
    ensures i == QuestionMark <==>
      recommendation != Some("appeal") && recommendation != Some("maybe") && recommendation != Some("dont_appeal")
  {
    match recommendation
    case Some(v) =>
      if v == "appeal" then CheckMark
      else if v == "maybe" then WarningSign
      else if v == "dont_appeal" then CrossMark
      else QuestionMark
    case None => QuestionMark
  }

  /** The text and the icon always name the same conclusion. */
  lemma TextAndIconAgree(recommendation: Option<string>)
    ensures ConclusionTextOf(recommendation) == WorthAppealing <==> ConclusionIconOf(recommendation) == CheckMark
    ensures ConclusionTextOf(recommendation) == ConsiderAppealing <==> ConclusionIconOf(recommendation) == WarningSign
    ensures ConclusionTextOf(recommendation) == NotRecommended <==> ConclusionIconOf(recommendation) == CrossMark
    ensures ConclusionTextOf(recommendation) == NeedsReview <==> ConclusionIconOf(recommendation) == QuestionMark
  {
  }

  /** An unknown recommendation shares its colour with `maybe` but gets its
      own text and icon. */
  lemma UnknownIsNotMaybe(recommendation: Option<string>)
    requires recommendation != Some("appeal") && recommendation != Some("maybe") && recommendation != Some("dont_appeal")
    ensures ConclusionClass(recommendation) == ConclusionClass(Some("maybe"))
    ensures ConclusionTextOf(recommendation) != ConclusionTextOf(Some("maybe"))
    ensures ConclusionIconOf(recommendation) != ConclusionIconOf(Some("maybe"))
  {
  }

  /** The probability wording: `high`, `medium`, and low for anything else,
      a missing value included. */
  function ProbabilityLabelOf(probability: Option<string>): (l: ProbabilityLabel)
    ensures l == HighChance <==> probability == Some("high")
    ensures l == MediumChance <==> probability == Some("medium")
    ensures l == LowChance <==> probability != Some("high") && probability != Some("medium")
  {
    if probability == Some("high") then HighChance
    else if probability == Some("medium") then MediumChance
    else LowChance
  }

  /** The probability card's colour: success for high, warning for medium,
      danger otherwise. */
  function ProbabilityTone(probability: Option<string>): (t: Tone)
    ensures t == Success <==> probability == Some("high")
    ensures t == Warning <==> probability == Some("medium")
    ensures t == Danger <==> probability != Some("high") && probability != Some("medium")
  {
    if probability == Some("high") then Success
    else if probability == Some("medium") then Warning
    else Danger
  }

  /** `technicalIssues?.length || 0`. */
  function IssueCount(issues: Option<seq<TechnicalIssue>>): (n: nat)
    ensures issues.Some? ==> n == |issues.value|
    ensures issues.None? ==> n == 0
  {
    if issues.Some? then |issues.value| else 0
  }

  /** The explanation card: the reasoning when truthy, the default text otherwise. */
  datatype Explanation = Reasoning(text: string) | DefaultExplanation

  function ExplanationOf(reasoning: Option<string>): (e: Explanation)
    ensures e == DefaultExplanation <==> !Truthy(reasoning)
    ensures e.Reasoning? ==> e.text == reasoning.value
  {
    if Truthy(reasoning) then Reasoning(reasoning.value) else DefaultExplanation
  }

  /** What the step renders. */
  datatype ResultsView =
    | Loading
    | Summary(
        conclusion: Tone, text: ConclusionText, icon: ConclusionIcon,
        probability: ProbabilityLabel, probabilityTone: Tone,
        points: Option<int>, legalSection: Option<string>,
        issueCount: nat, explanation: Explanation)

  /** The rendered view: the loading view exactly when there are no results;
      otherwise each card is computed from its own field. */
  function View(results: Option<AnalysisResults>): (v: ResultsView)
    ensures v.Loading? <==> results.None?
    ensures results.Some? ==>
      var r := results.value;
      && v.conclusion == ConclusionClass(r.recommendation)
      && v.text == ConclusionTextOf(r.recommendation)
      && v.icon == ConclusionIconOf(r.recommendation)
      && v.probability == ProbabilityLabelOf(r.appealProbability)
      && v.probabilityTone == ProbabilityTone(r.appealProbability)
      && v.points == r.points && v.legalSection == r.legalSection
      && v.issueCount == IssueCount(r.technicalIssues)
      && v.explanation == ExplanationOf(r.reasoning)
  {
    match results
    case None => Loading
    case Some(r) =>
      Summary(
        ConclusionClass(r.recommendation), ConclusionTextOf(r.recommendation), ConclusionIconOf(r.recommendation),
        ProbabilityLabelOf(r.appealProbability), ProbabilityTone(r.appealProbability),
        r.points, r.legalSection, IssueCount(r.technicalIssues), ExplanationOf(r.reasoning))
  }

  /** The two probability renderings agree: the card's colour follows its label. */
  lemma ToneFollowsLabel(probability: Option<string>)
    ensures ProbabilityTone(probability) ==
      match ProbabilityLabelOf(probability)
      case HighChance => Success
      case MediumChance => Warning
      case LowChance => Danger
  {
  }

  /** The entry effect: opens the gate exactly when results exist. */
  method EnterEffect(store: Store)
    modifies store
    ensures old(store.state).stepData.analysis.results.Some? ==> store.state == SetCanProceed(old(store.state), true)
    ensures old(store.state).stepData.analysis.results.None? ==> store.state == old(store.state)
  {
    if store.state.stepData.analysis.results.Some? {
      store.Dispatch(Action.setCanProceed(true));
    }
  }

  /** `handleContinue`. */
  method HandleContinue(store: Store)
    modifies store
    ensures store.state == NextStep(old(store.state))
  {
    store.Dispatch(Action.nextStep);
  }

  /** `handleBack`. */
  method HandleBack(store: Store)
    modifies store
    ensures store.state == PrevStep(old(store.state))
  {
    store.Dispatch(Action.prevStep);
  }

  /** `handleNewAnalysis`. */
  method HandleNewAnalysis(store: Store)
    modifies store
    ensures store.state == Initial()
  {
    store.Dispatch(Action.resetFlow);
  }
}
