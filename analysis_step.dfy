/**
 * The analysis step (step 3): the effect that decides whether to start the
 * analysis, `performAnalysis` with its success and fallback paths, the
 * delayed advance after success, and the continue and restart handlers.
 */
module AnalysisStep {
  import opened Wrappers
  import opened JsText
  import opened PocFlow

  /** The step's `status` (`'processing'`, `'success'`, `'error'`). */
  datatype Status = Processing | Succeeded | Failed

  /** What one run of the effect does. */
  datatype Decision = StartAnalysis | ShowSuccess | ShowError | Idle

  /** `hasValidSession`: a truthy `sessionId` and a non-empty file name. */
  predicate HasValidSession(s: FlowState)
    ensures HasValidSession(s) ==> s.stepData.upload.sessionId.Some? && s.stepData.upload.sessionId.value != ""
    ensures s.stepData.upload.fileName == "" ==> !HasValidSession(s)
  {
    Truthy(s.stepData.upload.sessionId) && s.stepData.upload.fileName != ""
  }

  /** `hasOCRData`: at least one extracted field. */
  predicate HasOcrData(s: FlowState)
    ensures HasOcrData(s) <==> s.stepData.ocr.extractedFields != map[]
  {
    |s.stepData.ocr.extractedFields| > 0
  }

  /** The effect's decision, given the store and whether this mount already
      started an analysis. */
  function EffectDecision(s: FlowState, started: bool): (d: Decision)
    ensures d == StartAnalysis <==>
      !s.stepData.analysis.isProcessing && s.stepData.analysis.results.None? &&
      HasValidSession(s) && HasOcrData(s) && !started
    ensures d == ShowSuccess <==> s.stepData.analysis.results.Some?
    ensures d == ShowError <==> s.stepData.analysis.results.None? && !(HasValidSession(s) && HasOcrData(s))
    ensures d == Idle <==>
      s.stepData.analysis.results.None? && HasValidSession(s) && HasOcrData(s) &&
      (s.stepData.analysis.isProcessing || started)
  {
    var analysis := s.stepData.analysis;
    if !analysis.isProcessing && analysis.results.None? && HasValidSession(s) && HasOcrData(s) && !started then
      StartAnalysis
    else if analysis.results.Some? then ShowSuccess
    else if !HasValidSession(s) || !HasOcrData(s) then ShowError
    else Idle
  }

  datatype LegalAnalysis = LegalAnalysis(section: Option<string>, points: Option<int>)

  datatype AppealAssessment = AppealAssessment(
    probability: Option<string>, recommendation: Option<string>, reasoning: Option<string>)

  /** `analysisResponse.analysisResults`, each part possibly missing. */
  datatype ResponseResults = ResponseResults(
    legalAnalysis: Option<LegalAnalysis>,
    appealAssessment: Option<AppealAssessment>,
    technicalIssues: Option<seq<TechnicalIssue>>,
    detailedAnalysis: Option<string>)

  /** The outcome of `uploadService.analyzeDocument`: rejected, or a response. */
  datatype AnalyzeOutcome = AnalyzeFailed | Analyzed(analysisResults: Option<ResponseResults>)

  /** The results record built from a response, or None where the call
      rejected or reading `results.legalAnalysis.section` or
      `results.appealAssessment.probability` throws. Each field is copied
      unchanged from its place in the response. */
  function MapResponse(outcome: AnalyzeOutcome): (r: Option<AnalysisResults>)
    ensures r.Some? <==>
      outcome.Analyzed? && outcome.analysisResults.Some? &&
      outcome.analysisResults.value.legalAnalysis.Some? &&
      outcome.analysisResults.value.appealAssessment.Some?
    ensures r.Some? ==>
      var res := outcome.analysisResults.value;
      && r.value.legalSection == res.legalAnalysis.value.section
      && r.value.points == res.legalAnalysis.value.points
      && r.value.appealProbability == res.appealAssessment.value.probability
      && r.value.recommendation == res.appealAssessment.value.recommendation
      && r.value.reasoning == res.appealAssessment.value.reasoning
      && r.value.technicalIssues == res.technicalIssues
      && r.value.detailedAnalysis == res.detailedAnalysis
  {
    match outcome
    case AnalyzeFailed => None
    case Analyzed(results) =>
      if results.None? || results.value.legalAnalysis.None? || results.value.appealAssessment.None? then None
      else
        var legal := results.value.legalAnalysis.value;
        var appeal := results.value.appealAssessment.value;
        Some(AnalysisResults(
          legal.section, legal.points, appeal.probability, appeal.recommendation, appeal.reasoning,
          results.value.technicalIssues, results.value.detailedAnalysis))
  }

  /** The fixed record stored when the analysis fails. */
  function Fallback(): (f: AnalysisResults)
    ensures f.recommendation == Some("appeal") && f.appealProbability == Some("high")
    ensures Truthy(f.legalSection) && Truthy(f.reasoning) && f.points == Some(6)
    ensures f.technicalIssues.Some? && |f.technicalIssues.value| == 1
  {
    AnalysisResults(
      Some("סעיף 68א"),
      Some(6),
      Some("high"),
      Some("appeal"),
      Some("נמצאו כשלים טכניים בדוח שעלולים להשפיע על תקפותו."),
      Some([TechnicalIssue("calibration", "high", "חסר תעודת כיול")]),
      Some("ניתוח מפורט של הדוח מצא בעיות טכניות."))
  }

  /** The fallback carries no marker: a live response can produce exactly the
      same record, so nothing downstream can tell the two apart. */
  lemma FallbackIsUnmarked()
    ensures exists resp :: MapResponse(Analyzed(Some(resp))) == Some(Fallback())
  {
    var f := Fallback();
    var resp := ResponseResults(
      Some(LegalAnalysis(f.legalSection, f.points)),
      Some(AppealAssessment(f.appealProbability, f.recommendation, f.reasoning)),
      f.technicalIssues, f.detailedAnalysis);
    assert MapResponse(Analyzed(Some(resp))) == Some(f);
  }

  /** The actions `performAnalysis` dispatches once it has a session id:
      processing on; then on success the results and processing off, and on
      failure processing off and the fallback record. */
  function AnalysisActions(outcome: AnalyzeOutcome): (r: seq<Action>)
    ensures |r| == 3 && r[0] == Action.setAnalysisProcessing(true)
    ensures Action.setAnalysisProcessing(false) in r[1..]
    ensures Action.setAnalysisResults(MapResponse(outcome).GetOr(Fallback())) in r[1..]
  {
    match MapResponse(outcome)
    case Some(results) =>
      [Action.setAnalysisProcessing(true), Action.setAnalysisResults(results), Action.setAnalysisProcessing(false)]
    case None =>
      [Action.setAnalysisProcessing(true), Action.setAnalysisProcessing(false), Action.setAnalysisResults(Fallback())]
  }

  /** Both paths end with processing off, a stored result (the mapped response
      or the fallback), the gate open, and nothing else changed. */
  lemma AnalysisSettles(s: FlowState, outcome: AnalyzeOutcome)
    ensures var r := ReduceAll(s, AnalysisActions(outcome));
      && !r.stepData.analysis.isProcessing
      && r.stepData.analysis.results == Some(MapResponse(outcome).GetOr(Fallback()))
      && r.stepData.analysis.progress == s.stepData.analysis.progress
      && r.canProceed
      && r.stepData == s.stepData.(analysis := r.stepData.analysis)
      && r.currentStep == s.currentStep && r.totalSteps == s.totalSteps && r.error == s.error
  {
    match MapResponse(outcome)
    case Some(results) =>
      ReduceAllOfThree(s, Action.setAnalysisProcessing(true), Action.setAnalysisResults(results), Action.setAnalysisProcessing(false));
    case None =>
      ReduceAllOfThree(s, Action.setAnalysisProcessing(true), Action.setAnalysisProcessing(false), Action.setAnalysisResults(Fallback()));
  }

  /** Storing a result re-runs the effect, and with results present it shows
      success: after the fallback path the error card is replaced by the
      success card, although no advance was scheduled. */
  lemma SettledEffectShowsSuccess(s: FlowState, outcome: AnalyzeOutcome, started: bool)
    ensures EffectDecision(ReduceAll(s, AnalysisActions(outcome)), started) == ShowSuccess
  {
    AnalysisSettles(s, outcome);
  }

  /** The step's local state: `analysisStarted.current`, `status`, and whether
      the 1500 ms advance timer has been scheduled. */
  class AnalysisStepView {
    var started: bool
    var status: Status
    var advanceScheduled: bool

    constructor ()
      ensures !started && status == Processing && !advanceScheduled
    {
      started := false;
      status := Processing;
      advanceScheduled := false;
    }

    /** `performAnalysis` with the analysis call's outcome. Without a truthy
        session id it only shows the error; otherwise it dispatches
        `AnalysisActions`, shows success or error, and schedules the advance
        on success only. */
    method PerformAnalysis(store: Store, outcome: AnalyzeOutcome)
      modifies this, store
      ensures started == old(started)
      ensures !Truthy(old(store.state).stepData.upload.sessionId) ==>
        status == Failed && store.state == old(store.state) && advanceScheduled == old(advanceScheduled)
      ensures Truthy(old(store.state).stepData.upload.sessionId) ==>
        && store.state == ReduceAll(old(store.state), AnalysisActions(outcome))
        && status == (if MapResponse(outcome).Some? then Succeeded else Failed)
        && advanceScheduled == (MapResponse(outcome).Some? || old(advanceScheduled))
    {
      if !Truthy(store.state.stepData.upload.sessionId) {
        status := Failed;
        return;
      }
      ghost var s0 := store.state;
      status := Processing;
      store.Dispatch(Action.setAnalysisProcessing(true));
      var mapped := MapResponse(outcome);
      if mapped.Some? {
        store.Dispatch(Action.setAnalysisResults(mapped.value));
        store.Dispatch(Action.setAnalysisProcessing(false));
        status := Succeeded;
        advanceScheduled := true;
        ReduceAllOfThree(s0, Action.setAnalysisProcessing(true), Action.setAnalysisResults(mapped.value), Action.setAnalysisProcessing(false));
      } else {
        status := Failed;
        store.Dispatch(Action.setAnalysisProcessing(false));
        store.Dispatch(Action.setAnalysisResults(Fallback()));
        ReduceAllOfThree(s0, Action.setAnalysisProcessing(true), Action.setAnalysisProcessing(false), Action.setAnalysisResults(Fallback()));
      }
    }

    /** One run of the effect: starts the analysis at most once per mount,
        because `started` is set before the call; otherwise shows success when
        results exist and the error when session or OCR data is missing. */
    method RunEffect(store: Store, outcome: AnalyzeOutcome)
      modifies this, store
      ensures var d := EffectDecision(old(store.state), old(started));
        && started == (old(started) || d == StartAnalysis)
        && (d == StartAnalysis ==>
              status == (if MapResponse(outcome).Some? then Succeeded else Failed) &&
              store.state == ReduceAll(old(store.state), AnalysisActions(outcome)))
        && (d == ShowSuccess ==> status == Succeeded && store.state == old(store.state))
        && (d == ShowError ==> status == Failed && store.state == old(store.state))
        && (d == Idle ==> status == old(status) && store.state == old(store.state))
      ensures old(started) ==> store.state == old(store.state)
    {
      var d := EffectDecision(store.state, started);
      match d {
        case StartAnalysis =>
          started := true;
          PerformAnalysis(store, outcome);
        case ShowSuccess =>
          status := Succeeded;
        case ShowError =>
          status := Failed;
        case Idle =>
      }
    }

    /** The timer callback scheduled after a success: `nextStep`. */
    method OnAdvanceTimer(store: Store)
      modifies this, store
      ensures old(advanceScheduled) ==> store.state == NextStep(old(store.state)) && !advanceScheduled
      ensures !old(advanceScheduled) ==> store.state == old(store.state) && !advanceScheduled
      ensures started == old(started) && status == old(status)
    {
      if advanceScheduled {
        advanceScheduled := false;
        store.Dispatch(Action.nextStep);
      }
    }

    /** `handleContinue`. */
    method HandleContinue(store: Store)
      modifies store
      ensures store.state == NextStep(old(store.state))
    {
      store.Dispatch(Action.nextStep);
    }

    /** `handleRestart`. */
    method HandleRestart(store: Store)
      modifies store
      ensures store.state == ResetFlow(old(store.state))
    {
      store.Dispatch(Action.resetFlow);
    }
  }
}
