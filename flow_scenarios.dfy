/**
 * Properties of the workflow as the step components drive it: which upload
 * records they can store, why the analysis never starts after a real upload,
 * and a walk from an upload to the analysis step.
 */
module FlowScenarios {
  import opened Wrappers
  import opened JsText
  import opened PocFlow
  import UploadStep
  import OcrEditStep
  import AnalysisStep

  /** An action sequence of the kind the step components dispatch: every
      `setUploadFile` either carries no `sessionId` (the file-load payload) or
      carries back the one already stored (the continue payload). No component
      dispatches any other upload record. */
  predicate IssuedTrace(s: FlowState, actions: seq<Action>)
    ensures (forall i :: 0 <= i < |actions| ==> !actions[i].setUploadFile?) ==> IssuedTrace(s, actions)
    ensures (actions != [] && actions[0].setUploadFile? && Truthy(actions[0].upload.sessionId) &&
             actions[0].upload.sessionId != s.stepData.upload.sessionId) ==> !IssuedTrace(s, actions)
    decreases |actions|
  {
    actions == [] ||
    ((actions[0].setUploadFile? ==>
        actions[0].upload.sessionId == None || actions[0].upload.sessionId == s.stepData.upload.sessionId)
     && IssuedTrace(Reduce(s, actions[0]), actions[1..]))
  }

  /** Traces compose: one issued batch after another is an issued batch. */
  lemma {:induction false} IssuedTraceAppend(s: FlowState, xs: seq<Action>, ys: seq<Action>)
    ensures IssuedTrace(s, xs + ys) <==> IssuedTrace(s, xs) && IssuedTrace(ReduceAll(s, xs), ys)
    decreases |xs|
  {
    if xs == [] {
      assert xs + ys == ys;
    } else {
      assert (xs + ys)[0] == xs[0] && (xs + ys)[1..] == xs[1..] + ys;
      IssuedTraceAppend(Reduce(s, xs[0]), xs[1..], ys);
    }
  }

  /** The upload step's dispatches are issued traces: the file-load payload
      has no `sessionId`, and the continue batch re-sends the stored one. */
  lemma UploadStepIssues(s: FlowState, file: UploadStep.FileInfo, dataUrl: string, outcome: UploadStep.UploadOutcome)
    ensures IssuedTrace(s, [Action.setUploadFile(UploadStep.LoadedPayload(file, dataUrl))])
    ensures IssuedTrace(s, UploadStep.ContinueActions(s.stepData.upload, outcome))
  {
    var load := Action.setUploadFile(UploadStep.LoadedPayload(file, dataUrl));
    assert [load][1..] == [];
    assert IssuedTrace(Reduce(s, load), []);
    var acts := UploadStep.ContinueActions(s.stepData.upload, outcome);
    if outcome.Uploaded? {
      var s1 := Reduce(s, acts[0]);
      assert s1.stepData.upload == s.stepData.upload;
      if |acts| == 1 {
        assert acts[1..] == [];
      } else if |acts| == 2 {
        assert acts[1..] == [Action.nextStep];
        assert acts[1..][1..] == [];
        assert IssuedTrace(Reduce(s1, Action.nextStep), []);
      } else {
        var s2 := Reduce(s1, acts[1]);
        assert acts[1].setOCRResults?;
        assert acts[1..][1..] == [Action.nextStep];
        assert acts[1..][1..][1..] == [];
        assert IssuedTrace(Reduce(s2, Action.nextStep), []);
      }
    }
  }

  /** The analysis step's dispatches store no upload record at all. */
  lemma AnalysisStepIssues(s: FlowState, outcome: AnalysisStep.AnalyzeOutcome)
    ensures IssuedTrace(s, AnalysisStep.AnalysisActions(outcome))
  {
    var acts := AnalysisStep.AnalysisActions(outcome);
    var s1 := Reduce(s, acts[0]);
    var s2 := Reduce(s1, acts[1]);
    assert acts[1..] == [acts[1], acts[2]];
    assert acts[1..][1..] == [acts[2]];
    assert acts[1..][1..][1..] == [];
    assert IssuedTrace(Reduce(s2, acts[2]), []);
  }

  /** Along an issued trace a falsy `sessionId` stays falsy. */
  lemma {:induction false} SessionStaysFalsy(s: FlowState, actions: seq<Action>)
    requires !Truthy(s.stepData.upload.sessionId)
    requires IssuedTrace(s, actions)
    ensures !Truthy(ReduceAll(s, actions).stepData.upload.sessionId)
    decreases |actions|
  {
    if actions != [] {
      SessionStaysFalsy(Reduce(s, actions[0]), actions[1..]);
    }
  }

  /** The store starts without a session, and the components never store one,
      so the analysis step's start condition never holds: after a real upload
      the analysis is never started and the step shows the error card instead. */
  lemma AnalysisNeverStarts(actions: seq<Action>, started: bool)
    requires IssuedTrace(Initial(), actions)
    ensures AnalysisStep.EffectDecision(ReduceAll(Initial(), actions), started) != AnalysisStep.StartAnalysis
    ensures ReduceAll(Initial(), actions).stepData.analysis.results.None? ==>
      AnalysisStep.EffectDecision(ReduceAll(Initial(), actions), started) == AnalysisStep.ShowError
  {
    SessionStaysFalsy(Initial(), actions);
  }

  /** A complete walk: an accepted file is loaded, the upload succeeds with
      OCR results that pass the check after remapping, so the flow advances to
      the edit step; the edit step's load effect opens the gate and continue
      reaches the analysis step, where the start condition fails for want of a
      session, the error card is shown and the gate is closed. */
  lemma UploadToAnalysisWithoutSession(
    file: UploadStep.FileInfo, dataUrl: string, reportId: Option<string>,
    ocr: OcrPayload, fields: Fields)
    requires file.name != ""
    requires UploadStep.RemappedFields(ocr.extractedFields) == Some(fields)
    requires HasAllRequired(fields)
    ensures
      var s1 := Reduce(Initial(), Action.setUploadFile(UploadStep.LoadedPayload(file, dataUrl)));
      var s2 := ReduceAll(s1, UploadStep.ContinueActions(s1.stepData.upload, UploadStep.Uploaded(reportId, Some(ocr))));
      var s3 := NextStep(SetCanProceed(s2, true));
      && s1.canProceed && s1.currentStep == 1
      && s2.currentStep == 2 && !s2.canProceed && s2.stepData.ocr.extractedFields == fields
      && s3.currentStep == 3 && !s3.canProceed
      && AnalysisStep.EffectDecision(s3, false) == AnalysisStep.ShowError
  {
    var s1 := Reduce(Initial(), Action.setUploadFile(UploadStep.LoadedPayload(file, dataUrl)));
    UploadStep.ContinueUnfolded(s1, reportId, Some(ocr));
  }

  /** The upload half of the walk on a fresh store: an accepted file is
      loaded, then continue runs with a successful upload. */
  method UploadAndContinue(file: UploadStep.FileInfo, dataUrl: string, reportId: Option<string>, ocr: OcrPayload)
    returns (store: Store)
    requires UploadStep.CheckFile(file) == UploadStep.Accepted
    ensures fresh(store)
    ensures var s1 := Reduce(Initial(), Action.setUploadFile(UploadStep.LoadedPayload(file, dataUrl)));
      store.state == ReduceAll(s1, UploadStep.ContinueActions(s1.stepData.upload, UploadStep.Uploaded(reportId, Some(ocr))))
  {
    store := new Store();
    var upload := new UploadStep.UploadStepView();
    var check := upload.HandleFile(store, file, dataUrl);
    upload.HandleContinue(store, UploadStep.Uploaded(reportId, Some(ocr)));
  }

  /** The same walk driven through the components' handlers on one store. */
  method WalkToAnalysis(
    file: UploadStep.FileInfo, dataUrl: string, reportId: Option<string>,
    ocr: OcrPayload, fields: Fields, outcome: AnalysisStep.AnalyzeOutcome)
    returns (store: Store, analysis: AnalysisStep.AnalysisStepView)
    requires UploadStep.CheckFile(file) == UploadStep.Accepted && file.name != ""
    requires UploadStep.RemappedFields(ocr.extractedFields) == Some(fields)
    requires HasAllRequired(fields)
    ensures store.state.currentStep == 3 && !store.state.canProceed
    ensures analysis.status == AnalysisStep.Failed && !analysis.started
  {
    store := UploadAndContinue(file, dataUrl, reportId, ocr);
    UploadToAnalysisWithoutSession(file, dataUrl, reportId, ocr, fields);
    ghost var s2 := store.state;
    OcrEditStep.LoadEffect(store);
    OcrEditStep.HandleContinue(store);
    assert store.state == NextStep(SetCanProceed(s2, true));
    analysis := new AnalysisStep.AnalysisStepView();
    analysis.RunEffect(store, outcome);
  }
}
