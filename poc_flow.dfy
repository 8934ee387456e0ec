/**
 * The gated five-step workflow reducer (the `pocFlow` slice of the Redux
 * store): Upload(1), Edit(2), Analyze(3), Results(4), Export(5).
 *
 * Redux Toolkit turns each case reducer, which edits a draft of the state in
 * place, into a function from the old state to the new one; each reducer is
 * written here as that function, with the in-place edits as record updates.
 * `Reduce` is the slice reducer that dispatches on the action, and `Store`
 * holds the single live state that the step components dispatch into.
 */
module PocFlow {
  import opened Wrappers
  import opened JsText

  const TotalSteps: int := 5

  /** The OCR fields that must be present and non-blank after trimming. */
  const RequiredFields: seq<string> := ["reportNumber", "date", "violationType", "fineAmount"]

  /** `extractedFields`: field name to a string, or to null/undefined. */
  type Fields = map<string, Option<string>>

  datatype TechnicalIssue = TechnicalIssue(kind: string, severity: string, description: string)

  /** What `setAnalysisResults` stores; a missing response field is None. */
  datatype AnalysisResults = AnalysisResults(
    legalSection: Option<string>,
    points: Option<int>,
    appealProbability: Option<string>,
    recommendation: Option<string>,
    reasoning: Option<string>,
    technicalIssues: Option<seq<TechnicalIssue>>,
    detailedAnalysis: Option<string>)

  datatype UploadData = UploadData(
    fileName: string, fileSize: int, fileType: string,
    fileDataUrl: Option<string>, sessionId: Option<string>)

  datatype OcrData = OcrData(extractedFields: Fields, confidenceScores: map<string, real>, isEdited: bool)

  datatype AnalysisData = AnalysisData(isProcessing: bool, progress: int, results: Option<AnalysisResults>)

  datatype ResultsData = ResultsData(conclusion: Option<string>, recommendation: Option<string>, explanation: Option<string>)

  datatype PdfData = PdfData(isGenerated: bool, downloadUrl: Option<string>)

  datatype StepData = StepData(upload: UploadData, ocr: OcrData, analysis: AnalysisData, results: ResultsData, pdf: PdfData)

  datatype FlowState = FlowState(
    currentStep: int, totalSteps: int, stepData: StepData, canProceed: bool, error: Option<string>)

  /** The payload of `setUploadFile` as its callers build it: the reducer reads
      the first five keys; `reportId` is sent by the upload step but not read. */
  datatype UploadPayload = UploadPayload(
    fileName: string, fileSize: int, fileType: string, fileDataUrl: Option<string>,
    sessionId: Option<string>, reportId: Option<string>)

  datatype OcrPayload = OcrPayload(extractedFields: Fields, confidenceScores: map<string, real>)

  const DefaultUpload: UploadData := UploadData("", 0, "", None, None)

  const DefaultStepData: StepData := StepData(
    DefaultUpload,
    OcrData(map[], map[], false),
    AnalysisData(false, 0, None),
    ResultsData(None, None, Some("")),
    PdfData(false, None))

  /** `initialState`. */
  function Initial(): (s: FlowState)
    ensures Valid(s) && s.currentStep == 1 && !s.canProceed && s.error.None?
    ensures s.stepData.ocr.extractedFields == map[] && !HasAllRequired(s.stepData.ocr.extractedFields)
    ensures !Truthy(s.stepData.upload.sessionId) && s.stepData.analysis.results.None?
  {
    assert !Filled(map[], RequiredFields[0]);
    FlowState(1, TotalSteps, DefaultStepData, false, None)
  }

  /** The range invariant: the step count is fixed and the current step lies in 1..totalSteps. */
  predicate Valid(s: FlowState) {
    s.totalSteps == TotalSteps && 1 <= s.currentStep <= s.totalSteps
  }

  /** Everything but the position and the gate is the same. */
  predicate SameData(r: FlowState, s: FlowState) {
    r.totalSteps == s.totalSteps && r.stepData == s.stepData && r.error == s.error
  }

  /** `map[f]?.trim()` is truthy: the field is present, a string, and not all whitespace. */
  predicate Filled(fields: Fields, f: string) {
    f in fields && fields[f].Some? && Trim(fields[f].value) != []
  }

  /** The `requiredFields.every(...)` check. */
  predicate HasAllRequired(fields: Fields) {
    forall i :: 0 <= i < |RequiredFields| ==> Filled(fields, RequiredFields[i])
  }

  /** The required-field check in plain terms: each of the four fields is
      present, holds a string, and that string has a non-whitespace character. */
  lemma HasAllRequiredIff(fields: Fields)
    ensures HasAllRequired(fields) <==>
      forall i :: 0 <= i < |RequiredFields| ==>
        RequiredFields[i] in fields && fields[RequiredFields[i]].Some? &&
        !Blank(fields[RequiredFields[i]].value)
  {
    forall i | 0 <= i < |RequiredFields| && RequiredFields[i] in fields && fields[RequiredFields[i]].Some? {
      TrimEmptyIffBlank(fields[RequiredFields[i]].value);
    }
  }

  /** Passing the check implies the map is non-empty. */
  lemma HasAllRequiredNonEmpty(fields: Fields)
    requires HasAllRequired(fields)
    ensures |fields| > 0
  {
    assert Filled(fields, RequiredFields[0]);
    var k := RequiredFields[0];
    assert k in fields.Keys;
    assert {k} <= fields.Keys;
    assert |fields.Keys| >= |{k}|;
  }

  // ---------------------------------------------------------------- navigation

  /** `nextStep`: advances by exactly one and closes the gate when not at the
      last step and the gate is open; otherwise a no-op. */
  function NextStep(s: FlowState): (r: FlowState)
    ensures SameData(r, s)
    ensures s.currentStep < s.totalSteps && s.canProceed ==>
              r.currentStep == s.currentStep + 1 && !r.canProceed
    ensures !(s.currentStep < s.totalSteps && s.canProceed) ==> r == s
  {
    if s.currentStep < s.totalSteps && s.canProceed then
      s.(currentStep := s.currentStep + 1, canProceed := false)
    else s
  }

  /** `prevStep`: a no-op at step 1 or below; otherwise back by one with the gate open. */
  function PrevStep(s: FlowState): (r: FlowState)
    ensures SameData(r, s)
    ensures s.currentStep > 1 ==> r.currentStep == s.currentStep - 1 && r.canProceed
    ensures s.currentStep <= 1 ==> r == s
  {
    if s.currentStep > 1 then s.(currentStep := s.currentStep - 1, canProceed := true) else s
  }

  /** `goToStep(target)`: jumps to any in-range step; out-of-range targets are
      ignored; the gate is never touched. */
  function GoToStep(s: FlowState, target: int): (r: FlowState)
    ensures SameData(r, s) && r.canProceed == s.canProceed
    ensures 1 <= target <= s.totalSteps ==> r.currentStep == target
    ensures !(1 <= target <= s.totalSteps) ==> r == s
  {
    if 1 <= target && target <= s.totalSteps then s.(currentStep := target) else s
  }

  /** `resetFlow`: a copy of the initial state, whatever the state was. */
  function ResetFlow(s: FlowState): (r: FlowState)
    ensures Valid(r) && r.currentStep == 1 && !r.canProceed && r.error == None
    ensures r.stepData == DefaultStepData
  {
    Initial()
  }

  /** `setCanProceed(value)`: sets the gate and nothing else. */
  function SetCanProceed(s: FlowState, value: bool): (r: FlowState)
    ensures r.canProceed == value && SameData(r, s) && r.currentStep == s.currentStep
  {
    s.(canProceed := value)
  }

  // ---------------------------------------------------------------- upload

  /** `setUploadFile`: replaces the upload record by the five keys it reads
      (so `reportId` is dropped) and opens the gate iff the file name is non-empty. */
  function SetUploadFile(s: FlowState, p: UploadPayload): (r: FlowState)
    ensures r.stepData.upload == UploadData(p.fileName, p.fileSize, p.fileType, p.fileDataUrl, p.sessionId)
    ensures r.canProceed <==> p.fileName != ""
    ensures r.stepData == s.stepData.(upload := r.stepData.upload)
    ensures r.currentStep == s.currentStep && r.totalSteps == s.totalSteps && r.error == s.error
  {
    var upload := UploadData(p.fileName, p.fileSize, p.fileType, p.fileDataUrl, p.sessionId);
    s.(stepData := s.stepData.(upload := upload), canProceed := p.fileName != "")
  }

  /** `clearUploadFile`: the default upload record back, and the gate closed. */
  function ClearUploadFile(s: FlowState): (r: FlowState)
    ensures r.stepData.upload == DefaultUpload && !r.canProceed
    ensures r.stepData == s.stepData.(upload := DefaultUpload)
    ensures r.currentStep == s.currentStep && r.totalSteps == s.totalSteps && r.error == s.error
  {
    s.(stepData := s.stepData.(upload := DefaultUpload), canProceed := false)
  }

  // ---------------------------------------------------------------- OCR

  /** `setOCRResults`: overwrites both maps and sets the gate to the
      required-field check on the new fields. */
  function SetOCRResults(s: FlowState, p: OcrPayload): (r: FlowState)
    ensures r.stepData.ocr.extractedFields == p.extractedFields
    ensures r.stepData.ocr.confidenceScores == p.confidenceScores
    ensures r.stepData.ocr.isEdited == s.stepData.ocr.isEdited
    ensures r.canProceed <==> HasAllRequired(p.extractedFields)
    ensures r.stepData == s.stepData.(ocr := r.stepData.ocr)
    ensures r.currentStep == s.currentStep && r.totalSteps == s.totalSteps && r.error == s.error
  {
    var ocr := s.stepData.ocr.(extractedFields := p.extractedFields, confidenceScores := p.confidenceScores);
    s.(stepData := s.stepData.(ocr := ocr), canProceed := HasAllRequired(p.extractedFields))
  }

  /** `updateOCRField(fieldName, value)`: writes one field, marks the record
      edited, and re-runs the check over the whole required set. */
  function UpdateOCRField(s: FlowState, fieldName: string, value: Option<string>): (r: FlowState)
    ensures fieldName in r.stepData.ocr.extractedFields
    ensures r.stepData.ocr.extractedFields[fieldName] == value
    ensures forall g :: g != fieldName ==>
      (g in r.stepData.ocr.extractedFields <==> g in s.stepData.ocr.extractedFields) &&
      (g in s.stepData.ocr.extractedFields ==> r.stepData.ocr.extractedFields[g] == s.stepData.ocr.extractedFields[g])
    ensures r.stepData.ocr.isEdited
    ensures r.stepData.ocr.confidenceScores == s.stepData.ocr.confidenceScores
    ensures r.canProceed <==> HasAllRequired(r.stepData.ocr.extractedFields)
    ensures r.stepData == s.stepData.(ocr := r.stepData.ocr)
    ensures r.currentStep == s.currentStep && r.totalSteps == s.totalSteps && r.error == s.error
  {
    var fields := s.stepData.ocr.extractedFields[fieldName := value];
    var ocr := s.stepData.ocr.(extractedFields := fields, isEdited := true);
    s.(stepData := s.stepData.(ocr := ocr), canProceed := HasAllRequired(fields))
  }

  /** Blanking a required field always closes the gate. */
  lemma BlankingRequiredFieldRelocks(s: FlowState, fieldName: string, value: Option<string>)
    requires fieldName in RequiredFields
    requires value.None? || Blank(value.value)
    ensures !UpdateOCRField(s, fieldName, value).canProceed
  {
    var r := UpdateOCRField(s, fieldName, value);
    var i :| 0 <= i < |RequiredFields| && RequiredFields[i] == fieldName;
    if value.Some? {
      TrimEmptyIffBlank(value.value);
    }
    assert !Filled(r.stepData.ocr.extractedFields, RequiredFields[i]);
  }

  /** Filling the last missing required field opens the gate. */
  lemma FillingLastRequiredFieldUnlocks(s: FlowState, fieldName: string, value: string)
    requires forall i :: 0 <= i < |RequiredFields| && RequiredFields[i] != fieldName ==>
               Filled(s.stepData.ocr.extractedFields, RequiredFields[i])
    requires !Blank(value)
    ensures UpdateOCRField(s, fieldName, Some(value)).canProceed
  {
    TrimEmptyIffBlank(value);
    var r := UpdateOCRField(s, fieldName, Some(value));
    forall i | 0 <= i < |RequiredFields|
      ensures Filled(r.stepData.ocr.extractedFields, RequiredFields[i])
    {
      if RequiredFields[i] != fieldName {
        assert Filled(s.stepData.ocr.extractedFields, RequiredFields[i]);
      }
    }
  }

  // ---------------------------------------------------------------- analysis

  /** `setAnalysisProgress(value)`: the progress number and nothing else. */
  function SetAnalysisProgress(s: FlowState, value: int): (r: FlowState)
    ensures r.stepData.analysis == s.stepData.analysis.(progress := value)
    ensures r.stepData == s.stepData.(analysis := r.stepData.analysis)
    ensures r.currentStep == s.currentStep && r.canProceed == s.canProceed
    ensures r.totalSteps == s.totalSteps && r.error == s.error
  {
    s.(stepData := s.stepData.(analysis := s.stepData.analysis.(progress := value)))
  }

  /** `setAnalysisProcessing(flag)`: the processing flag and nothing else. */
  function SetAnalysisProcessing(s: FlowState, flag: bool): (r: FlowState)
    ensures r.stepData.analysis == s.stepData.analysis.(isProcessing := flag)
    ensures r.stepData == s.stepData.(analysis := r.stepData.analysis)
    ensures r.currentStep == s.currentStep && r.canProceed == s.canProceed
    ensures r.totalSteps == s.totalSteps && r.error == s.error
  {
    s.(stepData := s.stepData.(analysis := s.stepData.analysis.(isProcessing := flag)))
  }

  /** `setAnalysisResults(results)`: stores the results, clears the processing
      flag and opens the gate, whatever the results hold. */
  function SetAnalysisResults(s: FlowState, results: AnalysisResults): (r: FlowState)
    ensures r.stepData.analysis.results == Some(results)
    ensures !r.stepData.analysis.isProcessing && r.canProceed
    ensures r.stepData.analysis.progress == s.stepData.analysis.progress
    ensures r.stepData == s.stepData.(analysis := r.stepData.analysis)
    ensures r.currentStep == s.currentStep && r.totalSteps == s.totalSteps && r.error == s.error
  {
    var analysis := s.stepData.analysis.(results := Some(results), isProcessing := false);
    s.(stepData := s.stepData.(analysis := analysis), canProceed := true)
  }

  // ---------------------------------------------------------------- results and export

  /** `setResultsData`: overwrites the summary record and opens the gate. */
  function SetResultsData(s: FlowState, data: ResultsData): (r: FlowState)
    ensures r.stepData == s.stepData.(results := data) && r.canProceed
    ensures r.currentStep == s.currentStep && r.totalSteps == s.totalSteps && r.error == s.error
  {
    s.(stepData := s.stepData.(results := data), canProceed := true)
  }

  /** `setPDFGenerated({downloadUrl})`: marks the export generated and opens the gate. */
  function SetPDFGenerated(s: FlowState, downloadUrl: Option<string>): (r: FlowState)
    ensures r.stepData == s.stepData.(pdf := PdfData(true, downloadUrl)) && r.canProceed
    ensures r.currentStep == s.currentStep && r.totalSteps == s.totalSteps && r.error == s.error
  {
    s.(stepData := s.stepData.(pdf := PdfData(true, downloadUrl)), canProceed := true)
  }

  // ---------------------------------------------------------------- errors

  /** `setError(message)`: the error slot and nothing else. */
  function SetError(s: FlowState, message: Option<string>): (r: FlowState)
    ensures r.error == message
    ensures r.currentStep == s.currentStep && r.canProceed == s.canProceed
    ensures r.totalSteps == s.totalSteps && r.stepData == s.stepData
  {
    s.(error := message)
  }

  /** `clearError`: empties the error slot and nothing else. */
  function ClearError(s: FlowState): (r: FlowState)
    ensures r.error == None
    ensures r.currentStep == s.currentStep && r.canProceed == s.canProceed
    ensures r.totalSteps == s.totalSteps && r.stepData == s.stepData
  {
    s.(error := None)
  }

  // ---------------------------------------------------------------- the slice reducer

  /** The slice's actions, named after their action creators, with their payloads. */
  datatype Action =
    | nextStep
    | prevStep
    | goToStep(target: int)
    | resetFlow
    | setCanProceed(value: bool)
    | setUploadFile(upload: UploadPayload)
    | clearUploadFile
    | setOCRResults(ocr: OcrPayload)
    | updateOCRField(fieldName: string, fieldValue: Option<string>)
    | setAnalysisProgress(progress: int)
    | setAnalysisProcessing(processing: bool)
    | setAnalysisResults(results: AnalysisResults)
    | setResultsData(data: ResultsData)
    | setPDFGenerated(downloadUrl: Option<string>)
    | setError(message: Option<string>)
    | clearError

  /** `pocFlowSlice.reducer`: every action keeps the range invariant. */
  function Reduce(s: FlowState, a: Action): (r: FlowState)
    ensures Valid(s) ==> Valid(r)
  {
    match a
    case nextStep => NextStep(s)
    case prevStep => PrevStep(s)
    case goToStep(t) => GoToStep(s, t)
    case resetFlow => ResetFlow(s)
    case setCanProceed(v) => SetCanProceed(s, v)
    case setUploadFile(p) => SetUploadFile(s, p)
    case clearUploadFile => ClearUploadFile(s)
    case setOCRResults(p) => SetOCRResults(s, p)
    case updateOCRField(f, v) => UpdateOCRField(s, f, v)
    case setAnalysisProgress(v) => SetAnalysisProgress(s, v)
    case setAnalysisProcessing(b) => SetAnalysisProcessing(s, b)
    case setAnalysisResults(res) => SetAnalysisResults(s, res)
    case setResultsData(d) => SetResultsData(s, d)
    case setPDFGenerated(u) => SetPDFGenerated(s, u)
    case setError(m) => SetError(s, m)
    case clearError => ClearError(s)
  }

  /** The state after the actions are dispatched one after another. */
  function ReduceAll(s: FlowState, actions: seq<Action>): (r: FlowState)
    ensures actions == [] ==> r == s
    ensures Valid(s) ==> Valid(r)
    decreases |actions|
  {
    if actions == [] then s else ReduceAll(Reduce(s, actions[0]), actions[1..])
  }

  /** Dispatching a short literal batch, unfolded. */
  lemma ReduceAllOfOne(s: FlowState, a: Action)
    ensures ReduceAll(s, [a]) == Reduce(s, a)
  {
    assert [a][1..] == [];
  }

  lemma ReduceAllOfTwo(s: FlowState, a: Action, b: Action)
    ensures ReduceAll(s, [a, b]) == Reduce(Reduce(s, a), b)
  {
    assert [a, b][1..] == [b];
    ReduceAllOfOne(Reduce(s, a), b);
  }

  lemma ReduceAllOfThree(s: FlowState, a: Action, b: Action, c: Action)
    ensures ReduceAll(s, [a, b, c]) == Reduce(Reduce(Reduce(s, a), b), c)
  {
    assert [a, b, c][1..] == [b, c];
    ReduceAllOfTwo(Reduce(s, a), b, c);
  }

  /** Dispatching one batch and then another is dispatching both. */
  lemma {:induction false} ReduceAllAppend(s: FlowState, xs: seq<Action>, ys: seq<Action>)
    ensures ReduceAll(s, xs + ys) == ReduceAll(ReduceAll(s, xs), ys)
    decreases |xs|
  {
    if xs == [] {
      assert xs + ys == ys;
    } else {
      assert (xs + ys)[0] == xs[0] && (xs + ys)[1..] == xs[1..] + ys;
      ReduceAllAppend(Reduce(s, xs[0]), xs[1..], ys);
    }
  }

  /** `1 <= currentStep <= totalSteps`, with `totalSteps` fixed, holds after any
      sequence of actions from a valid state. */
  lemma {:induction false} ReduceAllKeepsValid(s: FlowState, actions: seq<Action>)
    requires Valid(s)
    ensures Valid(ReduceAll(s, actions))
    decreases |actions|
  {
    if actions != [] {
      ReduceAllKeepsValid(Reduce(s, actions[0]), actions[1..]);
    }
  }

  /** ... and in particular after any sequence dispatched from the initial state. */
  lemma ReachableStatesAreValid(actions: seq<Action>)
    ensures Valid(ReduceAll(Initial(), actions))
  {
    ReduceAllKeepsValid(Initial(), actions);
  }

  /** `resetFlow` forgets the state it was given, so applying it twice is applying it once. */
  lemma ResetIsIdempotent(s: FlowState, t: FlowState)
    ensures ResetFlow(ResetFlow(s)) == ResetFlow(s) == ResetFlow(t) == Initial()
  {
  }

  /** The state of the upload step's `setUploadFile` never depends on `reportId`. */
  lemma SetUploadFileIgnoresReportId(s: FlowState, p: UploadPayload, reportId: Option<string>)
    ensures SetUploadFile(s, p.(reportId := reportId)) == SetUploadFile(s, p)
  {
  }

  /** The single live state of the store (`configureStore` with this slice). */
  class Store {
    var state: FlowState

    constructor ()
      ensures state == Initial()
    {
      state := Initial();
    }

    /** `store.dispatch(action)`: the state becomes the reducer's result. */
    method Dispatch(a: Action)
      modifies this
      ensures state == Reduce(old(state), a)
      ensures Valid(old(state)) ==> Valid(state)
    {
      state := Reduce(state, a);
    }
  }
}
