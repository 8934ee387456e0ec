# Smart-traffic workflow: a Dafny model

This project models the front end of a traffic-ticket appeal assistant. The
user moves through five gated steps: Upload (1), Edit (2), Analyze (3),
Results (4) and Export (5). The model proves properties of two layers.

The first layer is the Redux slice `pocFlow`. It is one record:

- the current step and the fixed step count;
- the `canProceed` gate;
- one sub-record per step: upload, OCR, analysis, results, pdf;
- an error slot.

Sixteen case reducers change it. Module `PocFlow` writes each case reducer
as a function from the old state to the new one, which is what Redux Toolkit
makes of it. `Reduce` is the slice reducer. `ReduceAll` dispatches a batch of
actions in order. The class `Store` holds the one live state and its
`Dispatch` method.

The second layer is the step components and the progress strip. Their pure
rules become functions: confidence bands, date conversions, the file
acceptance rule, the analysis start decision, label maps, and the
placeholders in the preview. Their effects and click handlers become methods
that dispatch into a `Store`. Some handlers dispatch several actions. For
those, a function gives the exact batch of actions, and the method's contract
ties the new store state to `ReduceAll` of that batch. Lemmas then prove what
the batch does. The local `useState`/`useRef` flags of a component are
fields of a class: `UploadStepView` and `AnalysisStepView`.

JavaScript semantics the model writes out:

- **`extractedFields`** is a map from field name to `Option<string>`. `None`
  stands for null or undefined.
- **Truthiness** (`Truthy`): a string value that is present and non-empty.
- **`trim`** uses the ECMAScript whitespace set.
- **`split` with a one-character separator and `padStart(2, '0')`** are
  written out.
- **Template literals**: a destructured part that is missing prints as
  `undefined` (`Part`).

The model follows the code as written, including these behaviours:

- **`reportId` is dropped.** The upload step sends `reportId` to
  `setUploadFile`. The reducer reads only `sessionId`, so `reportId` is
  dropped and `sessionId` is never set. The analysis step requires a truthy
  `sessionId`. As a result, the analysis never starts after a real upload
  (`FlowScenarios.AnalysisNeverStarts`).
  - The intended behaviour carries one identifier, named `reportId`, from
    the upload to the analysis. The code instead reads `sessionId` in the
    reducer and in the analysis step, and the model follows the code.
- **The upload's "auto proceed regardless of missing fields" is gated.**
  `setOCRResults` may have just closed the gate, and `nextStep` does nothing
  with the gate closed (`UploadStep.ContinueAdvanceIsGated`).
- **The analysis fallback record has no marker.** A live response can
  produce the same record (`AnalysisStep.FallbackIsUnmarked`). The intended
  behaviour is a clearly marked fallback; the code stores a plain record.
- **Failed remote calls do not reach the error slot.** The intended behaviour
  records them with `setError`. In the code no component dispatches
  `setError`: failures only show an alert or change the step's status.

## Model

| member | source | states |
|---|---|---|
| PocFlow.Initial | src/store/slices/pocFlowSlice.js:3-36 | step 1 of 5 (so the range invariant holds), the gate closed, no error, empty OCR fields that fail the required-field check, no session, no results |
| PocFlow.HasAllRequired | src/store/slices/pocFlowSlice.js:91-96 | the property is stated by `HasAllRequiredIff` below: required fields present, strings, not all whitespace |
| PocFlow.HasAllRequiredIff | src/store/slices/pocFlowSlice.js:91-96 | the required-field check holds iff each of `reportNumber`, `date`, `violationType`, `fineAmount` is present, holds a string, and that string is not all whitespace |
| PocFlow.HasAllRequiredNonEmpty | src/cmps/steps/OCREditStep.jsx:13-20 | a field map that passes the required-field check is non-empty, so the edit step's non-empty test adds nothing |
| PocFlow.NextStep | src/store/slices/pocFlowSlice.js:43-48 | below the last step with the gate open: advances by exactly one and closes the gate; otherwise the state is unchanged; the data is never touched |
| PocFlow.PrevStep | src/store/slices/pocFlowSlice.js:50-55 | at step 1 a no-op; otherwise back by one with the gate open; data untouched |
| PocFlow.GoToStep | src/store/slices/pocFlowSlice.js:57-62 | an in-range target becomes the current step; an out-of-range one is ignored; the gate is never touched |
| PocFlow.ResetFlow | src/store/slices/pocFlowSlice.js:64-66 | from any state: step 1, the gate closed, no error, the default step data |
| PocFlow.SetCanProceed | src/store/slices/pocFlowSlice.js:69-71 | only the gate changes, to the given value |
| PocFlow.SetUploadFile | src/store/slices/pocFlowSlice.js:74-78 | the upload record becomes the payload's five keys (so `reportId` is dropped); the gate is open iff the file name is non-empty; the rest is unchanged |
| PocFlow.ClearUploadFile | src/store/slices/pocFlowSlice.js:80-83 | the upload record is the initial one and the gate is closed; the rest is unchanged |
| PocFlow.SetOCRResults | src/store/slices/pocFlowSlice.js:86-97 | both OCR maps become the payload's; the gate is open iff the new fields pass the required-field check; `isEdited` and everything else unchanged |
| PocFlow.UpdateOCRField | src/store/slices/pocFlowSlice.js:99-110 | the field takes the value, every other field is unchanged, `isEdited` is set, and the gate is open iff the whole required set passes the check afterwards |
| PocFlow.BlankingRequiredFieldRelocks | src/store/slices/pocFlowSlice.js:99-110 | writing null or a blank string to a required field always closes the gate |
| PocFlow.FillingLastRequiredFieldUnlocks | src/store/slices/pocFlowSlice.js:99-110 | when every other required field is filled, writing a non-blank value to the last one opens the gate |
| PocFlow.SetAnalysisProgress | src/store/slices/pocFlowSlice.js:113-115 | only the progress number changes |
| PocFlow.SetAnalysisProcessing | src/store/slices/pocFlowSlice.js:117-119 | only the processing flag changes |
| PocFlow.SetAnalysisResults | src/store/slices/pocFlowSlice.js:121-125 | stores the results, clears the processing flag and opens the gate; nothing else changes |
| PocFlow.SetResultsData | src/store/slices/pocFlowSlice.js:128-132 | overwrites the results record and opens the gate; nothing else changes |
| PocFlow.SetPDFGenerated | src/store/slices/pocFlowSlice.js:135-142 | marks the export generated with the given URL and opens the gate; nothing else changes |
| PocFlow.SetError | src/store/slices/pocFlowSlice.js:145-147 | only the error slot changes, to the message |
| PocFlow.ClearError | src/store/slices/pocFlowSlice.js:149-151 | only the error slot changes, to null |
| PocFlow.Reduce | src/store/slices/pocFlowSlice.js:41-152 | every action keeps `1 <= currentStep <= totalSteps` with `totalSteps` equal to 5 |
| PocFlow.ReduceAll | src/store/slices/pocFlowSlice.js:41-152 | sequential dispatch: the empty batch changes nothing and a batch from a state in range ends in range; composition is `ReduceAllAppend` |
| PocFlow.ReduceAllAppend | src/store/slices/pocFlowSlice.js:174 | dispatching one batch and then another is the same as dispatching both in one batch |
| PocFlow.ReduceAllKeepsValid | src/store/slices/pocFlowSlice.js:3-151 | the range invariant holds after any sequence of actions from a state that satisfies it |
| PocFlow.ReachableStatesAreValid | src/store/slices/pocFlowSlice.js:3-151 | every state reachable from the initial state (step 1 of 5) satisfies the range invariant |
| PocFlow.ResetIsIdempotent | src/store/slices/pocFlowSlice.js:64-66 | resetting twice is resetting once, and the result does not depend on the state |
| PocFlow.SetUploadFileIgnoresReportId | src/store/slices/pocFlowSlice.js:74-76 | the `reportId` of the payload has no effect on the new state |
| PocFlow.Store.constructor | src/store/index.js:4-14 | the store starts in the initial state |
| PocFlow.Store.Dispatch | src/store/index.js:4-7 | the new state is the slice reducer applied to the old state and the action; the range invariant is kept |
| JsText.TrimStart | src/store/slices/pocFlowSlice.js:94 | the result is a suffix of the input, everything dropped is whitespace, and it starts with a non-whitespace character unless it is empty |
| JsText.TrimEnd | src/store/slices/pocFlowSlice.js:94 | the result is a prefix of the input, everything dropped is whitespace, and it ends with a non-whitespace character unless it is empty |
| JsText.Trim | src/store/slices/pocFlowSlice.js:94 | no longer than the input, no whitespace at either end, and non-empty when the input is not all whitespace; the converse is `TrimEmptyIffBlank` |
| JsText.TrimEmptyIffBlank | src/store/slices/pocFlowSlice.js:94 | `s.trim()` is empty iff every character of `s` is whitespace |
| JsText.Split | src/cmps/steps/OCREditStep.jsx:182 | at least one part; no part contains the separator; a string without the separator is its own single part; one with the separator gives at least two parts |
| JsText.Join | src/cmps/steps/OCREditStep.jsx:179 | no parts give the empty string, one part gives itself, several start with the first part and the separator; its inverse is `Split` (`JoinSplit`, `SplitJoin`) |
| JsText.JoinSplit | src/cmps/steps/OCREditStep.jsx:179 | joining the parts of a split with the same separator gives back the string |
| JsText.SplitJoin | src/cmps/steps/OCREditStep.jsx:179-183 | splitting a join of separator-free parts gives back the parts |
| JsText.Reverse | src/cmps/steps/OCREditStep.jsx:179 | same length, element `i` is element `n-1-i` of the input |
| JsText.PadStart2 | src/cmps/steps/UploadStep.jsx:85 | `padStart(2, '0')`: length is the larger of 2 and the input's, ends with the input, and only zeros are added |
| JsText.Part | src/cmps/steps/UploadStep.jsx:84-85 | a destructured part prints as itself, or as `undefined` past the end |
| OcrEditStep.BandOf | src/cmps/steps/OCREditStep.jsx:45-55 | the band is very-high iff the score is at least 0.9, high iff in [0.8, 0.9), medium iff in [0.65, 0.8), low iff in [0.5, 0.65), very-low iff below 0.5 |
| OcrEditStep.BandIsMonotone | src/cmps/steps/OCREditStep.jsx:45-55 | a larger score never gets a lower band |
| OcrEditStep.ScoreOf | src/cmps/steps/OCREditStep.jsx:42 | a missing score counts as 0 |
| OcrEditStep.ConfidenceInfo | src/cmps/steps/OCREditStep.jsx:41-56 | a field without a score is very-low; otherwise the band of its score |
| OcrEditStep.DeadlineForInput | src/cmps/steps/OCREditStep.jsx:178-179 | a falsy stored deadline displays as the empty input |
| OcrEditStep.DeadlineFromInput | src/cmps/steps/OCREditStep.jsx:182-183 | the stored text holds no `-`; an input without `-` is stored after two `undefined` parts; `DeadlineFromIsoInput` gives the `D/M/Y` case |
| OcrEditStep.DeadlineFromIsoInput | src/cmps/steps/OCREditStep.jsx:180-184 | an input `Y-M-D` is stored as `D/M/Y` |
| OcrEditStep.DeadlineInputRoundTrip | src/cmps/steps/OCREditStep.jsx:178-184 | storing a three-part input and displaying it again gives back the input |
| OcrEditStep.DeadlineStoredRoundTrip | src/cmps/steps/OCREditStep.jsx:178-184 | a stored `D/M/Y`, displayed and stored back unedited, is unchanged |
| OcrEditStep.ClearedDeadlineInput | src/cmps/steps/OCREditStep.jsx:180-184 | clearing the date input stores `undefined/undefined/` |
| OcrEditStep.LoadEffect | src/cmps/steps/OCREditStep.jsx:11-24 | with the required fields filled the gate is opened, otherwise nothing is dispatched; it never closes the gate |
| OcrEditStep.HandleFieldChange | src/cmps/steps/OCREditStep.jsx:26-28 | the store state becomes `updateOCRField` of the field and value |
| OcrEditStep.HandleDeadlineChange | src/cmps/steps/OCREditStep.jsx:180-185 | the converted input is written to `appealDeadline` |
| OcrEditStep.HandleContinue | src/cmps/steps/OCREditStep.jsx:30-34 | with the gate closed nothing changes; with it open the state is `nextStep` of the old one |
| OcrEditStep.HandleBack | src/cmps/steps/OCREditStep.jsx:36-38 | the store state becomes `prevStep` of the old one |
| UploadStep.CheckFile | src/cmps/steps/UploadStep.jsx:28-41 | accepted iff the type is JPEG, PNG or PDF and the size is at most 10 MiB; the type is checked before the size |
| UploadStep.SizeLimitIsInclusive | src/cmps/steps/UploadStep.jsx:31-38 | exactly 10 MiB is accepted and one byte more is too large |
| UploadStep.LoadedPayload | src/cmps/steps/UploadStep.jsx:47-54 | both identifiers are falsy; what storing it does is `LoadingFileDropsSession` |
| UploadStep.LoadingFileDropsSession | src/cmps/steps/UploadStep.jsx:47-54 | loading a file stores its name, size, type and data URL with no session whatever session was stored before, opens the gate iff the file is named, and changes no other step data |
| UploadStep.ContinuePayload | src/cmps/steps/UploadStep.jsx:75 | the stored upload record plus the returned `reportId`; what storing it does is `ResendingKeepsRecord` |
| UploadStep.ResendingKeepsRecord | src/cmps/steps/UploadStep.jsx:75 | re-sending the stored record leaves all step data as it was, whatever `reportId` it carries; the gate is open iff the stored file name is non-empty; step and error unchanged |
| UploadStep.IsoDate | src/cmps/steps/UploadStep.jsx:83-86 | the conversion throws (None) iff the value holds no `/` |
| UploadStep.RemappedFields | src/cmps/steps/UploadStep.jsx:79-92 | throws iff a truthy `violationDate` has no `/`; otherwise `date` is its ISO form, a truthy `violationTime` is copied to `time`, and every other field is unchanged |
| UploadStep.IsoDateOfDayMonthYear | src/cmps/steps/UploadStep.jsx:84-85 | `D/M/Y` becomes `Y-MM-DD`, with month and day zero-padded to two characters |
| UploadStep.PadSingleDigit | src/cmps/steps/UploadStep.jsx:85 | a one-character part is padded with exactly one leading zero |
| UploadStep.IsoDateOfSingleDigits | src/cmps/steps/UploadStep.jsx:84-85 | a single-digit day and month gain a leading zero (`7/3/2024` becomes `2024-03-07`) |
| UploadStep.RemapInPlace | src/cmps/steps/UploadStep.jsx:82-89 | the in-place writes of `date` and then `time` throw exactly when the remapping function does, and otherwise give the map it describes |
| UploadStep.ContinueActions | src/cmps/steps/UploadStep.jsx:73-95 | nothing is dispatched iff the upload failed; otherwise the batch starts with the re-sent upload record, stores no other upload record, and ends with `nextStep` iff no OCR results came back or their remapping did not throw |
| UploadStep.ContinueUnfolded | src/cmps/steps/UploadStep.jsx:73-95 | the state after a successful upload: the upload record is stored, then the remapped OCR results if any, then `nextStep` unless the remapping threw |
| UploadStep.ContinueKeepsUploadRecord | src/cmps/steps/UploadStep.jsx:75-76 | after the continue batch the upload record is the one before it: `sessionId` keeps its value and `reportId` is stored nowhere |
| UploadStep.ContinueIgnoresReportId | src/cmps/steps/UploadStep.jsx:75-76 | the final state is the same whatever `reportId` the server returned |
| UploadStep.ContinueAdvanceIsGated | src/cmps/steps/UploadStep.jsx:76-95 | the step advances, by exactly one, iff it is below the last step and either no OCR results came back (with a named file) or the remapped ones pass the required-field check; otherwise it stays |
| UploadStep.UploadStepView.constructor | src/cmps/steps/UploadStep.jsx:10-11 | not uploading, no selected file |
| UploadStep.UploadStepView.HandleFile | src/cmps/steps/UploadStep.jsx:28-57 | a rejected file changes neither the store nor the selection; an accepted one becomes the selection, and the store receives its loaded payload |
| UploadStep.UploadStepView.HandleClearFile | src/cmps/steps/UploadStep.jsx:63-66 | the store state is `clearUploadFile` of the old one and the selection is empty |
| UploadStep.UploadStepView.HandleContinue | src/cmps/steps/UploadStep.jsx:68-103 | does nothing without a selection or while uploading; otherwise the store receives the continue batch, the selection is cleared after a successful upload, and `isUploading` is false on both paths |
| AnalysisStep.HasValidSession | src/cmps/steps/AIAnalysisStep.jsx:15 | holds only with a truthy `sessionId`, and never with an empty file name |
| AnalysisStep.HasOcrData | src/cmps/steps/AIAnalysisStep.jsx:16 | holds iff at least one OCR field was extracted |
| AnalysisStep.EffectDecision | src/cmps/steps/AIAnalysisStep.jsx:13-28 | starts iff not processing, no results, a truthy session id and file name, non-empty OCR fields and not yet started; success iff results exist; error iff no results and the session or the OCR data is missing; otherwise nothing |
| AnalysisStep.MapResponse | src/cmps/steps/AIAnalysisStep.jsx:44-56 | a result exists iff the call succeeded and both nested records are present; its seven fields are copied one-to-one from the response |
| AnalysisStep.Fallback | src/cmps/steps/AIAnalysisStep.jsx:72-82 | the fallback recommends appealing with a high chance, 6 points, a section, a reasoning and one technical issue; `FallbackIsUnmarked` shows a live response can equal it |
| AnalysisStep.AnalysisActions | src/cmps/steps/AIAnalysisStep.jsx:39-83 | three actions starting with processing on; processing off and the mapped response (or else the fallback) both follow; `AnalysisSettles` gives the final state |
| AnalysisStep.FallbackIsUnmarked | src/cmps/steps/AIAnalysisStep.jsx:72-82 | some live response maps to exactly the fallback record |
| AnalysisStep.AnalysisSettles | src/cmps/steps/AIAnalysisStep.jsx:39-83 | on both paths: processing off, the stored result is the mapped response or else the fallback, the gate open, nothing else changed |
| AnalysisStep.SettledEffectShowsSuccess | src/cmps/steps/AIAnalysisStep.jsx:21-28 | once either path has stored its result, the effect's next run shows success |
| AnalysisStep.AnalysisStepView.constructor | src/cmps/steps/AIAnalysisStep.jsx:10-11 | not started, status processing, no advance scheduled |
| AnalysisStep.AnalysisStepView.PerformAnalysis | src/cmps/steps/AIAnalysisStep.jsx:30-84 | without a truthy session id: status error and nothing dispatched; otherwise the store receives the analysis batch, the status is success or error, and the advance is scheduled on success only |
| AnalysisStep.AnalysisStepView.RunEffect | src/cmps/steps/AIAnalysisStep.jsx:13-28 | follows the decision; the started flag is set only by a start; once it is set nothing is dispatched, so the analysis starts at most once per mount |
| AnalysisStep.AnalysisStepView.OnAdvanceTimer | src/cmps/steps/AIAnalysisStep.jsx:62-64 | a scheduled advance dispatches `nextStep` once |
| AnalysisStep.AnalysisStepView.HandleContinue | src/cmps/steps/AIAnalysisStep.jsx:86-88 | the store state becomes `nextStep` of the old one |
| AnalysisStep.AnalysisStepView.HandleRestart | src/cmps/steps/AIAnalysisStep.jsx:90-92 | the store state becomes `resetFlow` of the old one |
| ResultsStep.ConclusionClass | src/cmps/steps/ResultsStep.jsx:29-36 | success iff `appeal`, danger iff `dont_appeal`, warning for every other value |
| ResultsStep.ConclusionTextOf | src/cmps/steps/ResultsStep.jsx:38-45 | one text for each of `appeal`, `maybe`, `dont_appeal`; the review text iff the value is none of them |
| ResultsStep.ConclusionIconOf | src/cmps/steps/ResultsStep.jsx:47-54 | one icon for each of `appeal`, `maybe`, `dont_appeal`; the question mark iff the value is none of them |
| ResultsStep.TextAndIconAgree | src/cmps/steps/ResultsStep.jsx:38-54 | the text and the icon always name the same conclusion |
| ResultsStep.UnknownIsNotMaybe | src/cmps/steps/ResultsStep.jsx:29-54 | an unknown value has the colour of `maybe` but a different text and icon |
| ResultsStep.ProbabilityLabelOf | src/cmps/steps/ResultsStep.jsx:71-72 | high iff `high`, medium iff `medium`, low for everything else, a missing value included |
| ResultsStep.ProbabilityTone | src/cmps/steps/ResultsStep.jsx:86-87 | success iff `high`, warning iff `medium`, danger otherwise |
| ResultsStep.ToneFollowsLabel | src/cmps/steps/ResultsStep.jsx:86-89 | the card's colour is determined by its label |
| ResultsStep.IssueCount | src/cmps/steps/ResultsStep.jsx:103 | the number of technical issues, or 0 when the list is absent |
| ResultsStep.ExplanationOf | src/cmps/steps/ResultsStep.jsx:112 | the default text iff the reasoning is falsy; otherwise the reasoning |
| ResultsStep.View | src/cmps/steps/ResultsStep.jsx:56-107 | the loading view iff there are no results; otherwise each card is the rule above applied to its field |
| ResultsStep.EnterEffect | src/cmps/steps/ResultsStep.jsx:11-15 | the gate is opened iff results exist; otherwise nothing changes |
| ResultsStep.HandleContinue | src/cmps/steps/ResultsStep.jsx:17-19 | the store state becomes `nextStep` of the old one |
| ResultsStep.HandleBack | src/cmps/steps/ResultsStep.jsx:21-23 | the store state becomes `prevStep` of the old one |
| ResultsStep.HandleNewAnalysis | src/cmps/steps/ResultsStep.jsx:25-27 | the store is back in the initial state |
| PdfExportStep.FieldOrPlaceholder | src/cmps/steps/PDFExportStep.jsx:56-59 | the placeholder iff the field is missing, null or empty (a value of spaces is shown); otherwise the field's value |
| PdfExportStep.SectionShown | src/cmps/steps/PDFExportStep.jsx:66 | the placeholder iff there are no results or the section is falsy |
| PdfExportStep.PointsShown | src/cmps/steps/PDFExportStep.jsx:67 | the placeholder iff there are no results, no points, or 0 points |
| PdfExportStep.RecommendationLineOf | src/cmps/steps/PDFExportStep.jsx:68 | worth appealing iff the recommendation is `appeal` |
| PdfExportStep.ProbabilityOf | src/cmps/steps/PDFExportStep.jsx:69-70 | undefined without results, otherwise the results' probability |
| PdfExportStep.ExplanationShown | src/cmps/steps/PDFExportStep.jsx:76 | this step's own default sentence iff there are no results or the reasoning is falsy; otherwise the reasoning |
| PdfExportStep.PreviewOf | src/cmps/steps/PDFExportStep.jsx:53-77 | once the required-field check passes the four report lines show the stored values; without results the section and points are placeholders, the advice is not to appeal, the chance is low and the explanation is the default; in general each line is the rule above applied to its field |
| PdfExportStep.FilledFieldIsShown | src/cmps/steps/PDFExportStep.jsx:56-59 | a field that passes the reducer's required-field check is shown with its value |
| PdfExportStep.MaybeReadsDifferently | src/cmps/steps/PDFExportStep.jsx:68 | `maybe` reads as "consider appealing" on the results step but as not worth appealing here |
| PdfExportStep.ProbabilityAgreesWithResultsStep | src/cmps/steps/PDFExportStep.jsx:69-70 | with results present, the preview's probability wording is the results step's |
| PdfExportStep.InitialPreview | src/cmps/steps/PDFExportStep.jsx:53-77 | in the initial state every report and analysis line is a placeholder, the advice is not to appeal, the chance is low and the explanation is the default sentence |
| PdfExportStep.EnterEffect | src/cmps/steps/PDFExportStep.jsx:11-13 | the gate is opened whatever the state |
| PdfExportStep.HandleBack | src/cmps/steps/PDFExportStep.jsx:29-31 | the store state becomes `prevStep` of the old one |
| PdfExportStep.HandleNewAnalysis | src/cmps/steps/PDFExportStep.jsx:25-27 | the store is back in the initial state |
| StepProgress.GetStepStatus | src/cmps/common/StepProgress.jsx:55-59 | completed iff the id is below the current step, active iff equal, pending iff above |
| StepProgress.GetStepStatusText | src/cmps/common/StepProgress.jsx:61-64 | non-empty, and then the "done" word, iff the step is completed |
| StepProgress.Items | src/cmps/common/StepProgress.jsx:6-42 | five items with ids 1 to 5; the check icon and a completed connector iff the id is below the current step; no connector after the last step |
| StepProgress.ExactlyOneActive | src/cmps/common/StepProgress.jsx:6-59 | for a current step in 1..5 the active steps are exactly the current one, and the completed ones are those before it |
| StepProgress.NoneActiveOutOfRange | src/cmps/common/StepProgress.jsx:6-59 | outside 1..5 no step is active |
| StepProgress.ReachableStateHasOneActive | src/cmps/common/StepProgress.jsx:4-59 | every state the reducer reaches from the initial one shows exactly one active step |
| FlowScenarios.IssuedTrace | src/cmps/steps/UploadStep.jsx:47-95 | a batch that stores no upload record is issued; one whose first upload record brings a new truthy session id is not |
| FlowScenarios.IssuedTraceAppend | src/store/slices/pocFlowSlice.js:74-78 | an issued sequence followed by an issued sequence is issued, and conversely |
| FlowScenarios.UploadStepIssues | src/cmps/steps/UploadStep.jsx:47-95 | the upload step's file-load and continue dispatches never store a new session id |
| FlowScenarios.AnalysisStepIssues | src/cmps/steps/AIAnalysisStep.jsx:39-83 | the analysis step's dispatches store no upload record |
| FlowScenarios.SessionStaysFalsy | src/store/slices/pocFlowSlice.js:74-83 | along such a sequence a falsy session id stays falsy |
| FlowScenarios.AnalysisNeverStarts | src/cmps/steps/AIAnalysisStep.jsx:15-27 | after any such sequence from the initial state the analysis does not start, and without results the step shows the error card |
| FlowScenarios.UploadToAnalysisWithoutSession | src/cmps/steps/UploadStep.jsx:68-95 | an accepted named file whose remapped OCR results pass the check reaches step 2; the edit step's load and continue reach step 3 with the gate closed, and the analysis step shows the error card |
| FlowScenarios.UploadAndContinue | src/cmps/steps/UploadStep.jsx:28-103 | on a fresh store, loading an accepted file and continuing after a successful upload leaves the state the upload batch gives |
| FlowScenarios.WalkToAnalysis | src/cmps/steps/AIAnalysisStep.jsx:13-28 | the same walk driven through the handlers on one store ends at step 3, gate closed, analysis not started, status error |

## Left out

- `uploadService` and the network: the upload and analysis calls are parameters. `UploadOutcome` is a failure or a response; `AnalyzeOutcome` is a failure or the response's `analysisResults`. `fetch`, `FormData` and HTTP errors are not modelled.
- Asynchrony: each `async` handler runs from start to end in one method, so the model cannot interleave other events between its `await` and the dispatches that follow it.
- The `FileReader` load is taken to finish inside `handleFile`; its data URL is a parameter.
- The 1500 ms `setTimeout`: the delayed `nextStep` is the separate event `OnAdvanceTimer`.
- React effects: each effect is one method call, made when the caller decides. Dependency lists and re-render order are not modelled.
- `alert` and `console` output.
- The download and email buttons of the export step only raise an alert.
- The current date the preview reads from the clock.
- Hebrew labels are tokens (enums), except the step-progress "done" word and the fallback record, which are the literal strings.
- Floating point: confidence scores are `real`, and the percentage text and the progress-bar width are not modelled.
- String length: strings are `seq<char>`, so lengths and `padStart` count code points where JavaScript counts UTF-16 units.
- Field values that are not strings or null: the reducer's `?.trim()` would throw on them, so `extractedFields` holds only strings or null.
- `setOCRResults` with a payload that lacks `extractedFields` would throw inside the reducer; the payload always has one here.
- `goToStep` with a non-integer or non-number target: the target is an `int`.
- Truthiness of payload fields other than strings: `fileSize` is an `int` and `points` an optional `int`; a NaN cannot arise.
- `OcrEditStep.DeadlineForInput`: only the falsy case is stated in its contract; the round trips are the lemmas beside it.
- `src/pages/Home.jsx` (the step-to-screen switch), both `Header.jsx` files, `App.jsx`, `Button.jsx`, `LoadingSpinner.jsx`, `cmps/index.js` and the middleware options in `store/index.js` are rendering or wiring and are not part of this model.
