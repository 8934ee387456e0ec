/**
 * The upload step (step 1): the file acceptance rule, the file-loaded and
 * clear-file handlers, and the continue handler that uploads the selected
 * file, remaps two OCR fields and dispatches to the store.
 */
module UploadStep {
  import opened Wrappers
  import opened JsText
  import opened PocFlow

  const ValidTypes: seq<string> := ["image/jpeg", "image/png", "application/pdf"]

  /** 10 MiB. */
  const MaxSize: int := 10 * 1024 * 1024

  /** The properties of a browser `File` the step reads. */
  datatype FileInfo = FileInfo(name: string, size: nat, fileType: string)

  /** The outcome of the checks in `handleFile`, in the order they are made. */
  datatype FileCheck = Accepted | UnsupportedType | TooLarge

  /** `handleFile`'s validation: the type is checked before the size, and a
      file of exactly 10 MiB passes. */
  function CheckFile(file: FileInfo): (r: FileCheck)
    ensures r == Accepted <==> file.fileType in ValidTypes && file.size <= MaxSize
    ensures r == UnsupportedType <==> file.fileType !in ValidTypes
    ensures r == TooLarge <==> file.fileType in ValidTypes && file.size > MaxSize
  {
    if file.fileType !in ValidTypes then UnsupportedType
    else if file.size > MaxSize then TooLarge
    else Accepted
  }

  /** The boundary: 10 MiB is accepted, one byte more is not. */
  lemma SizeLimitIsInclusive(name: string, fileType: string)
    requires fileType in ValidTypes
    ensures CheckFile(FileInfo(name, 10485760, fileType)) == Accepted
    ensures CheckFile(FileInfo(name, 10485761, fileType)) == TooLarge
  {
  }

  /** What `reader.onload` dispatches: the file's properties and data URL, a
      null `reportId`, and no `sessionId` key at all. */
  function LoadedPayload(file: FileInfo, dataUrl: string): (p: UploadPayload)
    ensures p.fileName == file.name && p.fileSize == file.size && p.fileType == file.fileType
    ensures p.fileDataUrl == Some(dataUrl) && p.sessionId == None && p.reportId == None
    ensures !Truthy(p.sessionId) && !Truthy(p.reportId)
  {
    UploadPayload(file.name, file.size, file.fileType, Some(dataUrl), None, None)
  }

  /** `{ ...uploadData, reportId }`: the current upload record with the
      returned `reportId` added. */
  function ContinuePayload(upload: UploadData, reportId: Option<string>): (p: UploadPayload)
    ensures p.fileName == upload.fileName && p.fileSize == upload.fileSize
    ensures p.fileType == upload.fileType && p.fileDataUrl == upload.fileDataUrl
    ensures p.sessionId == upload.sessionId && p.reportId == reportId
  {
    UploadPayload(upload.fileName, upload.fileSize, upload.fileType, upload.fileDataUrl, upload.sessionId, reportId)
  }

  /** Loading a file stores its name, size, type and data URL with no
      session, whatever session was stored before, and opens the gate iff the
      file is named. */
  lemma LoadingFileDropsSession(s: FlowState, file: FileInfo, dataUrl: string)
    ensures var r := SetUploadFile(s, LoadedPayload(file, dataUrl));
      && r.stepData.upload == UploadData(file.name, file.size, file.fileType, Some(dataUrl), None)
      && !Truthy(r.stepData.upload.sessionId)
      && (r.canProceed <==> file.name != "")
      && r.stepData == s.stepData.(upload := r.stepData.upload)
  {
  }

  /** Re-sending the stored record with a `reportId` stores the same record:
      the gate is set from the stored name and nothing else changes. */
  lemma ResendingKeepsRecord(s: FlowState, reportId: Option<string>)
    ensures var r := SetUploadFile(s, ContinuePayload(s.stepData.upload, reportId));
      && r.stepData == s.stepData
      && (r.canProceed <==> s.stepData.upload.fileName != "")
      && r.currentStep == s.currentStep && r.error == s.error
  {
  }

  /** The upload call's outcome: the request failed, or the response with its
      optional `ocrResults`. */
  datatype UploadOutcome =
    | UploadFailed
    | Uploaded(reportId: Option<string>, ocrResults: Option<OcrPayload>)

  /** The ISO date written for a `violationDate`, or None where
      `month.padStart` throws because the value holds no '/'. */
  function IsoDate(violationDate: string): (r: Option<string>)
    ensures r.None? <==> '/' !in violationDate
  {
    var parts := Split(violationDate, '/');
    if |parts| < 2 then None
    else Some(Part(parts, 2) + "-" + PadStart2(parts[1]) + "-" + PadStart2(parts[0]))
  }

  /** The map agrees with `m` except possibly on the keys in `keys`. */
  ghost predicate AgreeExcept(m: Fields, m': Fields, keys: set<string>) {
    forall g :: g !in keys ==> (g in m <==> g in m') && (g in m ==> m[g] == m'[g])
  }

  /** The field remapping of `handleContinue`: a truthy `violationDate` D/M/Y
      becomes `date` Y-MM-DD, a truthy `violationTime` is copied to `time`, and
      no other field changes. None: the remapping throws. */
  function RemappedFields(fields: Fields): (r: Option<Fields>)
    ensures r.None? <==> "violationDate" in fields && Truthy(fields["violationDate"]) &&
                         IsoDate(fields["violationDate"].value).None?
    ensures r.Some? ==> AgreeExcept(fields, r.value, {"date", "time"})
    ensures r.Some? ==>
      if "violationDate" in fields && Truthy(fields["violationDate"])
      then "date" in r.value && r.value["date"] == IsoDate(fields["violationDate"].value)
      else ("date" in r.value <==> "date" in fields) && ("date" in fields ==> r.value["date"] == fields["date"])
    ensures r.Some? ==>
      if "violationTime" in fields && Truthy(fields["violationTime"])
      then "time" in r.value && r.value["time"] == fields["violationTime"]
      else ("time" in r.value <==> "time" in fields) && ("time" in fields ==> r.value["time"] == fields["time"])
  {
    var dated :=
      if "violationDate" in fields && Truthy(fields["violationDate"]) then
        match IsoDate(fields["violationDate"].value)
        case None => None
        case Some(iso) => Some(fields["date" := Some(iso)])
      else Some(fields);
    match dated
    case None => None
    case Some(m) =>
      if "violationTime" in m && Truthy(m["violationTime"]) then Some(m["time" := m["violationTime"]])
      else Some(m)
  }

  /** A "D/M/YYYY" date becomes "YYYY-MM-DD": year first, month and day
      left-padded with zeros to two characters. */
  lemma {:induction false} IsoDateOfDayMonthYear(day: string, month: string, year: string)
    requires '/' !in day && '/' !in month && '/' !in year
    ensures IsoDate(day + "/" + month + "/" + year) == Some(year + "-" + PadStart2(month) + "-" + PadStart2(day))
  {
    SplitThree(day, month, year, '/');
  }

  /** One-character parts are padded with a single zero. */
  lemma PadSingleDigit(c: char)
    ensures PadStart2([c]) == ['0', c]
  {
    var r := PadStart2([c]);
    assert r[1..] == [c] && r[0] == '0';
  }

  /** A single-digit day and month gain a leading zero: "7/3/2024" is
      written as "2024-03-07". */
  lemma IsoDateOfSingleDigits(day: char, month: char, year: string)
    requires day != '/' && month != '/' && '/' !in year
    ensures IsoDate([day] + "/" + [month] + "/" + year) == Some(year + "-" + ['0', month] + "-" + ['0', day])
  {
    IsoDateOfDayMonthYear([day], [month], year);
    PadSingleDigit(month);
    PadSingleDigit(day);
  }

  /** The actions `handleContinue` dispatches after its guard passes, given the
      upload record it read and the upload call's outcome: none when the call
      fails; `setUploadFile`, then `setOCRResults` on the remapped fields when
      OCR results came back, then `nextStep`; and only `setUploadFile` when the
      remapping throws. */
  function ContinueActions(upload: UploadData, outcome: UploadOutcome): (r: seq<Action>)
    ensures r == [] <==> outcome.UploadFailed?
    ensures r != [] ==> r[0] == Action.setUploadFile(ContinuePayload(upload, outcome.reportId))
    ensures r != [] ==> (r[|r| - 1] == Action.nextStep <==>
      outcome.ocrResults.None? || RemappedFields(outcome.ocrResults.value.extractedFields).Some?)
    ensures forall i :: 1 <= i < |r| ==> !r[i].setUploadFile?
  {
    match outcome
    case UploadFailed => []
    case Uploaded(reportId, ocr) =>
      var stored := Action.setUploadFile(ContinuePayload(upload, reportId));
      match ocr
      case None => [stored, Action.nextStep]
      case Some(p) =>
        match RemappedFields(p.extractedFields)
        case None => [stored]
        case Some(fields) => [stored, Action.setOCRResults(p.(extractedFields := fields)), Action.nextStep]
  }

  /** The state after `ContinueActions`, spelled out step by step. */
  lemma ContinueUnfolded(s: FlowState, reportId: Option<string>, ocr: Option<OcrPayload>)
    ensures var s1 := SetUploadFile(s, ContinuePayload(s.stepData.upload, reportId));
      ReduceAll(s, ContinueActions(s.stepData.upload, Uploaded(reportId, ocr))) ==
        match ocr
        case None => NextStep(s1)
        case Some(p) =>
          match RemappedFields(p.extractedFields)
          case None => s1
          case Some(fields) => NextStep(SetOCRResults(s1, p.(extractedFields := fields)))
  {
    var stored := Action.setUploadFile(ContinuePayload(s.stepData.upload, reportId));
    match ocr
    case None =>
      ReduceAllOfTwo(s, stored, Action.nextStep);
    case Some(p) =>
      match RemappedFields(p.extractedFields)
      case None =>
        ReduceAllOfOne(s, stored);
      case Some(fields) =>
        ReduceAllOfThree(s, stored, Action.setOCRResults(p.(extractedFields := fields)), Action.nextStep);
  }

  /** After a successful upload the upload record is exactly what it was:
      `sessionId` keeps its value and the returned `reportId` is stored nowhere. */
  lemma ContinueKeepsUploadRecord(s: FlowState, outcome: UploadOutcome)
    ensures ReduceAll(s, ContinueActions(s.stepData.upload, outcome)).stepData.upload == s.stepData.upload
  {
    if outcome.Uploaded? {
      ContinueUnfolded(s, outcome.reportId, outcome.ocrResults);
    }
  }

  /** The final state does not depend on the `reportId` the server returned. */
  lemma ContinueIgnoresReportId(s: FlowState, id1: Option<string>, id2: Option<string>, ocr: Option<OcrPayload>)
    ensures ReduceAll(s, ContinueActions(s.stepData.upload, Uploaded(id1, ocr)))
         == ReduceAll(s, ContinueActions(s.stepData.upload, Uploaded(id2, ocr)))
  {
    ContinueUnfolded(s, id1, ocr);
    ContinueUnfolded(s, id2, ocr);
    SetUploadFileIgnoresReportId(s, ContinuePayload(s.stepData.upload, id1), id2);
    assert ContinuePayload(s.stepData.upload, id1).(reportId := id2) == ContinuePayload(s.stepData.upload, id2);
  }

  /** Whether the closing `nextStep` of a successful upload finds the gate open:
      the gate `setUploadFile` or `setOCRResults` left behind. */
  predicate AdvanceAllowed(upload: UploadData, ocr: Option<OcrPayload>) {
    match ocr
    case None => upload.fileName != ""
    case Some(p) => RemappedFields(p.extractedFields).Some? && HasAllRequired(RemappedFields(p.extractedFields).value)
  }

  /** The "auto proceed regardless of missing fields" is gated: the step
      advances (by one) exactly when not at the last step and the OCR results
      were absent (with a named file) or passed the required-field check;
      otherwise it stays where it was. */
  lemma ContinueAdvanceIsGated(s: FlowState, reportId: Option<string>, ocr: Option<OcrPayload>)
    ensures var r := ReduceAll(s, ContinueActions(s.stepData.upload, Uploaded(reportId, ocr)));
      && (r.currentStep == s.currentStep + 1 <==>
            s.currentStep < s.totalSteps && AdvanceAllowed(s.stepData.upload, ocr))
      && (r.currentStep == s.currentStep + 1 || r.currentStep == s.currentStep)
  {
    ContinueUnfolded(s, reportId, ocr);
  }

  /** The remapping as the handler performs it, writing `date` and then
      `time` into the response's field map; `threw` when `month.padStart`
      throws. It computes what `RemappedFields` describes. */
  method RemapInPlace(original: Fields) returns (threw: bool, fields: Fields)
    ensures threw <==> RemappedFields(original).None?
    ensures !threw ==> RemappedFields(original) == Some(fields)
  {
    fields := original;
    threw := false;
    if "violationDate" in fields && Truthy(fields["violationDate"]) {
      var parts := Split(fields["violationDate"].value, '/');
      if |parts| < 2 {
        threw := true;
        return;
      }
      fields := fields["date" := Some(Part(parts, 2) + "-" + PadStart2(parts[1]) + "-" + PadStart2(parts[0]))];
    }
    if "violationTime" in fields && Truthy(fields["violationTime"]) {
      fields := fields["time" := fields["violationTime"]];
    }
  }

  /** The upload step's local state (`useState`) and its handlers. */
  class UploadStepView {
    var isUploading: bool
    var selectedFile: Option<FileInfo>

    constructor ()
      ensures !isUploading && selectedFile == None
    {
      isUploading := false;
      selectedFile := None;
    }

    /** `handleFile(file)` followed by the `FileReader` load that yields
        `dataUrl`: a rejected file dispatches nothing and leaves the selection
        as it was; an accepted one becomes the selection and its properties go
        to the store. */
    method HandleFile(store: Store, file: FileInfo, dataUrl: string) returns (check: FileCheck)
      modifies this, store
      ensures check == CheckFile(file)
      ensures check == Accepted ==>
        selectedFile == Some(file) &&
        store.state == SetUploadFile(old(store.state), LoadedPayload(file, dataUrl))
      ensures check != Accepted ==> selectedFile == old(selectedFile) && store.state == old(store.state)
      ensures isUploading == old(isUploading)
    {
      check := CheckFile(file);
      if check != Accepted {
        return;
      }
      selectedFile := Some(file);
      store.Dispatch(Action.setUploadFile(LoadedPayload(file, dataUrl)));
    }

    /** `handleClearFile`: clears the upload record and the selection. */
    method HandleClearFile(store: Store)
      modifies this, store
      ensures store.state == ClearUploadFile(old(store.state))
      ensures selectedFile == None && isUploading == old(isUploading)
    {
      store.Dispatch(Action.clearUploadFile);
      selectedFile := None;
    }

    /** `handleContinue` with the upload call's outcome: does nothing without a
        selected file or while uploading; otherwise dispatches
        `ContinueActions`, clears the selection once the upload succeeded, and
        ends with `isUploading` false on both paths. */
    method HandleContinue(store: Store, outcome: UploadOutcome)
      modifies this, store
      ensures old(selectedFile).None? || old(isUploading) ==>
        store.state == old(store.state) && selectedFile == old(selectedFile) && isUploading == old(isUploading)
      ensures old(selectedFile).Some? && !old(isUploading) ==>
        && !isUploading
        && store.state == ReduceAll(old(store.state), ContinueActions(old(store.state).stepData.upload, outcome))
        && selectedFile == (if outcome.Uploaded? then None else old(selectedFile))
    {
      if selectedFile.None? || isUploading {
        return;
      }
      ghost var s0 := store.state;
      var uploadData := store.state.stepData.upload;
      isUploading := true;
      match outcome {
        case UploadFailed =>
        case Uploaded(reportId, ocr) =>
          store.Dispatch(Action.setUploadFile(ContinuePayload(uploadData, reportId)));
          selectedFile := None;
          var threw := false;
          if ocr.Some? {
            var fields;
            threw, fields := RemapInPlace(ocr.value.extractedFields);
            if !threw {
              store.Dispatch(Action.setOCRResults(ocr.value.(extractedFields := fields)));
            }
          }
          if !threw {
            store.Dispatch(Action.nextStep);
          }
          ContinueUnfolded(s0, reportId, ocr);
      }
      isUploading := false;
    }
  }
}
