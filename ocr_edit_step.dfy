/**
 * The OCR edit step (step 2): the load-time gate check, the field and
 * appeal-deadline change handlers, continue and back, and the confidence
 * band shown next to each field.
 */
module OcrEditStep {
  import opened Wrappers
  import opened JsText
  import opened PocFlow

  /** The CSS class `getConfidenceInfo` picks, lowest first. */
  datatype ConfidenceBand = VeryLow | Low | Medium | High | VeryHigh

  /** The order of the bands. */
  function Rank(b: ConfidenceBand): (r: nat)
    ensures r < 5
  {
    match b
    case VeryLow => 0
    case Low => 1
    case Medium => 2
    case High => 3
    case VeryHigh => 4
  }

  /** The band of a score: inclusive lower bounds 0.9, 0.8, 0.65 and 0.5, so a
      boundary value belongs to the higher band. */
  function BandOf(confidence: real): (b: ConfidenceBand)
    ensures b == VeryHigh <==> confidence >= 0.9
    ensures b == High <==> 0.8 <= confidence < 0.9
    ensures b == Medium <==> 0.65 <= confidence < 0.8
    ensures b == Low <==> 0.5 <= confidence < 0.65
    ensures b == VeryLow <==> confidence < 0.5
  {
    if confidence >= 0.9 then VeryHigh
    else if confidence >= 0.8 then High
    else if confidence >= 0.65 then Medium
    else if confidence >= 0.5 then Low
    else VeryLow
  }

  /** A larger score never gets a lower band. */
  lemma BandIsMonotone(x: real, y: real)
    requires x <= y
    ensures Rank(BandOf(x)) <= Rank(BandOf(y))
  {
  }

  /** `confidenceScores?.[fieldName] || 0`: a missing score counts as 0. */
  function ScoreOf(scores: map<string, real>, fieldName: string): (c: real)
    ensures fieldName in scores ==> c == scores[fieldName]
    ensures fieldName !in scores ==> c == 0.0
  {
    if fieldName in scores then scores[fieldName] else 0.0
  }

  /** The band part of `getConfidenceInfo(fieldName)`. */
  function ConfidenceInfo(scores: map<string, real>, fieldName: string): (b: ConfidenceBand)
    ensures fieldName !in scores ==> b == VeryLow
    ensures fieldName in scores ==> b == BandOf(scores[fieldName])
  {
    BandOf(ScoreOf(scores, fieldName))
  }

  /** The deadline input's change handler: `value.split('-')` destructured as
      `[year, month, day]` and written `${day}/${month}/${year}`. */
  function DeadlineFromInput(input: string): (r: string)
    ensures '-' !in r
    ensures '-' !in input ==> r == "undefined/undefined/" + input
  {
    var parts := Split(input, '-');
    Part(parts, 2) + "/" + Part(parts, 1) + "/" + parts[0]
  }

  /** The deadline input's displayed value: the stored value split on '/',
      reversed and joined with '-', or "" when nothing (or "") is stored. */
  function DeadlineForInput(stored: Option<string>): (r: string)
    ensures !Truthy(stored) ==> r == ""
  {
    if Truthy(stored) then Join(Reverse(Split(stored.value, '/')), '-') else ""
  }

  /** A YYYY-MM-DD input is stored as DD/MM/YYYY. */
  lemma {:induction false} DeadlineFromIsoInput(year: string, month: string, day: string)
    requires '-' !in year && '-' !in month && '-' !in day
    ensures DeadlineFromInput(year + "-" + month + "-" + day) == day + "/" + month + "/" + year
  {
    SplitThree(year, month, day, '-');
  }

  /** Storing an input and displaying it again gives back the input, for every
      three-part input without '/'. */
  lemma {:induction false} DeadlineInputRoundTrip(year: string, month: string, day: string)
    requires '-' !in year && '-' !in month && '-' !in day
    requires '/' !in year && '/' !in month && '/' !in day
    ensures DeadlineForInput(Some(DeadlineFromInput(year + "-" + month + "-" + day))) == year + "-" + month + "-" + day
  {
    DeadlineFromIsoInput(year, month, day);
    SplitThree(day, month, year, '/');
    var ps := [year, month, day];
    assert Reverse([day, month, year]) == ps;
    JoinThree(year, month, day, '-');
  }

  /** A stored DD/MM/YYYY deadline, displayed and then changed back unedited,
      is stored unchanged. */
  lemma {:induction false} DeadlineStoredRoundTrip(day: string, month: string, year: string)
    requires '-' !in year && '-' !in month && '-' !in day
    requires '/' !in year && '/' !in month && '/' !in day
    ensures DeadlineFromInput(DeadlineForInput(Some(day + "/" + month + "/" + year))) == day + "/" + month + "/" + year
  {
    var stored := day + "/" + month + "/" + year;
    assert Truthy(Some(stored)) by { assert stored[|day|] == '/'; }
    SplitThree(day, month, year, '/');
    var ps := [year, month, day];
    assert Reverse([day, month, year]) == ps;
    JoinThree(year, month, day, '-');
    DeadlineFromIsoInput(year, month, day);
  }

  /** Clearing the date input (value "") stores "undefined/undefined/". */
  lemma ClearedDeadlineInput()
    ensures DeadlineFromInput("") == "undefined/undefined/"
  {
    assert Split("", '-') == [""];
  }

  /** The load-time effect: when the fields are non-empty and pass the
      required-field check it opens the gate; otherwise nothing. It never
      closes the gate, and the non-empty test adds nothing to the check. */
  method LoadEffect(store: Store)
    modifies store
    ensures HasAllRequired(old(store.state).stepData.ocr.extractedFields) ==>
      store.state == SetCanProceed(old(store.state), true)
    ensures !HasAllRequired(old(store.state).stepData.ocr.extractedFields) ==>
      store.state == old(store.state)
    ensures old(store.state).canProceed ==> store.state.canProceed
  {
    var fields := store.state.stepData.ocr.extractedFields;
    if HasAllRequired(fields) {
      HasAllRequiredNonEmpty(fields);
    }
    if |fields| > 0 {
      if HasAllRequired(fields) {
        store.Dispatch(Action.setCanProceed(true));
      }
    }
  }

  /** `handleFieldChange(fieldName, value)`. */
  method HandleFieldChange(store: Store, fieldName: string, value: string)
    modifies store
    ensures store.state == UpdateOCRField(old(store.state), fieldName, Some(value))
  {
    store.Dispatch(Action.updateOCRField(fieldName, Some(value)));
  }

  /** The appeal-deadline input's change handler: the input converted to
      DD/MM/YYYY and written to `appealDeadline`. */
  method HandleDeadlineChange(store: Store, input: string)
    modifies store
    ensures store.state == UpdateOCRField(old(store.state), "appealDeadline", Some(DeadlineFromInput(input)))
  {
    var formatted := DeadlineFromInput(input);
    store.Dispatch(Action.updateOCRField("appealDeadline", Some(formatted)));
  }

  /** `handleContinue`: dispatches `nextStep` only with the gate open, which
      comes to the same as `nextStep` itself. */
  method HandleContinue(store: Store)
    modifies store
    ensures store.state == NextStep(old(store.state))
    ensures !old(store.state).canProceed ==> store.state == old(store.state)
  {
    if store.state.canProceed {
      store.Dispatch(Action.nextStep);
    }
  }

  /** `handleBack`. */
  method HandleBack(store: Store)
    modifies store
    ensures store.state == PrevStep(old(store.state))
  {
    store.Dispatch(Action.prevStep);
  }
}
