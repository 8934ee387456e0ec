/**
 * The progress strip above the steps: each of the five steps is completed,
 * active or pending relative to the current step, with a check icon, a
 * status text and a connector to the next step.
 */
module StepProgress {
  import opened Wrappers
  import opened PocFlow

  /** The class `getStepStatus` returns. */
  datatype StepStatus = Completed | Active | Pending

  /** `getStepStatus`: completed before the current step, active at it,
      pending after it. */
  function GetStepStatus(stepId: int, currentStep: int): (st: StepStatus)
    ensures st == Completed <==> stepId < currentStep
    ensures st == Active <==> stepId == currentStep
    ensures st == Pending <==> stepId > currentStep
  {
    if stepId < currentStep then Completed
    else if stepId == currentStep then Active
    else Pending
  }

  /** The word shown under a completed step ("done"). */
  const DoneText: string := "הושלם"

  /** `getStepStatusText`: non-empty exactly for a completed step. */
  function GetStepStatusText(stepId: int, currentStep: int): (t: string)
    ensures t != "" <==> GetStepStatus(stepId, currentStep) == Completed
    ensures t != "" ==> t == DoneText
  {
    if stepId < currentStep then DoneText else ""
  }

  /** One rendered step: its id, status class, whether the icon is the check
      mark, its status text, and its connector (None for the last step,
      otherwise whether the connector is drawn completed). */
  datatype StepItem = StepItem(
    id: int, status: StepStatus, showsCheck: bool, statusText: string, connector: Option<bool>)

  /** The number of steps in the strip. */
  const StepCount: nat := 5

  function ItemFor(index: nat, currentStep: int): StepItem {
    var id := index + 1;
    StepItem(
      id, GetStepStatus(id, currentStep), id < currentStep, GetStepStatusText(id, currentStep),
      if index < StepCount - 1 then Some(id < currentStep) else None)
  }

  /** `steps.map(...)`: ids 1 to 5 in order; the check icon and a completed
      connector exactly before the current step; no connector after the last. */
  function Items(currentStep: int): (items: seq<StepItem>)
    ensures |items| == StepCount
    ensures forall i :: 0 <= i < |items| ==>
      && items[i].id == i + 1
      && items[i].status == GetStepStatus(i + 1, currentStep)
      && (items[i].showsCheck <==> i + 1 < currentStep)
      && (items[i].statusText != "" <==> i + 1 < currentStep)
      && (items[i].connector.None? <==> i == StepCount - 1)
      && (items[i].connector == Some(true) <==> i < StepCount - 1 && i + 1 < currentStep)
  {
    seq(StepCount, i requires 0 <= i => ItemFor(i, currentStep))
  }

  /** The indices of the active steps. */
  function ActiveIndices(items: seq<StepItem>): set<int> {
    set i | 0 <= i < |items| && items[i].status == Active
  }

  /** For a current step in 1..5 exactly one step is active, the one at
      index currentStep - 1, and the completed ones are those before it. */
  lemma ExactlyOneActive(currentStep: int)
    requires 1 <= currentStep <= StepCount
    ensures ActiveIndices(Items(currentStep)) == {currentStep - 1}
    ensures |ActiveIndices(Items(currentStep))| == 1
    ensures forall i :: 0 <= i < StepCount ==> (Items(currentStep)[i].status == Completed <==> i < currentStep - 1)
  {
    var items := Items(currentStep);
    assert items[currentStep - 1].status == Active;
    assert ActiveIndices(items) == {currentStep - 1};
  }

  /** Outside 1..5 no step is active. */
  lemma NoneActiveOutOfRange(currentStep: int)
    requires currentStep < 1 || currentStep > StepCount
    ensures ActiveIndices(Items(currentStep)) == {}
  {
    var items := Items(currentStep);
    assert forall i :: 0 <= i < |items| ==> items[i].status != Active;
  }

  /** Every state the reducer reaches shows exactly one active step. */
  lemma ReachableStateHasOneActive(actions: seq<Action>)
    ensures |ActiveIndices(Items(ReduceAll(Initial(), actions).currentStep))| == 1
  {
    ReachableStatesAreValid(actions);
    ExactlyOneActive(ReduceAll(Initial(), actions).currentStep);
  }
}
