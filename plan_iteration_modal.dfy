/** The modal that assigns unassigned work items to an iteration: the three
    selection lists, the submit guard, and the resets on opening and after a
    successful assignment. */
module PlanIteration {
  import opened Common
  import opened Schema

  /** `selectedItems`: the ids ticked in each of the three tabs. */
  datatype Selection = Selection(requirements: seq<int>, tasks: seq<int>, defects: seq<int>)

  const EmptySelection := Selection([], [], [])

  predicate NothingSelected(s: Selection) {
    |s.requirements| == 0 && |s.tasks| == 0 && |s.defects| == 0
  }

  const NothingSelectedWarning := "请至少选择一个工作项"

  /** What submitting asks for. */
  datatype PlanCall =
    | NoCall
    | Warning(message: string)
    | AssignToIteration(iterationId: int, items: Selection)

  /** The `ready` flag of the unassigned-items request: fetch only while the
      modal is visible and the project id is not 0. */
  function ShouldFetch(visible: bool, projectId: int): (b: bool)
    ensures b <==> visible && projectId != 0
  {
    visible && projectId != 0
  }

  class PlanIterationModal {
    var selectedItems: Selection

    constructor()
      ensures selectedItems == EmptySelection
    {
      selectedItems := EmptySelection;
    }

    /** `okButtonProps.disabled`: no iteration, or nothing selected. */
    function OkDisabled(iteration: Option<Iteration>): (b: bool)
      reads this
      ensures !b <==> iteration.Some? && |selectedItems.requirements| + |selectedItems.tasks| + |selectedItems.defects| > 0
    {
      iteration.None? || NothingSelected(selectedItems)
    }

    /** `handleRequirementSelect`: replaces the requirement ids only. */
    method SelectRequirements(keys: seq<int>)
      modifies this
      ensures selectedItems == old(selectedItems).(requirements := keys)
    {
      selectedItems := selectedItems.(requirements := keys);
    }

    /** `handleTaskSelect`: replaces the task ids only. */
    method SelectTasks(keys: seq<int>)
      modifies this
      ensures selectedItems == old(selectedItems).(tasks := keys)
    {
      selectedItems := selectedItems.(tasks := keys);
    }

    /** `handleDefectSelect`: replaces the defect ids only. */
    method SelectDefects(keys: seq<int>)
      modifies this
      ensures selectedItems == old(selectedItems).(defects := keys)
    {
      selectedItems := selectedItems.(defects := keys);
    }

    /** `handleSubmit`: nothing without an iteration, a warning when nothing
        is selected, otherwise the selection unchanged goes to the
        iteration. It assigns exactly when the OK button is enabled. */
    method HandleSubmit(iteration: Option<Iteration>) returns (call: PlanCall)
      ensures iteration.None? ==> call == NoCall
      ensures iteration.Some? && NothingSelected(selectedItems) ==> call == Warning(NothingSelectedWarning)
      ensures call.AssignToIteration? <==> !OkDisabled(iteration)
      ensures call.AssignToIteration? ==> call.iterationId == iteration.value.id && call.items == selectedItems
    {
      if iteration.None? {
        return NoCall;
      }
      var hasSelectedItems := |selectedItems.requirements| > 0 || |selectedItems.tasks| > 0 || |selectedItems.defects| > 0;
      if !hasSelectedItems {
        return Warning(NothingSelectedWarning);
      }
      call := AssignToIteration(iteration.value.id, selectedItems);
    }

    /** The assignment's `onSuccess`: the selection is cleared. */
    method OnAssignSuccess()
      modifies this
      ensures selectedItems == EmptySelection
    {
      selectedItems := EmptySelection;
    }

    /** The effect on `visible`: becoming visible clears the selection;
        hiding keeps it. */
    method OnVisibleChange(visible: bool)
      modifies this
      ensures visible ==> selectedItems == EmptySelection
      ensures !visible ==> selectedItems == old(selectedItems)
    {
      if visible {
        selectedItems := EmptySelection;
      }
    }
  }

  /** The modal's `footer` prop: the default OK and Cancel buttons, or
      none at all (`footer={null}`). */
  datatype Footer = DefaultButtons | NoButtons

  /** The footer as the modal is written: `footer={null}`. */
  const FooterAsWritten := NoButtons

  /** What a click on the OK button asks for. `handleSubmit` is bound only
      to `onOk`, so it runs only when the footer shows an OK button and
      that button is enabled; an enabled button means an iteration and a
      non-empty selection, and the submit then assigns that selection. */
  function OkClick(footer: Footer, iteration: Option<Iteration>, s: Selection): (call: PlanCall)
    ensures call.AssignToIteration? <==> footer.DefaultButtons? && iteration.Some? && !NothingSelected(s)
    ensures call.AssignToIteration? ==> call.iterationId == iteration.value.id && call.items == s
    ensures !call.AssignToIteration? ==> call == NoCall
  {
    if footer.NoButtons? || iteration.None? || NothingSelected(s) then NoCall
    else AssignToIteration(iteration.value.id, s)
  }

  /** As written the footer is hidden, so no click ever reaches
      `handleSubmit` and the modal never assigns anything. */
  lemma NeverAssignsAsWritten(iteration: Option<Iteration>, s: Selection)
    ensures OkClick(FooterAsWritten, iteration, s) == NoCall
  {
  }

  /** With the default footer an enabled OK button assigns the selection,
      exactly as the submit guard of `PlanIterationModal.HandleSubmit` does. */
  lemma AssignsWithDefaultFooter(m: PlanIterationModal, iteration: Option<Iteration>)
    requires !m.OkDisabled(iteration)
    ensures OkClick(DefaultButtons, iteration, m.selectedItems) == AssignToIteration(iteration.value.id, m.selectedItems)
  {
  }

  /** A freshly cleared selection keeps the OK button disabled, so the
      modal cannot assign again until something is ticked. */
  lemma ClearedSelectionDisablesOk(m: PlanIterationModal, iteration: Option<Iteration>)
    requires m.selectedItems == EmptySelection
    ensures m.OkDisabled(iteration)
  {
  }
}
