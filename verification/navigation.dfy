/**
 * The step bar of the new-campaign wizard.  Steps are numbered; the step
 * whose number is the current one is active, earlier steps are completed,
 * and only the active and completed steps respond to a click, which hands
 * the step's number to the wizard.
 */
module Navigation {
  import opened Wrappers

  /** A step of the wizard, as the bar reads it. */
  datatype Step = Step(id: int, title: string)

  predicate IsActive(step: Step, currentStep: int) {
    currentStep == step.id
  }

  predicate IsCompleted(step: Step, currentStep: int) {
    currentStep > step.id
  }

  /** Completed and current steps can be revisited; later ones cannot. */
  predicate IsClickable(step: Step, currentStep: int) {
    step.id <= currentStep
  }

  /** A step is clickable exactly when it is active or completed, and never both. */
  lemma ClickableIffActiveOrCompleted(step: Step, currentStep: int)
    ensures IsClickable(step, currentStep) <==> IsActive(step, currentStep) || IsCompleted(step, currentStep)
    ensures !(IsActive(step, currentStep) && IsCompleted(step, currentStep))
  {
  }

  /** `handleStepClick`: the number handed to `onStepClick`, if it is called. */
  function StepClick(step: Step, clickable: bool, hasHandler: bool): (r: Option<int>)
    ensures r.Some? <==> clickable && hasHandler
    ensures r.Some? ==> r.value == step.id
  {
    if clickable && hasHandler then Some(step.id) else None
  }

  /** A click from the bar never moves the wizard forward. */
  lemma ClickNeverAdvances(step: Step, currentStep: int, hasHandler: bool)
    ensures var r := StepClick(step, IsClickable(step, currentStep), hasHandler);
      r.Some? ==> r.value <= currentStep
    ensures StepClick(step, IsClickable(step, currentStep), hasHandler).None? <==> step.id > currentStep || !hasHandler
  {
  }

  /** How a step's button looks. */
  datatype Look = Current | Done | Locked

  function LookOf(step: Step, currentStep: int): Look {
    if IsActive(step, currentStep) then Current
    else if IsCompleted(step, currentStep) then Done
    else Locked
  }

  /** The button's hover text. */
  function Hint(step: Step, currentStep: int): string {
    match LookOf(step, currentStep)
    case Current => "Current step: " + step.title
    case Done => "Go back to " + step.title
    case Locked => step.title + " - Complete previous steps first"
  }

  /** The button is disabled exactly when it looks locked. */
  lemma LockedIffDisabled(step: Step, currentStep: int)
    ensures LookOf(step, currentStep) == Locked <==> !IsClickable(step, currentStep)
  {
  }

  /** The order of the looks: completed, then current, then locked. */
  function Rank(l: Look): nat {
    match l
    case Done => 0
    case Current => 1
    case Locked => 2
  }

  /** With step numbers increasing along the bar, completed steps come first, then at most one
      current step, then locked steps. */
  lemma {:induction false} LooksInOrder(steps: seq<Step>, currentStep: int)
    requires forall i, j :: 0 <= i < j < |steps| ==> steps[i].id < steps[j].id
    ensures forall i, j :: 0 <= i < j < |steps| ==> Rank(LookOf(steps[i], currentStep)) <= Rank(LookOf(steps[j], currentStep))
    ensures forall i, j :: 0 <= i < j < |steps| ==> !(IsActive(steps[i], currentStep) && IsActive(steps[j], currentStep))
  {
    forall i, j | 0 <= i < j < |steps|
      ensures Rank(LookOf(steps[i], currentStep)) <= Rank(LookOf(steps[j], currentStep))
    {
      assert steps[i].id < steps[j].id;
    }
  }
}
