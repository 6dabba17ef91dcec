/** The learning walkthrough: a current step index over a fixed list of steps and the set of
    steps already acknowledged. Acknowledging a step either moves to the next step or, on the
    last one, hands control back through the completion callback. */
module Learning {

  /** The component's two pieces of state. */
  datatype Progress = Progress(currentStep: nat, completedSteps: set<nat>)

  /** The state after one press of the step button, and whether it called `onComplete`. */
  datatype StepResult = StepResult(progress: Progress, completeFired: bool)

  /** Freshly mounted: first step shown, nothing acknowledged. */
  const Initial: Progress := Progress(0, {})

  /** The labels of the step button. */
  const NextLabel: string := "Next"
  const StartLabel: string := "Start Experiment"

  /** The indices below `k`. */
  function Range(k: nat): set<nat>
  {
    if k == 0 then {} else Range(k - 1) + {k - 1}
  }

  /** What holds of the progress of a walkthrough with `stepCount` steps: the shown step is
      an index of the list (when the list is not empty), every earlier step is acknowledged,
      and nothing beyond the shown step is. */
  ghost predicate Consistent(p: Progress, stepCount: nat)
  {
    (if stepCount > 0 then p.currentStep < stepCount else p.currentStep == 0) &&
    Range(p.currentStep) <= p.completedSteps <= Range(p.currentStep + 1)
  }

  /** One press of the step button over a list of `stepCount` steps. */
  function CompleteStep(p: Progress, stepCount: nat): (r: StepResult)
    ensures r.progress.completedSteps == p.completedSteps + {p.currentStep}
    ensures r.completeFired <==> !(p.currentStep < stepCount - 1)
    ensures r.completeFired <==> r.progress.currentStep == p.currentStep
    ensures !r.completeFired ==> r.progress.currentStep == p.currentStep + 1
  {
    var completed := p.completedSteps + {p.currentStep};
    if p.currentStep < stepCount - 1 then StepResult(Progress(p.currentStep + 1, completed), false)
    else StepResult(Progress(p.currentStep, completed), true)
  }

  /** The label of the step button in state `p`. */
  function ButtonLabel(p: Progress, stepCount: nat): (text: string)
    ensures text == StartLabel || text == NextLabel
    ensures text == StartLabel <==> p.currentStep + 1 == stepCount
  {
    if p.currentStep == stepCount - 1 then StartLabel else NextLabel
  }

  /** The progress after `k` presses of the step button since mounting. */
  function Completions(stepCount: nat, k: nat): Progress
  {
    if k == 0 then Initial else CompleteStep(Completions(stepCount, k - 1), stepCount).progress
  }

  /** `Range(k)` is exactly the set of indices 0 to k-1. */
  lemma {:induction false} RangeMembers(k: nat)
    ensures forall i: nat :: i in Range(k) <==> i < k
  {
    if k > 0 {
      RangeMembers(k - 1);
    }
  }

  lemma InitialConsistent(stepCount: nat)
    ensures Consistent(Initial, stepCount)
  {
  }

  /** A press keeps the progress consistent; in particular the shown step stays an index of
      a non-empty list. */
  lemma CompleteStepKeepsConsistent(p: Progress, stepCount: nat)
    requires Consistent(p, stepCount)
    ensures Consistent(CompleteStep(p, stepCount).progress, stepCount)
  {
  }

  /** Before the last press, `k` presses have shown step `k` and acknowledged steps 0 to k-1. */
  lemma {:induction false} CompletionsBeforeLast(stepCount: nat, k: nat)
    requires k < stepCount
    ensures Completions(stepCount, k) == Progress(k, Range(k))
  {
    if k > 0 {
      CompletionsBeforeLast(stepCount, k - 1);
    }
  }

  /** The `k`-th press calls `onComplete` exactly when `k` is the number of steps. */
  lemma FiresExactlyOnLast(stepCount: nat, k: nat)
    requires 1 <= k <= stepCount
    ensures CompleteStep(Completions(stepCount, k - 1), stepCount).completeFired <==> k == stepCount
  {
    CompletionsBeforeLast(stepCount, k - 1);
  }

  /** After one press per step the last step is still shown and every step is acknowledged. */
  lemma AllStepsCompleted(stepCount: nat)
    requires stepCount > 0
    ensures Completions(stepCount, stepCount) == Progress(stepCount - 1, Range(stepCount))
  {
    CompletionsBeforeLast(stepCount, stepCount - 1);
  }

  /** The button reads "Start Experiment" exactly when pressing it calls `onComplete`. */
  lemma LabelAnnouncesCompletion(p: Progress, stepCount: nat)
    requires Consistent(p, stepCount) && stepCount > 0
    ensures ButtonLabel(p, stepCount) == StartLabel <==> CompleteStep(p, stepCount).completeFired
  {
  }

  /** The mounted component over a list of `stepCount` steps. */
  class LearningSection {
    const stepCount: nat
    var currentStep: nat
    var completedSteps: set<nat>

    function State(): Progress
      reads this
    {
      Progress(currentStep, completedSteps)
    }

    ghost predicate Valid()
      reads this
    {
      Consistent(State(), stepCount)
    }

    constructor (stepCount: nat)
      ensures Valid()
      ensures this.stepCount == stepCount && State() == Initial
    {
      this.stepCount := stepCount;
      currentStep := 0;
      completedSteps := {};
    }

    /** The step shown, as an index into the list of steps. */
    function CurrentStepIndex(): (i: nat)
      reads this
      requires Valid() && stepCount > 0
      ensures i < stepCount
    {
      currentStep
    }

    /** The step button: acknowledge the shown step, then advance or call `onComplete`
        (reported as `completeFired`). */
    method HandleStepComplete() returns (completeFired: bool)
      requires Valid()
      modifies this
      ensures Valid()
      ensures completedSteps == old(completedSteps) + {old(currentStep)}
      ensures old(currentStep) < stepCount - 1 ==> currentStep == old(currentStep) + 1 && !completeFired
      ensures old(currentStep) >= stepCount - 1 ==> currentStep == old(currentStep) && completeFired
      ensures StepResult(State(), completeFired) == CompleteStep(old(State()), stepCount)
    {
      CompleteStepKeepsConsistent(State(), stepCount);
      var newCompleted := completedSteps + {currentStep};
      completedSteps := newCompleted;
      if currentStep < stepCount - 1 {
        currentStep := currentStep + 1;
        completeFired := false;
      } else {
        completeFired := true;
      }
    }
  }
}
