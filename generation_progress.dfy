/**
  The generation progress screen: a step message advanced by a chain of
  timeouts, a progress bar fed by a 100 ms interval and capped at 95 %
  until generation ends, and the retry screen shown for an error.
  Timers are explicit events.
*/
module GenerationProgress {
  import opened Wrappers
  import opened Text
  import opened Numbers

  /** The step messages with their durations in milliseconds. */
  const ProgressSteps: seq<(string, nat)> := [
    ("Analyzing your fitness profile...", 2000),
    ("Selecting optimal race preparation strategy...", 3000),
    ("Creating periodized training phases...", 4000),
    ("Generating weekly workout schedules...", 3000),
    ("Optimizing workout intensity and volume...", 2000),
    ("Adding structured workout details...", 2000),
    ("Finalizing your personalized plan...", 1000)
  ]

  const LastStep: nat := |ProgressSteps| - 1

  const TickMs: nat := 100

  /** The bar after `elapsed` milliseconds: `min(95, elapsed / 20000 * 100)`. */
  function ProgressAfter(elapsed: nat): (p: real)
    ensures 0.0 <= p <= 95.0
    ensures p == 95.0 || p == elapsed as real / 200.0
  {
    var raw := elapsed as real / 200.0;
    if raw < 95.0 then raw else 95.0
  }

  /** After n ticks the bar shows min(95, n / 2), never decreasing. */
  lemma ProgressAfterTicks(n: nat, m: nat)
    requires n <= m
    ensures ProgressAfter(n * TickMs) == (if (n as real) / 2.0 < 95.0 then (n as real) / 2.0 else 95.0)
    ensures ProgressAfter(n * TickMs) <= ProgressAfter(m * TickMs)
  {
    assert (n * TickMs) as real / 200.0 == (n as real) / 2.0;
    assert (m * TickMs) as real / 200.0 == (m as real) / 2.0;
  }

  /** The message shown for a step; an index outside the table shows
      "Processing...". */
  function StepMessage(step: int): (m: string)
    ensures 0 <= step < |ProgressSteps| ==> m == ProgressSteps[step].0
    ensures !(0 <= step < |ProgressSteps|) ==> m == "Processing..."
  {
    if 0 <= step < |ProgressSteps| then ProgressSteps[step].0 else "Processing..."
  }

  /** What is rendered: the error screen whenever there is an error. */
  datatype View = RetryScreen(message: string) | ProgressScreen(message: string, percent: int)

  function Render(error: Option<string>, step: int, progress: real): (v: View)
    ensures StringTruthy(error) <==> v.RetryScreen?
    ensures v.RetryScreen? ==> v.message == error.value
    ensures v.ProgressScreen? ==> v.message == StepMessage(step) && v.percent == Round(progress)
  {
    if StringTruthy(error) then RetryScreen(error.value)
    else ProgressScreen(StepMessage(step), Round(progress))
  }


  class ProgressAnimation {
    /** The props. */
    var isGenerating: bool
    var error: Option<string>
    /** The rendered state. */
    var currentStep: int
    var progress: real
    /** The closure counters of the running effect. */
    var stepIndex: nat
    var totalElapsed: nat
    /** A pending `advanceStep` timeout, and the running interval. */
    var stepTimerArmed: bool
    var intervalRunning: bool

    predicate Valid()
      reads this
    {
      0 <= currentStep <= LastStep
      && stepIndex <= LastStep
      && 0.0 <= progress <= 100.0
      && (intervalRunning ==> isGenerating)
      && (intervalRunning && totalElapsed > 0 ==> progress == ProgressAfter(totalElapsed))
      && (stepTimerArmed ==> currentStep == stepIndex || !isGenerating)
    }

    /** Mounted with generation not running and no error: the completion
        effect shows the full bar and the last step at once. */
    constructor(generating: bool, err: Option<string>)
      ensures Valid()
      ensures isGenerating == generating && error == err
      ensures generating ==> intervalRunning && stepTimerArmed && currentStep == 0 && progress == 0.0
      ensures !generating ==> !intervalRunning && !stepTimerArmed
      ensures !generating && !StringTruthy(err) ==> progress == 100.0 && currentStep == LastStep
      ensures !generating && StringTruthy(err) ==> progress == 0.0 && currentStep == 0
    {
      isGenerating := generating;
      error := err;
      currentStep := 0;
      progress := 0.0;
      stepIndex := 0;
      totalElapsed := 0;
      stepTimerArmed := false;
      intervalRunning := false;
      if generating {
        currentStep := 0;
        stepTimerArmed := true;
        intervalRunning := true;
      } else if !StringTruthy(err) {
        progress := 100.0;
        currentStep := LastStep;
      }
    }

    /** The parent renders with these props. An effect runs only when one
        of its dependencies changed: a change of `isGenerating` clears the
        old interval (not its pending step timeout), and a start restarts
        both counters and the chain; a change of either prop that leaves
        generation off without an error completes the bar. A render with
        the same props changes nothing. */
    method SetProps(generating: bool, err: Option<string>)
      requires Valid()
      modifies this
      ensures Valid()
      ensures isGenerating == generating && error == err
      ensures generating != old(isGenerating) && generating ==>
        intervalRunning && stepTimerArmed && stepIndex == 0 && totalElapsed == 0 && currentStep == 0
        && progress == old(progress)
      ensures generating != old(isGenerating) && !generating ==> !intervalRunning
      ensures !(generating != old(isGenerating) && generating) ==>
        stepTimerArmed == old(stepTimerArmed) && stepIndex == old(stepIndex) && totalElapsed == old(totalElapsed)
      ensures (generating != old(isGenerating) || err != old(error)) && !generating && !StringTruthy(err) ==>
        progress == 100.0 && currentStep == LastStep
      ensures generating == old(isGenerating) && !(err != old(error) && !generating && !StringTruthy(err)) ==>
        currentStep == old(currentStep) && progress == old(progress)
      ensures generating == old(isGenerating) && err == old(error) ==>
        intervalRunning == old(intervalRunning) && stepTimerArmed == old(stepTimerArmed)
      ensures !generating && !((generating != old(isGenerating) || err != old(error)) && !StringTruthy(err)) ==>
        currentStep == old(currentStep) && progress == old(progress)
    {
      var generationChanged := generating != isGenerating;
      var completionDepsChanged := generationChanged || err != error;
      isGenerating := generating;
      error := err;
      if generationChanged {
        intervalRunning := false;
        if generating {
          stepIndex := 0;
          totalElapsed := 0;
          currentStep := 0;
          stepTimerArmed := true;
          intervalRunning := true;
        }
      }
      if completionDepsChanged && !generating && !StringTruthy(err) {
        progress := 100.0;
        currentStep := LastStep;
      }
    }

    /** The pending `advanceStep` timeout fires: the next step, and another
        timeout, until the last step. Nothing clears this chain, so it also
        runs after generation has ended. */
    method AdvanceStep()
      requires Valid() && stepTimerArmed
      modifies this
      ensures Valid()
      ensures old(stepIndex) < LastStep ==> stepIndex == old(stepIndex) + 1 && currentStep == stepIndex && stepTimerArmed
      ensures old(stepIndex) >= LastStep ==> !stepTimerArmed && stepIndex == old(stepIndex) && currentStep == old(currentStep)
      ensures progress == old(progress) && totalElapsed == old(totalElapsed)
      ensures isGenerating == old(isGenerating) && error == old(error) && intervalRunning == old(intervalRunning)
    {
      if stepIndex < LastStep {
        stepIndex := stepIndex + 1;
        currentStep := stepIndex;
      } else {
        stepTimerArmed := false;
      }
    }

    /** The 100 ms interval fires. */
    method Tick()
      requires Valid() && intervalRunning
      modifies this
      ensures Valid()
      ensures totalElapsed == old(totalElapsed) + TickMs
      ensures progress == ProgressAfter(totalElapsed) && progress <= 95.0
      ensures old(totalElapsed) > 0 ==> progress >= old(progress)
      ensures currentStep == old(currentStep) && stepIndex == old(stepIndex)
      ensures isGenerating == old(isGenerating) && error == old(error) && stepTimerArmed == old(stepTimerArmed)
    {
      totalElapsed := totalElapsed + TickMs;
      progress := ProgressAfter(totalElapsed);
    }
  }

  /**
    The step chain outlives generation: when generation ends early, the
    completion shows the last step, and the next pending timeout sets the
    message back to the chain's own step.
  */
  method CompletionThenLateStep() returns (shownAfterCompletion: int, shownAfterTimeout: int)
    ensures shownAfterCompletion == LastStep
    ensures shownAfterTimeout == 1
  {
    var animation := new ProgressAnimation(true, None);
    animation.SetProps(false, None);
    shownAfterCompletion := animation.currentStep;
    animation.AdvanceStep();
    shownAfterTimeout := animation.currentStep;
  }

  /**
    A parent render with unchanged props runs no effect: after completion
    and a late step timeout, a repeated render keeps the step the timeout
    set.
  */
  method RerenderKeepsLateStep() returns (shownAfterTimeout: int, shownAfterRerender: int)
    ensures shownAfterTimeout == 1
    ensures shownAfterRerender == shownAfterTimeout
  {
    var animation := new ProgressAnimation(true, None);
    animation.SetProps(false, None);
    animation.AdvanceStep();
    shownAfterTimeout := animation.currentStep;
    animation.SetProps(false, None);
    shownAfterRerender := animation.currentStep;
  }
}
