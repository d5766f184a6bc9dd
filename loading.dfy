/** The step list of the loading screen (src/components/LoadingScreen.tsx): which of
    the five steps is current for a given progress, and which are completed. */
module Loading {
  import opened Js

  /** The five step titles, in order. */
  const Steps: seq<string> := ["Document Processing", "Startup Profile", "Market Analysis",
                               "Sentiment Analysis", "Report Generation"]

  /** Line 55: `Math.min(Math.floor(progress / 20), steps.length - 1)`. */
  function CurrentStep(progress: real): (step: int)
    ensures step <= |Steps| - 1
    ensures progress >= 0.0 ==> 0 <= step
    ensures step < |Steps| - 1 ==> 20.0 * step as real <= progress < 20.0 * (step + 1) as real
    ensures step == |Steps| - 1 ==> progress >= 80.0
  {
    Min((progress / 20.0).Floor, |Steps| - 1)
  }

  /** Higher progress never moves the list back to an earlier step. */
  lemma CurrentStepMonotone(p: real, q: real)
    requires p <= q
    ensures CurrentStep(p) <= CurrentStep(q)
  {
    assert (p / 20.0) <= (q / 20.0);
  }

  /** The first fifth of the bar is the first step; from 80 on, including 100, the last. */
  lemma StepBoundaries(p: real)
    ensures 0.0 <= p < 20.0 ==> CurrentStep(p) == 0
    ensures p >= 80.0 ==> CurrentStep(p) == 4
    ensures CurrentStep(100.0) == 4
  {
  }

  /** Lines 85-86. */
  predicate IsActive(idx: int, progress: real) {
    idx == CurrentStep(progress)
  }

  predicate IsCompleted(idx: int, progress: real) {
    idx < CurrentStep(progress)
  }

  /** For any non-negative progress exactly one of the five steps is active, the
      completed ones are exactly those before it, and none is both. */
  lemma ExactlyOneActive(progress: real)
    requires progress >= 0.0
    ensures exists i :: 0 <= i < |Steps| && IsActive(i, progress)
    ensures forall i, j :: 0 <= i < |Steps| && 0 <= j < |Steps| && IsActive(i, progress) && IsActive(j, progress) ==> i == j
    ensures forall i :: 0 <= i < |Steps| ==> !(IsActive(i, progress) && IsCompleted(i, progress))
  {
    assert IsActive(CurrentStep(progress), progress);
  }

  /** A negative progress, which the upload page never sets, would leave no step active. */
  lemma NegativeProgressHasNoActiveStep(progress: real)
    requires progress < 0.0
    ensures forall i :: 0 <= i < |Steps| ==> !IsActive(i, progress) && !IsCompleted(i, progress)
  {
  }
}
