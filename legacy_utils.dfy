/** The older helpers of `src/utils.ts`, written against the legacy step type of
    `src/config.ts`, whose sub-steps carry a French complexity label scored 1/3/7. */
module LegacyUtils {
  import opened Common

  datatype LegacyComplexity = Faible | Moyenne | Elevee

  /** `COMPLEXITY_SCORE`. */
  function ComplexityScore(c: LegacyComplexity): real {
    match c
    case Faible => 1.0
    case Moyenne => 3.0
    case Elevee => 7.0
  }

  datatype LegacySubStep = LegacySubStep(title: string, hours: real, complexity: LegacyComplexity, description: string)

  function SubStepHours(s: LegacySubStep): real { s.hours }

  function SubStepScore(s: LegacySubStep): real { ComplexityScore(s.complexity) }

  /** The legacy step: own hours and complexity are optional, sub-steps may be absent
      (an absent list behaves as an empty one). */
  datatype LegacyStep = LegacyStep(
    id: int,
    name: string,
    hours: Option<real>,
    complexity: Option<real>,
    color: string,
    subSteps: seq<LegacySubStep>,
    disableMaxMultiplier: Option<bool>)

  /** `getStepHoursMin`: the sub-steps' hours, or the step's own hours (0 when absent). */
  function StepHoursMin(step: LegacyStep): real {
    if |step.subSteps| > 0 then SumOf(step.subSteps, SubStepHours)
    else step.hours.GetOr(0.0)
  }

  /** `getStepComplexity`: the mean score of the sub-steps, or the step's own
      complexity (0 when absent). */
  function StepComplexity(step: LegacyStep): real {
    if |step.subSteps| > 0 then
      SumOf(step.subSteps, SubStepScore) / |step.subSteps| as real
    else step.complexity.GetOr(0.0)
  }

  /** With sub-steps the legacy complexity lies in [1, 7]. */
  lemma {:induction false} StepComplexityBounds(step: LegacyStep)
    requires |step.subSteps| > 0
    ensures 1.0 <= StepComplexity(step) <= 7.0
  {
    var n := |step.subSteps|;
    var total := SumOf(step.subSteps, SubStepScore);
    ScoreSumBounds(step.subSteps);
    MeanBounds(total, n as real, 1.0, 7.0);
  }

  lemma {:induction false} ScoreSumBounds(subs: seq<LegacySubStep>)
    ensures |subs| as real <= SumOf(subs, SubStepScore) <= 7.0 * |subs| as real
  {
    if subs != [] {
      ScoreSumBounds(subs[..|subs| - 1]);
    }
  }

  /** Non-negative sub-step hours (or own hours) give non-negative step hours. */
  lemma {:induction false} StepHoursMinNonNegative(step: LegacyStep)
    requires forall i :: 0 <= i < |step.subSteps| ==> step.subSteps[i].hours >= 0.0
    requires step.hours.None? || step.hours.value >= 0.0
    ensures StepHoursMin(step) >= 0.0
  {
    if |step.subSteps| > 0 {
      SumOfNonNegative(step.subSteps, SubStepHours);
    }
  }
}
