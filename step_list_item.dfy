/** The figures of one row of the step list in the editor (`step-list-item.tsx`): the
    step's hours and an unrounded cost range. */
module StepListItem {
  import opened Common
  import opened Arithmetic
  import opened StepSchema
  import Utils
  import Showcase

  /** `stepHours`: the sub-steps' hours summed, 0 without sub-steps. */
  function StepHours(s: Step): (h: real)
    ensures h == Utils.StepHoursMin(s)
  {
    SumOf(s.subSteps, Utils.SubStepHours)
  }

  datatype CostRange = CostRange(low: real, high: real)

  /** `stepCost`: the hours priced at the rate, and, unless the step disables it, the
      same price scaled by the multiplier without rounding. */
  function StepCost(s: Step, rate: real, multiplier: real): (r: CostRange)
    ensures r.low == StepHours(s) * rate
    ensures s.disableRate ==> r.high == r.low
  {
    var low := StepHours(s) * rate;
    if s.disableRate then CostRange(low, low) else CostRange(low, low * multiplier)
  }

  /** The hours shown: `stepHours`, and `stepHours * multiplier` as the upper end unless
      the step disables it. */
  function DisplayedHours(s: Step, multiplier: real): (r: (real, Option<real>))
    ensures r.0 == Utils.StepHoursMin(s)
    ensures r.1.Some? <==> !s.disableRate
  {
    (StepHours(s), if s.disableRate then None else Some(StepHours(s) * multiplier))
  }

  /** With a non-negative rate and a multiplier of at least 1 the cost range is ordered. */
  lemma CostBoundsOrdered(s: Step, rate: real, multiplier: real)
    requires ValidStep(s) && rate >= 0.0 && multiplier >= 1.0
    ensures StepCost(s, rate, multiplier).low <= StepCost(s, rate, multiplier).high
  {
    Utils.StepHoursMinNonNegative(s);
    ProductNonNegative(StepHours(s), rate);
    ScaleAtLeast(StepHours(s) * rate, multiplier);
  }

  /** The editor's upper cost bound, written as hours scaled first and priced after. */
  lemma EditorHigh(s: Step, rate: real, multiplier: real)
    requires !s.disableRate
    ensures StepCost(s, rate, multiplier).high == (Utils.StepHoursMin(s) * multiplier) * rate
  {
    assert StepHours(s) == Utils.StepHoursMin(s);
  }

  lemma PageHigh(s: Step, rate: real, multiplier: real)
    requires !s.disableRate
    ensures Showcase.ComputeStep(s, rate, multiplier).costMax == Round(Utils.StepHoursMin(s) * multiplier) as real * rate
  {
  }

  /** The editor's upper hours, unrounded. */
  lemma DisplayedHigh(s: Step, multiplier: real)
    requires !s.disableRate
    ensures DisplayedHours(s, multiplier).1.Some?
    ensures DisplayedHours(s, multiplier).1.value == Utils.StepHoursMin(s) * multiplier
  {
    SameProduct(StepHours(s), Utils.StepHoursMin(s), multiplier);
  }

  /** The editor's upper hours differ from the public page's only by the rounding: by at
      most half an hour. */
  lemma UpperHoursWithinHalfHour(s: Step, rate: real, multiplier: real)
    requires !s.disableRate
    ensures var page := Showcase.ComputeStep(s, rate, multiplier).hoursMax;
      var editor := DisplayedHours(s, multiplier).1.value;
      editor - 0.5 < page <= editor + 0.5
  {
    DisplayedHigh(s, multiplier);
    Showcase.HoursMaxRounded(s, rate, multiplier);
  }

  /** When the scaled hours are whole, the editor and the public page show the same
      maximum, in hours and in cost. */
  lemma AgreesWithShowcaseWhenWhole(s: Step, rate: real, multiplier: real)
    requires !s.disableRate
    requires Utils.StepHoursMin(s) * multiplier == (Utils.StepHoursMin(s) * multiplier).Floor as real
    ensures DisplayedHours(s, multiplier).1.Some?
    ensures DisplayedHours(s, multiplier).1.value == Showcase.ComputeStep(s, rate, multiplier).hoursMax
    ensures StepCost(s, rate, multiplier).high == Showcase.ComputeStep(s, rate, multiplier).costMax
  {
    RoundWhole(Utils.StepHoursMin(s) * multiplier);
    DisplayedHigh(s, multiplier);
    Showcase.HoursMaxRounded(s, rate, multiplier);
    EditorHigh(s, rate, multiplier);
    PageHigh(s, rate, multiplier);
    SameProduct(Round(Utils.StepHoursMin(s) * multiplier) as real, Utils.StepHoursMin(s) * multiplier, rate);
  }
}
