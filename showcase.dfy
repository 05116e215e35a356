/** The figures of the public estimate page (`showcase.tsx`): per-step hour and cost
    ranges, the priced list of optional steps, and the four totals. */
module Showcase {
  import opened Common
  import opened Arithmetic
  import opened StepSchema
  import opened EstimateSchema
  import Utils

  /** A step with its five derived figures; `complexity` replaces the stored one. */
  datatype ComputedStep = ComputedStep(
    step: Step,
    hoursMin: real,
    hoursMax: real,
    costMin: real,
    costMax: real,
    complexity: real)

  function ScaledHours(h: real, multiplier: real): real {
    Round(h * multiplier) as real
  }

  /** Unless the step disables it, the maximum is `Math.round(hoursMin * multiplier)`. */
  lemma HoursMaxRounded(s: Step, rate: real, multiplier: real)
    requires !s.disableRate
    ensures ComputeStep(s, rate, multiplier).hoursMax == Round(Utils.StepHoursMin(s) * multiplier) as real
  {
  }

  /** One entry of `computedSteps`: the minimum hours priced at `rate`, and a maximum
      obtained by the multiplier, rounded, unless the step disables it. */
  function ComputeStep(s: Step, rate: real, multiplier: real): (c: ComputedStep)
    ensures c.step == s && c.hoursMin == Utils.StepHoursMin(s) && c.complexity == Utils.StepComplexity(s)
    ensures c.costMin == c.hoursMin * rate
    ensures s.disableRate ==> c.hoursMax == c.hoursMin && c.costMax == c.costMin
    ensures !s.disableRate ==> c.costMax == c.hoursMax * rate
  {
    var hoursMin := Utils.StepHoursMin(s);
    var hoursMax := if s.disableRate then hoursMin else ScaledHours(hoursMin, multiplier);
    var costMin := hoursMin * rate;
    var costMax := if s.disableRate then costMin else hoursMax * rate;
    ComputedStep(s, hoursMin, hoursMax, costMin, costMax, Utils.StepComplexity(s))
  }

  /** `computedSteps`: one entry per step of the estimate, in order. */
  function ComputedSteps(e: Estimate): (r: seq<ComputedStep>)
    ensures |r| == |e.steps|
    ensures forall i :: 0 <= i < |r| ==> r[i] == ComputeStep(e.steps[i], e.hourlyRate, e.hourMaxMultiplier)
  {
    seq(|e.steps|, i requires 0 <= i < |e.steps| => ComputeStep(e.steps[i], e.hourlyRate, e.hourMaxMultiplier))
  }

  /** An entry of `computedOptions`: here the multiplier always applies. */
  function ComputeOption(s: Step, rate: real, multiplier: real): ComputedStep {
    var hoursMin := Utils.StepHoursMin(s);
    var hoursMax := ScaledHours(hoursMin, multiplier);
    ComputedStep(s, hoursMin, hoursMax, hoursMin * rate, hoursMax * rate, Utils.StepComplexity(s))
  }

  function IsAdditional(s: Step): bool { s.isAdditional }

  /** `computedOptions`: the additional steps, in order, priced with the multiplier. */
  function ComputedOptions(e: Estimate): (r: seq<ComputedStep>)
    ensures |r| == |Filter(e.steps, IsAdditional)|
    ensures forall k :: 0 <= k < |r| ==> r[k].step in e.steps && r[k].step.isAdditional
    ensures forall k :: 0 <= k < |r| ==>
      r[k] == ComputeOption(Filter(e.steps, IsAdditional)[k], e.hourlyRate, e.hourMaxMultiplier)
  {
    var extra := Filter(e.steps, IsAdditional);
    seq(|extra|, k requires 0 <= k < |extra| => ComputeOption(extra[k], e.hourlyRate, e.hourMaxMultiplier))
  }

  /** An option is priced as the same step would be with `disableRate` off: the flag
      is ignored on the options list. */
  lemma OptionIgnoresDisableRate(s: Step, rate: real, multiplier: real)
    ensures var o := ComputeOption(s, rate, multiplier);
      var c := ComputeStep(s.(disableRate := false), rate, multiplier);
      o.hoursMin == c.hoursMin && o.hoursMax == c.hoursMax && o.costMin == c.costMin && o.costMax == c.costMax
  {
    var s' := s.(disableRate := false);
    assert Utils.StepHoursMin(s') == Utils.StepHoursMin(s);
    var o := ComputeOption(s, rate, multiplier);
    var c := ComputeStep(s', rate, multiplier);
    assert o.hoursMin == c.hoursMin;
    assert o.hoursMax == c.hoursMax;
    assert o.costMin == c.costMin;
    assert o.costMax == c.costMax;
  }

  function CostMinOf(c: ComputedStep): real { c.costMin }
  function CostMaxOf(c: ComputedStep): real { c.costMax }
  function HoursMinOf(c: ComputedStep): real { c.hoursMin }
  function HoursMaxOf(c: ComputedStep): real { c.hoursMax }

  datatype Totals = Totals(costMin: real, costMax: real, hoursMin: real, hoursMax: real)

  /** The four `reduce` totals over the computed steps. */
  function TotalsOf(cs: seq<ComputedStep>): Totals {
    Totals(SumOf(cs, CostMinOf), SumOf(cs, CostMaxOf), SumOf(cs, HoursMinOf), SumOf(cs, HoursMaxOf))
  }

  /** The totals shown on the page: all steps count, additional ones included. */
  function ShowcaseTotals(e: Estimate): Totals {
    TotalsOf(ComputedSteps(e))
  }

  // ---------------------------------------------------------------------------
  // Properties of the figures

  /** A step whose sub-steps all take a whole number of hours. */
  predicate WholeHours(s: Step) {
    forall i :: 0 <= i < |s.subSteps| ==> s.subSteps[i].hours == s.subSteps[i].hours.Floor as real
  }

  lemma WholeAdd(a: real, b: real)
    requires a == a.Floor as real && b == b.Floor as real
    ensures a + b == (a + b).Floor as real
  {
    var k := a.Floor + b.Floor;
    assert a + b == k as real;
  }

  lemma {:induction false} WholeSum(xs: seq<Step>)
    requires forall i :: 0 <= i < |xs| ==> xs[i].hours == xs[i].hours.Floor as real
    ensures SumOf(xs, Utils.SubStepHours) == SumOf(xs, Utils.SubStepHours).Floor as real
  {
    if xs != [] {
      var init := xs[..|xs| - 1];
      WholeSum(init);
      WholeAdd(SumOf(init, Utils.SubStepHours), xs[|xs| - 1].hours);
    }
  }

  /** For a valid step with whole sub-step hours, a non-negative rate and a multiplier
      of at least 1, the minimum never exceeds the maximum, in hours or in cost. */
  lemma RangeOrdered(s: Step, rate: real, multiplier: real)
    requires ValidStep(s) && WholeHours(s) && rate >= 0.0 && multiplier >= 1.0
    ensures ComputeStep(s, rate, multiplier).hoursMin <= ComputeStep(s, rate, multiplier).hoursMax
    ensures ComputeStep(s, rate, multiplier).costMin <= ComputeStep(s, rate, multiplier).costMax
  {
    var h := Utils.StepHoursMin(s);
    Utils.StepHoursMinNonNegative(s);
    if !s.disableRate {
      WholeStepHours(s);
      RoundedScaleAtLeast(h.Floor, multiplier);
      ScaleMonotone(rate, h, ScaledHours(h, multiplier));
    }
  }

  lemma WholeStepHours(s: Step)
    requires WholeHours(s)
    ensures Utils.StepHoursMin(s) == Utils.StepHoursMin(s).Floor as real
  {
    if |s.subSteps| > 0 {
      WholeSum(s.subSteps);
    }
  }

  /** Scaling a whole, non-negative number of hours up and rounding never goes below it. */
  lemma RoundedScaleAtLeast(k: int, multiplier: real)
    requires k >= 0 && multiplier >= 1.0
    ensures ScaledHours(k as real, multiplier) >= k as real
  {
    RoundScaledAtLeast(k, multiplier);
  }

  /** Without whole hours the rounding can put the maximum below the minimum: a single
      sub-step of 0.4 hours with a multiplier of 1 gives the range [0.4, 0]. */
  lemma FractionalHoursBreakRange(s: Step, rate: real)
    requires !s.disableRate && |s.subSteps| == 1 && s.subSteps[0].hours == 0.4
    ensures ComputeStep(s, rate, 1.0).hoursMax == 0.0 < ComputeStep(s, rate, 1.0).hoursMin
  {
    assert s.subSteps[..0] == [];
    assert SumOf(s.subSteps, Utils.SubStepHours)
        == SumOf(s.subSteps[..0], Utils.SubStepHours) + Utils.SubStepHours(s.subSteps[0]);
    assert Utils.StepHoursMin(s) == 0.4;
    assert Round(0.4 * 1.0) == 0;
  }

  /** A higher rate never lowers the minimum cost. */
  lemma CostMinMonotone(s: Step, rate1: real, rate2: real, multiplier: real)
    requires ValidStep(s) && rate1 <= rate2
    ensures ComputeStep(s, rate1, multiplier).costMin <= ComputeStep(s, rate2, multiplier).costMin
  {
    var c1 := ComputeStep(s, rate1, multiplier);
    var c2 := ComputeStep(s, rate2, multiplier);
    Utils.StepHoursMinNonNegative(s);
    ScaleMonotone(c1.hoursMin, rate1, rate2);
    assert c1.costMin == c1.hoursMin * rate1 && c2.costMin == c1.hoursMin * rate2;
  }

  /** A higher multiplier never lowers the maximum hours. */
  lemma HoursMaxMonotone(s: Step, rate: real, multiplier1: real, multiplier2: real)
    requires ValidStep(s) && multiplier1 <= multiplier2
    ensures ComputeStep(s, rate, multiplier1).hoursMax <= ComputeStep(s, rate, multiplier2).hoursMax
  {
    Utils.StepHoursMinNonNegative(s);
    ScaledHoursMonotone(Utils.StepHoursMin(s), multiplier1, multiplier2);
  }

  lemma ScaledHoursMonotone(h: real, multiplier1: real, multiplier2: real)
    requires h >= 0.0 && multiplier1 <= multiplier2
    ensures ScaledHours(h, multiplier1) <= ScaledHours(h, multiplier2)
  {
    ScaleMonotone(h, multiplier1, multiplier2);
    RoundMonotone(h * multiplier1, h * multiplier2);
  }

  lemma ScaledHoursNonNegative(h: real, multiplier: real)
    requires h >= 0.0 && multiplier >= 0.0
    ensures ScaledHours(h, multiplier) >= 0.0
  {
    ProductNonNegative(h, multiplier);
    RoundAtLeastInt(h * multiplier, 0);
  }

  /** A higher rate never lowers the maximum cost. */
  lemma CostMaxMonotone(s: Step, rate1: real, rate2: real, multiplier: real)
    requires ValidStep(s) && rate1 <= rate2 && multiplier >= 0.0
    ensures ComputeStep(s, rate1, multiplier).costMax <= ComputeStep(s, rate2, multiplier).costMax
  {
    var c1 := ComputeStep(s, rate1, multiplier);
    var c2 := ComputeStep(s, rate2, multiplier);
    Utils.StepHoursMinNonNegative(s);
    if !s.disableRate {
      ScaledHoursNonNegative(Utils.StepHoursMin(s), multiplier);
    }
    assert c1.hoursMax == c2.hoursMax && c1.hoursMax >= 0.0;
    ScaleMonotone(c1.hoursMax, rate1, rate2);
    assert c1.costMax == c1.hoursMax * rate1 && c2.costMax == c2.hoursMax * rate2;
  }

  /** An estimate whose steps all disable the multiplier has equal minimum and maximum
      totals. */
  lemma {:induction false} AllDisabledTotalsPinned(e: Estimate)
    requires forall i :: 0 <= i < |e.steps| ==> e.steps[i].disableRate
    ensures ShowcaseTotals(e).hoursMin == ShowcaseTotals(e).hoursMax
    ensures ShowcaseTotals(e).costMin == ShowcaseTotals(e).costMax
  {
    var cs := ComputedSteps(e);
    SumOfMonotone(cs, HoursMinOf, HoursMaxOf);
    SumOfMonotone(cs, HoursMaxOf, HoursMinOf);
    SumOfMonotone(cs, CostMinOf, CostMaxOf);
    SumOfMonotone(cs, CostMaxOf, CostMinOf);
  }

  /** Every step counts towards the totals, additional or not: appending a step adds
      exactly its figures. */
  lemma {:induction false} AppendedStepCounts(e: Estimate, s: Step)
    ensures var c := ComputeStep(s, e.hourlyRate, e.hourMaxMultiplier);
      var before := ShowcaseTotals(e);
      var after := ShowcaseTotals(e.(steps := e.steps + [s]));
      && after.costMin == before.costMin + c.costMin
      && after.costMax == before.costMax + c.costMax
      && after.hoursMin == before.hoursMin + c.hoursMin
      && after.hoursMax == before.hoursMax + c.hoursMax
  {
    var c := ComputeStep(s, e.hourlyRate, e.hourMaxMultiplier);
    var cs := ComputedSteps(e);
    assert ComputedSteps(e.(steps := e.steps + [s])) == cs + [c];
    SumOfAppend(cs, [c], CostMinOf);
    SumOfAppend(cs, [c], CostMaxOf);
    SumOfAppend(cs, [c], HoursMinOf);
    SumOfAppend(cs, [c], HoursMaxOf);
  }

  /** An estimate without steps has all-zero totals. */
  lemma NoStepsZeroTotals(e: Estimate)
    requires e.steps == []
    ensures ShowcaseTotals(e) == Totals(0.0, 0.0, 0.0, 0.0)
  {
  }

  /** The options list keeps the order of the steps: options of two concatenated step
      lists are the options of the first followed by those of the second. */
  lemma {:induction false} OptionsKeepOrder(e: Estimate, more: seq<Step>)
    ensures ComputedOptions(e.(steps := e.steps + more))
         == ComputedOptions(e) + ComputedOptions(e.(steps := more))
  {
    var whole := ComputedOptions(e.(steps := e.steps + more));
    var head := ComputedOptions(e);
    var tail := ComputedOptions(e.(steps := more));
    FilterAppend(e.steps, more, IsAdditional);
    assert |whole| == |head| + |tail|;
    forall k | 0 <= k < |whole|
      ensures whole[k] == (head + tail)[k]
    {
      if k < |head| {
        assert whole[k] == head[k];
      } else {
        assert whole[k] == tail[k - |head|];
      }
    }
    assert whole == head + tail;
  }

  /** The worked example: 10 and 20 hours at 100 per hour with a multiplier of 1.2. */
  lemma {:induction false} TwoStepExample(e: Estimate)
    requires e.hourlyRate == 100.0 && e.hourMaxMultiplier == 1.2 && |e.steps| == 2
    requires !e.steps[0].disableRate && !e.steps[1].disableRate
    requires Utils.StepHoursMin(e.steps[0]) == 10.0 && Utils.StepHoursMin(e.steps[1]) == 20.0
    ensures ShowcaseTotals(e).costMin == 3000.0 && ShowcaseTotals(e).costMax == 3600.0
  {
    var cs := ComputedSteps(e);
    assert Round(12.0) == 12 && Round(24.0) == 24;
    assert cs[..1][..0] == cs[..0] == [] && cs[..|cs| - 1] == cs[..1];
    assert cs[0].costMin == 1000.0 && cs[1].costMin == 2000.0;
    assert cs[0].costMax == 1200.0 && cs[1].costMax == 2400.0;
    assert SumOf(cs[..1], CostMinOf) == SumOf(cs[..0], CostMinOf) + CostMinOf(cs[0]);
    assert SumOf(cs[..1], CostMaxOf) == SumOf(cs[..0], CostMaxOf) + CostMaxOf(cs[0]);
    assert SumOf(cs, CostMinOf) == SumOf(cs[..1], CostMinOf) + CostMinOf(cs[1]);
    assert SumOf(cs, CostMaxOf) == SumOf(cs[..1], CostMaxOf) + CostMaxOf(cs[1]);
  }
}
