/** The estimate card of the estimates list (`card.tsx`): the same per-step figures as
    the public page, folded into four totals. */
module Card {
  import opened Common
  import opened StepSchema
  import opened EstimateSchema
  import Utils
  import Showcase

  /** The four figures the card derives from one step, in the order the card sums them. */
  function CardFigures(s: Step, rate: real, multiplier: real): (t: Showcase.Totals)
    ensures t.hoursMin == Utils.StepHoursMin(s) && t.costMin == t.hoursMin * rate
    ensures s.disableRate ==> t.hoursMax == t.hoursMin && t.costMax == t.costMin
    ensures !s.disableRate ==> t.costMax == t.hoursMax * rate
  {
    var hoursMin := Utils.StepHoursMin(s);
    var hoursMax := if s.disableRate then hoursMin else Showcase.ScaledHours(hoursMin, multiplier);
    var costMin := hoursMin * rate;
    Showcase.Totals(costMin, if s.disableRate then costMin else hoursMax * rate, hoursMin, hoursMax)
  }

  function AddTotals(a: Showcase.Totals, b: Showcase.Totals): Showcase.Totals {
    Showcase.Totals(a.costMin + b.costMin, a.costMax + b.costMax, a.hoursMin + b.hoursMin, a.hoursMax + b.hoursMax)
  }

  /** The four `reduce` folds of the card, each starting from 0, over the given steps. */
  function CardTotalsOf(steps: seq<Step>, rate: real, multiplier: real): (t: Showcase.Totals)
    ensures steps == [] ==> t == Showcase.Totals(0.0, 0.0, 0.0, 0.0)
  {
    if steps == [] then Showcase.Totals(0.0, 0.0, 0.0, 0.0)
    else AddTotals(CardTotalsOf(steps[..|steps| - 1], rate, multiplier),
                   CardFigures(steps[|steps| - 1], rate, multiplier))
  }

  function CardTotals(e: Estimate): Showcase.Totals {
    CardTotalsOf(e.steps, e.hourlyRate, e.hourMaxMultiplier)
  }

  /** One step's figures on the card are the public page's figures for that step. */
  lemma FiguresAgree(s: Step, rate: real, multiplier: real)
    ensures var c := Showcase.ComputeStep(s, rate, multiplier);
      CardFigures(s, rate, multiplier) == Showcase.Totals(c.costMin, c.costMax, c.hoursMin, c.hoursMax)
  {
  }

  /** The card and the public page show the same four totals for the same estimate. */
  lemma {:induction false} CardMatchesShowcase(e: Estimate)
    ensures CardTotals(e) == Showcase.ShowcaseTotals(e)
    decreases |e.steps|
  {
    if e.steps != [] {
      var n := |e.steps|;
      var init := e.(steps := e.steps[..n - 1]);
      CardMatchesShowcase(init);
      assert e.steps == init.steps + [e.steps[n - 1]];
      Showcase.AppendedStepCounts(init, e.steps[n - 1]);
      FiguresAgree(e.steps[n - 1], e.hourlyRate, e.hourMaxMultiplier);
    }
  }

  /** When every step disables the multiplier, the card's ranges collapse to one value. */
  lemma AllDisabledCardPinned(e: Estimate)
    requires forall i :: 0 <= i < |e.steps| ==> e.steps[i].disableRate
    ensures CardTotals(e).hoursMin == CardTotals(e).hoursMax
    ensures CardTotals(e).costMin == CardTotals(e).costMax
  {
    CardMatchesShowcase(e);
    Showcase.AllDisabledTotalsPinned(e);
  }
}
