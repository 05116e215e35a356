/** The budget pie of the public page (`costs.tsx`): one slice per step, valued at the
    rounded midpoint of its cost range, and the percentage its tooltip shows. */
module Costs {
  import opened Common
  import opened Showcase

  datatype PieEntry = PieEntry(name: string, value: int, color: string)

  /** `Math.round((costMin + costMax) / 2)`. */
  function PieValue(c: ComputedStep): int {
    Round((c.costMin + c.costMax) / 2.0)
  }

  /** `pieData`: one slice per computed step, in order, with the step's name and color. */
  function PieData(cs: seq<ComputedStep>): (pie: seq<PieEntry>)
    ensures |pie| == |cs|
    ensures forall i :: 0 <= i < |cs| ==>
      pie[i].name == cs[i].step.name && pie[i].color == cs[i].step.color && pie[i].value == PieValue(cs[i])
  {
    seq(|cs|, i requires 0 <= i < |cs| => PieEntry(cs[i].step.name, PieValue(cs[i]), cs[i].step.color))
  }

  function EntryValue(d: PieEntry): real { d.value as real }

  /** `pieTotal`: the sum of the slice values. */
  function PieTotal(pie: seq<PieEntry>): real {
    SumOf(pie, EntryValue)
  }

  /** The tooltip percentage: `Math.round(v / pieTotal * 100)`, or 0 when the total is not
      positive, so there is never a division by zero. */
  function TooltipPercent(v: real, pieTotal: real): (pct: int)
    ensures pieTotal <= 0.0 ==> pct == 0
    ensures pieTotal > 0.0 ==> pct as real - 0.5 <= v / pieTotal * 100.0 < pct as real + 0.5
  {
    if pieTotal > 0.0 then Round(v / pieTotal * 100.0) else 0
  }

  /** A value between 0 and the total gets a percentage between 0 and 100. */
  lemma TooltipPercentRange(v: real, pieTotal: real)
    requires 0.0 <= v <= pieTotal
    ensures 0 <= TooltipPercent(v, pieTotal) <= 100
  {
    if pieTotal > 0.0 {
      MeanBounds(v, pieTotal, 0.0, 1.0);
      var x := v / pieTotal * 100.0;
      RoundMonotone(0.0, x);
      RoundMonotone(x, 100.0);
      RoundOfInt(0);
      RoundOfInt(100);
    }
  }

  /** A slice is valued between its rounded minimum and maximum cost. */
  lemma PieValueWithinRange(c: ComputedStep)
    requires c.costMin <= c.costMax
    ensures Round(c.costMin) <= PieValue(c) <= Round(c.costMax)
  {
    RoundMonotone(c.costMin, (c.costMin + c.costMax) / 2.0);
    RoundMonotone((c.costMin + c.costMax) / 2.0, c.costMax);
  }

  /** With non-negative costs every slice's tooltip shows a percentage between 0 and 100. */
  lemma SliceShareInRange(cs: seq<ComputedStep>, i: nat)
    requires i < |cs|
    requires forall k :: 0 <= k < |cs| ==> cs[k].costMin >= 0.0 && cs[k].costMax >= 0.0
    ensures 0 <= TooltipPercent(PieData(cs)[i].value as real, PieTotal(PieData(cs))) <= 100
  {
    var pie := PieData(cs);
    forall k | 0 <= k < |pie|
      ensures EntryValue(pie[k]) >= 0.0
    {
      RoundMonotone(0.0, (cs[k].costMin + cs[k].costMax) / 2.0);
      RoundOfInt(0);
    }
    SumOfBoundsTerm(pie, EntryValue, i);
    TooltipPercentRange(pie[i].value as real, PieTotal(pie));
  }
}
