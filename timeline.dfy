/** The timeline section (`timeline.tsx`): the month-by-month cost projection with its
    running totals, and the greedy allocation of the steps' hours to the months of the
    selected schedule. */
module Timeline {
  import opened Common
  import opened Arithmetic
  import opened ScheduleSchema

  /** The part of a computed step the timeline reads. */
  datatype AllocationStep = AllocationStep(id: Option<string>, name: string, color: string, hoursMin: real)

  /** `total * (percent / 100)`: the part of a total that one month receives. */
  function MonthShare(total: real, e: RepartitionEntry): real {
    total * (e.percent / 100.0)
  }

  /** `Math.round(total * (percent / 100))`. */
  function MonthAmount(total: real, e: RepartitionEntry): int {
    Round(MonthShare(total, e))
  }

  /** The monthly amounts of the given months added up. */
  function RunningAmount(total: real, reps: seq<RepartitionEntry>): int {
    if reps == [] then 0 else RunningAmount(total, reps[..|reps| - 1]) + MonthAmount(total, reps[|reps| - 1])
  }

  /** One bar of the monthly chart: the month number (the label is `"Mois " + month`),
      the month's rounded minimum and maximum, and their running totals. */
  datatype MonthCost = MonthCost(month: real, min: int, max: int, cumMin: int, cumMax: int)

  /** The bar of month `i`: its rounded amounts and the amounts of months `0..i` added up. */
  function CostAt(repartition: seq<RepartitionEntry>, totalCostMin: real, totalCostMax: real, i: nat): MonthCost
    requires i < |repartition|
  {
    MonthCost(repartition[i].month,
              MonthAmount(totalCostMin, repartition[i]), MonthAmount(totalCostMax, repartition[i]),
              RunningAmount(totalCostMin, repartition[..i + 1]), RunningAmount(totalCostMax, repartition[..i + 1]))
  }

  /** The running totals start at the first month's amounts, each one adds the month's
      amounts to the previous, and the last one is the sum over the whole schedule. */
  lemma RunningTotals(repartition: seq<RepartitionEntry>, totalCostMin: real, totalCostMax: real, i: nat)
    requires i < |repartition|
    ensures var c := CostAt(repartition, totalCostMin, totalCostMax, i);
      if i == 0 then c.cumMin == c.min && c.cumMax == c.max
      else
        && c.cumMin == CostAt(repartition, totalCostMin, totalCostMax, i - 1).cumMin + c.min
        && c.cumMax == CostAt(repartition, totalCostMin, totalCostMax, i - 1).cumMax + c.max
    ensures i == |repartition| - 1 ==>
      CostAt(repartition, totalCostMin, totalCostMax, i).cumMin == RunningAmount(totalCostMin, repartition) &&
      CostAt(repartition, totalCostMin, totalCostMax, i).cumMax == RunningAmount(totalCostMax, repartition)
  {
    var prefix := repartition[..i + 1];
    assert prefix[..i] == repartition[..i] && prefix[i] == repartition[i];
    assert RunningAmount(totalCostMin, prefix) == RunningAmount(totalCostMin, prefix[..i]) + MonthAmount(totalCostMin, repartition[i]);
    assert RunningAmount(totalCostMax, prefix) == RunningAmount(totalCostMax, prefix[..i]) + MonthAmount(totalCostMax, repartition[i]);
    if i == |repartition| - 1 {
      assert repartition[..i + 1] == repartition;
    }
  }

  /** `monthlyCostData`: one entry per repartition entry, in schedule order, with the
      running sums `runningMin` and `runningMax` carried from month to month. */
  method MonthlyCostData(repartition: seq<RepartitionEntry>, totalCostMin: real, totalCostMax: real)
    returns (data: seq<MonthCost>)
    ensures |data| == |repartition|
    ensures forall i :: 0 <= i < |data| ==> data[i] == CostAt(repartition, totalCostMin, totalCostMax, i)
  {
    var runningMin := 0;
    var runningMax := 0;
    data := [];
    for i := 0 to |repartition|
      invariant |data| == i
      invariant runningMin == RunningAmount(totalCostMin, repartition[..i])
      invariant runningMax == RunningAmount(totalCostMax, repartition[..i])
      invariant forall k :: 0 <= k < i ==> data[k] == CostAt(repartition, totalCostMin, totalCostMax, k)
    {
      var min := MonthAmount(totalCostMin, repartition[i]);
      var max := MonthAmount(totalCostMax, repartition[i]);
      runningMin := runningMin + min;
      runningMax := runningMax + max;
      assert repartition[..i + 1][..i] == repartition[..i];
      data := data + [MonthCost(repartition[i].month, min, max, runningMin, runningMax)];
    }
  }

  /** With a non-negative total and percent, a month's amount is not negative. */
  lemma MonthAmountNonNegative(total: real, e: RepartitionEntry)
    requires total >= 0.0 && e.percent >= 0.0
    ensures MonthAmount(total, e) >= 0
  {
    ProductNonNegative(total, e.percent / 100.0);
    RoundAtLeastInt(MonthShare(total, e), 0);
  }

  /** A larger total gives every month at least as large an amount. */
  lemma MonthAmountMonotone(low: real, high: real, e: RepartitionEntry)
    requires low <= high && e.percent >= 0.0
    ensures MonthAmount(low, e) <= MonthAmount(high, e)
  {
    FactorMonotone(low, high, e.percent / 100.0);
    RoundMonotone(MonthShare(low, e), MonthShare(high, e));
  }

  /** With non-negative percents and total, the running total never decreases from one
      month to a later one. */
  lemma {:induction false} RunningAmountNondecreasing(total: real, reps: seq<RepartitionEntry>, i: nat, j: nat)
    requires total >= 0.0 && i <= j <= |reps|
    requires forall k :: 0 <= k < |reps| ==> reps[k].percent >= 0.0
    ensures RunningAmount(total, reps[..i]) <= RunningAmount(total, reps[..j])
    decreases j
  {
    if i < j {
      RunningAmountNondecreasing(total, reps, i, j - 1);
      assert reps[..j][..j - 1] == reps[..j - 1];
      MonthAmountNonNegative(total, reps[j - 1]);
    }
  }

  /** With non-negative percents and a minimum cost at most the maximum, every running
      minimum stays at or below the running maximum of the same month. */
  lemma {:induction false} RunningMinAtMostMax(totalCostMin: real, totalCostMax: real, reps: seq<RepartitionEntry>)
    requires totalCostMin <= totalCostMax
    requires forall k :: 0 <= k < |reps| ==> reps[k].percent >= 0.0
    ensures RunningAmount(totalCostMin, reps) <= RunningAmount(totalCostMax, reps)
  {
    if reps != [] {
      RunningMinAtMostMax(totalCostMin, totalCostMax, reps[..|reps| - 1]);
      MonthAmountMonotone(totalCostMin, totalCostMax, reps[|reps| - 1]);
    }
  }

  /** `Math.max(0, Math.round(totalHoursMin * (percent / 100)))`: a month's hour budget. */
  function Capacity(totalHoursMin: real, e: RepartitionEntry): (c: int)
    ensures c >= 0
    ensures c >= MonthAmount(totalHoursMin, e)
    ensures c == 0 || c == MonthAmount(totalHoursMin, e)
  {
    MaxInt(0, MonthAmount(totalHoursMin, e))
  }

  /** Without hours to plan, or in a month with a 0 percent share, the budget is 0. */
  lemma ZeroCapacity(totalHoursMin: real, e: RepartitionEntry)
    requires totalHoursMin == 0.0 || e.percent == 0.0
    ensures Capacity(totalHoursMin, e) == 0
  {
    assert MonthShare(totalHoursMin, e) == 0.0;
    RoundOfInt(0);
  }

  /** `cur.id ?? ""`: the id a month lists for a step. */
  function Key(s: AllocationStep): string {
    s.id.GetOr("")
  }

  predicate NoDuplicates(ids: seq<string>) {
    forall a, b :: 0 <= a < b < |ids| ==> ids[a] != ids[b]
  }

  predicate InRange(steps: seq<AllocationStep>, listed: seq<nat>) {
    forall k :: 0 <= k < |listed| ==> listed[k] < |steps|
  }

  /** `if (!stepIds.includes(id)) stepIds.push(id)`. */
  function AddId(ids: seq<string>, id: string): seq<string> {
    if id in ids then ids else ids + [id]
  }

  /** The ids a month lists after visiting the steps at the indices `listed`, in that
      order: each visit pushes the step's id unless the list already holds it. */
  function IdsOf(steps: seq<AllocationStep>, listed: seq<nat>): seq<string>
    requires InRange(steps, listed)
  {
    if listed == [] then [] else AddId(IdsOf(steps, listed[..|listed| - 1]), Key(steps[listed[|listed| - 1]]))
  }

  /** A month never lists the same id twice. */
  lemma {:induction false} IdsOfNoDuplicates(steps: seq<AllocationStep>, listed: seq<nat>)
    requires InRange(steps, listed)
    ensures NoDuplicates(IdsOf(steps, listed))
  {
    if listed != [] {
      IdsOfNoDuplicates(steps, listed[..|listed| - 1]);
    }
  }

  /** Visiting one more step pushes its id unless the list already holds it. */
  lemma IdsOfPush(steps: seq<AllocationStep>, listed: seq<nat>, j: nat)
    requires InRange(steps, listed) && j < |steps|
    ensures InRange(steps, listed + [j])
    ensures IdsOf(steps, listed + [j]) == AddId(IdsOf(steps, listed), Key(steps[j]))
  {
    assert (listed + [j])[..|listed|] == listed;
  }

  /** A month lists exactly the ids of the steps it visited. */
  lemma {:induction false} IdsOfMembers(steps: seq<AllocationStep>, listed: seq<nat>, id: string)
    requires InRange(steps, listed)
    ensures id in IdsOf(steps, listed) <==> exists k :: 0 <= k < |listed| && Key(steps[listed[k]]) == id
  {
    if listed != [] {
      var init := listed[..|listed| - 1];
      IdsOfMembers(steps, init, id);
      if exists k :: 0 <= k < |init| && Key(steps[init[k]]) == id {
        var k :| 0 <= k < |init| && Key(steps[init[k]]) == id;
        assert listed[k] == init[k];
      }
      if exists k :: 0 <= k < |listed| && Key(steps[listed[k]]) == id {
        var k :| 0 <= k < |listed| && Key(steps[listed[k]]) == id;
        if k < |init| {
          assert init[k] == listed[k];
        }
      }
    }
  }

  /** The hours the queue of `{id, remaining}` records starts from, one per step. */
  function Hours(steps: seq<AllocationStep>): (hs: seq<real>)
    ensures |hs| == |steps| && forall i :: 0 <= i < |steps| ==> hs[i] == steps[i].hoursMin
  {
    seq(|steps|, i requires 0 <= i < |steps| => steps[i].hoursMin)
  }

  /** Hours added up from the first to the last. */
  function Total(xs: seq<real>): real {
    if xs == [] then 0.0 else Total(xs[..|xs| - 1]) + xs[|xs| - 1]
  }

  /** Only the positive hours added up. */
  function PositiveTotal(xs: seq<real>): real {
    if xs == [] then 0.0 else PositiveTotal(xs[..|xs| - 1]) + (if xs[|xs| - 1] > 0.0 then xs[|xs| - 1] else 0.0)
  }

  /** Replacing one entry changes the total by the difference. */
  lemma {:induction false} TotalUpdate(xs: seq<real>, i: nat, v: real)
    requires i < |xs|
    ensures Total(xs[i := v]) == Total(xs) - xs[i] + v
  {
    var n := |xs| - 1;
    assert xs[i := v][..n] == if i == n then xs[..n] else xs[..n][i := v];
    if i < n {
      TotalUpdate(xs[..n], i, v);
    }
  }

  /** The queue as its remaining hours with the pointer `stepIdx`: a step with positive
      hours keeps between 0 and its hours, any other step keeps its hours untouched; the
      steps before the pointer are used up and those after it are untouched. */
  predicate QueueState(steps: seq<AllocationStep>, remaining: seq<real>, stepIdx: nat) {
    && |remaining| == |steps|
    && stepIdx <= |steps|
    && (forall i :: 0 <= i < |steps| ==>
         if steps[i].hoursMin > 0.0 then 0.0 <= remaining[i] <= steps[i].hoursMin
         else remaining[i] == steps[i].hoursMin)
    && (forall i :: 0 <= i < stepIdx ==> remaining[i] <= 0.0)
    && (forall i :: stepIdx < i < |steps| ==> remaining[i] == steps[i].hoursMin)
  }

  /** Hours taken from the queue cannot exceed the positive hours the steps started with,
      and they fall short of them as soon as one positive step still has hours left. */
  lemma {:induction false} LeftoverBound(hs: seq<real>, rem: seq<real>)
    requires |hs| == |rem|
    requires forall i :: 0 <= i < |hs| ==> if hs[i] > 0.0 then 0.0 <= rem[i] <= hs[i] else rem[i] == hs[i]
    ensures Total(hs) - Total(rem) <= PositiveTotal(hs)
    ensures (exists i :: 0 <= i < |hs| && hs[i] > 0.0 && rem[i] > 0.0) ==>
      Total(hs) - Total(rem) < PositiveTotal(hs)
  {
    if hs != [] {
      var n := |hs| - 1;
      LeftoverBound(hs[..n], rem[..n]);
      if exists i :: 0 <= i < |hs| && hs[i] > 0.0 && rem[i] > 0.0 {
        var i :| 0 <= i < |hs| && hs[i] > 0.0 && rem[i] > 0.0;
        if i < n {
          assert hs[..n][i] == hs[i] && rem[..n][i] == rem[i];
        }
      }
    }
  }

  /** What the `while` loop of one month ends with: the ids pushed, the steps it took hours
      from (in order, one entry per turn that took hours), the queue and the pointer. */
  datatype Filled = Filled(ids: seq<string>, taken: seq<nat>, remaining: seq<real>, stepIdx: nat)

  /** The `while` loop of one month, run from the capacity left, the queue's remaining
      hours, the pointer and what the month has listed so far: a used-up step is skipped,
      otherwise its id is pushed and `Math.min(capacity, remaining)` hours are moved from
      the step to the month, the pointer moving on once the step reaches exactly 0. */
  function FillFrom(steps: seq<AllocationStep>, capacity: real, remaining: seq<real>, stepIdx: nat,
                    ids: seq<string>, taken: seq<nat>): (r: Filled)
    requires |remaining| == |steps|
    ensures |r.remaining| == |steps|
    decreases |steps| - stepIdx, if capacity > 0.0 then 1 else 0
  {
    if capacity <= 0.0 || stepIdx >= |steps| then Filled(ids, taken, remaining, stepIdx)
    else if remaining[stepIdx] <= 0.0 then FillFrom(steps, capacity, remaining, stepIdx + 1, ids, taken)
    else
      var consume := MinReal(capacity, remaining[stepIdx]);
      var after := remaining[stepIdx := remaining[stepIdx] - consume];
      FillFrom(steps, capacity - consume, after, if after[stepIdx] == 0.0 then stepIdx + 1 else stepIdx,
               AddId(ids, Key(steps[stepIdx])), taken + [stepIdx])
  }

  /** The `while` loop of one month, from the month's capacity and the queue left by the
      months before. */
  method FillMonth(steps: seq<AllocationStep>, capacity0: real, remaining0: seq<real>, stepIdx0: nat)
    returns (ids: seq<string>, remaining: seq<real>, stepIdx: nat)
    requires |remaining0| == |steps|
    ensures var f := FillFrom(steps, capacity0, remaining0, stepIdx0, [], []);
      ids == f.ids && remaining == f.remaining && stepIdx == f.stepIdx
  {
    ids := [];
    remaining := remaining0;
    stepIdx := stepIdx0;
    var capacity := capacity0;
    ghost var taken: seq<nat> := [];
    while capacity > 0.0 && stepIdx < |remaining|
      invariant |remaining| == |steps|
      invariant FillFrom(steps, capacity, remaining, stepIdx, ids, taken) == FillFrom(steps, capacity0, remaining0, stepIdx0, [], [])
      decreases |steps| - stepIdx, if capacity > 0.0 then 1 else 0
    {
      if remaining[stepIdx] <= 0.0 {
        stepIdx := stepIdx + 1;
      } else {
        ids := AddId(ids, Key(steps[stepIdx]));
        taken := taken + [stepIdx];
        var consume := MinReal(capacity, remaining[stepIdx]);
        capacity := capacity - consume;
        remaining := remaining[stepIdx := remaining[stepIdx] - consume];
        if remaining[stepIdx] == 0.0 {
          stepIdx := stepIdx + 1;
        }
      }
    }
  }

  /** One turn of the loop that takes hours keeps the queue well formed. */
  lemma TurnKeepsQueue(steps: seq<AllocationStep>, capacity: real, remaining: seq<real>, stepIdx: nat)
    requires QueueState(steps, remaining, stepIdx)
    requires capacity > 0.0 && stepIdx < |steps| && remaining[stepIdx] > 0.0
    ensures var consume := MinReal(capacity, remaining[stepIdx]);
      var after := remaining[stepIdx := remaining[stepIdx] - consume];
      QueueState(steps, after, if after[stepIdx] == 0.0 then stepIdx + 1 else stepIdx)
      && steps[stepIdx].hoursMin > 0.0
  {
  }

  /** One month keeps the queue well formed. */
  lemma {:induction false} FillKeepsQueue(steps: seq<AllocationStep>, capacity: real, remaining: seq<real>, stepIdx: nat,
                                          ids: seq<string>, taken: seq<nat>)
    requires QueueState(steps, remaining, stepIdx)
    ensures var r := FillFrom(steps, capacity, remaining, stepIdx, ids, taken);
      QueueState(steps, r.remaining, r.stepIdx)
    decreases |steps| - stepIdx, if capacity > 0.0 then 1 else 0
  {
    if capacity <= 0.0 || stepIdx >= |steps| {
    } else if remaining[stepIdx] <= 0.0 {
      FillKeepsQueue(steps, capacity, remaining, stepIdx + 1, ids, taken);
    } else {
      var consume := MinReal(capacity, remaining[stepIdx]);
      var after := remaining[stepIdx := remaining[stepIdx] - consume];
      var next := if after[stepIdx] == 0.0 then stepIdx + 1 else stepIdx;
      TurnKeepsQueue(steps, capacity, remaining, stepIdx);
      FillKeepsQueue(steps, capacity - consume, after, next, AddId(ids, Key(steps[stepIdx])), taken + [stepIdx]);
    }
  }

  /** One month only moves the pointer forward. */
  lemma {:induction false} FillMovesForward(steps: seq<AllocationStep>, capacity: real, remaining: seq<real>, stepIdx: nat,
                                            ids: seq<string>, taken: seq<nat>)
    requires |remaining| == |steps|
    ensures stepIdx <= FillFrom(steps, capacity, remaining, stepIdx, ids, taken).stepIdx
    ensures |taken| <= |FillFrom(steps, capacity, remaining, stepIdx, ids, taken).taken|
    decreases |steps| - stepIdx, if capacity > 0.0 then 1 else 0
  {
    if capacity <= 0.0 || stepIdx >= |steps| {
    } else if remaining[stepIdx] <= 0.0 {
      FillMovesForward(steps, capacity, remaining, stepIdx + 1, ids, taken);
    } else {
      var consume := MinReal(capacity, remaining[stepIdx]);
      var after := remaining[stepIdx := remaining[stepIdx] - consume];
      var next := if after[stepIdx] == 0.0 then stepIdx + 1 else stepIdx;
      FillMovesForward(steps, capacity - consume, after, next, AddId(ids, Key(steps[stepIdx])), taken + [stepIdx]);
    }
  }

  /** The hours one month moves out of the queue lie between 0 and its capacity. */
  lemma {:induction false} FillUsesCapacity(steps: seq<AllocationStep>, capacity: real, remaining: seq<real>, stepIdx: nat,
                                            ids: seq<string>, taken: seq<nat>)
    requires |remaining| == |steps| && stepIdx <= |steps| && capacity >= 0.0
    ensures 0.0 <= Total(remaining) - Total(FillFrom(steps, capacity, remaining, stepIdx, ids, taken).remaining) <= capacity
    decreases |steps| - stepIdx, if capacity > 0.0 then 1 else 0
  {
    if capacity <= 0.0 || stepIdx >= |steps| {
    } else if remaining[stepIdx] <= 0.0 {
      FillUsesCapacity(steps, capacity, remaining, stepIdx + 1, ids, taken);
    } else {
      var consume := MinReal(capacity, remaining[stepIdx]);
      var after := remaining[stepIdx := remaining[stepIdx] - consume];
      var next := if after[stepIdx] == 0.0 then stepIdx + 1 else stepIdx;
      TotalUpdate(remaining, stepIdx, remaining[stepIdx] - consume);
      FillUsesCapacity(steps, capacity - consume, after, next, AddId(ids, Key(steps[stepIdx])), taken + [stepIdx]);
    }
  }

  /** A month that moves fewer hours than its capacity has run through the whole queue. */
  lemma {:induction false} FillUsesAllUnlessDone(steps: seq<AllocationStep>, capacity: real, remaining: seq<real>, stepIdx: nat,
                                                 ids: seq<string>, taken: seq<nat>)
    requires |remaining| == |steps| && stepIdx <= |steps| && capacity >= 0.0
    ensures var r := FillFrom(steps, capacity, remaining, stepIdx, ids, taken);
      Total(remaining) - Total(r.remaining) < capacity ==> r.stepIdx == |steps|
    decreases |steps| - stepIdx, if capacity > 0.0 then 1 else 0
  {
    if capacity <= 0.0 || stepIdx >= |steps| {
    } else if remaining[stepIdx] <= 0.0 {
      FillUsesAllUnlessDone(steps, capacity, remaining, stepIdx + 1, ids, taken);
    } else {
      var consume := MinReal(capacity, remaining[stepIdx]);
      var after := remaining[stepIdx := remaining[stepIdx] - consume];
      var next := if after[stepIdx] == 0.0 then stepIdx + 1 else stepIdx;
      TotalUpdate(remaining, stepIdx, remaining[stepIdx] - consume);
      FillUsesAllUnlessDone(steps, capacity - consume, after, next, AddId(ids, Key(steps[stepIdx])), taken + [stepIdx]);
    }
  }

  /** The `k`-th step a month takes hours from, past the ones listed before it, had hours
      left when the month started and lies between the pointer the month starts from and
      the one it ends on. */
  lemma {:induction false} FillTakesInOrder(steps: seq<AllocationStep>, capacity: real, remaining: seq<real>, stepIdx: nat,
                                            ids: seq<string>, taken: seq<nat>, k: nat)
    requires |remaining| == |steps|
    requires |taken| <= k < |FillFrom(steps, capacity, remaining, stepIdx, ids, taken).taken|
    ensures var r := FillFrom(steps, capacity, remaining, stepIdx, ids, taken);
      stepIdx <= r.taken[k] <= r.stepIdx && r.taken[k] < |steps| && remaining[r.taken[k]] > 0.0
    decreases |steps| - stepIdx, if capacity > 0.0 then 1 else 0
  {
    if capacity <= 0.0 || stepIdx >= |steps| {
    } else if remaining[stepIdx] <= 0.0 {
      FillTakesInOrder(steps, capacity, remaining, stepIdx + 1, ids, taken, k);
    } else {
      var consume := MinReal(capacity, remaining[stepIdx]);
      var after := remaining[stepIdx := remaining[stepIdx] - consume];
      var next := if after[stepIdx] == 0.0 then stepIdx + 1 else stepIdx;
      var ids' := AddId(ids, Key(steps[stepIdx]));
      if k == |taken| {
        FillKeepsTaken(steps, capacity - consume, after, next, ids', taken + [stepIdx], k);
        FillMovesForward(steps, capacity - consume, after, next, ids', taken + [stepIdx]);
      } else {
        FillTakesInOrder(steps, capacity - consume, after, next, ids', taken + [stepIdx], k);
      }
    }
  }

  /** A month only appends to what it has listed so far. */
  lemma {:induction false} FillKeepsTaken(steps: seq<AllocationStep>, capacity: real, remaining: seq<real>, stepIdx: nat,
                                          ids: seq<string>, taken: seq<nat>, k: nat)
    requires |remaining| == |steps| && k < |taken|
    ensures var r := FillFrom(steps, capacity, remaining, stepIdx, ids, taken);
      k < |r.taken| && r.taken[k] == taken[k]
    decreases |steps| - stepIdx, if capacity > 0.0 then 1 else 0
  {
    if capacity <= 0.0 || stepIdx >= |steps| {
    } else if remaining[stepIdx] <= 0.0 {
      FillKeepsTaken(steps, capacity, remaining, stepIdx + 1, ids, taken, k);
    } else {
      var consume := MinReal(capacity, remaining[stepIdx]);
      var after := remaining[stepIdx := remaining[stepIdx] - consume];
      var next := if after[stepIdx] == 0.0 then stepIdx + 1 else stepIdx;
      FillKeepsTaken(steps, capacity - consume, after, next, AddId(ids, Key(steps[stepIdx])), taken + [stepIdx], k);
    }
  }

  /** The ids a month pushes are the ids of the steps it took hours from. */
  lemma {:induction false} FillListsTakenIds(steps: seq<AllocationStep>, capacity: real, remaining: seq<real>, stepIdx: nat,
                                             ids: seq<string>, taken: seq<nat>)
    requires |remaining| == |steps| && InRange(steps, taken) && ids == IdsOf(steps, taken)
    ensures var r := FillFrom(steps, capacity, remaining, stepIdx, ids, taken);
      InRange(steps, r.taken) && r.ids == IdsOf(steps, r.taken)
    decreases |steps| - stepIdx, if capacity > 0.0 then 1 else 0
  {
    if capacity <= 0.0 || stepIdx >= |steps| {
    } else if remaining[stepIdx] <= 0.0 {
      FillListsTakenIds(steps, capacity, remaining, stepIdx + 1, ids, taken);
    } else {
      var consume := MinReal(capacity, remaining[stepIdx]);
      var after := remaining[stepIdx := remaining[stepIdx] - consume];
      var next := if after[stepIdx] == 0.0 then stepIdx + 1 else stepIdx;
      var ids' := AddId(ids, Key(steps[stepIdx]));
      assert FillFrom(steps, capacity, remaining, stepIdx, ids, taken)
          == FillFrom(steps, capacity - consume, after, next, ids', taken + [stepIdx]);
      IdsOfPush(steps, taken, stepIdx);
      FillListsTakenIds(steps, capacity - consume, after, next, ids', taken + [stepIdx]);
    }
  }

  /** A month only lowers the remaining hours of step `i`, and it lists `i` iff it lowered
      them (or `i` was listed already). */
  lemma {:induction false} FillLowersTaken(steps: seq<AllocationStep>, capacity: real, remaining: seq<real>, stepIdx: nat,
                                           ids: seq<string>, taken: seq<nat>, i: nat)
    requires |remaining| == |steps| && i < |steps|
    ensures var r := FillFrom(steps, capacity, remaining, stepIdx, ids, taken);
      r.remaining[i] <= remaining[i] && (i in r.taken <==> i in taken || r.remaining[i] < remaining[i])
    decreases |steps| - stepIdx, if capacity > 0.0 then 1 else 0
  {
    if capacity <= 0.0 || stepIdx >= |steps| {
    } else if remaining[stepIdx] <= 0.0 {
      FillLowersTaken(steps, capacity, remaining, stepIdx + 1, ids, taken, i);
    } else {
      var consume := MinReal(capacity, remaining[stepIdx]);
      var after := remaining[stepIdx := remaining[stepIdx] - consume];
      var next := if after[stepIdx] == 0.0 then stepIdx + 1 else stepIdx;
      FillLowersTaken(steps, capacity - consume, after, next, AddId(ids, Key(steps[stepIdx])), taken + [stepIdx], i);
    }
  }

  /** `Math.max(0, Math.round(totalHoursMin * (percent / 100)))` for every month, in
      schedule order. */
  function Capacities(totalHoursMin: real, repartition: seq<RepartitionEntry>): (caps: seq<int>)
    ensures |caps| == |repartition|
    ensures forall m :: 0 <= m < |repartition| ==> caps[m] == Capacity(totalHoursMin, repartition[m])
  {
    seq(|repartition|, m requires 0 <= m < |repartition| => Capacity(totalHoursMin, repartition[m]))
  }

  /** Hour budgets added up. */
  function CapacityTotal(caps: seq<int>): int {
    if caps == [] then 0 else CapacityTotal(caps[..|caps| - 1]) + caps[|caps| - 1]
  }

  /** The queue: remaining hours per step and the pointer `stepIdx`. */
  datatype Queue = Queue(remaining: seq<real>, stepIdx: nat)

  /** The queue before month `m`, starting from every step's `hoursMin` and the pointer at
      the first step. */
  function QueueBefore(steps: seq<AllocationStep>, caps: seq<int>, m: nat): (q: Queue)
    requires m <= |caps|
    ensures |q.remaining| == |steps|
  {
    if m == 0 then Queue(Hours(steps), 0)
    else
      var q := QueueBefore(steps, caps, m - 1);
      var f := FillFrom(steps, caps[m - 1] as real, q.remaining, q.stepIdx, [], []);
      Queue(f.remaining, f.stepIdx)
  }

  /** What month `m` fills, from the queue the months before it left. */
  function MonthFill(steps: seq<AllocationStep>, caps: seq<int>, m: nat): Filled
    requires m < |caps|
  {
    var q := QueueBefore(steps, caps, m);
    FillFrom(steps, caps[m] as real, q.remaining, q.stepIdx, [], [])
  }

  /** The hours month `m` takes from the queue. */
  function Used(steps: seq<AllocationStep>, caps: seq<int>, m: nat): real
    requires m < |caps|
  {
    Total(QueueBefore(steps, caps, m).remaining) - Total(QueueBefore(steps, caps, m + 1).remaining)
  }

  /** One month of the allocation: its month number (the label is `"Mois " + month`) and
      the ids of the steps it works on. */
  datatype MonthAllocation = MonthAllocation(month: real, stepIds: seq<string>)

  /** The allocation the `monthSteps` loop computes, month by month. */
  function Planned(steps: seq<AllocationStep>, repartition: seq<RepartitionEntry>, totalHoursMin: real): (p: seq<MonthAllocation>)
    ensures |p| == |repartition|
  {
    var caps := Capacities(totalHoursMin, repartition);
    seq(|repartition|, m requires 0 <= m < |repartition| => MonthAllocation(repartition[m].month, MonthFill(steps, caps, m).ids))
  }

  /** The `monthSteps` allocation: one entry per repartition entry, then for each month in
      turn its capacity is filled from the queue of steps, in order, a step spilling into
      the next month when the capacity runs out. */
  method AllocateMonths(steps: seq<AllocationStep>, repartition: seq<RepartitionEntry>, totalHoursMin: real)
    returns (allocations: seq<MonthAllocation>)
    ensures allocations == Planned(steps, repartition, totalHoursMin)
  {
    var queue := Hours(steps);
    allocations := seq(|repartition|, m requires 0 <= m < |repartition| => MonthAllocation(repartition[m].month, []));
    var stepIdx: nat := 0;
    ghost var caps := Capacities(totalHoursMin, repartition);
    for mIdx := 0 to |repartition|
      invariant |allocations| == |repartition|
      invariant forall m :: 0 <= m < |repartition| ==>
        allocations[m] == MonthAllocation(repartition[m].month, if m < mIdx then MonthFill(steps, caps, m).ids else [])
      invariant Queue(queue, stepIdx) == QueueBefore(steps, caps, mIdx)
    {
      var capacity := Capacity(totalHoursMin, repartition[mIdx]) as real;
      assert capacity == caps[mIdx] as real;
      var ids, q, idx := FillMonth(steps, capacity, queue, stepIdx);
      NextQueue(steps, caps, mIdx);
      allocations := allocations[mIdx := allocations[mIdx].(stepIds := ids)];
      queue := q;
      stepIdx := idx;
    }
  }

  /** The queue after month `m` is the one month `m` leaves. */
  lemma NextQueue(steps: seq<AllocationStep>, caps: seq<int>, m: nat)
    requires m < |caps|
    ensures QueueBefore(steps, caps, m + 1) == Queue(MonthFill(steps, caps, m).remaining, MonthFill(steps, caps, m).stepIdx)
  {
  }

  /** The queue stays well formed from month to month: no step ever gives more than its
      hours, a step without positive hours gives none, and the steps before the pointer
      are used up. */
  lemma {:induction false} QueueStaysValid(steps: seq<AllocationStep>, caps: seq<int>, m: nat)
    requires m <= |caps|
    ensures var q := QueueBefore(steps, caps, m);
      QueueState(steps, q.remaining, q.stepIdx)
  {
    if m == 0 {
      assert QueueState(steps, Hours(steps), 0);
    } else {
      QueueStaysValid(steps, caps, m - 1);
      var q := QueueBefore(steps, caps, m - 1);
      FillKeepsQueue(steps, caps[m - 1] as real, q.remaining, q.stepIdx, [], []);
    }
  }

  /** The pointer never moves back from one month to a later one. */
  lemma {:induction false} PointerNeverMovesBack(steps: seq<AllocationStep>, caps: seq<int>, m1: nat, m2: nat)
    requires m1 <= m2 <= |caps|
    ensures QueueBefore(steps, caps, m1).stepIdx <= QueueBefore(steps, caps, m2).stepIdx
    decreases m2
  {
    if m1 < m2 {
      PointerNeverMovesBack(steps, caps, m1, m2 - 1);
      var q := QueueBefore(steps, caps, m2 - 1);
      FillMovesForward(steps, caps[m2 - 1] as real, q.remaining, q.stepIdx, [], []);
    }
  }

  /** Month `m` takes hours only from steps with positive hours, between the pointer it
      starts from and the pointer it leaves to the next month. */
  lemma MonthTakesFromItsRange(steps: seq<AllocationStep>, caps: seq<int>, m: nat)
    requires m < |caps|
    ensures var t := MonthFill(steps, caps, m).taken;
      forall k :: 0 <= k < |t| ==>
        && QueueBefore(steps, caps, m).stepIdx <= t[k] <= QueueBefore(steps, caps, m + 1).stepIdx
        && t[k] < |steps| && steps[t[k]].hoursMin > 0.0
  {
    QueueStaysValid(steps, caps, m);
    var q := QueueBefore(steps, caps, m);
    var t := MonthFill(steps, caps, m).taken;
    forall k | 0 <= k < |t|
      ensures QueueBefore(steps, caps, m).stepIdx <= t[k] <= QueueBefore(steps, caps, m + 1).stepIdx
      ensures t[k] < |steps| && steps[t[k]].hoursMin > 0.0
    {
      FillTakesInOrder(steps, caps[m] as real, q.remaining, q.stepIdx, [], [], k);
      assert q.remaining[t[k]] > 0.0;
    }
  }

  /** Steps are assigned in declared order: a step listed in an earlier month never comes
      after a step listed in a later month. */
  lemma StepsInOrder(steps: seq<AllocationStep>, caps: seq<int>, m1: nat, m2: nat, a: nat, b: nat)
    requires m1 < m2 < |caps|
    requires a < |MonthFill(steps, caps, m1).taken| && b < |MonthFill(steps, caps, m2).taken|
    ensures MonthFill(steps, caps, m1).taken[a] <= MonthFill(steps, caps, m2).taken[b]
  {
    MonthTakesFromItsRange(steps, caps, m1);
    MonthTakesFromItsRange(steps, caps, m2);
    PointerNeverMovesBack(steps, caps, m1 + 1, m2);
  }

  /** A month lists the ids of the steps it took hours from, each once. */
  lemma MonthListsTakenIds(steps: seq<AllocationStep>, caps: seq<int>, m: nat)
    requires m < |caps|
    ensures InRange(steps, MonthFill(steps, caps, m).taken)
    ensures MonthFill(steps, caps, m).ids == IdsOf(steps, MonthFill(steps, caps, m).taken)
    ensures NoDuplicates(MonthFill(steps, caps, m).ids)
  {
    var q := QueueBefore(steps, caps, m);
    FillListsTakenIds(steps, caps[m] as real, q.remaining, q.stepIdx, [], []);
    IdsOfNoDuplicates(steps, MonthFill(steps, caps, m).taken);
  }

  /** A month never takes more hours than its capacity, and takes all of it while steps
      are left. */
  lemma MonthWithinCapacity(steps: seq<AllocationStep>, caps: seq<int>, m: nat)
    requires m < |caps| && caps[m] >= 0
    ensures 0.0 <= Used(steps, caps, m) <= caps[m] as real
    ensures Used(steps, caps, m) < caps[m] as real ==> QueueBefore(steps, caps, m + 1).stepIdx == |steps|
  {
    QueueStaysValid(steps, caps, m);
    var q := QueueBefore(steps, caps, m);
    FillUsesCapacity(steps, caps[m] as real, q.remaining, q.stepIdx, [], []);
    FillUsesAllUnlessDone(steps, caps[m] as real, q.remaining, q.stepIdx, [], []);
  }

  /** A month with no capacity lists nothing. */
  lemma NoCapacityNoSteps(steps: seq<AllocationStep>, caps: seq<int>, m: nat)
    requires m < |caps| && caps[m] == 0
    ensures MonthFill(steps, caps, m).ids == [] && MonthFill(steps, caps, m).taken == []
  {
  }

  /** Without hours to plan, or in a month with a 0 percent share, the month lists no step. */
  lemma NoHoursNoSteps(steps: seq<AllocationStep>, repartition: seq<RepartitionEntry>, totalHoursMin: real, m: nat)
    requires m < |repartition| && (totalHoursMin == 0.0 || repartition[m].percent == 0.0)
    ensures Planned(steps, repartition, totalHoursMin)[m].stepIds == []
  {
    ZeroCapacity(totalHoursMin, repartition[m]);
    NoCapacityNoSteps(steps, Capacities(totalHoursMin, repartition), m);
  }

  /** The hours taken by the first `m` months never exceed their total capacity, and equal
      it while steps are left. */
  lemma {:induction false} HoursTakenSoFar(steps: seq<AllocationStep>, caps: seq<int>, m: nat)
    requires m <= |caps|
    requires forall k :: 0 <= k < |caps| ==> caps[k] >= 0
    ensures Total(Hours(steps)) - Total(QueueBefore(steps, caps, m).remaining) <= CapacityTotal(caps[..m]) as real
    ensures QueueBefore(steps, caps, m).stepIdx < |steps| ==>
      Total(Hours(steps)) - Total(QueueBefore(steps, caps, m).remaining) == CapacityTotal(caps[..m]) as real
  {
    if m > 0 {
      HoursTakenSoFar(steps, caps, m - 1);
      MonthWithinCapacity(steps, caps, m - 1);
      PointerNeverMovesBack(steps, caps, m - 1, m);
      assert caps[..m][..m - 1] == caps[..m - 1];
    }
  }

  /** When the capacities add up to at least the positive hours of the steps, every step
      with positive hours is fully planned. */
  lemma EnoughCapacityPlansEverything(steps: seq<AllocationStep>, caps: seq<int>)
    requires forall k :: 0 <= k < |caps| ==> caps[k] >= 0
    requires CapacityTotal(caps) as real >= PositiveTotal(Hours(steps))
    ensures forall i :: 0 <= i < |steps| && steps[i].hoursMin > 0.0 ==> QueueBefore(steps, caps, |caps|).remaining[i] == 0.0
  {
    var q := QueueBefore(steps, caps, |caps|);
    QueueStaysValid(steps, caps, |caps|);
    HoursTakenSoFar(steps, caps, |caps|);
    assert caps[..|caps|] == caps;
    NothingLeft(steps, q.remaining, q.stepIdx, CapacityTotal(caps) as real);
  }

  /** A well-formed queue from which a budget covering every positive hour has been taken,
      or whose pointer is past the last step, has no hours left on positive steps. */
  lemma NothingLeft(steps: seq<AllocationStep>, remaining: seq<real>, stepIdx: nat, budget: real)
    requires QueueState(steps, remaining, stepIdx)
    requires budget >= PositiveTotal(Hours(steps))
    requires stepIdx < |steps| ==> Total(Hours(steps)) - Total(remaining) == budget
    ensures forall i :: 0 <= i < |steps| && steps[i].hoursMin > 0.0 ==> remaining[i] == 0.0
  {
    if stepIdx < |steps| {
      LeftoverBound(Hours(steps), remaining);
    }
  }

  /** Whether one of the first `m` months took hours from step `i`. */
  function ListedBefore(steps: seq<AllocationStep>, caps: seq<int>, m: nat, i: nat): (b: bool)
    requires m <= |caps|
    ensures b <==> exists k :: 0 <= k < m && i in MonthFill(steps, caps, k).taken
  {
    if m == 0 then false
    else
      var b := ListedBefore(steps, caps, m - 1, i) || i in MonthFill(steps, caps, m - 1).taken;
      assert b ==> exists k :: 0 <= k < m && i in MonthFill(steps, caps, k).taken;
      assert (exists k :: 0 <= k < m && i in MonthFill(steps, caps, k).taken) ==> b by {
        if exists k :: 0 <= k < m && i in MonthFill(steps, caps, k).taken {
          var k :| 0 <= k < m && i in MonthFill(steps, caps, k).taken;
          assert k == m - 1 || (0 <= k < m - 1 && i in MonthFill(steps, caps, k).taken);
        }
      }
      b
  }

  /** A step has given hours iff some month took hours from it. */
  lemma {:induction false} GaveHoursIffListed(steps: seq<AllocationStep>, caps: seq<int>, m: nat, i: nat)
    requires m <= |caps| && i < |steps|
    ensures QueueBefore(steps, caps, m).remaining[i] < steps[i].hoursMin <==> ListedBefore(steps, caps, m, i)
  {
    if m > 0 {
      GaveHoursIffListed(steps, caps, m - 1, i);
      QueueStaysValid(steps, caps, m - 1);
      var q := QueueBefore(steps, caps, m - 1);
      FillLowersTaken(steps, caps[m - 1] as real, q.remaining, q.stepIdx, [], [], i);
      assert q.remaining[i] <= steps[i].hoursMin;
    }
  }

  /** When the capacities cover every positive hour, every step with positive hours is
      listed by some month. */
  lemma EveryStepListed(steps: seq<AllocationStep>, caps: seq<int>, i: nat)
    requires forall k :: 0 <= k < |caps| ==> caps[k] >= 0
    requires CapacityTotal(caps) as real >= PositiveTotal(Hours(steps))
    requires i < |steps| && steps[i].hoursMin > 0.0
    ensures exists m :: 0 <= m < |caps| && Key(steps[i]) in MonthFill(steps, caps, m).ids
  {
    EnoughCapacityPlansEverything(steps, caps);
    GaveHoursIffListed(steps, caps, |caps|, i);
    var m :| 0 <= m < |caps| && i in MonthFill(steps, caps, m).taken;
    var t := MonthFill(steps, caps, m).taken;
    MonthListsTakenIds(steps, caps, m);
    var j :| 0 <= j < |t| && t[j] == i;
    IdsOfMembers(steps, t, Key(steps[i]));
  }

  /** One step of a month as the timeline shows it. */
  datatype MonthStep = MonthStep(id: string, name: string, color: string)

  /** One month as the timeline shows it. */
  datatype MonthSteps = MonthSteps(month: real, steps: seq<MonthStep>)

  /** `new Map(computedSteps.map((s) => [s.id, s])).get(key)`: the last step whose id is
      `key`; a step without an id is never found. */
  function StepById(steps: seq<AllocationStep>, key: string): (r: Option<AllocationStep>)
    ensures r.Some? <==> exists i :: 0 <= i < |steps| && steps[i].id == Some(key)
    ensures r.Some? ==> r.value in steps && r.value.id == Some(key)
  {
    if steps == [] then None
    else if steps[|steps| - 1].id == Some(key) then Some(steps[|steps| - 1])
    else
      var r := StepById(steps[..|steps| - 1], key);
      assert forall i :: 0 <= i < |steps| - 1 ==> steps[..|steps| - 1][i] == steps[i];
      r
  }

  /** The step found is the last one with the id: a `Map` built from pairs keeps the value
      of the last pair with each key. */
  lemma {:induction false} StepByIdIsLast(steps: seq<AllocationStep>, key: string)
    requires StepById(steps, key).Some?
    ensures exists i :: 0 <= i < |steps| && steps[i] == StepById(steps, key).value &&
                        forall j :: i < j < |steps| ==> steps[j].id != Some(key)
  {
    var n := |steps| - 1;
    if steps[n].id == Some(key) {
      assert steps[n] == StepById(steps, key).value;
    } else {
      var init := steps[..n];
      assert StepById(steps, key) == StepById(init, key);
      StepByIdIsLast(init, key);
      var i :| 0 <= i < |init| && init[i] == StepById(init, key).value &&
               forall j :: i < j < |init| ==> init[j].id != Some(key);
      assert steps[i] == StepById(steps, key).value;
      assert forall j :: i < j < |steps| ==> steps[j].id != Some(key);
    }
  }

  /** `m.stepIds.map((id) => { const s = idToStep.get(id)!; ... })`: `None` when an id has
      no step, where the page throws reading the name of `undefined`. */
  function ResolveIds(steps: seq<AllocationStep>, ids: seq<string>): (r: Option<seq<MonthStep>>)
    ensures r.Some? <==> forall k :: 0 <= k < |ids| ==> StepById(steps, ids[k]).Some?
    ensures r.Some? ==> |r.value| == |ids| && forall k :: 0 <= k < |ids| ==>
      r.value[k] == MonthStep(ids[k], StepById(steps, ids[k]).value.name, StepById(steps, ids[k]).value.color)
  {
    if ids == [] then Some([])
    else
      var init := ResolveIds(steps, ids[..|ids| - 1]);
      var s := StepById(steps, ids[|ids| - 1]);
      if init.None? || s.None? then None
      else Some(init.value + [MonthStep(ids[|ids| - 1], s.value.name, s.value.color)])
  }

  /** `allocations.map(...)`: every month resolved, or `None` when one of them fails. */
  function Resolve(steps: seq<AllocationStep>, allocations: seq<MonthAllocation>): (r: Option<seq<MonthSteps>>)
    ensures r.Some? <==> forall m :: 0 <= m < |allocations| ==> ResolveIds(steps, allocations[m].stepIds).Some?
    ensures r.Some? ==> |r.value| == |allocations| && forall m :: 0 <= m < |allocations| ==>
      r.value[m] == MonthSteps(allocations[m].month, ResolveIds(steps, allocations[m].stepIds).value)
  {
    if allocations == [] then Some([])
    else
      var init := Resolve(steps, allocations[..|allocations| - 1]);
      var last := allocations[|allocations| - 1];
      assert forall m :: 0 <= m < |allocations| - 1 ==> allocations[..|allocations| - 1][m] == allocations[m];
      var s := ResolveIds(steps, last.stepIds);
      if init.None? || s.None? then None
      else Some(init.value + [MonthSteps(last.month, s.value)])
  }

  /** The `monthSteps` memo: the allocation, then every listed id resolved to its step. */
  method MonthStepsOf(steps: seq<AllocationStep>, repartition: seq<RepartitionEntry>, totalHoursMin: real)
    returns (r: Option<seq<MonthSteps>>)
    ensures r == Resolve(steps, Planned(steps, repartition, totalHoursMin))
  {
    var allocations := AllocateMonths(steps, repartition, totalHoursMin);
    r := Resolve(steps, allocations);
  }

  /** When every step has an id, every listed id resolves, to a step with that id. */
  lemma EveryIdResolves(steps: seq<AllocationStep>, repartition: seq<RepartitionEntry>, totalHoursMin: real)
    requires forall i :: 0 <= i < |steps| ==> steps[i].id.Some?
    ensures Resolve(steps, Planned(steps, repartition, totalHoursMin)).Some?
  {
    var caps := Capacities(totalHoursMin, repartition);
    forall m | 0 <= m < |caps| {
      MonthIdsResolve(steps, caps, m);
    }
  }

  /** When every step has an id, every id a month lists resolves. */
  lemma MonthIdsResolve(steps: seq<AllocationStep>, caps: seq<int>, m: nat)
    requires m < |caps|
    requires forall i :: 0 <= i < |steps| ==> steps[i].id.Some?
    ensures ResolveIds(steps, MonthFill(steps, caps, m).ids).Some?
  {
    MonthListsTakenIds(steps, caps, m);
    var t := MonthFill(steps, caps, m).taken;
    var ids := MonthFill(steps, caps, m).ids;
    forall k | 0 <= k < |ids|
      ensures StepById(steps, ids[k]).Some?
    {
      IdsOfMembers(steps, t, ids[k]);
      var j :| 0 <= j < |t| && Key(steps[t[j]]) == ids[k];
      assert steps[t[j]].id == Some(ids[k]);
    }
  }

  /** A month listing a step without an id makes the whole memo fail, unless some step has
      the empty string as its id. */
  lemma MissingIdFailsResolution(steps: seq<AllocationStep>, allocations: seq<MonthAllocation>, m: nat)
    requires m < |allocations| && "" in allocations[m].stepIds
    requires forall i :: 0 <= i < |steps| ==> steps[i].id != Some("")
    ensures Resolve(steps, allocations).None?
  {
    var k :| 0 <= k < |allocations[m].stepIds| && allocations[m].stepIds[k] == "";
    assert StepById(steps, "").None?;
  }
}
