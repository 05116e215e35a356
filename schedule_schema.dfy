/** A schedule variant (a project duration and its month-by-month split of the budget)
    and the constraints `CreateScheduleSchema` puts on it. */
module ScheduleSchema {
  import opened Common

  datatype RepartitionEntry = RepartitionEntry(month: real, percent: real)

  datatype Schedule = Schedule(duration: real, repartition: seq<RepartitionEntry>)

  predicate ValidEntry(e: RepartitionEntry) {
    e.month >= 1.0 && 0.0 <= e.percent <= 100.0
  }

  /** The zod constraints. Nothing asks the percents to add up to 100, nor the
      repartition to have `duration` entries. */
  predicate ValidSchedule(s: Schedule) {
    s.duration >= 1.0 && forall i :: 0 <= i < |s.repartition| ==> ValidEntry(s.repartition[i])
  }

  function DefaultSchedule(repartition: seq<RepartitionEntry>): (s: Schedule)
    requires forall i :: 0 <= i < |repartition| ==> ValidEntry(repartition[i])
    ensures ValidSchedule(s) && s.duration == 1.0 && s.repartition == repartition
  {
    Schedule(1.0, repartition)
  }

  function PercentTotal(s: Schedule): real {
    SumOf(s.repartition, (e: RepartitionEntry) => e.percent)
  }

  /** Every percent of a valid schedule lies in [0, 100], so the total of a valid
      repartition is between 0 and 100 times its length, and never negative. */
  lemma {:induction false} PercentTotalBounds(s: Schedule)
    requires ValidSchedule(s)
    ensures 0.0 <= PercentTotal(s) <= 100.0 * |s.repartition| as real
  {
    var f := (e: RepartitionEntry) => e.percent;
    var g := (e: RepartitionEntry) => 100.0;
    SumOfNonNegative(s.repartition, f);
    SumOfMonotone(s.repartition, f, g);
    SumOfConstant(s.repartition, 100.0);
  }

  lemma {:induction false} SumOfConstant(xs: seq<RepartitionEntry>, c: real)
    ensures SumOf(xs, (e: RepartitionEntry) => c) == c * |xs| as real
  {
    if xs != [] {
      SumOfConstant(xs[..|xs| - 1], c);
    }
  }

  /** A schedule can be valid although its percents do not add up to 100 and its
      repartition is shorter than its duration: consumers must cope with both. */
  lemma ValidScheduleNeedNotBeBalanced()
    ensures exists s :: ValidSchedule(s) && PercentTotal(s) != 100.0 && |s.repartition| as real != s.duration
  {
    var s := Schedule(3.0, [RepartitionEntry(1.0, 40.0)]);
    assert PercentTotal(s) == 40.0 by {
      assert s.repartition[..0] == [];
    }
    assert ValidSchedule(s);
  }
}
