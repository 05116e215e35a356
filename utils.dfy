/** The live helpers of `src/lib/utils.ts`: a step's hours and complexity, the label
    helpers, and the rebuilding of an estimate's step tree from its stored rows. */
module Utils {
  import opened Common
  import opened StepSchema
  import opened ScheduleSchema
  import opened EstimateSchema

  // ---------------------------------------------------------------------------
  // Step metrics

  function SubStepHours(s: Step): real { s.hours }

  function SubStepComplexity(s: Step): real { s.complexity }

  /** `getStepHoursMin`: the sum of the direct sub-steps' own `hours`; a step
      without sub-steps counts 0 hours, whatever its own `hours` field says. */
  function StepHoursMin(step: Step): real {
    if |step.subSteps| > 0 then SumOf(step.subSteps, SubStepHours) else 0.0
  }

  /** `getStepComplexity`: the exact mean of the direct sub-steps' complexities,
      or LOW for a step without sub-steps. */
  function StepComplexity(step: Step): real {
    if |step.subSteps| > 0 then
      SumOf(step.subSteps, SubStepComplexity) / |step.subSteps| as real
    else LOW
  }

  /** The recursive reading of a step's hours, where a leaf counts its own `hours` and
      a parent the sum over its children at every depth. */
  function TreeHours(step: Step): real
    decreases step, 1
  {
    if |step.subSteps| > 0 then ForestHours(step.subSteps) else step.hours
  }

  function ForestHours(steps: seq<Step>): real
    decreases steps, 0
  {
    if steps == [] then 0.0
    else ForestHours(steps[..|steps| - 1]) + TreeHours(steps[|steps| - 1])
  }

  /** On a two-level step (every sub-step a leaf) the live sum is the recursive one. */
  lemma {:induction false} StepHoursMinOnTwoLevelSteps(step: Step)
    requires |step.subSteps| > 0
    requires forall i :: 0 <= i < |step.subSteps| ==> step.subSteps[i].subSteps == []
    ensures StepHoursMin(step) == TreeHours(step)
  {
    ForestHoursOfLeaves(step.subSteps);
  }

  lemma {:induction false} ForestHoursOfLeaves(steps: seq<Step>)
    requires forall i :: 0 <= i < |steps| ==> steps[i].subSteps == []
    ensures ForestHours(steps) == SumOf(steps, SubStepHours)
  {
    if steps != [] {
      ForestHoursOfLeaves(steps[..|steps| - 1]);
    }
  }

  /** Only direct sub-steps count: hours nested one level deeper are ignored, and so
      is the step's own `hours` field. */
  lemma {:induction false} StepHoursMinIsShallow(step: Step, hours: real, i: nat, deeper: seq<Step>)
    requires i < |step.subSteps|
    ensures StepHoursMin(step.(hours := hours)) == StepHoursMin(step)
    ensures StepHoursMin(step.(subSteps := step.subSteps[i := step.subSteps[i].(subSteps := deeper)]))
         == StepHoursMin(step)
  {
    var f := SubStepHours;
    var changed := step.subSteps[i := step.subSteps[i].(subSteps := deeper)];
    assert forall j :: 0 <= j < |changed| ==> f(changed[j]) == f(step.subSteps[j]);
    SumOfPointwise(changed, step.subSteps, f);
  }

  /** Two lists whose terms agree one by one have the same sum. */
  lemma {:induction false} SumOfPointwise(xs: seq<Step>, ys: seq<Step>, f: Step -> real)
    requires |xs| == |ys|
    requires forall j :: 0 <= j < |xs| ==> f(xs[j]) == f(ys[j])
    ensures SumOf(xs, f) == SumOf(ys, f)
  {
    if xs != [] {
      SumOfPointwise(xs[..|xs| - 1], ys[..|ys| - 1], f);
    }
  }

  /** A leaf with hours is where the live function departs from the recursive reading. */
  lemma LeafHoursDiffer(step: Step)
    requires step.subSteps == [] && step.hours != 0.0
    ensures StepHoursMin(step) == 0.0 != TreeHours(step)
  {
  }

  /** A valid step never has negative hours. */
  lemma {:induction false} StepHoursMinNonNegative(step: Step)
    requires ValidStep(step)
    ensures StepHoursMin(step) >= 0.0
  {
    if |step.subSteps| > 0 {
      assert forall i :: 0 <= i < |step.subSteps| ==> ValidStep(step.subSteps[i]);
      SumOfNonNegative(step.subSteps, SubStepHours);
    }
  }

  /** With sub-step complexities drawn from {1, 3, 5}, the mean lies in [1, 5]. */
  lemma {:induction false} StepComplexityBounds(step: Step)
    requires forall i :: 0 <= i < |step.subSteps| ==> IsComplexity(step.subSteps[i].complexity)
    ensures LOW <= StepComplexity(step) <= HIGH
  {
    var n := |step.subSteps|;
    if n > 0 {
      var f := SubStepComplexity;
      ComplexitySumBounds(step.subSteps);
      var total := SumOf(step.subSteps, f);
      MeanBounds(total, n as real, 1.0, 5.0);
    }
  }

  lemma {:induction false} ComplexitySumBounds(steps: seq<Step>)
    requires forall i :: 0 <= i < |steps| ==> IsComplexity(steps[i].complexity)
    ensures |steps| as real <= SumOf(steps, SubStepComplexity) <= 5.0 * |steps| as real
  {
    if steps != [] {
      ComplexitySumBounds(steps[..|steps| - 1]);
    }
  }

  /** The mean is not rounded to an enum value: LOW, LOW and MEDIUM average to 5/3. */
  lemma StepComplexityUnrounded(step: Step)
    requires |step.subSteps| == 3
    requires step.subSteps[0].complexity == LOW && step.subSteps[1].complexity == LOW
    requires step.subSteps[2].complexity == MEDIUM
    ensures StepComplexity(step) == 5.0 / 3.0
    ensures !IsComplexity(StepComplexity(step))
  {
    var s := step.subSteps;
    var f := SubStepComplexity;
    assert s[..1][..0] == [] && s[..2][..1] == s[..1] && s[..2] == s[..|s| - 1];
    assert SumOf(s[..1], f) == 1.0;
    assert SumOf(s[..2], f) == 2.0;
    assert SumOf(s, f) == 5.0;
  }

  // ---------------------------------------------------------------------------
  // Labels

  const DEFAULT_LABEL_LENGTH: nat := 15

  /** `truncateLabel`: labels longer than `maxLength` keep their first `maxLength`
      characters followed by "...". */
  function TruncateLabel(text: string, maxLength: nat): (r: string)
    ensures |text| <= maxLength ==> r == text
    ensures |text| > maxLength ==> r == text[..maxLength] + "..."
    ensures |r| <= maxLength + 3
  {
    if |text| > maxLength then text[..maxLength] + "..." else text
  }

  /** `truncateLabel(label)` with the default `maxLength` of 15, as the chart axes call it. */
  function TruncateLabelDefault(text: string): (r: string)
    ensures |text| <= DEFAULT_LABEL_LENGTH ==> r == text
    ensures |text| > DEFAULT_LABEL_LENGTH ==>
              |r| == DEFAULT_LABEL_LENGTH + 3 && r[..DEFAULT_LABEL_LENGTH] == text[..DEFAULT_LABEL_LENGTH]
  {
    TruncateLabel(text, DEFAULT_LABEL_LENGTH)
  }

  /** Truncating a truncated label changes nothing more. */
  lemma TruncateLabelIdempotent(text: string, maxLength: nat)
    ensures TruncateLabel(TruncateLabel(text, maxLength), maxLength) == TruncateLabel(text, maxLength)
  {
    if |text| > maxLength {
      var once := text[..maxLength] + "...";
      assert once[..maxLength] == text[..maxLength];
    }
  }

  datatype ComplexityInfo = ComplexityInfo(labelText: string, color: string)

  /** `getComplexityInfo`: the label and colour shown for a (possibly averaged) level. */
  function GetComplexityInfo(level: real): (info: ComplexityInfo)
    ensures level <= 2.0 <==> info.labelText == "Faible"
    ensures 2.0 < level <= 4.0 <==> info.labelText == "Moyenne"
    ensures 4.0 < level <==> info.labelText == "Élevée"
    ensures info.color == (if info.labelText == "Faible" then "bg-green-400"
                           else if info.labelText == "Moyenne" then "bg-amber-500" else "bg-red-400")
  {
    if level <= 2.0 then ComplexityInfo("Faible", "bg-green-400")
    else if level <= 4.0 then ComplexityInfo("Moyenne", "bg-amber-500")
    else ComplexityInfo("Élevée", "bg-red-400")
  }

  /** The rank of a label: Faible < Moyenne < Élevée. */
  function LabelRank(labelText: string): nat {
    if labelText == "Faible" then 0 else if labelText == "Moyenne" then 1 else 2
  }

  /** A higher level never gets a lower label. */
  lemma GetComplexityInfoMonotone(a: real, b: real)
    requires a <= b
    ensures LabelRank(GetComplexityInfo(a).labelText) <= LabelRank(GetComplexityInfo(b).labelText)
  {
  }

  /** `convertComplexityToLabel`: a name for each enum value, "Inconnue" otherwise. */
  function ConvertComplexityToLabel(c: real): (r: string)
    ensures IsComplexity(c) <==> r != "Inconnue"
    ensures IsComplexity(c) ==> r == GetComplexityInfo(c).labelText
    ensures c == LOW <==> r == "Faible"
    ensures c == MEDIUM <==> r == "Moyenne"
    ensures c == HIGH <==> r == "Élevée"
  {
    if c == LOW then "Faible"
    else if c == MEDIUM then "Moyenne"
    else if c == HIGH then "Élevée"
    else "Inconnue"
  }

  // ---------------------------------------------------------------------------
  // Rebuilding an estimate from stored rows

  /** A row of the `steps` table; `parentId` is None for a top-level step. */
  datatype SupabaseStep = SupabaseStep(
    id: string,
    name: string,
    description: Option<string>,
    complexity: real,
    color: string,
    disableMaxMultiplier: Option<bool>,
    hours: Option<real>,
    parentId: Option<string>,
    isAdditional: Option<bool>,
    notes: Option<string>)

  datatype SupabaseFeature = SupabaseFeature(id: string, labelText: string, icon: string, color: string)

  datatype SupabaseSchedule = SupabaseSchedule(id: string, duration: real, repartition: seq<RepartitionEntry>)

  datatype SupabaseEstimate = SupabaseEstimate(
    id: string,
    name: string,
    description: Option<string>,
    primaryColor: string,
    secondaryColor: Option<string>,
    hourlyRate: real,
    hoursMaxMultiplier: Option<real>,
    signLink: Option<string>,
    features: seq<SupabaseFeature>,
    steps: seq<SupabaseStep>,
    schedule: seq<SupabaseSchedule>)

  function IsRoot(r: SupabaseStep): bool { r.parentId.None? }

  /** The rows that are top-level steps, in row order. */
  function RootRows(rows: seq<SupabaseStep>): seq<SupabaseStep> {
    Filter(rows, IsRoot)
  }

  /** The rows whose parent is `parentId`, in row order. */
  function ChildRows(rows: seq<SupabaseStep>, parentId: string): seq<SupabaseStep> {
    Filter(rows, (r: SupabaseStep) => r.parentId == Some(parentId))
  }

  /** `x || undefined` on an optional string: the empty string counts as absent. */
  function NonEmptyOrNone(x: Option<string>): (r: Option<string>)
    ensures r.Some? <==> x.Some? && x.value != ""
    ensures r.Some? ==> r == x
  {
    if x.Some? && x.value != "" then x else None
  }

  /** `hours_max_multiplier || 1`: a missing or zero multiplier becomes 1. */
  function MultiplierOrOne(x: Option<real>): (r: real)
    ensures r != 0.0
    ensures x.Some? && x.value != 0.0 ==> r == x.value
    ensures x.None? || x.value == 0.0 ==> r == 1.0
  {
    if x.Some? && x.value != 0.0 then x.value else 1.0
  }

  /** The `i`-th child row as a sub-step. Colour, flags and children are not set by the
      source; they take the schema defaults here. */
  function SubStepFromRow(r: SupabaseStep, i: nat): Step {
    Step(Some(r.id), r.name, r.description, i as real, r.hours.GetOr(0.0), false,
         r.complexity, "#000000", false, None, [])
  }

  /** `mapSubSteps`. */
  function MapSubSteps(rows: seq<SupabaseStep>, parentId: string): seq<Step> {
    var children := ChildRows(rows, parentId);
    seq(|children|, i requires 0 <= i < |children| => SubStepFromRow(children[i], i))
  }

  /** A top-level row as a step. Its own hours and complexity are not set by the source
      (nothing reads them); they take the schema defaults here. */
  function StepFromRootRow(rows: seq<SupabaseStep>, r: SupabaseStep): Step {
    Step(Some(r.id), r.name, r.description, 0.0, 0.0, r.disableMaxMultiplier.GetOr(false),
         LOW, r.color, r.isAdditional.GetOr(false), NonEmptyOrNone(r.notes),
         MapSubSteps(rows, r.id))
  }

  /** `supabaseEstimateToEstimate`. */
  function SupabaseEstimateToEstimate(e: SupabaseEstimate): Estimate {
    var roots := RootRows(e.steps);
    Estimate(
      Some(e.id), e.name, e.description, e.primaryColor, e.secondaryColor, e.hourlyRate,
      NonEmptyOrNone(e.signLink), MultiplierOrOne(e.hoursMaxMultiplier),
      seq(|e.features|, i requires 0 <= i < |e.features| =>
        Feature(e.features[i].labelText, e.features[i].icon, e.features[i].color)),
      seq(|roots|, i requires 0 <= i < |roots| => StepFromRootRow(e.steps, roots[i])),
      seq(|e.schedule|, i requires 0 <= i < |e.schedule| =>
        Schedule(e.schedule[i].duration, e.schedule[i].repartition)))
  }

  /** The shape of the rebuilt tree: one top-level step per row without a parent, in row
      order; under it, one sub-step per row whose parent is that row, in row order, with
      `order` its position and `hours` defaulting to 0. A row whose parent is not a
      top-level row becomes no sub-step at all. */
  lemma {:induction false} TreeShape(e: SupabaseEstimate, k: nat, i: nat)
    requires k < |SupabaseEstimateToEstimate(e).steps|
    ensures var roots := RootRows(e.steps);
      var step := SupabaseEstimateToEstimate(e).steps[k];
      && |SupabaseEstimateToEstimate(e).steps| == |roots|
      && roots[k] in e.steps && roots[k].parentId == None
      && step.id == Some(roots[k].id) && step.name == roots[k].name
      && step.disableRate == (roots[k].disableMaxMultiplier == Some(true))
      && step.isAdditional == (roots[k].isAdditional == Some(true))
      && (i < |step.subSteps| ==>
            var row := ChildRows(e.steps, roots[k].id)[i];
            && row in e.steps && row.parentId == Some(roots[k].id)
            && step.subSteps[i].id == Some(row.id)
            && step.subSteps[i].order == i as real
            && step.subSteps[i].hours == row.hours.GetOr(0.0))
  {
  }

  /** Every row without a parent becomes a top-level step, and every row whose parent
      is a top-level row becomes a sub-step of that step. */
  lemma {:induction false} RowsAreKept(e: SupabaseEstimate, row: SupabaseStep)
    requires row in e.steps
    ensures row.parentId == None ==>
      exists k :: 0 <= k < |SupabaseEstimateToEstimate(e).steps|
        && SupabaseEstimateToEstimate(e).steps[k].id == Some(row.id)
    ensures forall k :: 0 <= k < |RootRows(e.steps)| && row.parentId == Some(RootRows(e.steps)[k].id) ==>
      exists i :: 0 <= i < |SupabaseEstimateToEstimate(e).steps[k].subSteps|
        && SupabaseEstimateToEstimate(e).steps[k].subSteps[i].id == Some(row.id)
  {
    var roots := RootRows(e.steps);
    var est := SupabaseEstimateToEstimate(e);
    if row.parentId == None {
      var k :| 0 <= k < |roots| && roots[k] == row;
      assert est.steps[k].id == Some(row.id);
    }
    forall k | 0 <= k < |roots| && row.parentId == Some(roots[k].id)
      ensures exists i :: 0 <= i < |est.steps[k].subSteps| && est.steps[k].subSteps[i].id == Some(row.id)
    {
      var children := ChildRows(e.steps, roots[k].id);
      var i :| 0 <= i < |children| && children[i] == row;
      assert est.steps[k].subSteps[i].id == Some(row.id);
    }
  }

  /** Stored rows that satisfy the constraints give an estimate the schema accepts. */
  lemma {:induction false} SupabaseEstimateToEstimateValid(e: SupabaseEstimate)
    requires |e.name| >= 1 && e.hourlyRate >= 0.0
    requires e.hoursMaxMultiplier.None? || e.hoursMaxMultiplier.value == 0.0 || e.hoursMaxMultiplier.value >= 1.0
    requires forall r :: r in e.steps ==> IsComplexity(r.complexity) && (r.hours.None? || r.hours.value >= 0.0)
    requires forall i :: 0 <= i < |e.schedule| ==>
      Schedule(e.schedule[i].duration, e.schedule[i].repartition).duration >= 1.0
      && forall j :: 0 <= j < |e.schedule[i].repartition| ==> ValidEntry(e.schedule[i].repartition[j])
    ensures ValidEstimate(SupabaseEstimateToEstimate(e))
  {
    var est := SupabaseEstimateToEstimate(e);
    var roots := RootRows(e.steps);
    forall k | 0 <= k < |est.steps| ensures ValidStep(est.steps[k]) {
      var children := ChildRows(e.steps, roots[k].id);
      var subs := est.steps[k].subSteps;
      forall i | 0 <= i < |subs| ensures ValidStep(subs[i]) {
        assert children[i] in e.steps;
      }
    }
    forall i | 0 <= i < |est.schedule| ensures ValidSchedule(est.schedule[i]) {
    }
  }
}
