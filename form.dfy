/** The estimate form (the react-hook-form `form` of the editor): the values it holds and
    the `setValue` / `append` writes the handlers make to them. */
module Form {
  import opened Common
  import opened StepSchema
  import opened ScheduleSchema
  import opened EstimateSchema

  /** A top-level key of the form together with the value `form.setValue(key, value)`
      writes there. */
  datatype EstimateField =
    | Name(name: string)
    | Description(description: Option<string>)
    | PrimaryColor(primaryColor: string)
    | SecondaryColor(secondaryColor: Option<string>)
    | HourlyRate(hourlyRate: real)
    | SignLink(signLink: Option<string>)
    | HourMaxMultiplier(hourMaxMultiplier: real)
    | FeatureList(features: seq<Feature>)
    | StepList(steps: seq<Step>)
    | ScheduleList(schedule: seq<Schedule>)

  /** The number of top-level keys. */
  const KEYS: nat := 10

  /** The key a field is written at. */
  function KeyOf(f: EstimateField): (k: nat)
    ensures k < KEYS
  {
    match f
    case Name(_) => 0
    case Description(_) => 1
    case PrimaryColor(_) => 2
    case SecondaryColor(_) => 3
    case HourlyRate(_) => 4
    case SignLink(_) => 5
    case HourMaxMultiplier(_) => 6
    case FeatureList(_) => 7
    case StepList(_) => 8
    case ScheduleList(_) => 9
  }

  /** `form.getValues(key)`, as a field with that key. */
  function Get(e: Estimate, key: nat): (f: EstimateField)
    requires key < KEYS
    ensures KeyOf(f) == key
  {
    if key == 0 then Name(e.name)
    else if key == 1 then Description(e.description)
    else if key == 2 then PrimaryColor(e.primaryColor)
    else if key == 3 then SecondaryColor(e.secondaryColor)
    else if key == 4 then HourlyRate(e.hourlyRate)
    else if key == 5 then SignLink(e.signLink)
    else if key == 6 then HourMaxMultiplier(e.hourMaxMultiplier)
    else if key == 7 then FeatureList(e.features)
    else if key == 8 then StepList(e.steps)
    else ScheduleList(e.schedule)
  }

  /** `form.setValue(key, value)` on the values: the key reads back the new value and every
      other key, and the estimate's id, keep theirs. */
  function Set(e: Estimate, f: EstimateField): (r: Estimate)
    ensures Get(r, KeyOf(f)) == f
    ensures forall k :: 0 <= k < KEYS && k != KeyOf(f) ==> Get(r, k) == Get(e, k)
    ensures r.id == e.id
  {
    match f
    case Name(v) => e.(name := v)
    case Description(v) => e.(description := v)
    case PrimaryColor(v) => e.(primaryColor := v)
    case SecondaryColor(v) => e.(secondaryColor := v)
    case HourlyRate(v) => e.(hourlyRate := v)
    case SignLink(v) => e.(signLink := v)
    case HourMaxMultiplier(v) => e.(hourMaxMultiplier := v)
    case FeatureList(v) => e.(features := v)
    case StepList(v) => e.(steps := v)
    case ScheduleList(v) => e.(schedule := v)
  }

  /** Two estimates that agree on every key and on the id are the same. */
  lemma SameKeysSameEstimate(a: Estimate, b: Estimate)
    requires a.id == b.id
    requires forall k :: 0 <= k < KEYS ==> Get(a, k) == Get(b, k)
    ensures a == b
  {
    assert Get(a, 0) == Get(b, 0) && Get(a, 1) == Get(b, 1) && Get(a, 2) == Get(b, 2);
    assert Get(a, 3) == Get(b, 3) && Get(a, 4) == Get(b, 4) && Get(a, 5) == Get(b, 5);
    assert Get(a, 6) == Get(b, 6) && Get(a, 7) == Get(b, 7) && Get(a, 8) == Get(b, 8);
    assert Get(a, 9) == Get(b, 9);
  }

  /** The steps with step `i` replaced by `s`. */
  function WithStep(e: Estimate, i: nat, s: Step): (r: Estimate)
    requires i < |e.steps|
    ensures |r.steps| == |e.steps| && r.steps[i] == s
    ensures forall j :: 0 <= j < |e.steps| && j != i ==> r.steps[j] == e.steps[j]
    ensures r == e.(steps := r.steps)
  {
    e.(steps := e.steps[i := s])
  }

  /** The steps with the sub-steps of step `i` replaced by `subs`. */
  function WithSubSteps(e: Estimate, i: nat, subs: seq<Step>): (r: Estimate)
    requires i < |e.steps|
    ensures |r.steps| == |e.steps| && r.steps[i] == e.steps[i].(subSteps := subs)
    ensures forall j :: 0 <= j < |e.steps| && j != i ==> r.steps[j] == e.steps[j]
    ensures r == e.(steps := r.steps)
  {
    WithStep(e, i, e.steps[i].(subSteps := subs))
  }

  /** The form of the estimate editor. */
  class EstimateForm {
    var values: Estimate

    constructor(initial: Estimate)
      ensures values == initial
    {
      values := initial;
    }

    /** `form.setValue(key, value)` for a top-level key. */
    method SetValue(f: EstimateField)
      modifies this
      ensures values == Set(old(values), f)
    {
      values := Set(values, f);
    }

    /** `form.setValue(`steps.${i}`, s)`. */
    method SetStep(i: nat, s: Step)
      requires i < |values.steps|
      modifies this
      ensures values == WithStep(old(values), i, s)
    {
      values := WithStep(values, i, s);
    }

    /** `form.setValue(`steps.${i}.subSteps`, subs)`. */
    method SetSubSteps(i: nat, subs: seq<Step>)
      requires i < |values.steps|
      modifies this
      ensures values == WithSubSteps(old(values), i, subs)
    {
      values := WithSubSteps(values, i, subs);
    }

    /** `append(s)` of the `steps` field array. */
    method AppendStep(s: Step)
      modifies this
      ensures values == old(values).(steps := old(values).steps + [s])
    {
      values := values.(steps := values.steps + [s]);
    }
  }
}
