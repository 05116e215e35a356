/** The estimate itself and the constraints and defaults of `CreateEstimateSchema`. */
module EstimateSchema {
  import opened Common
  import opened StepSchema
  import opened ScheduleSchema

  /** A headline feature shown on the overview (display only). */
  datatype Feature = Feature(labelText: string, icon: string, color: string)

  datatype Estimate = Estimate(
    id: Option<string>,
    name: string,
    description: Option<string>,
    primaryColor: string,
    secondaryColor: Option<string>,
    hourlyRate: real,
    signLink: Option<string>,
    hourMaxMultiplier: real,
    features: seq<Feature>,
    steps: seq<Step>,
    schedule: seq<Schedule>)

  const DEFAULT_HOURLY_RATE: real := 135.0
  const DEFAULT_HOUR_MAX_MULTIPLIER: real := 1.2

  /** The zod constraints (the URL format of `signLink` is not checked here). */
  predicate ValidEstimate(e: Estimate) {
    && |e.name| >= 1
    && e.hourlyRate >= 0.0
    && e.hourMaxMultiplier >= 1.0
    && (forall i :: 0 <= i < |e.steps| ==> ValidStep(e.steps[i]))
    && (forall i :: 0 <= i < |e.schedule| ==> ValidSchedule(e.schedule[i]))
  }

  /** The value the schema produces when only a (non-empty) name is given. */
  function DefaultEstimate(name: string): (e: Estimate)
    requires |name| >= 1
    ensures ValidEstimate(e) && e.name == name
    ensures e.hourlyRate == DEFAULT_HOURLY_RATE && e.hourMaxMultiplier == DEFAULT_HOUR_MAX_MULTIPLIER
    ensures e.primaryColor == "#000000" && e.secondaryColor == Some("#FFFFFF")
    ensures e.features == [] && e.steps == [] && e.schedule == []
  {
    Estimate(None, name, None, "#000000", Some("#FFFFFF"), DEFAULT_HOURLY_RATE, None,
             DEFAULT_HOUR_MAX_MULTIPLIER, [], [], [])
  }
}
