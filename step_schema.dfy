/** The step of an estimate and the constraints `CreateStepSchema` puts on it. */
module StepSchema {
  import opened Common

  /** The `Complexity` enum: LOW = 1, MEDIUM = 3, HIGH = 5. */
  const LOW: real := 1.0
  const MEDIUM: real := 3.0
  const HIGH: real := 5.0

  predicate IsComplexity(c: real) {
    c == LOW || c == MEDIUM || c == HIGH
  }

  /** A step as the estimate form holds it. The same type is used for a step and for
      its sub-steps; `subSteps` is empty when the source has none or leaves it out. */
  datatype Step = Step(
    id: Option<string>,
    name: string,
    description: Option<string>,
    order: real,
    hours: real,
    disableRate: bool,
    complexity: real,
    color: string,
    isAdditional: bool,
    notes: Option<string>,
    subSteps: seq<Step>)

  /** The zod constraints, applied at every level of the tree. */
  predicate ValidStep(s: Step) {
    && s.order >= 0.0
    && s.hours >= 0.0
    && IsComplexity(s.complexity)
    && forall i :: 0 <= i < |s.subSteps| ==> ValidStep(s.subSteps[i])
  }

  /** The value the schema produces when only the name is given. */
  function DefaultStep(name: string): (s: Step)
    ensures ValidStep(s) && s.name == name && s.subSteps == []
    ensures s.hours == 0.0 && s.order == 0.0 && s.complexity == LOW
    ensures !s.disableRate && s.color == "#000000"
  {
    Step(None, name, None, 0.0, 0.0, false, LOW, "#000000", false, None, [])
  }
}
