/** The sub-step dialog (`sub-step-dialog.tsx`): the four fields it edits, where they start,
    and saving them back into the sub-step list of the form. */
module SubStepDialog {
  import opened Common
  import opened StepSchema
  import opened EstimateSchema
  import opened Form

  /** The dialog's state: name, description, hours and complexity. */
  datatype DialogFields = DialogFields(name: string, description: string, hours: real, complexity: real)

  /** `a || fallback` on an optional string: the empty string and `undefined` are falsy. */
  function OrString(a: Option<string>, fallback: string): (r: string)
    ensures a.Some? && a.value != "" ==> r == a.value
    ensures a.None? || a.value == "" ==> r == fallback
  {
    if a.None? || a.value == "" then fallback else a.value
  }

  /** `a || fallback` on an optional number: 0 and `undefined` (and `NaN`) are falsy. */
  function OrReal(a: Option<real>, fallback: real): (r: real)
    ensures a.Some? && a.value != 0.0 ==> r == a.value
    ensures a.None? || a.value == 0.0 ==> r == fallback
  {
    if a.None? || a.value == 0.0 then fallback else a.value
  }

  /** The `useState` initial values, from the sub-step at the dialog's index if there is one. */
  function InitialFields(current: Option<Step>): (f: DialogFields)
    ensures current.None? ==> f == DialogFields("", "", 0.0, MEDIUM)
    ensures current.Some? ==> f.name == current.value.name && f.hours == current.value.hours
    ensures current.Some? ==> f.description == current.value.description.GetOr("")
    ensures current.Some? && current.value.complexity != 0.0 ==> f.complexity == current.value.complexity
  {
    var name := OrString(if current.Some? then Some(current.value.name) else None, "");
    var description := OrString(if current.Some? then current.value.description else None, "");
    var hours := OrReal(if current.Some? then Some(current.value.hours) else None, 0.0);
    var complexity := OrReal(if current.Some? then Some(current.value.complexity) else None, MEDIUM);
    DialogFields(name, description, hours, complexity)
  }

  /** The values the effect copies in when the dialog has a current sub-step. */
  function SyncedFields(current: Step): DialogFields {
    DialogFields(current.name, OrString(current.description, ""), current.hours, current.complexity)
  }

  /** For a sub-step with a complexity, the effect copies in what the dialog started with;
      a complexity of 0 starts at MEDIUM and is then replaced by 0. */
  lemma InitialMatchesSynced(current: Step)
    ensures current.complexity != 0.0 <==> InitialFields(Some(current)) == SyncedFields(current)
  {
  }

  /** `Number(value) || 0`: the number typed, or 0 for input that is not a number (`None`). */
  function HoursInput(parsed: Option<real>): (h: real)
    ensures parsed.Some? ==> h == parsed.value
    ensures parsed.None? ==> h == 0.0
  {
    OrReal(parsed, 0.0)
  }

  /** `updatedSubSteps[index] = { ...updatedSubSteps[index], name, description, hours, complexity }`:
      the entry at a non-negative index gets the four fields and keeps the rest; a negative
      index only sets a property of the array, and the entries stay as they are. */
  function Saved(subs: seq<Step>, index: int, f: DialogFields): (r: seq<Step>)
    requires index < |subs|
    ensures |r| == |subs|
    ensures forall k :: 0 <= k < |subs| && k != index ==> r[k] == subs[k]
    ensures 0 <= index ==> r[index] == subs[index].(name := r[index].name, description := r[index].description,
                                                    hours := r[index].hours, complexity := r[index].complexity)
  {
    if index < 0 then subs
    else subs[index := subs[index].(name := f.name, description := Some(f.description), hours := f.hours, complexity := f.complexity)]
  }

  /** Reopening the dialog on the saved entry shows the fields that were saved. */
  lemma SavedReadsBack(subs: seq<Step>, index: nat, f: DialogFields)
    requires index < |subs|
    ensures SyncedFields(Saved(subs, index, f)[index]) == f
    ensures f.complexity != 0.0 ==> InitialFields(Some(Saved(subs, index, f)[index])) == f
  {
  }

  /** Saving twice with the same fields gives the list saving once gives. */
  lemma SaveIdempotent(subs: seq<Step>, index: int, f: DialogFields)
    requires index < |subs|
    ensures Saved(Saved(subs, index, f), index, f) == Saved(subs, index, f)
  {
  }

  /** The dialog, over the sub-steps of step `stepIndex` of the form. */
  class Dialog {
    const form: EstimateForm
    const stepIndex: nat
    const index: int
    var fields: DialogFields

    /** The dialog as mounted on position `index`: its fields start from the sub-step there.
        Reopening does not reset them; only a change of sub-step or index does. */
    constructor(form: EstimateForm, stepIndex: nat, index: int)
      requires stepIndex < |form.values.steps|
      ensures this.form == form && this.stepIndex == stepIndex && this.index == index
      ensures var subs := form.values.steps[stepIndex].subSteps;
        fields == InitialFields(if 0 <= index < |subs| then Some(subs[index]) else None)
    {
      this.form := form;
      this.stepIndex := stepIndex;
      this.index := index;
      var subs := form.values.steps[stepIndex].subSteps;
      fields := InitialFields(if 0 <= index < |subs| then Some(subs[index]) else None);
    }

    /** The hours input: `setHours(Number(e.target.value) || 0)`. */
    method SetHours(parsed: Option<real>)
      modifies this
      ensures fields == old(fields).(hours := HoursInput(parsed))
    {
      fields := fields.(hours := HoursInput(parsed));
    }

    /** `handleSave`: the sub-step at the dialog's index takes the dialog's four fields. */
    method HandleSave()
      requires stepIndex < |form.values.steps| && index < |form.values.steps[stepIndex].subSteps|
      modifies form
      ensures form.values == WithSubSteps(old(form.values), stepIndex,
                Saved(old(form.values.steps[stepIndex].subSteps), index, fields))
    {
      var subSteps := form.values.steps[stepIndex].subSteps;
      form.SetSubSteps(stepIndex, Saved(subSteps, index, fields));
    }
  }
}
