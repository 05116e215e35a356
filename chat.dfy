/** The tool calls the estimate assistant makes on the form (`chat.tsx`, `onToolCall`):
    add a step, edit a step, add a sub-step, edit a sub-step, edit the estimate's fields.
    Fresh ids (`uuidv4()`) are parameters. */
module Chat {
  import opened Common
  import opened StepSchema
  import opened EstimateSchema
  import opened Form

  /** The optional fields of an edit request; `None` is a key the request leaves out. */
  datatype Fields = Fields(
    name: Option<string>,
    description: Option<string>,
    order: Option<real>,
    hours: Option<real>,
    disableRate: Option<bool>,
    complexity: Option<real>,
    color: Option<string>,
    isAdditional: Option<bool>,
    notes: Option<string>)

  /** A request that holds no field. */
  const NO_FIELDS := Fields(None, None, None, None, None, None, None, None, None)

  /** One entry of an `edit_step` request's `subSteps`: the id it targets and its fields. */
  datatype SubStepEdit = SubStepEdit(id: Option<string>, fields: Fields)

  /** An `edit_step` request: the id of the step, its fields and the sub-step entries. */
  datatype StepEdit = StepEdit(id: Option<string>, fields: Fields, subSteps: Option<seq<SubStepEdit>>)

  /** `{ ...s, ...fields }`: every key the request holds replaces the step's value. */
  function Overlay(s: Step, f: Fields): (r: Step)
    ensures r.id == s.id && r.subSteps == s.subSteps
    ensures r.name == (if f.name.Some? then f.name.value else s.name)
    ensures r.description == (if f.description.Some? then f.description else s.description)
    ensures r.order == (if f.order.Some? then f.order.value else s.order)
    ensures r.hours == (if f.hours.Some? then f.hours.value else s.hours)
    ensures r.disableRate == (if f.disableRate.Some? then f.disableRate.value else s.disableRate)
    ensures r.complexity == (if f.complexity.Some? then f.complexity.value else s.complexity)
    ensures r.color == (if f.color.Some? then f.color.value else s.color)
    ensures r.isAdditional == (if f.isAdditional.Some? then f.isAdditional.value else s.isAdditional)
    ensures r.notes == (if f.notes.Some? then f.notes else s.notes)
  {
    s.(name := f.name.GetOr(s.name),
       description := if f.description.Some? then f.description else s.description,
       order := f.order.GetOr(s.order),
       hours := f.hours.GetOr(s.hours),
       disableRate := f.disableRate.GetOr(s.disableRate),
       complexity := f.complexity.GetOr(s.complexity),
       color := f.color.GetOr(s.color),
       isAdditional := f.isAdditional.GetOr(s.isAdditional),
       notes := if f.notes.Some? then f.notes else s.notes)
  }

  /** A request that holds no field changes nothing. */
  lemma OverlayNothing(s: Step)
    ensures Overlay(s, NO_FIELDS) == s
  {
  }

  /** Overlaying the same fields twice is overlaying them once. */
  lemma OverlayIdempotent(s: Step, f: Fields)
    ensures Overlay(Overlay(s, f), f) == Overlay(s, f)
  {
  }

  /** `steps.findIndex((s) => s.id === id)`, with `None` for -1; `steps.find(...)` is the
      step at that index. Two missing ids are equal, as `undefined === undefined`. */
  function FindStep(steps: seq<Step>, id: Option<string>): (r: Option<nat>)
    ensures r.Some? ==> r.value < |steps| && steps[r.value].id == id
    ensures r.Some? ==> forall j :: 0 <= j < r.value ==> steps[j].id != id
    ensures r.None? ==> forall j :: 0 <= j < |steps| ==> steps[j].id != id
  {
    if steps == [] then None
    else if steps[0].id == id then Some(0)
    else match FindStep(steps[1..], id)
      case None => None
      case Some(k) => Some(k + 1)
  }

  /** A step list that agrees with another on the steps up to the first match agrees with it
      on where the match is. */
  lemma FindStepAgrees(a: seq<Step>, b: seq<Step>, id: Option<string>)
    requires FindStep(a, id).Some?
    requires |a| == |b|
    requires forall j :: 0 <= j < FindStep(a, id).value ==> a[j] == b[j]
    requires b[FindStep(a, id).value].id == id
    ensures FindStep(b, id) == FindStep(a, id)
  {
    var i := FindStep(a, id).value;
    assert forall j :: 0 <= j < i ==> b[j].id != id;
  }

  /** `edits?.find((ss) => ss.id === id)`. */
  function FirstEdit(edits: Option<seq<SubStepEdit>>, id: Option<string>): (r: Option<SubStepEdit>)
    ensures r.Some? ==> edits.Some? && r.value.id == id
    ensures r.Some? ==> exists k :: 0 <= k < |edits.value| && edits.value[k] == r.value &&
                          forall j :: 0 <= j < k ==> edits.value[j].id != id
    ensures r.None? && edits.Some? ==> forall k :: 0 <= k < |edits.value| ==> edits.value[k].id != id
    decreases if edits.Some? then |edits.value| else 0
  {
    if edits.None? || edits.value == [] then None
    else if edits.value[0].id == id then Some(edits.value[0])
    else FirstEdit(Some(edits.value[1..]), id)
  }

  /** One sub-step of `edit_step`: merged with the first entry carrying its id, if any. */
  function MergeSubStep(s: Step, edits: Option<seq<SubStepEdit>>): Step {
    match FirstEdit(edits, s.id)
    case None => s
    case Some(u) => Overlay(s, u.fields)
  }

  /** The sub-steps after `edit_step`: same count, same order, same ids, each merged with
      the entry that carries its id and left alone when no entry does. */
  function MergeSubSteps(subs: seq<Step>, edits: Option<seq<SubStepEdit>>): (r: seq<Step>)
    ensures |r| == |subs|
    ensures forall k :: 0 <= k < |subs| ==> r[k].id == subs[k].id && r[k].subSteps == subs[k].subSteps
    ensures forall k :: 0 <= k < |subs| ==> r[k] == MergeSubStep(subs[k], edits)
  {
    seq(|subs|, k requires 0 <= k < |subs| => MergeSubStep(subs[k], edits))
  }

  /** Entries whose id matches no sub-step change nothing. */
  lemma UnknownSubStepEditsIgnored(subs: seq<Step>, edits: seq<SubStepEdit>)
    requires forall k, j :: 0 <= k < |subs| && 0 <= j < |edits| ==> edits[j].id != subs[k].id
    ensures MergeSubSteps(subs, Some(edits)) == subs
  {
    forall k | 0 <= k < |subs|
      ensures MergeSubStep(subs[k], Some(edits)) == subs[k]
    {
      assert FirstEdit(Some(edits), subs[k].id).None?;
    }
  }

  /** `{ ...formStep, ...step, subSteps: updatedSubSteps }`. */
  function EditedStep(s: Step, edit: StepEdit): (r: Step)
    ensures r.id == s.id
    ensures r.subSteps == MergeSubSteps(s.subSteps, edit.subSteps)
    ensures r.(subSteps := s.subSteps) == Overlay(s, edit.fields)
  {
    Overlay(s, edit.fields).(subSteps := MergeSubSteps(s.subSteps, edit.subSteps))
  }

  /** The step list after `edit_step`: unchanged when no step has the request's id, and
      otherwise only the first step with that id is replaced. */
  function EditedSteps(steps: seq<Step>, edit: StepEdit): (r: seq<Step>)
    ensures |r| == |steps|
  {
    match FindStep(steps, edit.id)
    case None => steps
    case Some(i) => steps[i := EditedStep(steps[i], edit)]
  }

  /** `edit_step` changes only the first step whose id is the request's, which keeps its id
      and gets the request's fields and merged sub-steps; an unknown id changes nothing. */
  lemma EditStepOnlyTarget(steps: seq<Step>, edit: StepEdit, j: nat)
    requires j < |steps|
    ensures FindStep(steps, edit.id) != Some(j) ==> EditedSteps(steps, edit)[j] == steps[j]
    ensures FindStep(steps, edit.id) == Some(j) ==>
      && EditedSteps(steps, edit)[j] == EditedStep(steps[j], edit)
      && steps[j].id == edit.id
      && forall i :: 0 <= i < j ==> steps[i].id != edit.id
    ensures (forall i :: 0 <= i < |steps| ==> steps[i].id != edit.id) ==> EditedSteps(steps, edit) == steps
  {
  }

  /** Sending the same `edit_step` request twice gives the list one request gives. */
  lemma EditStepIdempotent(steps: seq<Step>, edit: StepEdit)
    ensures EditedSteps(EditedSteps(steps, edit), edit) == EditedSteps(steps, edit)
  {
    var once := EditedSteps(steps, edit);
    match FindStep(steps, edit.id)
    case None =>
    case Some(i) =>
      FindStepAgrees(steps, once, edit.id);
      var s := steps[i];
      var e := EditedStep(s, edit);
      OverlayIdempotent(s, edit.fields);
      var merged := MergeSubSteps(s.subSteps, edit.subSteps);
      forall k | 0 <= k < |merged|
        ensures MergeSubStep(merged[k], edit.subSteps) == merged[k]
      {
        var sub := s.subSteps[k];
        match FirstEdit(edit.subSteps, sub.id)
        case None =>
        case Some(u) => OverlayIdempotent(sub, u.fields);
      }
      assert MergeSubSteps(merged, edit.subSteps) == merged;
      assert EditedStep(e, edit) == e;
  }

  /** `{ ...step, id: uuidv4(), subSteps: step.subSteps.map((ss) => ({ ...ss, id: uuidv4() })) }`. */
  function WithFreshIds(step: Step, newId: string, subIds: seq<string>): (r: Step)
    requires |subIds| == |step.subSteps|
    ensures r.id == Some(newId) && |r.subSteps| == |step.subSteps|
    ensures forall k :: 0 <= k < |r.subSteps| ==>
      r.subSteps[k].id == Some(subIds[k]) && r.subSteps[k] == step.subSteps[k].(id := r.subSteps[k].id)
    ensures r == step.(id := r.id, subSteps := r.subSteps)
  {
    step.(id := Some(newId),
          subSteps := seq(|subIds|, k requires 0 <= k < |subIds| => step.subSteps[k].(id := Some(subIds[k]))))
  }

  /** `add_step`: the step, with a fresh id for it and for each of its sub-steps, appended
      to the step list. */
  method AddStep(form: EstimateForm, step: Step, newId: string, subIds: seq<string>)
    requires |subIds| == |step.subSteps|
    modifies form
    ensures form.values == old(form.values).(steps := old(form.values.steps) + [WithFreshIds(step, newId, subIds)])
  {
    form.AppendStep(WithFreshIds(step, newId, subIds));
  }

  /** `add_step` grows the list by one at the end, keeps every existing step, and the new
      step carries the fresh ids and every field of the request. */
  lemma AddStepAppends(steps: seq<Step>, step: Step, newId: string, subIds: seq<string>)
    requires |subIds| == |step.subSteps|
    ensures var r := steps + [WithFreshIds(step, newId, subIds)];
      && |r| == |steps| + 1 && r[..|steps|] == steps
      && r[|steps|].id == Some(newId) && r[|steps|].name == step.name && r[|steps|].hours == step.hours
      && |r[|steps|].subSteps| == |step.subSteps|
      && forall k :: 0 <= k < |step.subSteps| ==> r[|steps|].subSteps[k].id == Some(subIds[k])
  {
    var r := steps + [WithFreshIds(step, newId, subIds)];
    assert r[..|steps|] == steps;
  }

  /** `edit_step`: nothing happens when no step has the request's id; otherwise that step
      is overlaid with the request and its sub-steps merged with the request's entries. */
  method EditStep(form: EstimateForm, edit: StepEdit)
    modifies form
    ensures form.values == old(form.values).(steps := EditedSteps(old(form.values.steps), edit))
  {
    var stepIndex := FindStep(form.values.steps, edit.id);
    if stepIndex.None? {
      return;
    }
    var formStep := form.values.steps[stepIndex.value];
    form.SetStep(stepIndex.value, EditedStep(formStep, edit));
  }

  /** The step list after `add_sub_step`: the sub-step, with a fresh id, appended to the
      sub-steps of the first step whose id is the request's `parent_id`. */
  function WithNewSubStep(steps: seq<Step>, parentId: Option<string>, sub: Step, newId: string): (r: seq<Step>)
    ensures |r| == |steps|
  {
    match FindStep(steps, parentId)
    case None => steps
    case Some(i) => steps[i := steps[i].(subSteps := steps[i].subSteps + [sub.(id := Some(newId))])]
  }

  /** `add_sub_step` changes only the parent: its sub-steps keep their prefix and gain one
      entry at the end, the request's sub-step with the fresh id; an unknown parent changes
      nothing. */
  lemma AddSubStepOnlyParent(steps: seq<Step>, parentId: Option<string>, sub: Step, newId: string, j: nat)
    requires j < |steps|
    ensures FindStep(steps, parentId) != Some(j) ==> WithNewSubStep(steps, parentId, sub, newId)[j] == steps[j]
    ensures FindStep(steps, parentId) == Some(j) ==>
      var p := WithNewSubStep(steps, parentId, sub, newId)[j];
      && p == steps[j].(subSteps := p.subSteps)
      && |p.subSteps| == |steps[j].subSteps| + 1
      && p.subSteps[..|steps[j].subSteps|] == steps[j].subSteps
      && p.subSteps[|steps[j].subSteps|] == sub.(id := Some(newId))
    ensures (forall i :: 0 <= i < |steps| ==> steps[i].id != parentId) ==> WithNewSubStep(steps, parentId, sub, newId) == steps
  {
    if FindStep(steps, parentId) == Some(j) {
      var subs := steps[j].subSteps + [sub.(id := Some(newId))];
      assert subs[..|steps[j].subSteps|] == steps[j].subSteps;
    }
  }

  /** `add_sub_step`: nothing happens when no step has the request's `parent_id`; otherwise
      the new sub-step is appended to that step's sub-steps, which are also the tool's output. */
  method AddSubStep(form: EstimateForm, parentId: Option<string>, sub: Step, newId: string)
    returns (output: Option<seq<Step>>)
    modifies form
    ensures form.values == old(form.values).(steps := WithNewSubStep(old(form.values.steps), parentId, sub, newId))
    ensures output.Some? <==> FindStep(old(form.values.steps), parentId).Some?
    ensures output.Some? ==> output.value == form.values.steps[FindStep(old(form.values.steps), parentId).value].subSteps
  {
    var parentStepIndex := FindStep(form.values.steps, parentId);
    if parentStepIndex.None? {
      return None;
    }
    var formStep := form.values.steps[parentStepIndex.value];
    var updatedSubSteps := formStep.subSteps + [sub.(id := Some(newId))];
    form.SetSubSteps(parentStepIndex.value, updatedSubSteps);
    output := Some(updatedSubSteps);
  }

  /** `{ ...ss, ...input }` on every sub-step whose id is the request's. */
  function EditMatching(subs: seq<Step>, id: Option<string>, f: Fields): (r: seq<Step>)
    ensures |r| == |subs|
    ensures forall k :: 0 <= k < |subs| ==> r[k].id == subs[k].id
    ensures forall k :: 0 <= k < |subs| && subs[k].id != id ==> r[k] == subs[k]
    ensures forall k :: 0 <= k < |subs| && subs[k].id == id ==> r[k] == Overlay(subs[k], f)
  {
    seq(|subs|, k requires 0 <= k < |subs| => if subs[k].id == id then Overlay(subs[k], f) else subs[k])
  }

  /** The step list after `edit_sub_step`: the sub-steps of the first step whose id is the
      request's `parent_id` get the request's fields wherever their id is the request's. */
  function WithEditedSubSteps(steps: seq<Step>, parentId: Option<string>, id: Option<string>, f: Fields): (r: seq<Step>)
    ensures |r| == |steps|
  {
    match FindStep(steps, parentId)
    case None => steps
    case Some(i) => steps[i := steps[i].(subSteps := EditMatching(steps[i].subSteps, id, f))]
  }

  /** `edit_sub_step` changes only the parent's sub-steps, keeping their count, order and
      ids, and only those whose id is the request's; an unknown parent changes nothing. */
  lemma EditSubStepOnlyMatching(steps: seq<Step>, parentId: Option<string>, id: Option<string>, f: Fields, j: nat)
    requires j < |steps|
    ensures FindStep(steps, parentId) != Some(j) ==> WithEditedSubSteps(steps, parentId, id, f)[j] == steps[j]
    ensures FindStep(steps, parentId) == Some(j) ==>
      var p := WithEditedSubSteps(steps, parentId, id, f)[j];
      && p == steps[j].(subSteps := p.subSteps)
      && |p.subSteps| == |steps[j].subSteps|
      && forall k :: 0 <= k < |p.subSteps| ==>
           p.subSteps[k].id == steps[j].subSteps[k].id
           && p.subSteps[k] == (if steps[j].subSteps[k].id == id then Overlay(steps[j].subSteps[k], f) else steps[j].subSteps[k])
    ensures (forall i :: 0 <= i < |steps| ==> steps[i].id != parentId) ==> WithEditedSubSteps(steps, parentId, id, f) == steps
  {
  }

  /** The index of the last sub-step whose id is `id`. */
  function LastMatch(subs: seq<Step>, id: Option<string>): (r: Option<nat>)
    ensures r.Some? ==> r.value < |subs| && subs[r.value].id == id
    ensures r.Some? ==> forall k :: r.value < k < |subs| ==> subs[k].id != id
    ensures r.None? ==> forall k :: 0 <= k < |subs| ==> subs[k].id != id
  {
    if subs == [] then None
    else if subs[|subs| - 1].id == id then Some(|subs| - 1)
    else LastMatch(subs[..|subs| - 1], id)
  }

  /** `updatedSubStep`: the sub-step the `map` merged last, as it stands in the new list,
      or `None` (`undefined`) when none matched. */
  function LastEdited(subs: seq<Step>, id: Option<string>, f: Fields): (r: Option<Step>)
    ensures r.None? <==> forall k :: 0 <= k < |subs| ==> subs[k].id != id
    ensures r.Some? ==> r.value == EditMatching(subs, id, f)[LastMatch(subs, id).value]
  {
    match LastMatch(subs, id)
    case None => None
    case Some(k) => Some(Overlay(subs[k], f))
  }

  /** `edit_sub_step`: nothing happens when no step has the request's `parent_id`; otherwise
      the matching sub-steps are merged with the request, and the tool's output is the last
      merged one (`undefined` when none matched). */
  method EditSubStep(form: EstimateForm, parentId: Option<string>, id: Option<string>, f: Fields)
    returns (found: bool, output: Option<Step>)
    modifies form
    ensures form.values == old(form.values).(steps := WithEditedSubSteps(old(form.values.steps), parentId, id, f))
    ensures found <==> FindStep(old(form.values.steps), parentId).Some?
    ensures found ==> output == LastEdited(old(form.values.steps)[FindStep(old(form.values.steps), parentId).value].subSteps, id, f)
    ensures !found ==> output.None?
  {
    var parentStepIndex := FindStep(form.values.steps, parentId);
    if parentStepIndex.None? {
      return false, None;
    }
    var formStep := form.values.steps[parentStepIndex.value];
    var updatedSubSteps := EditMatching(formStep.subSteps, id, f);
    output := LastEdited(formStep.subSteps, id, f);
    form.SetSubSteps(parentStepIndex.value, updatedSubSteps);
    found := true;
  }

  /** The values after `form.setValue(key, value)` for each key of the request, in order. */
  function SetAll(e: Estimate, updates: seq<EstimateField>): Estimate {
    if updates == [] then e else Set(SetAll(e, updates[..|updates| - 1]), updates[|updates| - 1])
  }

  /** `edit_estimate`: `Object.keys(estimate).forEach((key) => form.setValue(key, estimate[key]))`. */
  method EditEstimate(form: EstimateForm, updates: seq<EstimateField>)
    modifies form
    ensures form.values == SetAll(old(form.values), updates)
  {
    for k := 0 to |updates|
      invariant form.values == SetAll(old(form.values), updates[..k])
    {
      assert updates[..k + 1][..k] == updates[..k];
      form.SetValue(updates[k]);
    }
    assert updates[..|updates|] == updates;
  }

  /** `edit_estimate` leaves every key the request does not hold unchanged. */
  lemma {:induction false} EditEstimateKeepsOtherKeys(e: Estimate, updates: seq<EstimateField>, key: nat)
    requires key < KEYS
    requires forall k :: 0 <= k < |updates| ==> KeyOf(updates[k]) != key
    ensures Get(SetAll(e, updates), key) == Get(e, key)
  {
    if updates != [] {
      EditEstimateKeepsOtherKeys(e, updates[..|updates| - 1], key);
    }
  }

  /** `edit_estimate` gives each key the request holds the request's value (the last one,
      should a key come twice). */
  lemma {:induction false} EditEstimateSetsKeys(e: Estimate, updates: seq<EstimateField>, j: nat)
    requires j < |updates|
    requires forall k :: j < k < |updates| ==> KeyOf(updates[k]) != KeyOf(updates[j])
    ensures Get(SetAll(e, updates), KeyOf(updates[j])) == updates[j]
  {
    if j < |updates| - 1 {
      var init := updates[..|updates| - 1];
      assert forall k :: j < k < |init| ==> init[k] == updates[k];
      EditEstimateSetsKeys(e, init, j);
    }
  }

  /** A request holding every key of the current values, each with its current value,
      changes nothing. */
  lemma EditEstimateWithCurrentValues(e: Estimate)
    ensures SetAll(e, seq(KEYS, k requires 0 <= k < KEYS => Get(e, k))) == e
  {
    var updates := seq(KEYS, k requires 0 <= k < KEYS => Get(e, k));
    var r := SetAll(e, updates);
    forall key | 0 <= key < KEYS
      ensures Get(r, key) == Get(e, key)
    {
      assert KeyOf(updates[key]) == key;
      EditEstimateSetsKeys(e, updates, key);
    }
    SetAllKeepsId(e, updates);
    SameKeysSameEstimate(r, e);
  }

  /** `edit_estimate` never changes the estimate's id. */
  lemma {:induction false} SetAllKeepsId(e: Estimate, updates: seq<EstimateField>)
    ensures SetAll(e, updates).id == e.id
  {
    if updates != [] {
      SetAllKeepsId(e, updates[..|updates| - 1]);
    }
  }
}
