/** The step sheet (`step-sheet-form.tsx`): adding and deleting the sub-steps of one step
    of the form, and the `substep-<idx>` ids under which its task table lists them. */
module StepSheetForm {
  import opened Common
  import opened StepSchema
  import opened EstimateSchema
  import opened Form

  /** The character of a decimal digit. */
  function DigitChar(d: nat): (c: char)
    requires d < 10
    ensures '0' <= c <= '9'
  {
    (48 + d) as char
  }

  /** A non-negative integer in decimal, as a template literal writes it. */
  function NatToString(n: nat): (s: string)
    ensures |s| >= 1
    ensures n < 10 <==> |s| == 1
    decreases n
  {
    if n < 10 then [DigitChar(n)] else NatToString(n / 10) + [DigitChar(n % 10)]
  }

  /** Different numbers are written differently. */
  lemma {:induction false} NatToStringInjective(a: nat, b: nat)
    requires NatToString(a) == NatToString(b)
    ensures a == b
    decreases a
  {
    if a >= 10 {
      var s := NatToString(a);
      assert s[..|s| - 1] == NatToString(a / 10) && s[|s| - 1] == DigitChar(a % 10);
      var t := NatToString(b);
      assert t[..|t| - 1] == NatToString(b / 10) && t[|t| - 1] == DigitChar(b % 10);
      NatToStringInjective(a / 10, b / 10);
    }
  }

  /** `substep-${idx}`: the id the task table gives the sub-step at `idx`. */
  function TaskId(idx: nat): string {
    "substep-" + NatToString(idx)
  }

  /** Different positions get different task ids. */
  lemma TaskIdInjective(a: nat, b: nat)
    requires TaskId(a) == TaskId(b)
    ensures a == b
  {
    assert TaskId(a)[8..] == NatToString(a);
    assert TaskId(b)[8..] == NatToString(b);
    NatToStringInjective(a, b);
  }

  /** `subSteps.findIndex((s, idx) => `substep-${idx}` === id)` over the positions from
      `start` on, for a list of `n` sub-steps. */
  function TaskIndexFrom(n: nat, id: string, start: nat): (r: int)
    requires start <= n
    ensures r == -1 || start <= r < n
    ensures r >= 0 ==> TaskId(r) == id && forall j :: start <= j < r ==> TaskId(j) != id
    ensures r == -1 ==> forall j :: start <= j < n ==> TaskId(j) != id
    decreases n - start
  {
    if start == n then -1
    else if TaskId(start) == id then start
    else TaskIndexFrom(n, id, start + 1)
  }

  /** The position of the task with id `id` in a list of `n` sub-steps, or -1. */
  function TaskIndex(n: nat, id: string): int {
    TaskIndexFrom(n, id, 0)
  }

  /** Position to id to position is the identity, and an id found in the list is the id of
      the position found. */
  lemma TaskIdRoundTrip(n: nat, i: nat)
    requires i < n
    ensures TaskIndex(n, TaskId(i)) == i
  {
    var r := TaskIndex(n, TaskId(i));
    assert r >= 0;
    TaskIdInjective(r, i);
  }

  /** An id that is no task id of the list is not found. */
  lemma UnknownTaskId(n: nat, id: string)
    requires forall j :: 0 <= j < n ==> TaskId(j) != id
    ensures TaskIndex(n, id) == -1
  {
  }

  /** The sub-step `handleAddSubStep` appends to a list of `n`: "Sub-step n+1", medium
      complexity, no hours, and position `n`. */
  function NewSubStep(n: nat): (s: Step)
    ensures ValidStep(s) && s.subSteps == [] && s.id.None?
    ensures s.order == n as real && s.hours == 0.0 && s.complexity == MEDIUM
    ensures s.name == "Sub-step " + NatToString(n + 1) && !s.disableRate && !s.isAdditional
    ensures s.color == "#000000" && s.description == Some("") && s.notes == Some("")
  {
    Step(None, "Sub-step " + NatToString(n + 1), Some(""), n as real, 0.0, false, MEDIUM, "#000000", false, Some(""), [])
  }

  /** `currentSubSteps.filter((_, i) => i !== taskIndex)`. */
  function RemoveAt(subs: seq<Step>, taskIndex: int): (r: seq<Step>)
    ensures 0 <= taskIndex < |subs| ==> r == subs[..taskIndex] + subs[taskIndex + 1..]
    ensures !(0 <= taskIndex < |subs|) ==> r == subs
  {
    if subs == [] then []
    else
      var n := |subs| - 1;
      var init := RemoveAt(subs[..n], taskIndex);
      var r := if n == taskIndex then init else init + [subs[n]];
      assert 0 <= taskIndex < n ==> subs[..n][..taskIndex] == subs[..taskIndex];
      assert 0 <= taskIndex < n ==> subs[..n][taskIndex + 1..] + [subs[n]] == subs[taskIndex + 1..];
      assert !(0 <= taskIndex < n) ==> subs[..n] + [subs[n]] == subs;
      r
  }

  /** Deleting removes exactly the entry at the index: one entry fewer, and the others keep
      their relative order. */
  lemma RemoveAtShifts(subs: seq<Step>, taskIndex: int, k: nat)
    requires 0 <= taskIndex < |subs| && k < |subs| - 1
    ensures |RemoveAt(subs, taskIndex)| == |subs| - 1
    ensures RemoveAt(subs, taskIndex)[k] == if k < taskIndex then subs[k] else subs[k + 1]
  {
  }

  /** Deleting the task with the id of position `i` removes the sub-step at `i`. */
  lemma DeleteByTaskId(subs: seq<Step>, i: nat)
    requires i < |subs|
    ensures RemoveAt(subs, TaskIndex(|subs|, TaskId(i))) == subs[..i] + subs[i + 1..]
  {
    TaskIdRoundTrip(|subs|, i);
  }

  /** Adding and deleting keep the sub-steps valid. */
  lemma SheetKeepsValid(subs: seq<Step>, taskIndex: int)
    requires forall k :: 0 <= k < |subs| ==> ValidStep(subs[k])
    ensures forall k :: 0 <= k < |subs| + 1 ==> ValidStep((subs + [NewSubStep(|subs|)])[k])
    ensures forall k :: 0 <= k < |RemoveAt(subs, taskIndex)| ==> ValidStep(RemoveAt(subs, taskIndex)[k])
  {
    var r := RemoveAt(subs, taskIndex);
    forall k | 0 <= k < |r|
      ensures ValidStep(r[k])
    {
      if 0 <= taskIndex < |subs| {
        RemoveAtShifts(subs, taskIndex, k);
      }
    }
  }

  /** The sheet of one step of the form, with the dialog state it drives. */
  class StepSheet {
    const form: EstimateForm
    const index: nat
    var subStepOpen: bool
    var subStepIndex: int

    constructor(form: EstimateForm, index: nat)
      ensures this.form == form && this.index == index
      ensures !subStepOpen && subStepIndex == 0
    {
      this.form := form;
      this.index := index;
      subStepOpen := false;
      subStepIndex := 0;
    }

    /** The sub-steps of the step the sheet edits. */
    function SubSteps(): seq<Step>
      requires index < |form.values.steps|
      reads this, form
    {
      form.values.steps[index].subSteps
    }

    /** `handleAddSubStep`: appends the new sub-step at position n, the old count, and opens
      the dialog on it. */
    method HandleAddSubStep()
      requires index < |form.values.steps|
      modifies this, form
      ensures var n := |old(SubSteps())|;
        form.values == WithSubSteps(old(form.values), index, old(SubSteps()) + [NewSubStep(n)])
        && subStepIndex == n && subStepOpen
    {
      var currentSubSteps := form.values.steps[index].subSteps;
      var newSubStep := NewSubStep(|currentSubSteps|);
      form.SetSubSteps(index, currentSubSteps + [newSubStep]);
      subStepIndex := |currentSubSteps|;
      subStepOpen := true;
    }

    /** `handleSubStepDelete`: removes the sub-step at `taskIndex`, if there is one. */
    method HandleSubStepDelete(taskIndex: int)
      requires index < |form.values.steps|
      modifies form
      ensures form.values == WithSubSteps(old(form.values), index, RemoveAt(old(SubSteps()), taskIndex))
    {
      var currentSubSteps := form.values.steps[index].subSteps;
      form.SetSubSteps(index, RemoveAt(currentSubSteps, taskIndex));
    }

    /** `handleEditSubStep`: opens the dialog on `taskIndex`. */
    method HandleEditSubStep(taskIndex: int)
      modifies this
      ensures subStepIndex == taskIndex && subStepOpen
    {
      subStepIndex := taskIndex;
      subStepOpen := true;
    }

    /** The task table's delete button: the task's id back to its position, then delete. */
    method OnDeleteTask(taskId: string)
      requires index < |form.values.steps|
      modifies form
      ensures form.values == WithSubSteps(old(form.values), index,
                RemoveAt(old(SubSteps()), TaskIndex(|old(SubSteps())|, taskId)))
    {
      var taskIndex := TaskIndex(|form.values.steps[index].subSteps|, taskId);
      HandleSubStepDelete(taskIndex);
    }

    /** The task table's edit button: the task's id back to its position, then open it. */
    method OnEditTask(taskId: string)
      requires index < |form.values.steps|
      modifies this
      ensures subStepIndex == TaskIndex(|SubSteps()|, taskId) && subStepOpen
    {
      var taskIndex := TaskIndex(|form.values.steps[index].subSteps|, taskId);
      HandleEditSubStep(taskIndex);
    }
  }
}
