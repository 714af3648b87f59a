/**
 * The task editing form: which tasks it offers as parent or blocker, which
 * parent it preselects, how it accepts an estimate and the blocker selection,
 * and when it accepts the entered data.
 */
module TaskForm {
  import opened Common
  import opened Tasks

  /** The form's data: the task without its id requirement. */
  datatype FormData = FormData(id: Option<string>, title: string, description: string, estimate: real,
                               subtasks: seq<Task>, blockedBy: seq<Task>)

  /** The validation messages per field; an absent message means the field is fine. */
  datatype Errors = Errors(title: Option<string>, description: Option<string>, estimate: Option<string>)

  const NoErrors := Errors(None, None, None)

  /** The form's state once the task list has been loaded. */
  datatype Selection = Selection(available: seq<Task>, form: FormData, parentId: Option<string>, blockerIds: seq<string>)

  /** `t` itself or a task somewhere below it in its subtask tree. */
  predicate Descends(x: Task, t: Task)
    decreases t
  {
    x == t || exists i :: 0 <= i < |t.subtasks| && Descends(x, t.subtasks[i])
  }

  /**
   * `collectSubtaskIds`: the task's own id, then for each subtask in turn all
   * the ids collected below it, i.e. the ids of the subtask tree in preorder.
   */
  method CollectSubtaskIds(t: Task) returns (ids: seq<string>)
    ensures ids == Ids(Preorder(t))
    decreases t
  {
    ids := [t.id];
    CollectedNone(t);
    for i := 0 to |t.subtasks|
      invariant ids == Collected(t, i)
    {
      var more := CollectSubtaskIds(t.subtasks[i]);
      CollectedStep(t, i);
      ids := ids + more;
    }
    CollectedAll(t);
  }

  /** The ids collected for `t` once its first `i` subtasks have been visited. */
  ghost function Collected(t: Task, i: int): seq<string>
    requires 0 <= i <= |t.subtasks|
  {
    [t.id] + Ids(PreorderAll(t.subtasks[..i]))
  }

  lemma CollectedNone(t: Task)
    ensures Collected(t, 0) == [t.id]
  {
    assert t.subtasks[..0] == [];
  }

  lemma CollectedStep(t: Task, i: int)
    requires 0 <= i < |t.subtasks|
    ensures Collected(t, i + 1) == Collected(t, i) + Ids(Preorder(t.subtasks[i]))
  {
    var ts := t.subtasks;
    assert ts[..i + 1][..i] == ts[..i];
    IdsAppend(PreorderAll(ts[..i]), Preorder(ts[i]));
  }

  lemma CollectedAll(t: Task)
    ensures Collected(t, |t.subtasks|) == Ids(Preorder(t))
  {
    assert t.subtasks[..|t.subtasks|] == t.subtasks;
    IdsAppend([t], PreorderAll(t.subtasks));
  }

  /** The preorder listing holds exactly the tasks of the tree, the root first. */
  lemma {:induction false} PreorderMembers(t: Task, x: Task)
    ensures Preorder(t)[0] == t
    ensures x in Preorder(t) <==> Descends(x, t)
    decreases t, 1
  {
    PreorderAllMembers(t.subtasks, x);
    if x in PreorderAll(t.subtasks) {
      var i :| 0 <= i < |t.subtasks| && x in Preorder(t.subtasks[i]);
      PreorderMembers(t.subtasks[i], x);
    }
    if x != t && Descends(x, t) {
      var i :| 0 <= i < |t.subtasks| && Descends(x, t.subtasks[i]);
      PreorderMembers(t.subtasks[i], x);
    }
  }

  lemma {:induction false} PreorderAllMembers(ts: seq<Task>, x: Task)
    ensures x in PreorderAll(ts) <==> exists i :: 0 <= i < |ts| && x in Preorder(ts[i])
    decreases ts, 0
  {
    if ts != [] {
      var init := ts[..|ts| - 1];
      PreorderAllMembers(init, x);
      if x in PreorderAll(init) {
        var i :| 0 <= i < |init| && x in Preorder(init[i]);
        assert ts[i] == init[i];
      }
      if exists i :: 0 <= i < |ts| && x in Preorder(ts[i]) {
        var i :| 0 <= i < |ts| && x in Preorder(ts[i]);
        if i < |ts| - 1 {
          assert init[i] == ts[i];
        }
      }
    }
  }

  /** The collected ids are exactly the ids of the task and of its descendants, its own first. */
  lemma CollectedIdsMeaning(t: Task, id: string)
    ensures Ids(Preorder(t))[0] == t.id
    ensures id in Ids(Preorder(t)) <==> exists x :: Descends(x, t) && x.id == id
  {
    var p := Preorder(t);
    if id in Ids(p) {
      var k :| 0 <= k < |p| && Ids(p)[k] == id;
      PreorderMembers(t, p[k]);
    }
    if exists x :: Descends(x, t) && x.id == id {
      var x :| Descends(x, t) && x.id == id;
      PreorderMembers(t, x);
      var k :| 0 <= k < |p| && p[k] == x;
      assert Ids(p)[k] == id;
    }
  }

  /** The test of `tasks.filter(t => !excludeIds.includes(t.id))`. */
  function Outside(excluded: seq<string>): Task -> bool
  {
    (t: Task) => t.id !in excluded
  }

  /** The index of the first task listing `id` among its subtasks, or -1. */
  function FirstParent(tasks: seq<Task>, id: string): (r: int)
    ensures -1 <= r < |tasks|
    ensures r == -1 <==> !IsListedAsSubtask(tasks, id)
    ensures r >= 0 ==> id in SubtaskIds(tasks[r]) && forall k :: 0 <= k < r ==> id !in SubtaskIds(tasks[k])
  {
    if tasks == [] then -1
    else if id in SubtaskIds(tasks[0]) then 0
    else
      var r := FirstParent(tasks[1..], id);
      assert forall k :: 1 <= k < |tasks| ==> tasks[1..][k - 1] == tasks[k];
      if r == -1 then -1 else r + 1
  }

  /**
   * `parentTask?.id || null`: the id of the first task listing the edited task
   * as a subtask; none when there is no such task, and also when that task's
   * id is the empty string, which `||` treats as missing.
   */
  function ParentId(tasks: seq<Task>, id: string): (r: Option<string>)
    ensures r.Some? <==> IsListedAsSubtask(tasks, id) && tasks[FirstParent(tasks, id)].id != ""
    ensures r.Some? ==> id in SubtaskIds(tasks[FirstParent(tasks, id)]) && r.value == tasks[FirstParent(tasks, id)].id
  {
    var k := FirstParent(tasks, id);
    if k < 0 || tasks[k].id == "" then None else Some(tasks[k].id)
  }

  /** The form data for an edited task: its fields, with copies of its lists. */
  function FormOf(t: Task): FormData
  {
    FormData(Some(t.id), t.title, t.description, t.estimate, t.subtasks, t.blockedBy)
  }

  /**
   * The loading effect: when a task is edited, the offered tasks are all tasks
   * but the edited one and its descendants, the form holds the task, the first
   * task listing it as a subtask is preselected as parent and its blockers are
   * preselected; when a task is created, every task is offered and the rest of
   * the state is left as it was.
   */
  method Initialize(tasks: seq<Task>, task: Option<Task>, prior: Selection) returns (s: Selection)
    ensures task.None? ==> s == prior.(available := tasks)
    ensures task.Some? ==>
              && s.available == Filter(tasks, Outside(Ids(Preorder(task.value))))
              && s.form == FormOf(task.value)
              && s.parentId == ParentId(tasks, task.value.id)
              && s.blockerIds == BlockerIds(task.value)
  {
    if task.Some? {
      var t := task.value;
      var excludeIds := CollectSubtaskIds(t);
      var filtered := Filter(tasks, Outside(excludeIds));
      s := Selection(filtered, FormOf(t), ParentId(tasks, t.id), BlockerIds(t));
    } else {
      s := prior.(available := tasks);
    }
  }

  /**
   * While a task is edited, neither the task nor any of its descendants is
   * offered; every other task of the list is, in list order.
   */
  lemma AvailableExcludesSubtree(tasks: seq<Task>, edited: Task, t: Task)
    ensures t in Filter(tasks, Outside(Ids(Preorder(edited)))) <==>
              t in tasks && !exists x :: Descends(x, edited) && x.id == t.id
    ensures Subsequence(Filter(tasks, Outside(Ids(Preorder(edited)))), tasks)
  {
    CollectedIdsMeaning(edited, t.id);
    if t in Filter(tasks, Outside(Ids(Preorder(edited)))) {
      FilterSubset(tasks, Outside(Ids(Preorder(edited))), t);
    }
    FilterIsSubsequence(tasks, Outside(Ids(Preorder(edited))));
  }

  /**
   * `handleEstimateChange`: `parsed` is the result of `parseFloat` on the
   * input, none standing for `NaN`. Only a number that is at least 0 is taken,
   * and then the estimate message is cleared; anything else changes nothing.
   */
  function EstimateChange(form: FormData, errors: Errors, parsed: Option<real>): (r: (FormData, Errors))
    ensures parsed.Some? && parsed.value >= 0.0 ==> r.0.estimate == parsed.value && r.1.estimate.None?
    ensures r.0 == form.(estimate := r.0.estimate) && r.1 == errors.(estimate := r.1.estimate)
    ensures !(parsed.Some? && parsed.value >= 0.0) ==> r == (form, errors)
  {
    if parsed.Some? && parsed.value >= 0.0 then
      (form.(estimate := parsed.value), if errors.estimate.Some? then errors.(estimate := None) else errors)
    else (form, errors)
  }

  /** The form after the change events `inputs`, one `handleEstimateChange` each, oldest first. */
  function EstimateChanges(form: FormData, errors: Errors, inputs: seq<Option<real>>): (FormData, Errors)
  {
    if inputs == [] then (form, errors)
    else
      var before := EstimateChanges(form, errors, inputs[..|inputs| - 1]);
      EstimateChange(before.0, before.1, inputs[|inputs| - 1])
  }

  /**
   * Whatever is typed, the estimate is the initial one or a typed number that
   * is at least 0, so a non-negative estimate stays non-negative; no other
   * field of the form changes.
   */
  lemma {:induction false} EstimateStaysNonNegative(form: FormData, errors: Errors, inputs: seq<Option<real>>)
    ensures var r := EstimateChanges(form, errors, inputs).0;
            r == form.(estimate := r.estimate)
            && (r.estimate == form.estimate
                || exists k :: 0 <= k < |inputs| && inputs[k] == Some(r.estimate) && r.estimate >= 0.0)
    ensures form.estimate >= 0.0 ==> EstimateChanges(form, errors, inputs).0.estimate >= 0.0
  {
    if inputs != [] {
      var n := |inputs| - 1;
      EstimateStaysNonNegative(form, errors, inputs[..n]);
      var before := EstimateChanges(form, errors, inputs[..n]);
      var r := EstimateChanges(form, errors, inputs).0;
      if inputs[n].Some? && inputs[n].value >= 0.0 {
        assert inputs[n] == Some(r.estimate);
      } else if r.estimate != form.estimate {
        var k :| 0 <= k < n && inputs[..n][k] == Some(r.estimate) && r.estimate >= 0.0;
        assert inputs[k] == inputs[..n][k];
      }
    }
  }

  /** The test of `availableTasks.filter(t => values.includes(t.id))`. */
  function Chosen(values: seq<string>): Task -> bool
  {
    (t: Task) => t.id in values
  }

  /**
   * `handleBlockerChange`: the selected ids are stored as given, and the
   * blockers become the offered tasks whose id was selected, in offered order.
   */
  function BlockerChange(s: Selection, values: seq<string>): (r: Selection)
    ensures r.blockerIds == values && r.available == s.available && r.parentId == s.parentId
    ensures r.form == s.form.(blockedBy := r.form.blockedBy)
    ensures forall t :: t in r.form.blockedBy ==> t in s.available && t.id in values
    ensures forall i :: 0 <= i < |s.available| && s.available[i].id in values ==> s.available[i] in r.form.blockedBy
  {
    var selected := Filter(s.available, Chosen(values));
    FilterSubsetAll(s.available, Chosen(values));
    s.(blockerIds := values, form := s.form.(blockedBy := selected))
  }

  lemma FilterSubsetAll(xs: seq<Task>, keep: Task -> bool)
    ensures forall t :: t in Filter(xs, keep) ==> t in xs && keep(t)
  {
    forall t | t in Filter(xs, keep) ensures t in xs && keep(t) {
      FilterSubset(xs, keep, t);
    }
  }

  /** The selected blockers keep the order in which the tasks are offered. */
  lemma BlockersInOfferedOrder(s: Selection, values: seq<string>)
    ensures Subsequence(BlockerChange(s, values).form.blockedBy, s.available)
  {
    FilterIsSubsequence(s.available, Chosen(values));
  }

  /**
   * `validateForm`: a message for a blank title or description and for a
   * negative estimate; choosing the task itself as parent replaces the title
   * message. The parent choice and the form id only match when both are set.
   */
  method ValidateForm(form: FormData, selectedParent: Option<string>) returns (errors: Errors, valid: bool)
    ensures errors.title == if selectedParent.Some? && selectedParent == form.id then Some("Task cannot be its own parent")
                            else if IsBlank(form.title) then Some("Title is required") else None
    ensures errors.description == if IsBlank(form.description) then Some("Description is required") else None
    ensures errors.estimate == if form.estimate < 0.0 then Some("Estimate must be a positive number") else None
    ensures valid <==> errors == NoErrors
    ensures valid <==> !IsBlank(form.title) && !IsBlank(form.description) && form.estimate >= 0.0
                       && !(selectedParent.Some? && selectedParent == form.id)
  {
    TrimEmptyIffBlank(form.title);
    TrimEmptyIffBlank(form.description);
    errors := NoErrors;
    if Trim(form.title) == [] {
      errors := errors.(title := Some("Title is required"));
    }
    if Trim(form.description) == [] {
      errors := errors.(description := Some("Description is required"));
    }
    if form.estimate < 0.0 {
      errors := errors.(estimate := Some("Estimate must be a positive number"));
    }
    if selectedParent.Some? && selectedParent == form.id {
      errors := errors.(title := Some("Task cannot be its own parent"));
    }
    valid := errors.title.None? && errors.description.None? && errors.estimate.None?;
  }
}
