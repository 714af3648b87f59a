/**
 * The task list view: the recursive total estimate shown next to each task and
 * the choice of the tasks shown at the top level of the tree.
 */
module TaskList {
  import opened Common
  import opened Tasks

  /** The total a list row shows: the own estimate, plus the totals of the subtasks if there are any. */
  lemma TotalEstimateOfRow(t: Task)
    ensures |t.subtasks| == 0 ==> TotalEstimate(t) == t.estimate
    ensures NonNegative(t) ==> t.estimate <= TotalEstimate(t)
    ensures TotalEstimate(t) == SumEstimates(Preorder(t))
  {
    if NonNegative(t) {
      TotalEstimateAtLeastOwn(t);
    }
    TotalIsSumOfPreorder(t);
  }

  /** Every id listed as a subtask of some task of the list. */
  function ListedSubtaskIds(tasks: seq<Task>): (r: set<string>)
    ensures forall id :: id in r <==> IsListedAsSubtask(tasks, id)
  {
    set k, i | 0 <= k < |tasks| && 0 <= i < |tasks[k].subtasks| :: tasks[k].subtasks[i].id
  }

  /** The test the final `filter` applies, for a given set of subtask ids. */
  function NotIn(ids: set<string>): Task -> bool
  {
    (t: Task) => t.id !in ids
  }

  /** The tasks not listed as anybody's subtask, in list order. */
  function TopLevel(tasks: seq<Task>): seq<Task>
  {
    Filter(tasks, NotIn(ListedSubtaskIds(tasks)))
  }

  /**
   * `getTopLevelTasks`: two nested `forEach` loops collect the id of every
   * listed subtask into a set, then the tasks whose id is not in it are kept.
   */
  method GetTopLevelTasks(tasks: seq<Task>) returns (top: seq<Task>)
    ensures top == TopLevel(tasks)
  {
    var subtaskIds: set<string> := {};
    for k := 0 to |tasks|
      invariant subtaskIds == ListedSubtaskIds(tasks[..k])
    {
      var subtasks := tasks[k].subtasks;
      for i := 0 to |subtasks|
        invariant subtaskIds == ListedSubtaskIds(tasks[..k]) + set j | 0 <= j < i :: subtasks[j].id
      {
        subtaskIds := subtaskIds + {subtasks[i].id};
      }
      ListedSnoc(tasks, k);
    }
    assert tasks[..|tasks|] == tasks;
    top := Filter(tasks, NotIn(subtaskIds));
  }

  /** Taking one more task into account adds exactly the ids of its subtasks. */
  lemma ListedSnoc(tasks: seq<Task>, k: int)
    requires 0 <= k < |tasks|
    ensures ListedSubtaskIds(tasks[..k + 1]) == ListedSubtaskIds(tasks[..k]) + set j | 0 <= j < |tasks[k].subtasks| :: tasks[k].subtasks[j].id
  {
    var prefix, longer := tasks[..k], tasks[..k + 1];
    forall id | id in ListedSubtaskIds(longer)
      ensures id in ListedSubtaskIds(prefix) || exists j :: 0 <= j < |tasks[k].subtasks| && tasks[k].subtasks[j].id == id
    {
      var m, i :| 0 <= m < |longer| && 0 <= i < |longer[m].subtasks| && longer[m].subtasks[i].id == id;
      if m < k {
        assert prefix[m] == longer[m];
      }
    }
    forall id | id in ListedSubtaskIds(prefix) ensures id in ListedSubtaskIds(longer) {
      var m, i :| 0 <= m < |prefix| && 0 <= i < |prefix[m].subtasks| && prefix[m].subtasks[i].id == id;
      assert longer[m] == prefix[m];
    }
    forall j | 0 <= j < |tasks[k].subtasks| ensures tasks[k].subtasks[j].id in ListedSubtaskIds(longer) {
      assert longer[k] == tasks[k];
    }
  }

  /**
   * A task is shown at the top level exactly when it is in the list and its id
   * is not listed as a subtask of any task of the list.
   */
  lemma TopLevelMembers(tasks: seq<Task>, t: Task)
    ensures t in TopLevel(tasks) <==> t in tasks && !IsListedAsSubtask(tasks, t.id)
  {
    if t in TopLevel(tasks) {
      FilterSubset(tasks, NotIn(ListedSubtaskIds(tasks)), t);
    }
  }

  /** The top-level tasks keep their list order, and each keeps its number of occurrences. */
  lemma TopLevelKeepsOrder(tasks: seq<Task>, t: Task)
    ensures Subsequence(TopLevel(tasks), tasks)
    ensures multiset(TopLevel(tasks))[t] == if IsListedAsSubtask(tasks, t.id) then 0 else multiset(tasks)[t]
  {
    FilterIsSubsequence(tasks, NotIn(ListedSubtaskIds(tasks)));
    FilterCount(tasks, NotIn(ListedSubtaskIds(tasks)), t);
  }
}
