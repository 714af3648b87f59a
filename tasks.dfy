/**
 * The task entity as the application passes it around after hydration: every
 * task embeds copies of its subtasks and of its blockers. A value of this type
 * is a finite tree, so it can only describe acyclic containment.
 */
module Tasks {
  import opened Common

  datatype Task = Task(
    id: string,
    title: string,
    description: string,
    estimate: real,          // man-days
    subtasks: seq<Task>,     // an absent list is the empty list
    blockedBy: seq<Task>)

  /** `ts.map(t => t.id)` */
  function Ids(ts: seq<Task>): (r: seq<string>)
    ensures |r| == |ts|
    ensures forall i :: 0 <= i < |ts| ==> r[i] == ts[i].id
  {
    if ts == [] then [] else [ts[0].id] + Ids(ts[1..])
  }

  /** Listing ids distributes over concatenation. */
  lemma {:induction false} IdsAppend(a: seq<Task>, b: seq<Task>)
    ensures Ids(a + b) == Ids(a) + Ids(b)
  {
    if a == [] {
      assert a + b == b;
    } else {
      assert (a + b)[1..] == a[1..] + b;
      IdsAppend(a[1..], b);
      assert Ids(a + b) == [a[0].id] + (Ids(a[1..]) + Ids(b));
    }
  }

  function SubtaskIds(t: Task): seq<string> { Ids(t.subtasks) }

  function BlockerIds(t: Task): seq<string> { Ids(t.blockedBy) }

  /** `tasks.some(t => t.subtasks?.some(st => st.id === id))` */
  predicate IsListedAsSubtask(tasks: seq<Task>, id: string)
  {
    exists k :: 0 <= k < |tasks| && id in SubtaskIds(tasks[k])
  }

  /** Task ids are document ids of one collection, hence unique in any list the store returns. */
  predicate UniqueIds(tasks: seq<Task>)
  {
    Distinct(Ids(tasks))
  }

  /** Every estimate in the tree is non-negative, as the data model demands. */
  predicate NonNegative(t: Task)
    decreases t, 1
  {
    t.estimate >= 0.0 && AllNonNegative(t.subtasks)
  }

  predicate AllNonNegative(ts: seq<Task>)
    decreases ts, 0
  {
    forall i :: 0 <= i < |ts| ==> NonNegative(ts[i])
  }

  /**
   * `calculateTotalEstimate`: the own estimate when there are no subtasks,
   * otherwise the own estimate plus the left-to-right sum of the subtasks' totals.
   */
  function TotalEstimate(t: Task): real
    decreases t, 1
  {
    if |t.subtasks| == 0 then t.estimate else t.estimate + SumTotals(t.subtasks)
  }

  /** `ts.reduce((total, s) => total + calculateTotalEstimate(s), 0)` */
  function SumTotals(ts: seq<Task>): real
    decreases ts, 0
  {
    if ts == [] then 0.0 else SumTotals(ts[..|ts| - 1]) + TotalEstimate(ts[|ts| - 1])
  }

  /** With non-negative estimates the subtasks only add to the own estimate. */
  lemma {:induction false} TotalEstimateAtLeastOwn(t: Task)
    requires NonNegative(t)
    ensures TotalEstimate(t) >= t.estimate
    ensures TotalEstimate(t) >= 0.0
    decreases t, 1
  {
    if |t.subtasks| > 0 {
      SumTotalsNonNegative(t.subtasks);
    }
  }

  lemma {:induction false} SumTotalsNonNegative(ts: seq<Task>)
    requires AllNonNegative(ts)
    ensures SumTotals(ts) >= 0.0
    decreases ts, 0
  {
    if ts != [] {
      SumTotalsNonNegative(ts[..|ts| - 1]);
      TotalEstimateAtLeastOwn(ts[|ts| - 1]);
    }
  }

  /** The task followed by all its descendants, depth first, parents before children. */
  function Preorder(t: Task): (r: seq<Task>)
    ensures |r| >= 1 && r[0] == t
    decreases t, 1
  {
    [t] + PreorderAll(t.subtasks)
  }

  function PreorderAll(ts: seq<Task>): seq<Task>
    decreases ts, 0
  {
    if ts == [] then [] else PreorderAll(ts[..|ts| - 1]) + Preorder(ts[|ts| - 1])
  }

  /** The sum of the own estimates of a list of tasks. */
  function SumEstimates(ts: seq<Task>): real
  {
    if ts == [] then 0.0 else SumEstimates(ts[..|ts| - 1]) + ts[|ts| - 1].estimate
  }

  lemma {:induction false} SumEstimatesAppend(a: seq<Task>, b: seq<Task>)
    ensures SumEstimates(a + b) == SumEstimates(a) + SumEstimates(b)
    decreases |b|
  {
    if b != [] {
      assert (a + b)[..|a + b| - 1] == a + b[..|b| - 1];
      SumEstimatesAppend(a, b[..|b| - 1]);
    } else {
      assert a + b == a;
    }
  }

  /**
   * The recursive total is the plain sum of every estimate in the tree: each
   * descendant is counted once per occurrence in the tree.
   */
  lemma {:induction false} TotalIsSumOfPreorder(t: Task)
    ensures TotalEstimate(t) == SumEstimates(Preorder(t))
    decreases t, 1
  {
    SumEstimatesAppend([t], PreorderAll(t.subtasks));
    assert SumEstimates([t]) == t.estimate by {
      assert [t][..0] == [];
    }
    SumTotalsIsSumOfPreorder(t.subtasks);
  }

  lemma {:induction false} SumTotalsIsSumOfPreorder(ts: seq<Task>)
    ensures SumTotals(ts) == SumEstimates(PreorderAll(ts))
    decreases ts, 0
  {
    if ts != [] {
      SumTotalsIsSumOfPreorder(ts[..|ts| - 1]);
      TotalIsSumOfPreorder(ts[|ts| - 1]);
      SumEstimatesAppend(PreorderAll(ts[..|ts| - 1]), Preorder(ts[|ts| - 1]));
    }
  }
}
