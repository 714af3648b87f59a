/**
 * The "blocks" edges of the task-relationship graph: one edge per listing of
 * a blocker in a task's `blockedBy`, drawn from the blocker to the blocked task.
 */
module TaskGraphEdges {
  import opened Common
  import opened Tasks
  import opened TaskGraphMaps
  import opened TaskGraphNodes

  /** The fields of a ReactFlow edge the layout decides; styling constants are left out. */
  datatype Edge = Edge(id: string, source: string, target: string, sourceTaskId: string, targetTaskId: string)

  /**
   * The node an edge attaches to for a task: the task's own node when some task
   * lists it as a subtask, otherwise the node `group-<id>` (whether or not that
   * task has a group).
   */
  function Endpoint(tasks: seq<Task>, id: string): string
  {
    if IsListedAsSubtask(tasks, id) then id else GroupNodeId(id)
  }

  /** The edge for blocker `blockerId` of task `taskId`. */
  function BlockEdge(tasks: seq<Task>, blockerId: string, taskId: string): Edge
  {
    Edge("blocks-" + blockerId + "-" + taskId, Endpoint(tasks, blockerId), Endpoint(tasks, taskId), blockerId, taskId)
  }

  /** The edges for the blockers `blockerIds` of task `taskId`, in order. */
  function BlockEdges(tasks: seq<Task>, taskId: string, blockerIds: seq<string>): (r: seq<Edge>)
    ensures |r| == |blockerIds|
    ensures forall j :: 0 <= j < |r| ==> r[j] == BlockEdge(tasks, blockerIds[j], taskId)
  {
    if blockerIds == [] then []
    else BlockEdges(tasks, taskId, blockerIds[..|blockerIds| - 1]) + [BlockEdge(tasks, blockerIds[|blockerIds| - 1], taskId)]
  }

  /** The edges the second pass emits for the tasks `ts`, in list order. */
  function EdgesOf(tasks: seq<Task>, ts: seq<Task>): seq<Edge>
  {
    if ts == [] then []
    else EdgesOf(tasks, ts[..|ts| - 1]) + BlockEdges(tasks, ts[|ts| - 1].id, BlockerIds(ts[|ts| - 1]))
  }

  /** The second half of the second `tasks.forEach`: edge synthesis. */
  method BuildEdges(tasks: seq<Task>) returns (edges: seq<Edge>)
    ensures edges == EdgesOf(tasks, tasks)
  {
    edges := [];
    var k := 0;
    while k < |tasks|
      invariant 0 <= k <= |tasks|
      invariant edges == EdgesOf(tasks, tasks[..k])
    {
      EdgesOfSnoc(tasks, tasks[..k + 1]);
      assert tasks[..k + 1][..k] == tasks[..k];
      edges := AddBlockEdges(tasks, tasks[k], edges);
      k := k + 1;
    }
    assert tasks[..k] == tasks;
  }

  /** `task.blockedBy.forEach(...)`: one edge per listed blocker, appended in order. */
  method AddBlockEdges(tasks: seq<Task>, task: Task, edges0: seq<Edge>) returns (edges: seq<Edge>)
    ensures edges == edges0 + BlockEdges(tasks, task.id, BlockerIds(task))
  {
    edges := edges0;
    ghost var ids := BlockerIds(task);
    assert |ids| == |task.blockedBy|;
    if |task.blockedBy| > 0 {
      var j := 0;
      while j < |task.blockedBy|
        invariant 0 <= j <= |task.blockedBy|
        invariant edges == edges0 + BlockEdges(tasks, task.id, ids[..j])
      {
        BlockEdgesSnoc(tasks, task.id, ids, j);
        var blockerId := task.blockedBy[j].id;
        assert blockerId == ids[j];
        edges := edges + [BlockEdge(tasks, blockerId, task.id)];
        j := j + 1;
      }
      assert ids[..j] == ids;
    } else {
      assert ids == [];
    }
  }

  lemma EdgesOfSnoc(tasks: seq<Task>, ts: seq<Task>)
    requires ts != []
    ensures EdgesOf(tasks, ts) == EdgesOf(tasks, ts[..|ts| - 1]) + BlockEdges(tasks, ts[|ts| - 1].id, BlockerIds(ts[|ts| - 1]))
  {
  }

  lemma BlockEdgesSnoc(tasks: seq<Task>, taskId: string, ids: seq<string>, j: nat)
    requires j < |ids|
    ensures BlockEdges(tasks, taskId, ids[..j + 1]) == BlockEdges(tasks, taskId, ids[..j]) + [BlockEdge(tasks, ids[j], taskId)]
  {
    assert ids[..j + 1][..j] == ids[..j];
  }

  /** How many edges go from the blocker `b` to the task `t`. */
  function CountPair(edges: seq<Edge>, b: string, t: string): nat
  {
    if edges == [] then 0
    else CountPair(edges[..|edges| - 1], b, t)
         + if edges[|edges| - 1].sourceTaskId == b && edges[|edges| - 1].targetTaskId == t then 1 else 0
  }

  lemma {:induction false} CountPairAppend(a: seq<Edge>, c: seq<Edge>, b: string, t: string)
    ensures CountPair(a + c, b, t) == CountPair(a, b, t) + CountPair(c, b, t)
    decreases |c|
  {
    if c == [] {
      assert a + c == a;
    } else {
      assert (a + c)[..|a + c| - 1] == a + c[..|c| - 1];
      CountPairAppend(a, c[..|c| - 1], b, t);
    }
  }

  lemma {:induction false} BlockEdgesCount(tasks: seq<Task>, taskId: string, blockerIds: seq<string>, b: string, t: string)
    ensures CountPair(BlockEdges(tasks, taskId, blockerIds), b, t) == if t == taskId then multiset(blockerIds)[b] else 0
  {
    if blockerIds != [] {
      var n := |blockerIds| - 1;
      BlockEdgesCount(tasks, taskId, blockerIds[..n], b, t);
      CountPairAppend(BlockEdges(tasks, taskId, blockerIds[..n]), [BlockEdge(tasks, blockerIds[n], taskId)], b, t);
      assert blockerIds == blockerIds[..n] + [blockerIds[n]];
      assert [BlockEdge(tasks, blockerIds[n], taskId)][..0] == [];
    }
  }

  /**
   * With unique task ids, the edges from `b` to task `ts[k]` are exactly as many
   * as the times `ts[k]` lists `b` among its blockers: one edge per listing.
   */
  lemma {:induction false} EdgeCountIsBlockerCount(tasks: seq<Task>, ts: seq<Task>, k: int, b: string)
    requires UniqueIds(ts) && 0 <= k < |ts|
    ensures CountPair(EdgesOf(tasks, ts), b, ts[k].id) == multiset(BlockerIds(ts[k]))[b]
  {
    var n := |ts| - 1;
    var init, t := ts[..n], ts[k].id;
    var lastEdges := BlockEdges(tasks, ts[n].id, BlockerIds(ts[n]));
    EdgesOfSnoc(tasks, ts);
    CountPairAppend(EdgesOf(tasks, init), lastEdges, b, t);
    BlockEdgesCount(tasks, ts[n].id, BlockerIds(ts[n]), b, t);
    assert CountPair(EdgesOf(tasks, ts), b, t) == CountPair(EdgesOf(tasks, init), b, t) + CountPair(lastEdges, b, t);
    UniquePrefix(ts);
    if k < n {
      assert init[k] == ts[k];
      assert ts[n].id != t by {
        assert Ids(ts)[k] == ts[k].id && Ids(ts)[n] == ts[n].id;
      }
      assert CountPair(lastEdges, b, t) == 0;
      EdgeCountIsBlockerCount(tasks, init, k, b);
    } else {
      NoEdgesToUnlisted(tasks, init, b, t);
      assert CountPair(lastEdges, b, t) == multiset(BlockerIds(ts[k]))[b];
    }
  }

  /** Edges only point to the tasks whose blockers produced them. */
  lemma {:induction false} NoEdgesToUnlisted(tasks: seq<Task>, ts: seq<Task>, b: string, t: string)
    requires t !in Ids(ts)
    ensures CountPair(EdgesOf(tasks, ts), b, t) == 0
  {
    if ts != [] {
      var n := |ts| - 1;
      assert Ids(ts)[n] == ts[n].id;
      assert forall i :: 0 <= i < n ==> Ids(ts[..n])[i] == Ids(ts)[i];
      NoEdgesToUnlisted(tasks, ts[..n], b, t);
      BlockEdgesCount(tasks, ts[n].id, BlockerIds(ts[n]), b, t);
      CountPairAppend(EdgesOf(tasks, ts[..n]), BlockEdges(tasks, ts[n].id, BlockerIds(ts[n])), b, t);
    }
  }

  /**
   * Every emitted edge is the edge of one (blocked task, blocker) listing: its id
   * is `blocks-<blocker>-<task>` and each end is the task's own node when the task
   * is somebody's subtask, and `group-<id>` otherwise.
   */
  lemma {:induction false} EdgesAreBlockEdges(tasks: seq<Task>, ts: seq<Task>, e: Edge)
    requires e in EdgesOf(tasks, ts)
    ensures exists k :: 0 <= k < |ts| && e.targetTaskId == ts[k].id && e.sourceTaskId in BlockerIds(ts[k])
    ensures e.id == "blocks-" + e.sourceTaskId + "-" + e.targetTaskId
    ensures e.source == (if IsListedAsSubtask(tasks, e.sourceTaskId) then e.sourceTaskId else "group-" + e.sourceTaskId)
    ensures e.target == (if IsListedAsSubtask(tasks, e.targetTaskId) then e.targetTaskId else "group-" + e.targetTaskId)
  {
    var n := |ts| - 1;
    var last := BlockEdges(tasks, ts[n].id, BlockerIds(ts[n]));
    if e in EdgesOf(tasks, ts[..n]) {
      EdgesAreBlockEdges(tasks, ts[..n], e);
      var k :| 0 <= k < n && e.targetTaskId == ts[..n][k].id && e.sourceTaskId in BlockerIds(ts[..n][k]);
      assert ts[..n][k] == ts[k];
    } else {
      assert e in last;
      var j :| 0 <= j < |last| && last[j] == e;
      assert e.targetTaskId == ts[n].id;
      assert e.sourceTaskId == BlockerIds(ts[n])[j];
    }
  }

}
