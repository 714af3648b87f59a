/**
 * Steps 2 and 3 of the task-relationship layout: leaf subtasks are attached to
 * the group of the task that lists them and stacked inside it, and one group
 * node is created per task that has subtasks.
 */
module TaskGraphNodes {
  import opened Common
  import opened Tasks
  import opened TaskGraphMaps
  import opened TaskGraphGeometry

  datatype Pos = Pos(x: real, y: real)

  /** Where a leaf subtask sits: the task whose group contains it and its row there. */
  datatype LeafPlacement = LeafPlacement(parentId: string, index: nat)

  /** `` `group-${id}` ``: the ReactFlow id of the group node of a task. */
  function GroupNodeId(id: string): string
  {
    "group-" + id
  }

  /** The local position of a placed leaf inside its group: 20 from the left, one 80 row per index. */
  function LeafPosition(p: LeafPlacement): Pos
  {
    Pos(SUBTASK_MARGIN_X, LeafRowTop(p.index))
  }

  predicate IsLeaf(nodeMap: map<string, NodeEntry>, id: string)
  {
    id in nodeMap && nodeMap[id].kind == LeafSubtask
  }

  /** Row `i` of task `ts[k]` is the last place in the list where that subtask id is listed. */
  ghost predicate IsLastListing(ts: seq<Task>, k: int, i: int)
    requires 0 <= k < |ts| && 0 <= i < |ts[k].subtasks|
  {
    && (forall i' :: i < i' < |ts[k].subtasks| ==> ts[k].subtasks[i'].id != ts[k].subtasks[i].id)
    && (forall k' :: k < k' < |ts| ==> ts[k].subtasks[i].id !in SubtaskIds(ts[k']))
  }

  /** The placements made for the subtask ids `sids` of one parent, on top of `placed`. */
  function PlaceSubtasks(nodeMap: map<string, NodeEntry>, placed: map<string, LeafPlacement>,
                         parentId: string, sids: seq<string>): map<string, LeafPlacement>
  {
    if sids == [] then placed
    else
      var m := PlaceSubtasks(nodeMap, placed, parentId, sids[..|sids| - 1]);
      if IsLeaf(nodeMap, sids[|sids| - 1]) then m[sids[|sids| - 1] := LeafPlacement(parentId, |sids| - 1)] else m
  }

  /** The placements made by the pass over the tasks `ts`. */
  function LeafPlacementsOf(nodeMap: map<string, NodeEntry>, ts: seq<Task>): map<string, LeafPlacement>
  {
    if ts == [] then map[]
    else
      var m := LeafPlacementsOf(nodeMap, ts[..|ts| - 1]);
      var t := ts[|ts| - 1];
      if |t.subtasks| > 0 then PlaceSubtasks(nodeMap, m, t.id, SubtaskIds(t)) else m
  }

  /** The first half of the second `tasks.forEach`: parent, row and containment of every leaf subtask. */
  method AssignLeafParents(tasks: seq<Task>, nodeMap: map<string, NodeEntry>)
    returns (placed: map<string, LeafPlacement>)
    ensures placed == LeafPlacementsOf(nodeMap, tasks)
  {
    placed := map[];
    var k := 0;
    while k < |tasks|
      invariant 0 <= k <= |tasks|
      invariant placed == LeafPlacementsOf(nodeMap, tasks[..k])
    {
      LeafPlacementsSnoc(nodeMap, tasks, k);
      placed := PlaceLeafSubtasks(nodeMap, placed, tasks[k]);
      k := k + 1;
    }
    assert tasks[..k] == tasks;
  }

  /** `task.subtasks.forEach(...)` for a task with subtasks: each leaf subtask is placed in the task's group. */
  method PlaceLeafSubtasks(nodeMap: map<string, NodeEntry>, placed0: map<string, LeafPlacement>, task: Task)
    returns (placed: map<string, LeafPlacement>)
    ensures placed == if |task.subtasks| > 0 then PlaceSubtasks(nodeMap, placed0, task.id, SubtaskIds(task)) else placed0
  {
    placed := placed0;
    if |task.subtasks| > 0 {
      ghost var sids := SubtaskIds(task);
      assert |sids| == |task.subtasks|;
      var i := 0;
      while i < |task.subtasks|
        invariant 0 <= i <= |task.subtasks|
        invariant placed == PlaceSubtasks(nodeMap, placed0, task.id, sids[..i])
      {
        PlaceSubtasksSnoc(nodeMap, placed0, task.id, sids, i);
        var subtaskId := task.subtasks[i].id;
        assert subtaskId == sids[i];
        if subtaskId in nodeMap && nodeMap[subtaskId].kind == LeafSubtask {
          placed := placed[subtaskId := LeafPlacement(task.id, i)];
        }
        i := i + 1;
      }
      assert sids[..i] == sids;
    }
  }

  lemma LeafPlacementsSnoc(nodeMap: map<string, NodeEntry>, ts: seq<Task>, k: nat)
    requires k < |ts|
    ensures LeafPlacementsOf(nodeMap, ts[..k + 1])
            == if |ts[k].subtasks| > 0 then PlaceSubtasks(nodeMap, LeafPlacementsOf(nodeMap, ts[..k]), ts[k].id, SubtaskIds(ts[k]))
               else LeafPlacementsOf(nodeMap, ts[..k])
  {
    assert ts[..k + 1][..k] == ts[..k];
  }

  lemma PlaceSubtasksSnoc(nodeMap: map<string, NodeEntry>, placed: map<string, LeafPlacement>, parentId: string,
                          sids: seq<string>, i: nat)
    requires i < |sids|
    ensures PlaceSubtasks(nodeMap, placed, parentId, sids[..i + 1])
            == var m := PlaceSubtasks(nodeMap, placed, parentId, sids[..i]);
               if IsLeaf(nodeMap, sids[i]) then m[sids[i] := LeafPlacement(parentId, i)] else m
  {
    assert sids[..i + 1][..i] == sids[..i];
  }

  lemma {:induction false} PlaceSubtasksMeaning(nodeMap: map<string, NodeEntry>, placed: map<string, LeafPlacement>,
                                                parentId: string, sids: seq<string>)
    ensures forall id :: id in PlaceSubtasks(nodeMap, placed, parentId, sids) <==>
                           id in placed || (IsLeaf(nodeMap, id) && id in sids)
    ensures forall id :: id in placed && id !in sids ==> PlaceSubtasks(nodeMap, placed, parentId, sids)[id] == placed[id]
    ensures forall i :: 0 <= i < |sids| && IsLeaf(nodeMap, sids[i]) && (forall i' :: i < i' < |sids| ==> sids[i'] != sids[i])
                        ==> PlaceSubtasks(nodeMap, placed, parentId, sids)[sids[i]] == LeafPlacement(parentId, i)
  {
    if sids != [] {
      var n := |sids| - 1;
      PlaceSubtasksMeaning(nodeMap, placed, parentId, sids[..n]);
      assert sids == sids[..n] + [sids[n]];
      forall i | 0 <= i < n && IsLeaf(nodeMap, sids[i]) && (forall i' :: i < i' < |sids| ==> sids[i'] != sids[i])
        ensures PlaceSubtasks(nodeMap, placed, parentId, sids)[sids[i]] == LeafPlacement(parentId, i)
      {
        assert sids[..n][i] == sids[i];
        assert sids[n] != sids[i];
      }
    }
  }

  /** Every leaf subtask listed somewhere gets a placement, and nothing else does. */
  lemma {:induction false} LeafPlacementsDomain(nodeMap: map<string, NodeEntry>, ts: seq<Task>)
    ensures forall id :: id in LeafPlacementsOf(nodeMap, ts) <==> IsLeaf(nodeMap, id) && IsListedAsSubtask(ts, id)
  {
    if ts != [] {
      var n := |ts| - 1;
      var init, t := ts[..n], ts[n];
      var m := LeafPlacementsOf(nodeMap, init);
      var r := LeafPlacementsOf(nodeMap, ts);
      LeafPlacementsDomain(nodeMap, init);
      PlaceSubtasksMeaning(nodeMap, m, t.id, SubtaskIds(t));
      forall id ensures id in r <==> IsLeaf(nodeMap, id) && IsListedAsSubtask(ts, id) {
        if IsListedAsSubtask(ts, id) {
          var k :| 0 <= k < |ts| && id in SubtaskIds(ts[k]);
          if k < n {
            assert init[k] == ts[k];
          }
        }
        if IsListedAsSubtask(init, id) {
          var k :| 0 <= k < |init| && id in SubtaskIds(init[k]);
          assert ts[k] == init[k];
        }
      }
    }
  }

  /**
   * A leaf listed several times keeps the last listing: its parent is the last
   * task listing it and its row is its last index in that task's subtasks.
   */
  lemma {:induction false} LeafPlacementIsLastListing(nodeMap: map<string, NodeEntry>, ts: seq<Task>, k: int, i: int)
    requires 0 <= k < |ts| && 0 <= i < |ts[k].subtasks|
    requires IsLeaf(nodeMap, ts[k].subtasks[i].id) && IsLastListing(ts, k, i)
    ensures ts[k].subtasks[i].id in LeafPlacementsOf(nodeMap, ts)
    ensures LeafPlacementsOf(nodeMap, ts)[ts[k].subtasks[i].id] == LeafPlacement(ts[k].id, i)
  {
    var n := |ts| - 1;
    var init, t := ts[..n], ts[n];
    var id := ts[k].subtasks[i].id;
    var m := LeafPlacementsOf(nodeMap, init);
    LeafPlacementsSnoc(nodeMap, ts, n);
    assert ts[..n + 1] == ts;
    PlaceSubtasksMeaning(nodeMap, m, t.id, SubtaskIds(t));
    if k < n {
      assert init[k] == ts[k];
      assert IsLastListing(init, k, i) by {
        forall k' | k < k' < |init| ensures id !in SubtaskIds(init[k']) {
          assert init[k'] == ts[k'];
        }
      }
      LeafPlacementIsLastListing(nodeMap, init, k, i);
      assert id !in SubtaskIds(t);
    } else {
      var sids := SubtaskIds(t);
      assert sids[i] == id;
      assert forall i' :: i < i' < |sids| ==> sids[i'] != sids[i];
    }
  }

  /** A group node: the box drawn around a task that has subtasks. */
  datatype GroupNode = GroupNode(position: Pos, width: real, height: real,
                                 totalEstimate: real, subtaskIds: seq<string>)

  predicate HasSubtasks(t: Task)
  {
    |t.subtasks| > 0
  }

  /** The group node as created: at the origin, 350 wide, tall enough for one row per subtask. */
  function InitialGroup(t: Task): GroupNode
  {
    GroupNode(Pos(0.0, 0.0), GROUP_MIN_WIDTH, GroupHeight(|t.subtasks|), TotalEstimate(t), SubtaskIds(t))
  }

  /** The ids of the tasks with subtasks (`parentTasks`), in list order. */
  function ParentIds(ts: seq<Task>): (r: seq<string>)
    ensures forall id :: id in r <==> exists k :: 0 <= k < |ts| && ts[k].id == id && HasSubtasks(ts[k])
  {
    if ts == [] then []
    else
      var r0 := ParentIds(ts[..|ts| - 1]);
      assert forall k :: 0 <= k < |ts| - 1 ==> ts[..|ts| - 1][k] == ts[k];
      r0 + if HasSubtasks(ts[|ts| - 1]) then [ts[|ts| - 1].id] else []
  }

  /**
   * `parentTasks.forEach(...)`: one group per task with subtasks, in list order,
   * registered in `groupMap` under the task id.
   */
  method CreateGroups(tasks: seq<Task>) returns (order: seq<string>, groups: map<string, GroupNode>)
    requires UniqueIds(tasks)
    ensures order == ParentIds(tasks)
    ensures forall id :: id in groups <==> id in order
    ensures forall k :: 0 <= k < |tasks| && HasSubtasks(tasks[k]) ==> groups[tasks[k].id] == InitialGroup(tasks[k])
  {
    order, groups := [], map[];
    var k := 0;
    while k < |tasks|
      invariant 0 <= k <= |tasks|
      invariant order == ParentIds(tasks[..k])
      invariant forall id :: id in groups <==> id in order
      invariant forall i :: 0 <= i < k && HasSubtasks(tasks[i]) ==> tasks[i].id in groups && groups[tasks[i].id] == InitialGroup(tasks[i])
    {
      var task := tasks[k];
      assert tasks[..k + 1][..k] == tasks[..k];
      if |task.subtasks| > 0 {
        EarlierIdsDiffer(tasks, k);
        order := order + [task.id];
        groups := groups[task.id := InitialGroup(task)];
      }
      k := k + 1;
    }
    assert tasks[..k] == tasks;
  }

  lemma EarlierIdsDiffer(tasks: seq<Task>, k: int)
    requires UniqueIds(tasks) && 0 <= k < |tasks|
    ensures forall i :: 0 <= i < k ==> tasks[i].id != tasks[k].id
  {
    assert forall i :: 0 <= i < k ==> Ids(tasks)[i] == tasks[i].id;
    assert Ids(tasks)[k] == tasks[k].id;
  }
}
