/**
 * `useTaskGraph`: the whole conversion of a task list into the ReactFlow nodes
 * (group boxes first, then leaf subtasks) and "blocks" edges of the
 * task-relationship view.
 */
module TaskGraph {
  import opened Common
  import opened Tasks
  import opened TaskGraphMaps
  import opened TaskGraphGeometry
  import opened TaskGraphNodes
  import opened TaskGraphEdges
  import opened TaskGraphLayout
  import opened TaskGraphAdjust

  /**
   * The fields of a ReactFlow node the layout decides. A group node carries
   * the task it stands for and its box size; a leaf node its position relative
   * to its parent group.
   */
  datatype FlowNode =
    | GroupFlowNode(id: string, taskId: string, position: Pos, width: real, height: real)
    | TaskFlowNode(id: string, position: Pos, parentNode: Option<string>)

  /** `standaloneTaskIds`: the ids of the tasks no task lists as a subtask, in list order. */
  function StandaloneIds(tasks: seq<Task>, ts: seq<Task>): (r: seq<string>)
    ensures forall id :: id in r <==> exists k :: 0 <= k < |ts| && ts[k].id == id && !IsListedAsSubtask(tasks, id)
  {
    if ts == [] then []
    else
      var r0 := StandaloneIds(tasks, ts[..|ts| - 1]);
      assert forall k :: 0 <= k < |ts| - 1 ==> ts[..|ts| - 1][k] == ts[k];
      r0 + if IsListedAsSubtask(tasks, ts[|ts| - 1].id) then [] else [ts[|ts| - 1].id]
  }

  lemma SameIdSameTask(tasks: seq<Task>, k: int, k': int)
    requires UniqueIds(tasks) && 0 <= k < |tasks| && 0 <= k' < |tasks|
    requires tasks[k].id == tasks[k'].id
    ensures k == k'
  {
    assert Ids(tasks)[k] == tasks[k].id && Ids(tasks)[k'] == tasks[k'].id;
  }

  /** The `nodes` array holds exactly the ids of the leaf subtasks. */
  lemma {:induction false} LeafIdsMembers(tasks: seq<Task>, ts: seq<Task>)
    ensures forall id :: id in LeafIds(tasks, ts) <==> exists k :: 0 <= k < |ts| && ts[k].id == id && IsLeafSubtask(tasks, ts[k])
  {
    if ts != [] {
      var n := |ts| - 1;
      LeafIdsMembers(tasks, ts[..n]);
      assert forall k :: 0 <= k < n ==> ts[..n][k] == ts[k];
    }
  }

  /** With unique task ids, no leaf node is created twice. */
  lemma {:induction false} LeafIdsDistinct(tasks: seq<Task>, ts: seq<Task>)
    requires UniqueIds(ts)
    ensures Distinct(LeafIds(tasks, ts))
  {
    if ts != [] {
      var n := |ts| - 1;
      UniquePrefix(ts);
      LeafIdsDistinct(tasks, ts[..n]);
      LeafIdsMembers(tasks, ts[..n]);
      forall k | 0 <= k < n ensures ts[..n][k].id != ts[n].id {
        assert Ids(ts[..n])[k] == ts[..n][k].id;
      }
      assert ts[n].id !in LeafIds(tasks, ts[..n]);
    }
  }

  /** With unique task ids, no group node is created twice. */
  lemma {:induction false} ParentIdsDistinct(ts: seq<Task>)
    requires UniqueIds(ts)
    ensures Distinct(ParentIds(ts))
  {
    if ts != [] {
      var n := |ts| - 1;
      UniquePrefix(ts);
      ParentIdsDistinct(ts[..n]);
      forall k | 0 <= k < n ensures ts[..n][k].id != ts[n].id {
        assert Ids(ts[..n])[k] == ts[..n][k].id;
      }
      assert ts[n].id !in ParentIds(ts[..n]);
    }
  }

  /**
   * A task that has no subtasks and is nobody's subtask gets no node: the
   * output holds group nodes of parent tasks and nodes of leaf subtasks only.
   */
  lemma StandaloneTaskNotDrawn(tasks: seq<Task>, k: int)
    requires UniqueIds(tasks) && 0 <= k < |tasks|
    requires !HasSubtasks(tasks[k]) && !IsListedAsSubtask(tasks, tasks[k].id)
    ensures tasks[k].id !in ParentIds(tasks)
    ensures tasks[k].id !in LeafIds(tasks, tasks)
  {
    LeafIdsMembers(tasks, tasks);
    if tasks[k].id in ParentIds(tasks) {
      var k' :| 0 <= k' < |tasks| && tasks[k'].id == tasks[k].id && HasSubtasks(tasks[k']);
      SameIdSameTask(tasks, k, k');
    }
  }

  /** The positions of the `nodeMap` entries after step 2: leaf subtasks at their row, all else at the origin. */
  function InitialPositions(nodeMap: map<string, NodeEntry>, placed: map<string, LeafPlacement>): (p: map<string, Pos>)
    ensures p.Keys == nodeMap.Keys
  {
    map k | k in nodeMap :: if k in placed then LeafPosition(placed[k]) else Pos(0.0, 0.0)
  }

  /** The groups of step 3: one per task with subtasks, as `InitialGroup` builds it. */
  ghost predicate GroupsOf(tasks: seq<Task>, groups: map<string, GroupNode>)
  {
    && (forall id :: id in groups <==> id in ParentIds(tasks))
    && (forall k :: 0 <= k < |tasks| && HasSubtasks(tasks[k]) ==> groups[tasks[k].id] == InitialGroup(tasks[k]))
  }

  /** Steps 1 to 3: relationship maps, leaf placement, edges and group creation. */
  method Prepare(tasks: seq<Task>)
    returns (g: Graph, c0: Canvas, order: seq<string>, roots: seq<string>, leaves: seq<string>,
             placed: map<string, LeafPlacement>, edges: seq<Edge>)
    requires UniqueIds(tasks)
    ensures g == Graph(NodeMapOf(tasks, tasks), SubtaskMapOf(tasks), BlockedByMapOf(tasks))
    ensures placed == LeafPlacementsOf(g.nodeMap, tasks)
    ensures order == ParentIds(tasks) && roots == StandaloneIds(tasks, tasks) && leaves == LeafIds(tasks, tasks)
    ensures c0.positions == InitialPositions(g.nodeMap, placed) && c0.rightEdges == map[]
    ensures GroupsOf(tasks, c0.groups)
    ensures edges == EdgesOf(tasks, tasks)
  {
    var nodeMap, subtaskMap, blockedByMap, blocksMap;
    nodeMap, leaves, subtaskMap, blockedByMap, blocksMap := FirstPass(tasks);
    placed := AssignLeafParents(tasks, nodeMap);
    edges := BuildEdges(tasks);
    var groups;
    order, groups := CreateGroups(tasks);
    roots := StandaloneIds(tasks, tasks);
    g := Graph(nodeMap, subtaskMap, blockedByMap);
    c0 := Canvas(InitialPositions(nodeMap, placed), groups, map[]);
  }

  /** `blockedByMap.get(id) || []` of a listed task is its blocker list. */
  lemma BlockersOf(tasks: seq<Task>, k: int)
    requires UniqueIds(tasks) && 0 <= k < |tasks|
    ensures Lookup(BlockedByMapOf(tasks), tasks[k].id) == BlockerIds(tasks[k])
  {
    BlockedByMapMeaning(tasks);
  }

  /** The main loop may run: every top-level id has a node entry and no group is of negative height. */
  lemma PreparedForLayout(tasks: seq<Task>, nodeMap: map<string, NodeEntry>, groups: map<string, GroupNode>, roots: seq<string>)
    requires UniqueIds(tasks) && nodeMap == NodeMapOf(tasks, tasks)
    requires roots == StandaloneIds(tasks, tasks) && GroupsOf(tasks, groups)
    ensures forall i :: 0 <= i < |roots| ==> roots[i] in nodeMap
    ensures forall k :: k in groups ==> groups[k].height >= 0.0
  {
    NodeMapMeaning(tasks, tasks);
    forall k | k in groups ensures groups[k].height >= 0.0 {
      var i := ParentTask(tasks, k);
    }
    forall i | 0 <= i < |roots| ensures roots[i] in nodeMap {
      var k := StandaloneTask(tasks, roots[i]);
      assert Ids(tasks)[k] == roots[i];
    }
  }

  /**
   * A leaf is a node entry without subtasks, neither a group nor a top-level
   * id, and step 2 placed it.
   */
  lemma PreparedLeaf(tasks: seq<Task>, g: Graph, c0: Canvas, placed: map<string, LeafPlacement>, l: string)
    requires UniqueIds(tasks) && g == Graph(NodeMapOf(tasks, tasks), SubtaskMapOf(tasks), BlockedByMapOf(tasks))
    requires placed == LeafPlacementsOf(g.nodeMap, tasks)
    requires c0.positions == InitialPositions(g.nodeMap, placed) && GroupsOf(tasks, c0.groups)
    requires l in LeafIds(tasks, tasks)
    ensures l in g.nodeMap && l !in c0.groups && l !in StandaloneIds(tasks, tasks)
    ensures Lookup(g.subtaskMap, l) == []
    ensures l in placed && c0.positions[l] == LeafPosition(placed[l])
  {
    var k := LeafTask(tasks, l);
    NodeMapMeaning(tasks, tasks);
    SubtaskMapMeaning(tasks);
    LeafPlacementsDomain(g.nodeMap, tasks);
    assert Ids(tasks)[k] == l;
    assert IsLeaf(g.nodeMap, l);
    if l in c0.groups {
      var k' := ParentTask(tasks, l);
      SameIdSameTask(tasks, k, k');
    }
  }

  lemma PreparedLeaves(tasks: seq<Task>, g: Graph, c0: Canvas, placed: map<string, LeafPlacement>)
    requires UniqueIds(tasks) && g == Graph(NodeMapOf(tasks, tasks), SubtaskMapOf(tasks), BlockedByMapOf(tasks))
    requires placed == LeafPlacementsOf(g.nodeMap, tasks)
    requires c0.positions == InitialPositions(g.nodeMap, placed) && GroupsOf(tasks, c0.groups)
    ensures Distinct(LeafIds(tasks, tasks)) && Distinct(ParentIds(tasks))
    ensures forall i :: 0 <= i < |LeafIds(tasks, tasks)| ==>
              LeafIds(tasks, tasks)[i] in g.nodeMap && Lookup(g.subtaskMap, LeafIds(tasks, tasks)[i]) == []
    ensures g.nodeMap.Keys <= c0.positions.Keys
  {
    LeafIdsDistinct(tasks, tasks);
    ParentIdsDistinct(tasks);
    var leaves := LeafIds(tasks, tasks);
    forall i | 0 <= i < |leaves| ensures leaves[i] in g.nodeMap && Lookup(g.subtaskMap, leaves[i]) == [] {
      PreparedLeaf(tasks, g, c0, placed, leaves[i]);
    }
  }

  /** A group node id is the id of a task with subtasks. */
  lemma ParentTask(tasks: seq<Task>, id: string) returns (k: int)
    requires id in ParentIds(tasks)
    ensures 0 <= k < |tasks| && tasks[k].id == id && HasSubtasks(tasks[k])
  {
    k :| 0 <= k < |tasks| && tasks[k].id == id && HasSubtasks(tasks[k]);
  }

  /** A leaf node id is the id of a task without subtasks that some task lists. */
  lemma LeafTask(tasks: seq<Task>, l: string) returns (k: int)
    requires l in LeafIds(tasks, tasks)
    ensures 0 <= k < |tasks| && tasks[k].id == l && IsLeafSubtask(tasks, tasks[k])
  {
    LeafIdsMembers(tasks, tasks);
    k :| 0 <= k < |tasks| && tasks[k].id == l && IsLeafSubtask(tasks, tasks[k]);
  }

  /** A top-level id is the id of a task nobody lists as a subtask. */
  lemma StandaloneTask(tasks: seq<Task>, id: string) returns (k: int)
    requires id in StandaloneIds(tasks, tasks)
    ensures 0 <= k < |tasks| && tasks[k].id == id && !IsListedAsSubtask(tasks, id)
  {
    k :| 0 <= k < |tasks| && tasks[k].id == id && !IsListedAsSubtask(tasks, id);
  }

  /** The group boxes of `groups` in order: `groups` as spread at the front of the output. */
  function GroupFlowNodes(groups: map<string, GroupNode>, order: seq<string>): (r: seq<FlowNode>)
    requires forall i :: 0 <= i < |order| ==> order[i] in groups
    ensures |r| == |order|
    ensures forall i :: 0 <= i < |order| ==>
              r[i] == GroupFlowNode(GroupNodeId(order[i]), order[i], groups[order[i]].position,
                                    groups[order[i]].width, groups[order[i]].height)
  {
    seq(|order|, i requires 0 <= i < |order| =>
      var gn := groups[order[i]];
      GroupFlowNode(GroupNodeId(order[i]), order[i], gn.position, gn.width, gn.height))
  }

  /** The leaf nodes in order: `nodes` as spread after the groups. */
  function LeafFlowNodes(positions: map<string, Pos>, placed: map<string, LeafPlacement>, leaves: seq<string>): (r: seq<FlowNode>)
    requires forall i :: 0 <= i < |leaves| ==> leaves[i] in positions
    ensures |r| == |leaves|
    ensures forall i :: 0 <= i < |leaves| ==>
              r[i] == TaskFlowNode(leaves[i], positions[leaves[i]],
                                   if leaves[i] in placed then Some(GroupNodeId(placed[leaves[i]].parentId)) else None)
  {
    seq(|leaves|, i requires 0 <= i < |leaves| =>
      TaskFlowNode(leaves[i], positions[leaves[i]],
                   if leaves[i] in placed then Some(GroupNodeId(placed[leaves[i]].parentId)) else None))
  }

  /** `[...groups, ...nodes]`: the group boxes in order, then the leaves in order. */
  function FlowNodes(c: Canvas, order: seq<string>, placed: map<string, LeafPlacement>, leaves: seq<string>): (r: seq<FlowNode>)
    requires forall i :: 0 <= i < |order| ==> order[i] in c.groups
    requires forall i :: 0 <= i < |leaves| ==> leaves[i] in c.positions
    ensures |r| == |order| + |leaves|
    ensures forall i :: 0 <= i < |order| ==>
              r[i] == GroupFlowNode(GroupNodeId(order[i]), order[i], c.groups[order[i]].position,
                                    c.groups[order[i]].width, c.groups[order[i]].height)
    ensures forall i :: 0 <= i < |leaves| ==>
              r[|order| + i] == TaskFlowNode(leaves[i], c.positions[leaves[i]],
                                             if leaves[i] in placed then Some(GroupNodeId(placed[leaves[i]].parentId)) else None)
  {
    var gs, ls := GroupFlowNodes(c.groups, order), LeafFlowNodes(c.positions, placed, leaves);
    var r := gs + ls;
    assert forall i :: 0 <= i < |order| ==> r[i] == gs[i];
    assert forall i :: 0 <= i < |leaves| ==> r[|order| + i] == ls[i];
    r
  }

  /**
   * The group nodes of the output, one per task with subtasks in list order:
   * each sized from its task and, when blocked, starting at 150 or more.
   */
  ghost predicate GroupNodesSized(tasks: seq<Task>, nodes: seq<FlowNode>)
  {
    && |nodes| >= |ParentIds(tasks)|
    && (forall i :: 0 <= i < |ParentIds(tasks)| ==>
          && nodes[i].GroupFlowNode? && nodes[i].taskId == ParentIds(tasks)[i]
          && nodes[i].id == GroupNodeId(ParentIds(tasks)[i]))
    && (forall i, k :: 0 <= i < |ParentIds(tasks)| && 0 <= k < |tasks| && tasks[k].id == ParentIds(tasks)[i] ==>
          && nodes[i].width == FinalGroupWidth(TotalEstimate(tasks[k]))
          && nodes[i].height == GroupHeight(|tasks[k].subtasks|)
          && (BlockerIds(tasks[k]) != [] ==> nodes[i].position.x >= HORIZONTAL_GAP))
  }

  /** Two standalone groups never share a row: their tops are at least 200 apart. */
  ghost predicate StandaloneGroupsInRows(tasks: seq<Task>, nodes: seq<FlowNode>)
  {
    && |nodes| >= |ParentIds(tasks)|
    && forall i, j :: 0 <= i < j < |ParentIds(tasks)|
                      && !IsListedAsSubtask(tasks, ParentIds(tasks)[i]) && !IsListedAsSubtask(tasks, ParentIds(tasks)[j]) ==>
         nodes[i].position.y + ROW_HEIGHT <= nodes[j].position.y || nodes[j].position.y + ROW_HEIGHT <= nodes[i].position.y
  }

  /** A group starts at least 150 past the end of every group that blocks it and comes before it in the output. */
  ghost predicate GroupsAfterEarlierBlockers(tasks: seq<Task>, nodes: seq<FlowNode>)
  {
    && |nodes| >= |ParentIds(tasks)|
    && (forall i :: 0 <= i < |ParentIds(tasks)| ==> nodes[i].GroupFlowNode?)
    && forall i, j, k :: 0 <= j < i < |ParentIds(tasks)| && 0 <= k < |tasks| && tasks[k].id == ParentIds(tasks)[i]
                         && ParentIds(tasks)[j] in BlockerIds(tasks[k]) ==>
         nodes[i].position.x >= nodes[j].position.x + nodes[j].width + HORIZONTAL_GAP
  }

  /**
   * The leaf nodes of the output, one per leaf subtask in list order after the
   * groups: each inside the group of its last listing, in the row of that
   * listing, never left of the 20 margin, and at 150 or more when blocked.
   */
  ghost predicate LeafNodesPlaced(tasks: seq<Task>, nodes: seq<FlowNode>)
  {
    var p, leaves := |ParentIds(tasks)|, LeafIds(tasks, tasks);
    var placements := LeafPlacementsOf(NodeMapOf(tasks, tasks), tasks);
    && |nodes| == p + |leaves|
    && (forall j :: 0 <= j < |leaves| ==>
          && leaves[j] in placements
          && nodes[p + j] == TaskFlowNode(leaves[j], nodes[p + j].position, Some(GroupNodeId(placements[leaves[j]].parentId)))
          && nodes[p + j].position.y == LeafRowTop(placements[leaves[j]].index)
          && nodes[p + j].position.x >= SUBTASK_MARGIN_X)
    && (forall j, k :: 0 <= j < |leaves| && 0 <= k < |tasks| && tasks[k].id == leaves[j] && BlockerIds(tasks[k]) != [] ==>
          nodes[p + j].position.x >= HORIZONTAL_GAP)
  }

  /**
   * `useTaskGraph`: the group nodes followed by the leaf nodes, and one edge
   * per blocker listing.
   */
  method UseTaskGraph(tasks: seq<Task>) returns (nodes: seq<FlowNode>, edges: seq<Edge>)
    requires UniqueIds(tasks)
    ensures edges == EdgesOf(tasks, tasks)
    ensures GroupNodesSized(tasks, nodes)
    ensures StandaloneGroupsInRows(tasks, nodes)
    ensures GroupsAfterEarlierBlockers(tasks, nodes)
    ensures LeafNodesPlaced(tasks, nodes)
  {
    var g, c0, order, roots, leaves, placed;
    g, c0, order, roots, leaves, placed, edges := Prepare(tasks);
    PreparedForLayout(tasks, g.nodeMap, c0.groups, roots);
    // Step 4: the main loop over the top-level tasks, then the leaf pass
    var c1, currentY, processed, layoutOrder, fallback := LayoutRoots(g, c0, roots);
    LayoutKeepsGroups(tasks, c0, c1);
    LayoutRows(tasks, g, c0, c1, currentY, processed, layoutOrder, fallback);
    var c2 := ShiftLeaves(tasks, g, c0, placed, c1, currentY, processed, layoutOrder, fallback);
    nodes := PlaceGroupsAndEmit(tasks, g, placed, c2);
  }

  /** Every task with subtasks has its group, with the estimate and height it was created with. */
  ghost predicate GroupsKept(tasks: seq<Task>, groups: map<string, GroupNode>)
  {
    && (forall i :: 0 <= i < |ParentIds(tasks)| ==> ParentIds(tasks)[i] in groups)
    && (forall k :: 0 <= k < |tasks| && HasSubtasks(tasks[k]) ==>
          && tasks[k].id in groups
          && groups[tasks[k].id].totalEstimate == TotalEstimate(tasks[k])
          && groups[tasks[k].id].height == GroupHeight(|tasks[k].subtasks|))
  }

  /** The groups of two standalone tasks are at least a row apart. */
  ghost predicate RootRowsApart(tasks: seq<Task>, groups: map<string, GroupNode>)
  {
    forall i, j :: 0 <= i < j < |ParentIds(tasks)| && ParentIds(tasks)[i] in groups && ParentIds(tasks)[j] in groups
                   && !IsListedAsSubtask(tasks, ParentIds(tasks)[i]) && !IsListedAsSubtask(tasks, ParentIds(tasks)[j]) ==>
      groups[ParentIds(tasks)[i]].position.y + ROW_HEIGHT <= groups[ParentIds(tasks)[j]].position.y
      || groups[ParentIds(tasks)[j]].position.y + ROW_HEIGHT <= groups[ParentIds(tasks)[i]].position.y
  }

  /** The main loop moves group boxes but keeps the estimate and height they were created with. */
  lemma LayoutKeepsGroups(tasks: seq<Task>, c0: Canvas, c1: Canvas)
    requires GroupsOf(tasks, c0.groups) && KeepsBoxes(c0, c1)
    ensures GroupsKept(tasks, c1.groups)
  {
    forall k | 0 <= k < |tasks| && HasSubtasks(tasks[k])
      ensures tasks[k].id in c1.groups
      ensures c1.groups[tasks[k].id].totalEstimate == TotalEstimate(tasks[k])
      ensures c1.groups[tasks[k].id].height == GroupHeight(|tasks[k].subtasks|)
    {
      assert c0.groups[tasks[k].id] == InitialGroup(tasks[k]);
    }
  }

  /** The main loop puts the groups of standalone tasks in rows of their own. */
  lemma LayoutRows(tasks: seq<Task>, g: Graph, c0: Canvas,
                   c1: Canvas, currentY: real, processed: set<string>, layoutOrder: seq<string>, fallback: set<string>)
    requires UniqueIds(tasks)
    requires forall k :: k in processed <==> k in StandaloneIds(tasks, tasks)
    requires LayoutState(g, c0, StandaloneIds(tasks, tasks), c1, currentY, processed, layoutOrder, fallback)
    ensures RootRowsApart(tasks, c1.groups)
  {
    var order, roots := ParentIds(tasks), StandaloneIds(tasks, tasks);
    ParentIdsDistinct(tasks);
    forall i, j | 0 <= i < j < |order| && order[i] in c1.groups && order[j] in c1.groups
                  && !IsListedAsSubtask(tasks, order[i]) && !IsListedAsSubtask(tasks, order[j])
      ensures c1.groups[order[i]].position.y + ROW_HEIGHT <= c1.groups[order[j]].position.y
              || c1.groups[order[j]].position.y + ROW_HEIGHT <= c1.groups[order[i]].position.y
    {
      var a, b := order[i], order[j];
      var ka := ParentTask(tasks, a);
      var kb := ParentTask(tasks, b);
      assert a in roots && b in roots;
      RowsApart(c1, layoutOrder, currentY, a, b);
    }
  }

  /** Steps 5 and 6 and the node list returned, from the canvas the leaf pass left. */
  method PlaceGroupsAndEmit(tasks: seq<Task>, g: Graph, placed: map<string, LeafPlacement>, c2: Canvas)
    returns (nodes: seq<FlowNode>)
    requires UniqueIds(tasks) && g.blockedByMap == BlockedByMapOf(tasks)
    requires placed == LeafPlacementsOf(NodeMapOf(tasks, tasks), tasks)
    requires GroupsKept(tasks, c2.groups) && RootRowsApart(tasks, c2.groups)
    requires LeavesSettled(tasks, placed, c2.positions)
    ensures GroupNodesSized(tasks, nodes)
    ensures StandaloneGroupsInRows(tasks, nodes)
    ensures GroupsAfterEarlierBlockers(tasks, nodes)
    ensures LeafNodesPlaced(tasks, nodes)
  {
    var order, leaves := ParentIds(tasks), LeafIds(tasks, tasks);
    var c4 := AdjustGroups(tasks, g, c2);
    nodes := FlowNodes(c4, order, placed, leaves);
    GroupsSized(tasks, c2, c4, nodes);
    GroupsInRows(tasks, c2, c4, nodes);
    GroupsAfterBlockers(tasks, c4, nodes);
    LeavesPlaced(tasks, placed, c4.positions, nodes);
  }

  /**
   * Steps 5 and 6 for the groups of `tasks`: every group gets its final width
   * and keeps its height and row, a blocked group starts at 150 or more, and a
   * group ends up at least 150 past the end of every blocker group handled
   * before it.
   */
  method AdjustGroups(tasks: seq<Task>, g: Graph, c2: Canvas) returns (c4: Canvas)
    requires UniqueIds(tasks) && g.blockedByMap == BlockedByMapOf(tasks)
    requires forall i :: 0 <= i < |ParentIds(tasks)| ==> ParentIds(tasks)[i] in c2.groups
    ensures c4.positions == c2.positions && c4.groups.Keys == c2.groups.Keys
    ensures forall i, k :: 0 <= i < |ParentIds(tasks)| && 0 <= k < |tasks| && tasks[k].id == ParentIds(tasks)[i] ==>
              && c4.groups[tasks[k].id].width == FinalGroupWidth(c2.groups[tasks[k].id].totalEstimate)
              && c4.groups[tasks[k].id].height == c2.groups[tasks[k].id].height
              && c4.groups[tasks[k].id].position.y == c2.groups[tasks[k].id].position.y
              && (BlockerIds(tasks[k]) != [] ==> c4.groups[tasks[k].id].position.x >= HORIZONTAL_GAP)
    ensures forall i, j, k :: 0 <= j < i < |ParentIds(tasks)| && 0 <= k < |tasks| && tasks[k].id == ParentIds(tasks)[i]
                              && ParentIds(tasks)[j] in BlockerIds(tasks[k]) ==>
              c4.groups[ParentIds(tasks)[i]].position.x
                >= c4.groups[ParentIds(tasks)[j]].position.x + c4.groups[ParentIds(tasks)[j]].width + HORIZONTAL_GAP
  {
    var order := ParentIds(tasks);
    ParentIdsDistinct(tasks);
    var c3 := ResizeGroups(c2, order);
    ghost var seen;
    c4, seen := ShiftGroups(g, c3, order);
    forall i, k | 0 <= i < |order| && 0 <= k < |tasks| && tasks[k].id == order[i]
      ensures c4.groups[tasks[k].id].width == FinalGroupWidth(c2.groups[tasks[k].id].totalEstimate)
      ensures c4.groups[tasks[k].id].height == c2.groups[tasks[k].id].height
      ensures c4.groups[tasks[k].id].position.y == c2.groups[tasks[k].id].position.y
      ensures BlockerIds(tasks[k]) != [] ==> c4.groups[tasks[k].id].position.x >= HORIZONTAL_GAP
    {
      GroupAfterAdjust(g, c2, c3, c4, order, seen, i);
      BlockersOf(tasks, k);
    }
    forall i, j, k | 0 <= j < i < |order| && 0 <= k < |tasks| && tasks[k].id == order[i] && order[j] in BlockerIds(tasks[k])
      ensures c4.groups[order[i]].position.x >= c4.groups[order[j]].position.x + c4.groups[order[j]].width + HORIZONTAL_GAP
    {
      assert order[j] !in order[i..];
      BlockersOf(tasks, k);
      GroupClearsBlockers(g, c3, c4, order, seen, i, order[j]);
      GroupAfterAdjust(g, c2, c3, c4, order, seen, j);
    }
  }

  /** What steps 5 and 6 leave in one group: resized, moved at most horizontally, its right edge where it ends. */
  lemma GroupAfterAdjust(g: Graph, c2: Canvas, c3: Canvas, c4: Canvas,
                         order: seq<string>, seen: seq<map<string, real>>, i: int)
    requires 0 <= i < |order| && |seen| == |order| && order[i] in c2.groups
    requires c3.groups.Keys == c2.groups.Keys
    requires forall k :: k in c2.groups && k in order ==>
               && c3.groups[k] == c2.groups[k].(width := FinalGroupWidth(c2.groups[k].totalEstimate))
               && k in c3.rightEdges && c3.rightEdges[k] == c3.groups[k].position.x + c3.groups[k].width
    requires GroupShift(g, c3, c4, order[i], seen[i])
    ensures c4.groups[order[i]].width == FinalGroupWidth(c2.groups[order[i]].totalEstimate)
    ensures c4.groups[order[i]].height == c2.groups[order[i]].height
    ensures c4.groups[order[i]].position.y == c2.groups[order[i]].position.y
    ensures Lookup(g.blockedByMap, order[i]) != [] ==> c4.groups[order[i]].position.x >= HORIZONTAL_GAP
    ensures RightEdge(c4.rightEdges, order[i]) == c4.groups[order[i]].position.x + c4.groups[order[i]].width
  {
  }

  lemma GroupsSized(tasks: seq<Task>, c2: Canvas, c4: Canvas, nodes: seq<FlowNode>)
    requires UniqueIds(tasks) && GroupsKept(tasks, c2.groups)
    requires forall i :: 0 <= i < |ParentIds(tasks)| ==> ParentIds(tasks)[i] in c4.groups
    requires forall i, k :: 0 <= i < |ParentIds(tasks)| && 0 <= k < |tasks| && tasks[k].id == ParentIds(tasks)[i] ==>
               && c4.groups[tasks[k].id].width == FinalGroupWidth(c2.groups[tasks[k].id].totalEstimate)
               && c4.groups[tasks[k].id].height == c2.groups[tasks[k].id].height
               && (BlockerIds(tasks[k]) != [] ==> c4.groups[tasks[k].id].position.x >= HORIZONTAL_GAP)
    requires |nodes| >= |ParentIds(tasks)|
    requires forall i :: 0 <= i < |ParentIds(tasks)| ==>
               nodes[i] == GroupFlowNode(GroupNodeId(ParentIds(tasks)[i]), ParentIds(tasks)[i], c4.groups[ParentIds(tasks)[i]].position,
                                         c4.groups[ParentIds(tasks)[i]].width, c4.groups[ParentIds(tasks)[i]].height)
    ensures GroupNodesSized(tasks, nodes)
  {
    var order := ParentIds(tasks);
    forall i, k | 0 <= i < |order| && 0 <= k < |tasks| && tasks[k].id == order[i]
      ensures nodes[i].width == FinalGroupWidth(TotalEstimate(tasks[k]))
      ensures nodes[i].height == GroupHeight(|tasks[k].subtasks|)
    {
      var k' := ParentTask(tasks, order[i]);
      SameIdSameTask(tasks, k, k');
    }
  }

  lemma GroupsInRows(tasks: seq<Task>, c2: Canvas, c4: Canvas, nodes: seq<FlowNode>)
    requires GroupsKept(tasks, c2.groups) && RootRowsApart(tasks, c2.groups)
    requires forall i :: 0 <= i < |ParentIds(tasks)| ==> ParentIds(tasks)[i] in c4.groups
    requires forall i, k :: 0 <= i < |ParentIds(tasks)| && 0 <= k < |tasks| && tasks[k].id == ParentIds(tasks)[i] ==>
               c4.groups[tasks[k].id].position.y == c2.groups[tasks[k].id].position.y
    requires |nodes| >= |ParentIds(tasks)|
    requires forall i :: 0 <= i < |ParentIds(tasks)| ==> nodes[i].position == c4.groups[ParentIds(tasks)[i]].position
    ensures StandaloneGroupsInRows(tasks, nodes)
  {
    var order := ParentIds(tasks);
    forall i | 0 <= i < |order| ensures nodes[i].position.y == c2.groups[order[i]].position.y {
      var k := ParentTask(tasks, order[i]);
    }
  }

  lemma GroupsAfterBlockers(tasks: seq<Task>, c4: Canvas, nodes: seq<FlowNode>)
    requires forall i :: 0 <= i < |ParentIds(tasks)| ==> ParentIds(tasks)[i] in c4.groups
    requires forall i, j, k :: 0 <= j < i < |ParentIds(tasks)| && 0 <= k < |tasks| && tasks[k].id == ParentIds(tasks)[i]
                               && ParentIds(tasks)[j] in BlockerIds(tasks[k]) ==>
               c4.groups[ParentIds(tasks)[i]].position.x
                 >= c4.groups[ParentIds(tasks)[j]].position.x + c4.groups[ParentIds(tasks)[j]].width + HORIZONTAL_GAP
    requires |nodes| >= |ParentIds(tasks)|
    requires forall i :: 0 <= i < |ParentIds(tasks)| ==>
               nodes[i] == GroupFlowNode(GroupNodeId(ParentIds(tasks)[i]), ParentIds(tasks)[i], c4.groups[ParentIds(tasks)[i]].position,
                                         c4.groups[ParentIds(tasks)[i]].width, c4.groups[ParentIds(tasks)[i]].height)
    ensures GroupsAfterEarlierBlockers(tasks, nodes)
  {
  }

  /** Two distinct boxes of a spaced run are at least a row apart. */
  lemma RowsApart(c: Canvas, order: seq<string>, y: real, a: string, b: string)
    requires Spaced(c, order, y)
    requires a in order && b in order && a != b
    ensures YOf(c, a) + ROW_HEIGHT <= YOf(c, b) || YOf(c, b) + ROW_HEIGHT <= YOf(c, a)
  {
    var ia :| 0 <= ia < |order| && order[ia] == a;
    var ib :| 0 <= ib < |order| && order[ib] == b;
    if ia < ib {
      assert YOf(c, order[ia]) + ROW_HEIGHT <= YOf(c, order[ib]);
    } else {
      assert YOf(c, order[ib]) + ROW_HEIGHT <= YOf(c, order[ia]);
    }
  }

  /** What the leaf pass leaves for one leaf: same y, never further left, 150 or more when blocked. */
  lemma LeafShiftBounds(g: Graph, c: Canvas, c': Canvas, l: string, re: map<string, real>)
    requires LeafShift(g, c, c', l, re)
    ensures c'.positions[l].y == c.positions[l].y
    ensures c'.positions[l].x >= c.positions[l].x
    ensures Lookup(g.blockedByMap, l) != [] ==> c'.positions[l].x >= HORIZONTAL_GAP
  {
  }

  /**
   * Where the leaf pass leaves the leaves: each has a placement, sits in the
   * row of that placement, never left of the 20 margin, and at 150 or more
   * when it has blockers.
   */
  ghost predicate LeavesSettled(tasks: seq<Task>, placed: map<string, LeafPlacement>, positions: map<string, Pos>)
  {
    var leaves := LeafIds(tasks, tasks);
    && (forall j :: 0 <= j < |leaves| ==>
          && leaves[j] in placed && leaves[j] in positions
          && positions[leaves[j]].y == LeafRowTop(placed[leaves[j]].index)
          && positions[leaves[j]].x >= SUBTASK_MARGIN_X)
    && (forall j, k :: 0 <= j < |leaves| && 0 <= k < |tasks| && tasks[k].id == leaves[j] && BlockerIds(tasks[k]) != [] ==>
          leaves[j] in positions && positions[leaves[j]].x >= HORIZONTAL_GAP)
  }

  /** The leaf post-pass of step 4, on the canvas the main loop left. */
  method ShiftLeaves(tasks: seq<Task>, g: Graph, c0: Canvas, placed: map<string, LeafPlacement>,
                     c1: Canvas, ghost currentY: real, ghost processed: set<string>,
                     ghost layoutOrder: seq<string>, ghost fallback: set<string>)
    returns (c2: Canvas)
    requires UniqueIds(tasks) && g == Graph(NodeMapOf(tasks, tasks), SubtaskMapOf(tasks), BlockedByMapOf(tasks))
    requires placed == LeafPlacementsOf(g.nodeMap, tasks)
    requires c0.positions == InitialPositions(g.nodeMap, placed) && GroupsOf(tasks, c0.groups)
    requires forall k :: k in processed <==> k in StandaloneIds(tasks, tasks)
    requires LayoutState(g, c0, StandaloneIds(tasks, tasks), c1, currentY, processed, layoutOrder, fallback)
    ensures c2.groups == c1.groups
    ensures LeavesSettled(tasks, placed, c2.positions)
  {
    var leaves := LeafIds(tasks, tasks);
    PreparedLeaves(tasks, g, c0, placed);
    ghost var seen;
    c2, seen := AdjustLeaves(g, c1, leaves);
    forall j | 0 <= j < |leaves|
      ensures leaves[j] in placed && leaves[j] in c2.positions
      ensures c2.positions[leaves[j]].y == LeafRowTop(placed[leaves[j]].index)
      ensures c2.positions[leaves[j]].x >= SUBTASK_MARGIN_X
      ensures Lookup(g.blockedByMap, leaves[j]) != [] ==> c2.positions[leaves[j]].x >= HORIZONTAL_GAP
    {
      var l := leaves[j];
      PreparedLeaf(tasks, g, c0, placed, l);
      LeafUntouchedByLayout(g, c0, StandaloneIds(tasks, tasks), c1, currentY, processed, layoutOrder, fallback, l);
      LeafShiftBounds(g, c1, c2, l, seen[j]);
    }
    forall j, k | 0 <= j < |leaves| && 0 <= k < |tasks| && tasks[k].id == leaves[j] && BlockerIds(tasks[k]) != []
      ensures c2.positions[leaves[j]].x >= HORIZONTAL_GAP
    {
      BlockersOf(tasks, k);
    }
  }

  lemma LeavesPlaced(tasks: seq<Task>, placed: map<string, LeafPlacement>, positions: map<string, Pos>, nodes: seq<FlowNode>)
    requires placed == LeafPlacementsOf(NodeMapOf(tasks, tasks), tasks)
    requires LeavesSettled(tasks, placed, positions)
    requires |nodes| == |ParentIds(tasks)| + |LeafIds(tasks, tasks)|
    requires forall i :: 0 <= i < |LeafIds(tasks, tasks)| ==>
               nodes[|ParentIds(tasks)| + i] == TaskFlowNode(LeafIds(tasks, tasks)[i], positions[LeafIds(tasks, tasks)[i]],
                 if LeafIds(tasks, tasks)[i] in placed then Some(GroupNodeId(placed[LeafIds(tasks, tasks)[i]].parentId)) else None)
    ensures LeafNodesPlaced(tasks, nodes)
  {
  }

  /** The main loop only moves top-level boxes, so a leaf keeps its step 2 position. */
  lemma LeafUntouchedByLayout(g: Graph, c0: Canvas, roots: seq<string>, c1: Canvas, currentY: real,
                              processed: set<string>, layoutOrder: seq<string>, fallback: set<string>, l: string)
    requires LayoutState(g, c0, roots, c1, currentY, processed, layoutOrder, fallback)
    requires l !in roots && l !in c0.groups && l in c0.positions
    ensures l in c1.positions && c1.positions[l] == c0.positions[l]
  {
    assert l !in processed;
    assert XOf(c1, l) == XOf(c0, l) && YOf(c1, l) == YOf(c0, l);
  }
}
