/**
 * The corrections after the main placement loop: leaf subtasks are pushed
 * right past their blockers (`shiftSubtree`), group nodes get their final
 * width and right edge, and groups are pushed right past their blockers.
 */
module TaskGraphAdjust {
  import opened Common
  import opened TaskGraphMaps
  import opened TaskGraphGeometry
  import opened TaskGraphNodes
  import opened TaskGraphLayout

  /**
   * `c'` is `c` with the nodes of `moved` that have a `nodeMap` entry shifted
   * right by `offset` and their right edges re-recorded from the new x; groups
   * and every other node and edge are untouched.
   */
  ghost predicate Shifted(g: Graph, c: Canvas, c': Canvas, moved: set<string>, offset: real)
  {
    && g.nodeMap.Keys <= c.positions.Keys
    && c'.groups == c.groups
    && c'.positions.Keys == c.positions.Keys
    && (forall k :: k in c.positions ==>
          c'.positions[k] == if k in moved && k in g.nodeMap then Pos(c.positions[k].x + offset, c.positions[k].y)
                             else c.positions[k])
    && (forall k :: k in c'.rightEdges <==> k in c.rightEdges || (k in moved && k in g.nodeMap))
    && (forall k :: k in c'.rightEdges ==>
          c'.rightEdges[k] == if k in moved && k in g.nodeMap then c'.positions[k].x + NodeDimensions(g.nodeMap, k).width
                              else c.rightEdges[k])
  }

  lemma ShiftedNothing(g: Graph, c: Canvas, moved: set<string>, offset: real)
    requires g.nodeMap.Keys <= c.positions.Keys
    requires forall k :: k in moved ==> k !in g.nodeMap
    ensures Shifted(g, c, c, moved, offset)
  {
  }

  lemma ShiftedCompose(g: Graph, c: Canvas, c1: Canvas, c2: Canvas, m1: set<string>, m2: set<string>, offset: real)
    requires Shifted(g, c, c1, m1, offset) && Shifted(g, c1, c2, m2, offset)
    requires forall k :: k in m1 ==> k !in m2
    ensures Shifted(g, c, c2, m1 + m2, offset)
  {
    forall k | k in c2.rightEdges
      ensures c2.rightEdges[k] == if k in m1 + m2 && k in g.nodeMap then c2.positions[k].x + NodeDimensions(g.nodeMap, k).width
                                  else c.rightEdges[k]
    {
    }
  }

  /** The body of `shiftSubtree` for one node: move it right by `offset` and record its new right edge. */
  function ShiftNode(g: Graph, c: Canvas, nodeId: string, offset: real): (c': Canvas)
    requires g.nodeMap.Keys <= c.positions.Keys && nodeId in g.nodeMap
    ensures Shifted(g, c, c', {nodeId}, offset)
  {
    var p := c.positions[nodeId];
    var moved := c.(positions := c.positions[nodeId := Pos(p.x + offset, p.y)]);
    SetRightEdge(moved, nodeId, p.x + offset + NodeDimensions(g.nodeMap, nodeId).width)
  }

  /**
   * `shiftSubtree`: shifts `nodeId` and, through `subtaskMap`, everything below
   * it that is not visited yet, each node exactly once. On return every node
   * newly visited is shifted, the subtasks of every such node are visited, and
   * a node without subtasks is the only node shifted.
   */
  method ShiftSubtree(g: Graph, c: Canvas, nodeId: string, offset: real, visited: set<string>)
    returns (c': Canvas, visited': set<string>)
    requires g.nodeMap.Keys <= c.positions.Keys
    ensures visited <= visited' && nodeId in visited'
    ensures Shifted(g, c, c', visited' - visited, offset)
    ensures forall k, s :: k in visited' - visited && k in g.nodeMap && s in Lookup(g.subtaskMap, k) ==> s in visited'
    ensures nodeId !in visited && Lookup(g.subtaskMap, nodeId) == [] ==> visited' == visited + {nodeId}
    decreases g.nodeMap.Keys - visited
  {
    if nodeId in visited {
      assert visited - visited == {};
      ShiftedNothing(g, c, {}, offset);
      return c, visited;
    }
    visited' := visited + {nodeId};
    assert visited' - visited == {nodeId};
    if nodeId !in g.nodeMap {
      ShiftedNothing(g, c, {nodeId}, offset);
      return c, visited';
    }
    c' := ShiftNode(g, c, nodeId, offset);
    var subtasks := Lookup(g.subtaskMap, nodeId);
    var j := 0;
    while j < |subtasks|
      invariant 0 <= j <= |subtasks|
      invariant visited + {nodeId} <= visited'
      invariant g.nodeMap.Keys <= c'.positions.Keys
      invariant Shifted(g, c, c', visited' - visited, offset)
      invariant forall i :: 0 <= i < j ==> subtasks[i] in visited'
      invariant j == 0 ==> visited' == visited + {nodeId}
      invariant forall k, s :: k in visited' - visited && k != nodeId && k in g.nodeMap && s in Lookup(g.subtaskMap, k)
                               ==> s in visited'
    {
      ghost var before, cBefore := visited', c';
      c', visited' := ShiftSubtree(g, c', subtasks[j], offset, visited');
      ChildShifted(g, c, cBefore, c', visited, before, visited', nodeId, offset);
      forall i | 0 <= i <= j ensures subtasks[i] in visited' {
        if i < j {
          assert subtasks[i] in before;
        }
      }
      j := j + 1;
    }
  }

  /** One recursive call of `shiftSubtree` on a child extends what the parent's call has shifted and visited. */
  lemma ChildShifted(g: Graph, c: Canvas, c1: Canvas, c2: Canvas, visited: set<string>, v1: set<string>, v2: set<string>,
                     nodeId: string, offset: real)
    requires visited + {nodeId} <= v1 <= v2
    requires Shifted(g, c, c1, v1 - visited, offset) && Shifted(g, c1, c2, v2 - v1, offset)
    requires forall k, s :: k in v1 - visited && k != nodeId && k in g.nodeMap && s in Lookup(g.subtaskMap, k) ==> s in v1
    requires forall k, s :: k in v2 - v1 && k in g.nodeMap && s in Lookup(g.subtaskMap, k) ==> s in v2
    ensures Shifted(g, c, c2, v2 - visited, offset)
    ensures forall k, s :: k in v2 - visited && k != nodeId && k in g.nodeMap && s in Lookup(g.subtaskMap, k) ==> s in v2
  {
    ShiftedCompose(g, c, c1, c2, v1 - visited, v2 - v1, offset);
    assert (v1 - visited) + (v2 - v1) == v2 - visited;
  }

  /**
   * The right edges a pass saw at step `i`: the final edge for ids whose last
   * update came before step `i` (ids outside `ids[i..]`), the initial edge for
   * ids not updated before step `i` (ids outside `ids[..i]`).
   */
  ghost predicate Snapshots(c: Canvas, c': Canvas, ids: seq<string>, seen: seq<map<string, real>>)
  {
    && |seen| == |ids|
    && (forall i, b :: 0 <= i < |ids| && b !in ids[i..] ==> RightEdge(seen[i], b) == RightEdge(c'.rightEdges, b))
    && (forall i, b :: 0 <= i < |ids| && b !in ids[..i] ==> RightEdge(seen[i], b) == RightEdge(c.rightEdges, b))
  }

  /**
   * How the shift pass treated the leaf `l` given the right edges `re` it saw:
   * a blocked leaf starting left of 150 past its rightmost blocker is moved to
   * exactly that x (same y) and its right edge is re-recorded; any other leaf
   * keeps its position and edge.
   */
  ghost predicate LeafShift(g: Graph, c: Canvas, c': Canvas, l: string, re: map<string, real>)
  {
    && l in c.positions && l in c'.positions
    && var blockers := Lookup(g.blockedByMap, l);
    var target := MaxRight(re, blockers) + HORIZONTAL_GAP;
    (if blockers != [] && c.positions[l].x < target then
      && c'.positions[l] == Pos(target, c.positions[l].y)
      && l in c'.rightEdges && c'.rightEdges[l] == target + NodeDimensions(g.nodeMap, l).width
    else
      && c'.positions[l] == c.positions[l]
      && RightEdge(c'.rightEdges, l) == RightEdge(c.rightEdges, l))
  }

  /** The leaf shift pass (`nodes.forEach(...)` after the main loop), with the edges each step saw. */
  method AdjustLeaves(g: Graph, c: Canvas, leaves: seq<string>)
    returns (c': Canvas, ghost seen: seq<map<string, real>>)
    requires Distinct(leaves)
    requires forall i :: 0 <= i < |leaves| ==> leaves[i] in g.nodeMap && Lookup(g.subtaskMap, leaves[i]) == []
    requires g.nodeMap.Keys <= c.positions.Keys
    ensures c'.groups == c.groups && c'.positions.Keys == c.positions.Keys
    ensures forall k :: k in c.positions && k !in leaves ==> c'.positions[k] == c.positions[k]
    ensures forall k :: k !in leaves ==> RightEdge(c'.rightEdges, k) == RightEdge(c.rightEdges, k)
    ensures Snapshots(c, c', leaves, seen)
    ensures forall i :: 0 <= i < |leaves| ==> LeafShift(g, c, c', leaves[i], seen[i])
  {
    c', seen := c, [];
    var i := 0;
    while i < |leaves|
      invariant 0 <= i <= |leaves|
      invariant c'.groups == c.groups && c'.positions.Keys == c.positions.Keys
      invariant forall k :: k in c.positions && k !in leaves[..i] ==> c'.positions[k] == c.positions[k]
      invariant forall k :: k !in leaves[..i] ==> RightEdge(c'.rightEdges, k) == RightEdge(c.rightEdges, k)
      invariant Snapshots(c, c', leaves[..i], seen)
      invariant forall j :: 0 <= j < i ==> LeafShift(g, c, c', leaves[j], seen[j])
    {
      var id := leaves[i];
      ghost var cBefore := c';
      assert id !in leaves[..i];
      c' := AdjustLeaf(g, c', id);
      LeafStepKeeps(g, c, cBefore, c', leaves, i, seen);
      seen := seen + [cBefore.rightEdges];
      i := i + 1;
    }
    assert leaves[..i] == leaves;
  }

  /** The body of the leaf pass for one leaf: pushed right of its blockers' right edges when it starts too far left. */
  method AdjustLeaf(g: Graph, c: Canvas, id: string) returns (c': Canvas)
    requires id in g.nodeMap && Lookup(g.subtaskMap, id) == []
    requires g.nodeMap.Keys <= c.positions.Keys
    ensures c'.groups == c.groups && c'.positions.Keys == c.positions.Keys
    ensures forall k :: k in c.positions && k != id ==> c'.positions[k] == c.positions[k]
    ensures forall k :: k != id ==> (k in c'.rightEdges <==> k in c.rightEdges)
    ensures forall k :: k != id && k in c.rightEdges ==> c'.rightEdges[k] == c.rightEdges[k]
    ensures LeafShift(g, c, c', id, c.rightEdges)
  {
    c' := c;
    var blockers := Lookup(g.blockedByMap, id);
    if |blockers| > 0 {
      var maxBlockerRight := MaxBlockerRight(c.rightEdges, blockers);
      var x := c.positions[id].x;
      if x < maxBlockerRight + HORIZONTAL_GAP {
        var xOffset := (maxBlockerRight + HORIZONTAL_GAP) - x;
        var visited;
        c', visited := ShiftSubtree(g, c, id, xOffset, {});
        assert visited - {} == {id};
      }
    }
  }

  /** One step of the leaf pass keeps what earlier steps established. */
  lemma LeafStepKeeps(g: Graph, c: Canvas, c1: Canvas, c2: Canvas, leaves: seq<string>, i: int,
                      seen: seq<map<string, real>>)
    requires Distinct(leaves) && 0 <= i < |leaves|
    requires c1.positions.Keys == c.positions.Keys && c2.positions.Keys == c.positions.Keys
    requires leaves[i] in c.positions
    requires forall k :: k in c.positions && k !in leaves[..i] ==> c1.positions[k] == c.positions[k]
    requires forall k :: k !in leaves[..i] ==> RightEdge(c1.rightEdges, k) == RightEdge(c.rightEdges, k)
    requires Snapshots(c, c1, leaves[..i], seen)
    requires forall j :: 0 <= j < i ==> LeafShift(g, c, c1, leaves[j], seen[j])
    requires forall k :: k in c.positions && k != leaves[i] ==> c2.positions[k] == c1.positions[k]
    requires forall k :: k != leaves[i] ==> (k in c2.rightEdges <==> k in c1.rightEdges)
    requires forall k :: k != leaves[i] && k in c1.rightEdges ==> c2.rightEdges[k] == c1.rightEdges[k]
    requires LeafShift(g, c1, c2, leaves[i], c1.rightEdges)
    ensures forall k :: k in c.positions && k !in leaves[..i + 1] ==> c2.positions[k] == c.positions[k]
    ensures forall k :: k !in leaves[..i + 1] ==> RightEdge(c2.rightEdges, k) == RightEdge(c.rightEdges, k)
    ensures Snapshots(c, c2, leaves[..i + 1], seen + [c1.rightEdges])
    ensures forall j :: 0 <= j < i + 1 ==> LeafShift(g, c, c2, leaves[j], (seen + [c1.rightEdges])[j])
  {
    var l := leaves[i];
    assert leaves[..i + 1] == leaves[..i] + [l];
    assert l !in leaves[..i];
    SnapshotsStep(c, c1, c2, leaves[..i], l, seen);
    forall j | 0 <= j < i + 1 ensures LeafShift(g, c, c2, leaves[j], (seen + [c1.rightEdges])[j]) {
      if j < i {
        assert leaves[j] in leaves[..i];
        assert (seen + [c1.rightEdges])[j] == seen[j];
      }
    }
  }

  /**
   * After the leaf pass, a blocked leaf starts at least 150 right of the final
   * right edge of each blocker whose edge did not change after the leaf's own
   * step, never left of where it was, and at its old y.
   */
  lemma LeafClearsBlockers(g: Graph, c: Canvas, c': Canvas, leaves: seq<string>, seen: seq<map<string, real>>, i: int, b: string)
    requires 0 <= i < |leaves| && leaves[i] in c.positions && leaves[i] in c'.positions
    requires Snapshots(c, c', leaves, seen)
    requires LeafShift(g, c, c', leaves[i], seen[i])
    requires b in Lookup(g.blockedByMap, leaves[i]) && b !in leaves[i..]
    ensures c'.positions[leaves[i]].x >= RightEdge(c'.rightEdges, b) + HORIZONTAL_GAP
    ensures c'.positions[leaves[i]].x >= c.positions[leaves[i]].x
    ensures c'.positions[leaves[i]].y == c.positions[leaves[i]].y
  {
    var blockers := Lookup(g.blockedByMap, leaves[i]);
    var k :| 0 <= k < |blockers| && blockers[k] == b;
    assert MaxRight(seen[i], blockers) >= RightEdge(seen[i], blockers[k]);
  }

  /** Step 5: every group gets its final width and its right edge is recorded. */
  method ResizeGroups(c: Canvas, order: seq<string>) returns (c': Canvas)
    requires forall i :: 0 <= i < |order| ==> order[i] in c.groups
    ensures c'.positions == c.positions && c'.groups.Keys == c.groups.Keys
    ensures forall k :: k in c.groups && k !in order ==> c'.groups[k] == c.groups[k]
    ensures forall k :: k in c.groups && k in order ==>
              && c'.groups[k] == c.groups[k].(width := FinalGroupWidth(c.groups[k].totalEstimate))
              && k in c'.rightEdges && c'.rightEdges[k] == c'.groups[k].position.x + c'.groups[k].width
    ensures forall k :: k !in order ==> RightEdge(c'.rightEdges, k) == RightEdge(c.rightEdges, k)
  {
    c' := c;
    var i := 0;
    while i < |order|
      invariant 0 <= i <= |order|
      invariant Resized(c, c', order[..i])
    {
      var taskId := order[i];
      assert order[..i + 1] == order[..i] + [taskId];
      var groupNode := c'.groups[taskId];
      var width := FinalGroupWidth(groupNode.totalEstimate);
      ghost var c1 := c';
      c' := c'.(groups := c'.groups[taskId := groupNode.(width := width)]);
      c' := SetRightEdge(c', taskId, groupNode.position.x + width);
      ResizeStep(c, c1, order[..i], taskId, c');
      i := i + 1;
    }
    assert order[..i] == order;
  }

  /** After resizing the groups `done`: exactly those have their final width and a recorded right edge. */
  ghost predicate Resized(c: Canvas, c': Canvas, done: seq<string>)
  {
    && c'.positions == c.positions && c'.groups.Keys == c.groups.Keys
    && (forall k :: k in c.groups && k !in done ==> c'.groups[k] == c.groups[k])
    && (forall k :: k in c.groups && k in done ==>
          && c'.groups[k] == c.groups[k].(width := FinalGroupWidth(c.groups[k].totalEstimate))
          && k in c'.rightEdges && c'.rightEdges[k] == c'.groups[k].position.x + c'.groups[k].width)
    && (forall k :: k !in done ==> RightEdge(c'.rightEdges, k) == RightEdge(c.rightEdges, k))
  }

  lemma ResizeStep(c: Canvas, c1: Canvas, done: seq<string>, id: string, c2: Canvas)
    requires Resized(c, c1, done) && id in c.groups
    requires var g := c1.groups[id];
             var w := FinalGroupWidth(g.totalEstimate);
             c2 == c1.(groups := c1.groups[id := g.(width := w)], rightEdges := c1.rightEdges[id := g.position.x + w])
    ensures Resized(c, c2, done + [id])
  {
    var done' := done + [id];
    assert forall k :: k in done' <==> k in done || k == id;
    var g := c.groups[id];
    assert c2.groups[id] == g.(width := FinalGroupWidth(g.totalEstimate)) by {
      if id in done {
        assert c1.groups[id] == g.(width := FinalGroupWidth(g.totalEstimate));
      } else {
        assert c1.groups[id] == g;
      }
    }
    forall k | k in c.groups && k in done'
      ensures c2.groups[k] == c.groups[k].(width := FinalGroupWidth(c.groups[k].totalEstimate))
      ensures k in c2.rightEdges && c2.rightEdges[k] == c2.groups[k].position.x + c2.groups[k].width
    {
      if k != id {
        assert c2.groups[k] == c1.groups[k] && c2.rightEdges[k] == c1.rightEdges[k];
      }
    }
    forall k | k !in done' ensures RightEdge(c2.rightEdges, k) == RightEdge(c.rightEdges, k) {
      assert k != id;
    }
  }

  /**
   * How step 6 treated the group `id` given the right edges `re` it saw: a
   * blocked group starting left of 150 past its rightmost blocker is moved to
   * exactly that x (same y) and its right edge is re-recorded; any other group
   * keeps its position and edge.
   */
  ghost predicate GroupShift(g: Graph, c: Canvas, c': Canvas, id: string, re: map<string, real>)
  {
    && id in c.groups && id in c'.groups
    && var blockers := Lookup(g.blockedByMap, id);
    var target := MaxRight(re, blockers) + HORIZONTAL_GAP;
    var p := c.groups[id].position;
    (if blockers != [] && p.x < target then
      && c'.groups[id] == c.groups[id].(position := Pos(target, p.y))
      && id in c'.rightEdges && c'.rightEdges[id] == target + c.groups[id].width
    else
      && c'.groups[id] == c.groups[id]
      && RightEdge(c'.rightEdges, id) == RightEdge(c.rightEdges, id))
  }

  /** Step 6: groups are pushed right past their blockers, in group order. */
  method ShiftGroups(g: Graph, c: Canvas, order: seq<string>)
    returns (c': Canvas, ghost seen: seq<map<string, real>>)
    requires Distinct(order)
    requires forall i :: 0 <= i < |order| ==> order[i] in c.groups
    ensures c'.positions == c.positions && c'.groups.Keys == c.groups.Keys
    ensures forall k :: k in c.groups && k !in order ==> c'.groups[k] == c.groups[k]
    ensures forall k :: k !in order ==> RightEdge(c'.rightEdges, k) == RightEdge(c.rightEdges, k)
    ensures Snapshots(c, c', order, seen)
    ensures forall i :: 0 <= i < |order| ==> GroupShift(g, c, c', order[i], seen[i])
  {
    c', seen := c, [];
    var i := 0;
    while i < |order|
      invariant 0 <= i <= |order|
      invariant c'.positions == c.positions && c'.groups.Keys == c.groups.Keys
      invariant forall k :: k in c.groups && k !in order[..i] ==> c'.groups[k] == c.groups[k]
      invariant forall k :: k !in order[..i] ==> RightEdge(c'.rightEdges, k) == RightEdge(c.rightEdges, k)
      invariant Snapshots(c, c', order[..i], seen)
      invariant forall j :: 0 <= j < i ==> GroupShift(g, c, c', order[j], seen[j])
    {
      var taskId := order[i];
      ghost var cBefore := c';
      assert taskId !in order[..i];
      var blockers := Lookup(g.blockedByMap, taskId);
      if |blockers| > 0 {
        var maxBlockerRight := MaxBlockerRight(c'.rightEdges, blockers);
        var groupNode := c'.groups[taskId];
        if groupNode.position.x < maxBlockerRight + HORIZONTAL_GAP {
          var xOffset := (maxBlockerRight + HORIZONTAL_GAP) - groupNode.position.x;
          var moved := groupNode.(position := Pos(groupNode.position.x + xOffset, groupNode.position.y));
          c' := c'.(groups := c'.groups[taskId := moved]);
          c' := SetRightEdge(c', taskId, moved.position.x + moved.width);
        }
      }
      GroupStepKeeps(g, c, cBefore, c', order, i, seen);
      seen := seen + [cBefore.rightEdges];
      i := i + 1;
    }
    assert order[..i] == order;
  }

  lemma GroupStepKeeps(g: Graph, c: Canvas, c1: Canvas, c2: Canvas, order: seq<string>, i: int,
                       seen: seq<map<string, real>>)
    requires Distinct(order) && 0 <= i < |order|
    requires c1.groups.Keys == c.groups.Keys && c2.groups.Keys == c.groups.Keys
    requires order[i] in c.groups
    requires forall k :: k in c.groups && k !in order[..i] ==> c1.groups[k] == c.groups[k]
    requires forall k :: k !in order[..i] ==> RightEdge(c1.rightEdges, k) == RightEdge(c.rightEdges, k)
    requires Snapshots(c, c1, order[..i], seen)
    requires forall j :: 0 <= j < i ==> GroupShift(g, c, c1, order[j], seen[j])
    requires forall k :: k in c.groups && k != order[i] ==> c2.groups[k] == c1.groups[k]
    requires forall k :: k != order[i] ==> (k in c2.rightEdges <==> k in c1.rightEdges)
    requires forall k :: k != order[i] && k in c1.rightEdges ==> c2.rightEdges[k] == c1.rightEdges[k]
    requires GroupShift(g, c1, c2, order[i], c1.rightEdges)
    ensures forall k :: k in c.groups && k !in order[..i + 1] ==> c2.groups[k] == c.groups[k]
    ensures forall k :: k !in order[..i + 1] ==> RightEdge(c2.rightEdges, k) == RightEdge(c.rightEdges, k)
    ensures Snapshots(c, c2, order[..i + 1], seen + [c1.rightEdges])
    ensures forall j :: 0 <= j < i + 1 ==> GroupShift(g, c, c2, order[j], (seen + [c1.rightEdges])[j])
  {
    var id := order[i];
    assert order[..i + 1] == order[..i] + [id];
    assert id !in order[..i];
    SnapshotsStep(c, c1, c2, order[..i], id, seen);
    forall j | 0 <= j < i + 1 ensures GroupShift(g, c, c2, order[j], (seen + [c1.rightEdges])[j]) {
      if j < i {
        assert order[j] in order[..i];
        assert (seen + [c1.rightEdges])[j] == seen[j];
      }
    }
  }

  /** One more step of a pass that re-records only the right edge of `id` extends the snapshots it saw. */
  lemma SnapshotsStep(c: Canvas, c1: Canvas, c2: Canvas, ids: seq<string>, id: string, seen: seq<map<string, real>>)
    requires id !in ids
    requires Snapshots(c, c1, ids, seen)
    requires forall k :: k !in ids ==> RightEdge(c1.rightEdges, k) == RightEdge(c.rightEdges, k)
    requires forall k :: k != id ==> (k in c2.rightEdges <==> k in c1.rightEdges)
    requires forall k :: k != id && k in c1.rightEdges ==> c2.rightEdges[k] == c1.rightEdges[k]
    ensures Snapshots(c, c2, ids + [id], seen + [c1.rightEdges])
  {
    var ids', seen' := ids + [id], seen + [c1.rightEdges];
    forall j, b | 0 <= j < |ids'| && b !in ids'[j..]
      ensures RightEdge(seen'[j], b) == RightEdge(c2.rightEdges, b)
    {
      if j < |ids| {
        assert ids'[j..] == ids[j..] + [id];
        assert seen'[j] == seen[j];
        assert RightEdge(seen[j], b) == RightEdge(c1.rightEdges, b);
      } else {
        assert ids'[j..] == [id];
        assert seen'[j] == c1.rightEdges;
      }
      assert b != id;
      assert RightEdge(c1.rightEdges, b) == RightEdge(c2.rightEdges, b);
    }
    forall j, b | 0 <= j < |ids'| && b !in ids'[..j]
      ensures RightEdge(seen'[j], b) == RightEdge(c.rightEdges, b)
    {
      if j == |ids| {
        assert ids'[..j] == ids;
      } else {
        assert ids'[..j] == ids[..j];
        assert seen'[j] == seen[j];
      }
    }
  }

  /**
   * After step 6, a blocked group starts at least 150 right of the final right
   * edge of each blocker whose edge did not change after the group's own step,
   * never left of where it was, and at its old y.
   */
  lemma GroupClearsBlockers(g: Graph, c: Canvas, c': Canvas, order: seq<string>, seen: seq<map<string, real>>, i: int, b: string)
    requires 0 <= i < |order| && order[i] in c.groups && order[i] in c'.groups
    requires Snapshots(c, c', order, seen)
    requires GroupShift(g, c, c', order[i], seen[i])
    requires b in Lookup(g.blockedByMap, order[i]) && b !in order[i..]
    ensures c'.groups[order[i]].position.x >= RightEdge(c'.rightEdges, b) + HORIZONTAL_GAP
    ensures c'.groups[order[i]].position.x >= c.groups[order[i]].position.x
    ensures c'.groups[order[i]].position.y == c.groups[order[i]].position.y
  {
    var blockers := Lookup(g.blockedByMap, order[i]);
    var k :| 0 <= k < |blockers| && blockers[k] == b;
    assert MaxRight(seen[i], blockers) >= RightEdge(seen[i], blockers[k]);
  }
}
