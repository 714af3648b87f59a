/**
 * Step 4 of the task-relationship layout: the top-level tasks are placed in
 * rounds. A round places every remaining task whose blockers are all placed;
 * when no task is ready, the remaining ones are placed in list order and the
 * loop stops. Every placement goes one row below the previous one, and its
 * horizontal start is taken from the right edges of its blockers.
 */
module TaskGraphLayout {
  import opened Common
  import opened TaskGraphMaps
  import opened TaskGraphGeometry
  import opened TaskGraphNodes

  /** The relationship maps the positioning reads. */
  datatype Graph = Graph(nodeMap: map<string, NodeEntry>, subtaskMap: map<string, seq<string>>,
                         blockedByMap: map<string, seq<string>>)

  /**
   * What the positioning updates: the positions of the `nodeMap` entries, the
   * group nodes of `groupMap` (keyed by task id) and `rightEdges`.
   */
  datatype Canvas = Canvas(positions: map<string, Pos>, groups: map<string, GroupNode>,
                           rightEdges: map<string, real>)

  /** The x of the box that represents `id`: its group when it has one, else its node. */
  function XOf(c: Canvas, id: string): real
  {
    if id in c.groups then c.groups[id].position.x else if id in c.positions then c.positions[id].x else 0.0
  }

  function YOf(c: Canvas, id: string): real
  {
    if id in c.groups then c.groups[id].position.y else if id in c.positions then c.positions[id].y else 0.0
  }

  function WidthOf(g: Graph, c: Canvas, id: string): real
  {
    if id in c.groups then c.groups[id].width else NodeDimensions(g.nodeMap, id).width
  }

  function HeightOf(g: Graph, c: Canvas, id: string): real
  {
    if id in c.groups then c.groups[id].height else NodeDimensions(g.nodeMap, id).height
  }

  /** `c'` keeps every node and every group of `c`; of a group only the position may differ. */
  ghost predicate KeepsBoxes(c: Canvas, c': Canvas)
  {
    && c.positions.Keys <= c'.positions.Keys
    && c'.groups.Keys == c.groups.Keys
    && forall k :: k in c.groups ==> c'.groups[k] == c.groups[k].(position := c'.groups[k].position)
  }

  /** Moves the box of `id` to `p`: `groupNode.position = ...` or `node.position = ...`. */
  function MoveTo(c: Canvas, id: string, p: Pos): (r: Canvas)
    ensures KeepsBoxes(c, r) && r.rightEdges == c.rightEdges
    ensures XOf(r, id) == p.x && YOf(r, id) == p.y
    ensures forall k :: k != id ==> XOf(r, k) == XOf(c, k) && YOf(r, k) == YOf(c, k)
  {
    if id in c.groups then c.(groups := c.groups[id := c.groups[id].(position := p)])
    else c.(positions := c.positions[id := p])
  }

  /** `rightEdges.set(id, edge)` */
  function SetRightEdge(c: Canvas, id: string, edge: real): Canvas
  {
    c.(rightEdges := c.rightEdges[id := edge])
  }

  /**
   * `processTask`: an id already visited or without a `nodeMap` entry is left
   * alone; otherwise its box is put at the start point, its right edge is
   * recorded, and the bottom of the box is returned.
   */
  method ProcessTask(g: Graph, c: Canvas, taskId: string, startX: real, startY: real, visited: set<string>)
    returns (c': Canvas, bottomY: real)
    ensures taskId in visited || taskId !in g.nodeMap ==> c' == c && bottomY == startY
    ensures taskId !in visited && taskId in g.nodeMap ==>
              && c' == SetRightEdge(MoveTo(c, taskId, Pos(startX, startY)), taskId, startX + WidthOf(g, c, taskId))
              && bottomY == startY + HeightOf(g, c, taskId)
  {
    if taskId in visited {
      return c, startY;
    }
    if taskId !in g.nodeMap {
      return c, startY;
    }
    if taskId in c.groups {
      var groupNode := c.groups[taskId];
      c' := c.(groups := c.groups[taskId := groupNode.(position := Pos(startX, startY))]);
      c' := SetRightEdge(c', taskId, startX + groupNode.width);
      bottomY := startY + groupNode.height;
    } else {
      c' := c.(positions := c.positions[taskId := Pos(startX, startY)]);
      var size := NodeDimensions(g.nodeMap, taskId);
      c' := SetRightEdge(c', taskId, startX + size.width);
      bottomY := startY + size.height;
    }
  }

  /** `canProcess`: every blocker of `id` has been placed. */
  predicate CanProcess(blockedByMap: map<string, seq<string>>, processed: set<string>, id: string)
  {
    var blockers := Lookup(blockedByMap, id);
    |blockers| == 0 || forall b :: b in blockers ==> b in processed
  }

  /**
   * One step of a round: an id placed already is skipped; a group is put at the
   * current row and the row advances by its height plus 200 (no right edge is
   * recorded for it); anything else goes through `processTask`, and the row
   * advances to 200 below its bottom.
   */
  method PlaceUnit(g: Graph, c: Canvas, currentY: real, processed: set<string>, id: string)
    returns (c': Canvas, currentY': real, processed': set<string>)
    ensures id in processed ==> c' == c && currentY' == currentY && processed' == processed
    ensures id !in processed ==> processed' == processed + {id}
    ensures id !in processed && id in c.groups ==>
              && c' == MoveTo(c, id, Pos(HorizontalStart(g.blockedByMap, c.rightEdges, id), currentY))
              && currentY' == currentY + c.groups[id].height + ROW_HEIGHT
    ensures id !in processed && id !in c.groups && id in g.nodeMap ==>
              var x := HorizontalStart(g.blockedByMap, c.rightEdges, id);
              && c' == SetRightEdge(MoveTo(c, id, Pos(x, currentY)), id, x + WidthOf(g, c, id))
              && currentY' == currentY + BASE_HEIGHT + ROW_HEIGHT
    ensures id !in processed && id !in c.groups && id !in g.nodeMap ==> c' == c && currentY' == currentY + ROW_HEIGHT
  {
    if id in processed {
      return c, currentY, processed;
    }
    var x := CalculateHorizontalPosition(g.blockedByMap, c.rightEdges, id);
    if id in c.groups {
      var groupNode := c.groups[id];
      c' := c.(groups := c.groups[id := groupNode.(position := Pos(x, currentY))]);
      currentY' := currentY + groupNode.height + ROW_HEIGHT;
      processed' := processed + {id};
    } else {
      var bottomY;
      c', bottomY := ProcessTask(g, c, id, x, currentY, {});
      processed' := processed + {id};
      currentY' := bottomY + ROW_HEIGHT;
    }
  }

  /** The boxes of `order` are stacked top to bottom, each at least a row (200) below the previous. */
  ghost predicate Spaced(c: Canvas, order: seq<string>, currentY: real)
  {
    && (forall i, j :: 0 <= i < j < |order| ==> YOf(c, order[i]) + ROW_HEIGHT <= YOf(c, order[j]))
    && (forall i :: 0 <= i < |order| ==> YOf(c, order[i]) + ROW_HEIGHT <= currentY)
  }

  /** Without blockers a box starts at x = 0, with blockers at least one gap (150) to the right. */
  ghost predicate StartRule(g: Graph, c: Canvas, id: string)
  {
    && (Lookup(g.blockedByMap, id) == [] ==> XOf(c, id) == 0.0)
    && (Lookup(g.blockedByMap, id) != [] ==> XOf(c, id) >= HORIZONTAL_GAP)
  }

  /** Every right edge recorded belongs to a placed non-group box and is its x plus its width. */
  ghost predicate EdgesRecorded(g: Graph, c: Canvas, processed: set<string>)
  {
    forall k :: k in c.rightEdges ==>
      k in processed && k !in c.groups && c.rightEdges[k] == XOf(c, k) + WidthOf(g, c, k)
  }

  /** All blockers of `u` are placed, and `u` starts a gap to the right of each recorded blocker edge. */
  ghost predicate AfterBlockers(g: Graph, c: Canvas, processed: set<string>, u: string)
  {
    forall b :: b in Lookup(g.blockedByMap, u) ==>
      b in processed && (b in c.rightEdges ==> XOf(c, u) >= c.rightEdges[b] + HORIZONTAL_GAP)
  }

  /**
   * What placing the ids `ids` one after another did, starting from canvas `c`,
   * row `y` and the set `processed`: `added` lists, in order, the ids that were
   * not placed before; only they moved and only their right edges were
   * recorded (`RunFrame`); they are stacked from `y` down to `y'` (`RunRows`);
   * they follow the horizontal rule (`RunColumns`).
   */
  ghost predicate PlacedRun(g: Graph, c: Canvas, y: real, processed: set<string>, ids: seq<string>,
                            c': Canvas, y': real, processed': set<string>, added: seq<string>)
  {
    && RunFrame(c, processed, ids, c', processed', added)
    && RunRows(c, y, c', y', added)
    && RunColumns(g, c, processed, c', added)
  }

  ghost predicate RunFrame(c: Canvas, processed: set<string>, ids: seq<string>,
                           c': Canvas, processed': set<string>, added: seq<string>)
  {
    && (forall k :: k in processed' <==> k in processed || k in ids)
    && (forall i :: 0 <= i < |added| ==> added[i] in ids && added[i] !in processed)
    && (forall k :: k in ids && k !in processed ==> k in added)
    && KeepsBoxes(c, c')
    && (forall k :: k !in added ==> XOf(c', k) == XOf(c, k) && YOf(c', k) == YOf(c, k))
    && (forall k :: k in c'.rightEdges ==> k in c.rightEdges || (k in added && k !in c.groups))
    && (forall k :: k in c.rightEdges && k !in added ==> k in c'.rightEdges && c'.rightEdges[k] == c.rightEdges[k])
  }

  ghost predicate RunRows(c: Canvas, y: real, c': Canvas, y': real, added: seq<string>)
  {
    && y <= y'
    && (forall i :: 0 <= i < |added| ==> y <= YOf(c', added[i]))
    && Spaced(c', added, y')
  }

  ghost predicate RunColumns(g: Graph, c: Canvas, processed: set<string>, c': Canvas, added: seq<string>)
  {
    && (forall i :: 0 <= i < |added| ==> StartRule(g, c', added[i]))
    && (forall i, b :: 0 <= i < |added| && b in Lookup(g.blockedByMap, added[i]) && b in processed && b in c.rightEdges
                       ==> XOf(c', added[i]) >= c.rightEdges[b] + HORIZONTAL_GAP)
    && (forall i :: 0 <= i < |added| && added[i] !in c.groups ==>
          added[i] in c'.rightEdges && c'.rightEdges[added[i]] == XOf(c', added[i]) + WidthOf(g, c', added[i]))
  }

  /** The effect of one `PlaceUnit` step, stated box by box. */
  ghost predicate StepEffect(g: Graph, c1: Canvas, y1: real, p1: set<string>, id: string,
                             c2: Canvas, y2: real, p2: set<string>)
  {
    if id in p1 then c2 == c1 && y2 == y1 && p2 == p1
    else
      && p2 == p1 + {id}
      && XOf(c2, id) == HorizontalStart(g.blockedByMap, c1.rightEdges, id) && YOf(c2, id) == y1
      && (forall k :: k != id ==> XOf(c2, k) == XOf(c1, k) && YOf(c2, k) == YOf(c1, k))
      && KeepsBoxes(c1, c2)
      && y2 >= y1 + ROW_HEIGHT
      && (forall k :: k in c2.rightEdges <==> k in c1.rightEdges || (k == id && id !in c1.groups))
      && (forall k :: k != id && k in c1.rightEdges ==> c2.rightEdges[k] == c1.rightEdges[k])
      && (id !in c1.groups ==> c2.rightEdges[id] == XOf(c2, id) + WidthOf(g, c2, id))
  }

  lemma UnitStepEffect(g: Graph, c1: Canvas, y1: real, p1: set<string>, id: string,
                       c2: Canvas, y2: real, p2: set<string>)
    requires id in g.nodeMap
    requires forall k :: k in c1.groups ==> c1.groups[k].height >= 0.0
    requires id in p1 ==> c2 == c1 && y2 == y1 && p2 == p1
    requires id !in p1 ==> p2 == p1 + {id}
    requires id !in p1 && id in c1.groups ==>
               && c2 == MoveTo(c1, id, Pos(HorizontalStart(g.blockedByMap, c1.rightEdges, id), y1))
               && y2 == y1 + c1.groups[id].height + ROW_HEIGHT
    requires id !in p1 && id !in c1.groups ==>
               var x := HorizontalStart(g.blockedByMap, c1.rightEdges, id);
               && c2 == SetRightEdge(MoveTo(c1, id, Pos(x, y1)), id, x + WidthOf(g, c1, id))
               && y2 == y1 + BASE_HEIGHT + ROW_HEIGHT
    ensures StepEffect(g, c1, y1, p1, id, c2, y2, p2)
  {
  }

  lemma KeepsBoxesTrans(a: Canvas, b: Canvas, c: Canvas)
    requires KeepsBoxes(a, b) && KeepsBoxes(b, c)
    ensures KeepsBoxes(a, c)
  {
  }

  lemma RunFrameStep(c: Canvas, processed: set<string>, ids: seq<string>, c1: Canvas, p1: set<string>, added: seq<string>,
                     g: Graph, y1: real, id: string, c2: Canvas, y2: real, p2: set<string>)
    requires RunFrame(c, processed, ids, c1, p1, added)
    requires StepEffect(g, c1, y1, p1, id, c2, y2, p2)
    ensures RunFrame(c, processed, ids + [id], c2, p2, if id in p1 then added else added + [id])
  {
    if id in p1 {
      assert forall k :: k in ids + [id] <==> k in ids || k == id;
    } else {
      FrameStepMembers(processed, ids, p1, added, id, p2);
      FrameStepBoxes(c, c1, c2, added, id);
      FrameStepEdges(c, c1, c2, added, id);
    }
  }

  /** A newly placed id joins the processed set and the placed list. */
  lemma FrameStepMembers(processed: set<string>, ids: seq<string>, p1: set<string>, added: seq<string>, id: string,
                         p2: set<string>)
    requires forall k :: k in p1 <==> k in processed || k in ids
    requires forall i :: 0 <= i < |added| ==> added[i] in ids && added[i] !in processed
    requires forall k :: k in ids && k !in processed ==> k in added
    requires id !in p1 && p2 == p1 + {id}
    ensures forall k :: k in p2 <==> k in processed || k in ids + [id]
    ensures forall i :: 0 <= i < |added + [id]| ==> (added + [id])[i] in ids + [id] && (added + [id])[i] !in processed
    ensures forall k :: k in ids + [id] && k !in processed ==> k in added + [id]
  {
    assert forall k :: k in ids + [id] <==> k in ids || k == id;
    assert forall k :: k in added + [id] <==> k in added || k == id;
    forall i | 0 <= i < |added + [id]|
      ensures (added + [id])[i] in ids + [id] && (added + [id])[i] !in processed
    {
      if i < |added| {
        assert (added + [id])[i] == added[i];
      }
    }
  }

  /** Placing one more id moves only that id's box. */
  lemma FrameStepBoxes(c: Canvas, c1: Canvas, c2: Canvas, added: seq<string>, id: string)
    requires KeepsBoxes(c, c1) && KeepsBoxes(c1, c2)
    requires forall k :: k !in added ==> XOf(c1, k) == XOf(c, k) && YOf(c1, k) == YOf(c, k)
    requires forall k :: k != id ==> XOf(c2, k) == XOf(c1, k) && YOf(c2, k) == YOf(c1, k)
    ensures KeepsBoxes(c, c2)
    ensures forall k :: k !in added + [id] ==> XOf(c2, k) == XOf(c, k) && YOf(c2, k) == YOf(c, k)
  {
    KeepsBoxesTrans(c, c1, c2);
    assert forall k :: k in added + [id] <==> k in added || k == id;
  }

  /** Placing one more id records a right edge for it alone, and only when it is not a group. */
  lemma FrameStepEdges(c: Canvas, c1: Canvas, c2: Canvas, added: seq<string>, id: string)
    requires c1.groups.Keys == c.groups.Keys
    requires forall k :: k in c1.rightEdges ==> k in c.rightEdges || (k in added && k !in c.groups)
    requires forall k :: k in c.rightEdges && k !in added ==> k in c1.rightEdges && c1.rightEdges[k] == c.rightEdges[k]
    requires forall k :: k in c2.rightEdges <==> k in c1.rightEdges || (k == id && id !in c1.groups)
    requires forall k :: k != id && k in c1.rightEdges ==> c2.rightEdges[k] == c1.rightEdges[k]
    ensures forall k :: k in c2.rightEdges ==> k in c.rightEdges || (k in added + [id] && k !in c.groups)
    ensures forall k :: k in c.rightEdges && k !in added + [id] ==> k in c2.rightEdges && c2.rightEdges[k] == c.rightEdges[k]
  {
    assert forall k :: k in added + [id] <==> k in added || k == id;
  }

  lemma RunRowsStep(c: Canvas, y: real, c1: Canvas, y1: real, p1: set<string>, added: seq<string>,
                    g: Graph, id: string, c2: Canvas, y2: real, p2: set<string>)
    requires RunRows(c, y, c1, y1, added)
    requires forall i :: 0 <= i < |added| ==> added[i] in p1
    requires StepEffect(g, c1, y1, p1, id, c2, y2, p2)
    ensures RunRows(c, y, c2, y2, if id in p1 then added else added + [id])
  {
    if id !in p1 {
      var added' := added + [id];
      assert forall i :: 0 <= i < |added| ==> YOf(c2, added[i]) == YOf(c1, added[i]);
      assert forall i :: 0 <= i < |added| ==> added'[i] == added[i];
      assert added'[|added|] == id;
    }
  }

  lemma RunColumnsStep(g: Graph, c: Canvas, processed: set<string>, c1: Canvas, y1: real, p1: set<string>,
                       added: seq<string>, id: string, c2: Canvas, y2: real, p2: set<string>)
    requires RunColumns(g, c, processed, c1, added)
    requires KeepsBoxes(c, c1)
    requires forall i :: 0 <= i < |added| ==> added[i] in p1 && added[i] !in processed
    requires forall k :: k in c.rightEdges && k !in added ==> k in c1.rightEdges && c1.rightEdges[k] == c.rightEdges[k]
    requires StepEffect(g, c1, y1, p1, id, c2, y2, p2)
    ensures RunColumns(g, c, processed, c2, if id in p1 then added else added + [id])
  {
    if id !in p1 {
      var added' := added + [id];
      assert forall i :: 0 <= i < |added| ==> added'[i] == added[i] && added[i] != id;
      assert added'[|added|] == id;
      forall b | b in Lookup(g.blockedByMap, id) && b in processed && b in c.rightEdges
        ensures XOf(c2, id) >= c.rightEdges[b] + HORIZONTAL_GAP
      {
        assert b !in added;
        assert RightEdge(c1.rightEdges, b) == c.rightEdges[b];
      }
      forall i | 0 <= i < |added| && added[i] !in c.groups
        ensures added[i] in c2.rightEdges && c2.rightEdges[added[i]] == XOf(c2, added[i]) + WidthOf(g, c2, added[i])
      {
        assert WidthOf(g, c2, added[i]) == WidthOf(g, c1, added[i]);
      }
      forall i | 0 <= i < |added| ensures StartRule(g, c2, added[i]) {
        assert XOf(c2, added[i]) == XOf(c1, added[i]);
      }
    }
  }

  /** Before the first step nothing has been placed. */
  lemma PlacedRunEmpty(g: Graph, c: Canvas, y: real, processed: set<string>)
    requires forall k :: k in c.groups ==> c.groups[k].height >= 0.0
    ensures PlacedRun(g, c, y, processed, [], c, y, processed, [])
  {
  }

  /** One more `PlaceUnit` step extends a placed run by its id. */
  lemma PlacedRunStep(g: Graph, c: Canvas, y: real, processed: set<string>, ids: seq<string>,
                      c1: Canvas, y1: real, p1: set<string>, added: seq<string>,
                      id: string, c2: Canvas, y2: real, p2: set<string>)
    requires PlacedRun(g, c, y, processed, ids, c1, y1, p1, added)
    requires StepEffect(g, c1, y1, p1, id, c2, y2, p2)
    ensures PlacedRun(g, c, y, processed, ids + [id], c2, y2, p2, if id in p1 then added else added + [id])
  {
    RunFrameStep(c, processed, ids, c1, p1, added, g, y1, id, c2, y2, p2);
    RunRowsStep(c, y, c1, y1, p1, added, g, id, c2, y2, p2);
    RunColumnsStep(g, c, processed, c1, y1, p1, added, id, c2, y2, p2);
  }

  /** The `forEach` of one round: the ready ids (or, in the fallback, all remaining ids) are placed in order. */
  method PlaceAll(g: Graph, c: Canvas, currentY: real, processed: set<string>, ids: seq<string>)
    returns (c': Canvas, currentY': real, processed': set<string>, ghost added: seq<string>)
    requires forall i :: 0 <= i < |ids| ==> ids[i] in g.nodeMap
    requires forall k :: k in c.groups ==> c.groups[k].height >= 0.0
    ensures PlacedRun(g, c, currentY, processed, ids, c', currentY', processed', added)
  {
    c', currentY', processed', added := c, currentY, processed, [];
    PlacedRunEmpty(g, c, currentY, processed);
    var j := 0;
    assert ids[..0] == [];
    while j < |ids|
      invariant 0 <= j <= |ids|
      invariant PlacedRun(g, c, currentY, processed, ids[..j], c', currentY', processed', added)
    {
      var id := ids[j];
      assert ids[..j + 1] == ids[..j] + [id];
      var c2, y2, p2 := PlaceUnit(g, c', currentY', processed', id);
      UnitStepEffect(g, c', currentY', processed', id, c2, y2, p2);
      PlacedRunStep(g, c, currentY, processed, ids[..j], c', currentY', processed', added, id, c2, y2, p2);
      if id !in processed' {
        added := added + [id];
      }
      c', currentY', processed' := c2, y2, p2;
      j := j + 1;
    }
    assert ids[..j] == ids;
  }

  /**
   * What the loop guarantees after each round: the processed ids are top-level
   * ids, each placed once, stacked in placement order and placed by the
   * horizontal rule; outside the fallback, every blocker was placed first and
   * the unit starts to the right of its recorded edge; nothing else moved.
   */
  ghost predicate LayoutState(g: Graph, c0: Canvas, roots: seq<string>, c: Canvas, currentY: real,
                              processed: set<string>, order: seq<string>, fallback: set<string>)
  {
    && (forall k :: k in processed ==> k in roots)
    && (forall k :: k in order <==> k in processed)
    && fallback <= processed
    && KeepsBoxes(c0, c)
    && (forall k :: k !in processed ==> XOf(c, k) == XOf(c0, k) && YOf(c, k) == YOf(c0, k))
    && Spaced(c, order, currentY)
    && (forall k :: k in processed ==> StartRule(g, c, k))
    && EdgesRecorded(g, c, processed)
    && (forall k :: k in processed && k !in fallback ==> AfterBlockers(g, c, processed, k))
  }

  /** A round (ready or fallback) keeps the layout state. */
  lemma RoundKeepsLayoutState(g: Graph, c0: Canvas, roots: seq<string>, c: Canvas, y: real,
                              processed: set<string>, order: seq<string>, ids: seq<string>,
                              c': Canvas, y': real, processed': set<string>, added: seq<string>, fallback: set<string>)
    requires LayoutState(g, c0, roots, c, y, processed, order, {})
    requires forall i :: 0 <= i < |ids| ==> ids[i] in roots
    requires PlacedRun(g, c, y, processed, ids, c', y', processed', added)
    requires fallback == {} ==> forall i :: 0 <= i < |ids| ==> CanProcess(g.blockedByMap, processed, ids[i])
    requires fallback == {} || fallback == set i | 0 <= i < |added| :: added[i]
    ensures LayoutState(g, c0, roots, c', y', processed', order + added, fallback)
  {
    KeepsBoxesTrans(c0, c, c');
    assert forall i :: 0 <= i < |order| ==> order[i] !in added;
    RoundSpaced(c, order, y, c', added, y');
    RoundStartRule(g, c, processed, ids, c', processed', added);
    RoundEdges(g, c, processed, ids, c', processed', added);
    RoundAfterBlockers(g, c, processed, ids, c', processed', added, fallback);
    forall k | k in order + added ensures k in processed' {
      if k in added {
        var i :| 0 <= i < |added| && added[i] == k;
      }
    }
    assert forall k :: k in processed' && k !in processed ==> k in added;
  }

  /** The boxes of a round are stacked below the boxes of the earlier rounds. */
  lemma RoundSpaced(c: Canvas, order: seq<string>, y: real, c': Canvas, added: seq<string>, y': real)
    requires Spaced(c, order, y) && RunRows(c, y, c', y', added)
    requires forall i :: 0 <= i < |order| ==> order[i] !in added
    requires forall k :: k !in added ==> YOf(c', k) == YOf(c, k)
    ensures Spaced(c', order + added, y')
  {
    var order' := order + added;
    forall i, j | 0 <= i < j < |order'| ensures YOf(c', order'[i]) + ROW_HEIGHT <= YOf(c', order'[j]) {
      if j < |order| {
        assert YOf(c', order[i]) == YOf(c, order[i]) && YOf(c', order[j]) == YOf(c, order[j]);
      } else if i < |order| {
        assert YOf(c', order[i]) == YOf(c, order[i]);
        assert order'[j] == added[j - |order|];
      } else {
        assert order'[i] == added[i - |order|] && order'[j] == added[j - |order|];
      }
    }
    forall i | 0 <= i < |order'| ensures YOf(c', order'[i]) + ROW_HEIGHT <= y' {
      if i < |order| {
        assert YOf(c', order[i]) == YOf(c, order[i]);
      } else {
        assert order'[i] == added[i - |order|];
      }
    }
  }

  /** Boxes placed before the round keep their column; the new ones follow the rule. */
  lemma RoundStartRule(g: Graph, c: Canvas, processed: set<string>, ids: seq<string>,
                       c': Canvas, processed': set<string>, added: seq<string>)
    requires forall k :: k in processed ==> StartRule(g, c, k)
    requires RunFrame(c, processed, ids, c', processed', added) && RunColumns(g, c, processed, c', added)
    ensures forall k :: k in processed' ==> StartRule(g, c', k)
  {
    forall k | k in processed' ensures StartRule(g, c', k) {
      if k in processed {
        assert k !in added;
      } else {
        assert k in added;
        var i :| 0 <= i < |added| && added[i] == k;
      }
    }
  }

  /** The recorded right edges stay those of placed non-group boxes. */
  lemma RoundEdges(g: Graph, c: Canvas, processed: set<string>, ids: seq<string>,
                   c': Canvas, processed': set<string>, added: seq<string>)
    requires EdgesRecorded(g, c, processed)
    requires RunFrame(c, processed, ids, c', processed', added) && RunColumns(g, c, processed, c', added)
    ensures EdgesRecorded(g, c', processed')
  {
    forall k | k in c'.rightEdges
      ensures k in processed' && k !in c'.groups && c'.rightEdges[k] == XOf(c', k) + WidthOf(g, c', k)
    {
      if k in c.rightEdges {
        assert k !in c.groups && k in processed && k !in added;
      } else {
        var i :| 0 <= i < |added| && added[i] == k;
      }
    }
  }

  /** Outside the fallback every unit of the round found its blockers placed and starts right of their edges. */
  lemma RoundAfterBlockers(g: Graph, c: Canvas, processed: set<string>, ids: seq<string>,
                           c': Canvas, processed': set<string>, added: seq<string>, fallback: set<string>)
    requires forall k :: k in processed ==> AfterBlockers(g, c, processed, k)
    requires EdgesRecorded(g, c, processed)
    requires RunFrame(c, processed, ids, c', processed', added) && RunColumns(g, c, processed, c', added)
    requires fallback == {} ==> forall i :: 0 <= i < |ids| ==> CanProcess(g.blockedByMap, processed, ids[i])
    requires fallback == {} || fallback == set i | 0 <= i < |added| :: added[i]
    ensures forall u :: u in processed' && u !in fallback ==> AfterBlockers(g, c', processed', u)
  {
    forall u | u in processed' && u !in fallback ensures AfterBlockers(g, c', processed', u) {
      forall b | b in Lookup(g.blockedByMap, u)
        ensures b in processed' && (b in c'.rightEdges ==> XOf(c', u) >= c'.rightEdges[b] + HORIZONTAL_GAP)
      {
        if u in processed {
          assert u !in added;
          assert b in processed;
          assert b !in added;
        } else {
          var i :| 0 <= i < |added| && added[i] == u;
          assert fallback == {};
          var k :| 0 <= k < |ids| && ids[k] == u;
          assert CanProcess(g.blockedByMap, processed, ids[k]);
          assert b in processed;
          assert b !in added;
        }
      }
    }
  }

  /**
   * The state of the `while (remainingTasks.length > 0)` loop between rounds:
   * the layout state outside the fallback, and every top-level id either
   * processed or still remaining, never both.
   */
  ghost predicate RootsLoop(g: Graph, c0: Canvas, roots: seq<string>, c: Canvas, currentY: real,
                            processed: set<string>, order: seq<string>, remainingTasks: seq<string>)
  {
    && LayoutState(g, c0, roots, c, currentY, processed, order, {})
    && (forall k :: k in roots ==> k in processed || k in remainingTasks)
    && (forall i :: 0 <= i < |remainingTasks| ==> remainingTasks[i] in roots && remainingTasks[i] !in processed)
  }

  /**
   * A round with at least one ready id: the ready ids are placed in order and
   * `remainingTasks` is filtered down to the ids still unprocessed.
   */
  method ReadyRound(g: Graph, c0: Canvas, roots: seq<string>, c: Canvas, currentY: real, processed: set<string>,
                    ghost order: seq<string>, remainingTasks: seq<string>, ready: seq<string>)
    returns (c': Canvas, currentY': real, processed': set<string>, ghost order': seq<string>, remaining': seq<string>)
    requires forall i :: 0 <= i < |roots| ==> roots[i] in g.nodeMap
    requires forall k :: k in c0.groups ==> c0.groups[k].height >= 0.0
    requires RootsLoop(g, c0, roots, c, currentY, processed, order, remainingTasks)
    requires |ready| > 0
    requires forall i :: 0 <= i < |ready| ==> ready[i] in remainingTasks && CanProcess(g.blockedByMap, processed, ready[i])
    ensures RootsLoop(g, c0, roots, c', currentY', processed', order', remaining')
    ensures |remaining'| < |remainingTasks|
  {
    ghost var added;
    c', currentY', processed', added := PlaceAll(g, c, currentY, processed, ready);
    RoundKeepsLayoutState(g, c0, roots, c, currentY, processed, order, ready, c', currentY', processed', added, {});
    order' := order + added;
    var unplaced := (id: string) => id !in processed';
    remaining' := Filter(remainingTasks, unplaced);
    forall i | 0 <= i < |remaining'| ensures remaining'[i] in remainingTasks {
      FilterSubset(remainingTasks, unplaced, remaining'[i]);
    }
    assert ready[0] in remainingTasks && ready[0] in processed';
    var i0 :| 0 <= i0 < |remainingTasks| && remainingTasks[i0] == ready[0];
    FilterShrinks(remainingTasks, unplaced, i0);
  }

  /**
   * The fallback round, when no remaining id is ready: all remaining ids are
   * placed in order, and the loop ends with every top-level id processed.
   */
  method FallbackRound(g: Graph, c0: Canvas, roots: seq<string>, c: Canvas, currentY: real, processed: set<string>,
                       ghost order: seq<string>, remainingTasks: seq<string>)
    returns (c': Canvas, currentY': real, processed': set<string>, ghost order': seq<string>, ghost fallback: set<string>)
    requires forall i :: 0 <= i < |roots| ==> roots[i] in g.nodeMap
    requires forall k :: k in c0.groups ==> c0.groups[k].height >= 0.0
    requires RootsLoop(g, c0, roots, c, currentY, processed, order, remainingTasks)
    ensures forall k :: k in processed' <==> k in roots
    ensures LayoutState(g, c0, roots, c', currentY', processed', order', fallback)
  {
    ghost var added;
    c', currentY', processed', added := PlaceAll(g, c, currentY, processed, remainingTasks);
    fallback := set i | 0 <= i < |added| :: added[i];
    RoundKeepsLayoutState(g, c0, roots, c, currentY, processed, order, remainingTasks, c', currentY', processed', added, fallback);
    order' := order + added;
  }

  /** Outside the fallback every blocker is processed first, so a unit blocked by a non-top-level id is a fallback unit. */
  lemma OutsideBlockersMeanFallback(g: Graph, c0: Canvas, roots: seq<string>, c: Canvas, currentY: real,
                                    processed: set<string>, order: seq<string>, fallback: set<string>)
    requires LayoutState(g, c0, roots, c, currentY, processed, order, fallback)
    ensures forall k, b :: k in processed && b in Lookup(g.blockedByMap, k) && b !in roots ==> k in fallback
  {
  }

  /**
   * The `while (remainingTasks.length > 0)` loop over the top-level ids. It ends
   * with every top-level id placed exactly once, in `order`, each a row below
   * the previous one. Outside the final fallback round, a unit is placed only
   * after all its blockers and starts a gap to the right of their recorded right
   * edges; in particular a unit blocked by a subtask or an unknown id is only
   * placed by the fallback.
   */
  method LayoutRoots(g: Graph, c0: Canvas, roots: seq<string>)
    returns (c: Canvas, currentY: real, processed: set<string>, ghost order: seq<string>, ghost fallback: set<string>)
    requires forall i :: 0 <= i < |roots| ==> roots[i] in g.nodeMap
    requires forall k :: k in c0.groups ==> c0.groups[k].height >= 0.0
    requires c0.rightEdges == map[]
    ensures forall k :: k in processed <==> k in roots
    ensures LayoutState(g, c0, roots, c, currentY, processed, order, fallback)
    ensures forall k, b :: k in processed && b in Lookup(g.blockedByMap, k) && b !in roots ==> k in fallback
  {
    c, currentY, processed, order, fallback := c0, 0.0, {}, [], {};
    var remainingTasks := roots;
    while |remainingTasks| > 0
      invariant RootsLoop(g, c0, roots, c, currentY, processed, order, remainingTasks)
      invariant fallback == {}
      decreases |remainingTasks|
    {
      var canGo := (id: string) => CanProcess(g.blockedByMap, processed, id);
      var ready := Filter(remainingTasks, canGo);
      if |ready| == 0 {
        c, currentY, processed, order, fallback := FallbackRound(g, c0, roots, c, currentY, processed, order, remainingTasks);
        break;
      }
      forall i | 0 <= i < |ready| ensures ready[i] in remainingTasks {
        FilterSubset(remainingTasks, canGo, ready[i]);
      }
      c, currentY, processed, order, remainingTasks := ReadyRound(g, c0, roots, c, currentY, processed, order, remainingTasks, ready);
    }
    OutsideBlockersMeanFallback(g, c0, roots, c, currentY, processed, order, fallback);
  }
}
