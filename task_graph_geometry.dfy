/**
 * Sizing and horizontal placement rules of the task-relationship layout:
 * leaf-node dimensions, group-node dimensions, and the horizontal start of a
 * unit computed from the right edges of its blockers.
 */
module TaskGraphGeometry {
  import opened Common
  import opened TaskGraphMaps

  const BASE_WIDTH: real := 150.0
  const BASE_HEIGHT: real := 100.0
  const MAX_SCALE: real := 3.0
  const GROUP_BASE_WIDTH: real := 300.0
  const GROUP_MAX_WIDTH_SCALE: real := 2.0
  const GROUP_MIN_WIDTH: real := 350.0
  const GROUP_HEADER_HEIGHT: real := 120.0
  const SUBTASK_ROW_HEIGHT: real := 80.0
  const SUBTASK_MARGIN_X: real := 20.0
  const ROW_HEIGHT: real := 200.0
  const HORIZONTAL_GAP: real := 150.0

  /** `Math.min` on finite numbers. */
  function Min(a: real, b: real): real { if a <= b then a else b }

  /** `Math.max` on finite numbers. */
  function Max(a: real, b: real): real { if a >= b then a else b }

  datatype Size = Size(width: real, height: real)

  /**
   * `getNodeDimensions`: 150 wide plus 45 per man-day of total estimate, capped
   * at 600 from ten man-days on; always 100 high; 150 x 100 for an unknown id.
   */
  function NodeDimensions(nodeMap: map<string, NodeEntry>, id: string): (s: Size)
    ensures s.height == BASE_HEIGHT
    ensures id !in nodeMap ==> s.width == BASE_WIDTH
    ensures id in nodeMap && nodeMap[id].totalEstimate <= 10.0 ==>
              s.width == 150.0 + 45.0 * nodeMap[id].totalEstimate
    ensures id in nodeMap && nodeMap[id].totalEstimate >= 10.0 ==> s.width == 600.0
    ensures id in nodeMap && nodeMap[id].totalEstimate >= 0.0 ==> BASE_WIDTH <= s.width <= 600.0
  {
    if id !in nodeMap then Size(BASE_WIDTH, BASE_HEIGHT)
    else
      var widthScale := 1.0 + Min(nodeMap[id].totalEstimate / 10.0, 1.0) * MAX_SCALE;
      Size(BASE_WIDTH * widthScale, BASE_HEIGHT)
  }

  /** Group height: a 120 header plus an 80 row per direct subtask. */
  function GroupHeight(subtaskCount: nat): (h: real)
    ensures h >= GROUP_HEADER_HEIGHT
    ensures forall i :: 0 <= i < subtaskCount ==> LeafRowTop(i) + SUBTASK_ROW_HEIGHT <= h
  {
    GROUP_HEADER_HEIGHT + subtaskCount as real * SUBTASK_ROW_HEIGHT
  }

  /** The local y of the `index`-th leaf subtask inside its group. */
  function LeafRowTop(index: nat): (y: real)
    ensures y >= GROUP_HEADER_HEIGHT
  {
    GROUP_HEADER_HEIGHT + index as real * SUBTASK_ROW_HEIGHT
  }

  /**
   * The width a group gets once sizes are adjusted: 300 plus 60 per man-day,
   * never below 350 and capped at 900 from ten man-days on.
   */
  function FinalGroupWidth(totalEstimate: real): (w: real)
    ensures GROUP_MIN_WIDTH <= w <= 900.0
    ensures totalEstimate >= 10.0 ==> w == 900.0
    ensures totalEstimate <= 10.0 ==> w == Max(300.0 + 60.0 * totalEstimate, GROUP_MIN_WIDTH)
  {
    var widthScale := 1.0 + Min(totalEstimate / 10.0, 1.0) * GROUP_MAX_WIDTH_SCALE;
    Max(GROUP_BASE_WIDTH * widthScale, GROUP_MIN_WIDTH)
  }

  /** `rightEdges.get(id) || 0` */
  function RightEdge(rightEdges: map<string, real>, id: string): real
  {
    if id in rightEdges then rightEdges[id] else 0.0
  }

  /** The rightmost recorded right edge among `blockers`, starting from 0. */
  function MaxRight(rightEdges: map<string, real>, blockers: seq<string>): (m: real)
    ensures m >= 0.0
    ensures forall i :: 0 <= i < |blockers| ==> m >= RightEdge(rightEdges, blockers[i])
    ensures m == 0.0 || exists i :: 0 <= i < |blockers| && m == RightEdge(rightEdges, blockers[i])
  {
    if blockers == [] then 0.0
    else Max(MaxRight(rightEdges, blockers[..|blockers| - 1]), RightEdge(rightEdges, blockers[|blockers| - 1]))
  }

  /** The `maxRight` accumulation loop shared by the positioning and both shift passes. */
  method MaxBlockerRight(rightEdges: map<string, real>, blockers: seq<string>) returns (maxRight: real)
    ensures maxRight == MaxRight(rightEdges, blockers)
  {
    maxRight := 0.0;
    var j := 0;
    while j < |blockers|
      invariant 0 <= j <= |blockers|
      invariant maxRight == MaxRight(rightEdges, blockers[..j])
    {
      assert blockers[..j + 1][..j] == blockers[..j];
      maxRight := Max(maxRight, RightEdge(rightEdges, blockers[j]));
      j := j + 1;
    }
    assert blockers[..j] == blockers;
  }

  /**
   * `calculateHorizontalPosition`: 0 without blockers, otherwise 150 past the
   * rightmost right edge recorded for a blocker (a missing edge counts as 0).
   */
  function HorizontalStart(blockedByMap: map<string, seq<string>>, rightEdges: map<string, real>, id: string): (x: real)
    ensures Lookup(blockedByMap, id) == [] ==> x == 0.0
    ensures Lookup(blockedByMap, id) != [] ==> x >= HORIZONTAL_GAP
    ensures forall b :: b in Lookup(blockedByMap, id) ==> x >= RightEdge(rightEdges, b) + HORIZONTAL_GAP
    ensures Lookup(blockedByMap, id) != [] && x > HORIZONTAL_GAP ==>
              exists b :: b in Lookup(blockedByMap, id) && x == RightEdge(rightEdges, b) + HORIZONTAL_GAP
  {
    var blockers := Lookup(blockedByMap, id);
    if |blockers| == 0 then 0.0 else MaxRight(rightEdges, blockers) + HORIZONTAL_GAP
  }

  method CalculateHorizontalPosition(blockedByMap: map<string, seq<string>>, rightEdges: map<string, real>, id: string)
    returns (x: real)
    ensures x == HorizontalStart(blockedByMap, rightEdges, id)
  {
    var blockers := Lookup(blockedByMap, id);
    if |blockers| == 0 {
      return 0.0;
    }
    var maxRight := MaxBlockerRight(rightEdges, blockers);
    x := maxRight + HORIZONTAL_GAP;
  }
}
