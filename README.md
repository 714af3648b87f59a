# Planning: task graph, Gantt scheduler, stores and forms, in Dafny

This project is a Dafny model of the core of a small planning application.
The application keeps tasks, people, day capacities and teams in a
document store, and it draws the tasks as a graph and as a Gantt chart.

A task has an id, a title, a description, an estimate in man-days, embedded
subtasks and embedded blockers (`Tasks.Task`). The modelled parts are:

- **Task-relationship layout** (`useTaskGraph`): the modules `TaskGraphMaps`,
  `TaskGraphGeometry`, `TaskGraphNodes`, `TaskGraphEdges`, `TaskGraphLayout`,
  `TaskGraphAdjust` and `TaskGraph`. Step by step, the layout:
  - builds the relationship maps;
  - computes the recursive total estimate;
  - sizes leaf nodes and group boxes;
  - attaches and stacks leaf subtasks inside their parent's group;
  - synthesises one "blocks" edge per listed blocker;
  - runs the ready-queue placement loop over the top-level tasks, with its
    cycle fallback;
  - shifts leaves and then groups right past their blockers;
  - emits the ReactFlow nodes, groups first, then leaves.
- **Mermaid Gantt generator** (`generateMermaidGantt`): the modules
  `GanttSections` and `Gantt`. It groups the tasks into sections and draws
  the unblocked tasks first. Blocked tasks are drawn in rounds, once their
  blockers have positions. A position counter is shared by all sections. A
  round that draws nothing puts the rest in order with the
  ` (circular dependency)` warning.
- **Task store** (`TaskRepository`):
  - conversion between embedded tasks and stored id lists, and the two-pass
    hydration of a load;
  - the field selection of `updateTask`;
  - the reference scrub of `deleteTask`;
  - the add and remove edits of subtasks and blockers, with their error and
    no-op cases.
- **Views and forms:**
  - the task list: total estimate and top-level filter (`TaskList`);
  - the task form: descendant collection, parent preselection, estimate
    guard, blocker choice, validation (`TaskForm`);
  - the person form and the person detail view: skills, weekly schedule,
    date-keyed exception upsert and delete, validation (`People`,
    `PersonForm`, `PersonDetail`);
  - the day-capacity form, with its id character class (`DayCapacityForm`);
  - team storage with membership edits and people hydration
    (`TeamRepository`);
  - the team view: avatar initials, offered people, local membership edits
    (`TeamDetail`).

The source mutates maps, arrays and node records step by step. Those parts
are methods with loops and invariants, proved against specification
functions (`FirstPass`, `AssignLeafParents`, `CreateGroups`, `BuildEdges`,
`LayoutRoots`, `ShiftSubtree`, `AdjustLeaves`, `ShiftGroups`,
`CollectSectionTitles`, `GroupSections`, `PlaceSection`, `LoadTasks`,
`DeleteTask`, `GetTopLevelTasks`, `CollectSubtaskIds`, `UpsertException` …).
The expression-only parts are functions, with lemmas about them.

Coordinates, estimates and availabilities are `real`. The layout only adds,
takes maxima and minima, and divides by the constant 10. Document reads and
writes are inputs and outputs of the operations:
- a load takes the stored documents;
- an edit returns the patch it would write, or `None` for no write, or an
  error;
- `deleteTask` returns the list of writes.

The identifier generator (`uuidv4`), the person lookup (`getPersonById`) and
JavaScript's number-to-text conversion are parameters.

## Model

| member | source | states |
|---|---|---|
| Common.TrimEmptyIffBlank | src/components/person/PersonForm.tsx:161 | `s.trim()` is empty exactly when every character of `s` is JavaScript whitespace, so every "required" check is stated as "not blank" |
| Common.Upper | src/components/team/TeamDetail.tsx:189 | upper-casing keeps the length and maps each character through the ASCII upper-case mapping |
| Common.Filter | src/components/task/TaskList.tsx:317 | a filter keeps only elements satisfying the test, loses none that satisfy it, and never grows the list |
| Tasks.TotalEstimateAtLeastOwn | src/components/task-relationship/useTaskGraph.ts:31-42 | with non-negative estimates in the tree, the total estimate is at least the task's own estimate and at least 0 |
| Tasks.SumTotalsNonNegative | src/components/task-relationship/useTaskGraph.ts:36-39 | the reduce over the subtasks' totals is non-negative when all estimates are |
| Tasks.TotalIsSumOfPreorder | src/components/task-relationship/useTaskGraph.ts:31-42 | the recursive total equals the plain sum of every estimate in the task's tree, counting each occurrence once |
| Tasks.SumTotalsIsSumOfPreorder | src/components/task-relationship/useTaskGraph.ts:36-39 | the sum of subtask totals equals the sum of all estimates below them |
| Tasks.SumEstimatesAppend | src/components/task-relationship/useTaskGraph.ts:36-39 | summing estimates distributes over concatenation |
| TaskGraphMaps.Push | src/components/task-relationship/useTaskGraph.ts:107-110 | pushing creates the entry if needed, appends to it, and leaves every other entry unchanged |
| TaskGraphMaps.AddBlocks | src/components/task-relationship/useTaskGraph.ts:106-111 | the loop over the blockers appends the task id to each blocker's entry, in blocker order |
| TaskGraphMaps.FirstPass | src/components/task-relationship/useTaskGraph.ts:45-113 | the first `forEach` leaves the node map, leaf list, subtask map, blocked-by map and blocks map described task by task |
| TaskGraphMaps.BuildRelationships | src/components/task-relationship/useTaskGraph.ts:45-113 | with unique ids, the maps built have the meaning stated by `IsRelationships` |
| TaskGraphMaps.RelationshipsMeaning | src/components/task-relationship/useTaskGraph.ts:45-113 | the task-by-task description of the maps has the meaning of node map, subtask map, blocked-by map and blocks map |
| TaskGraphMaps.NodeMapMeaning | src/components/task-relationship/useTaskGraph.ts:58-90 | every task id, and nothing else, has a node entry: a leaf node for a leaf subtask, a placeholder otherwise, with its total estimate |
| TaskGraphMaps.SubtaskMapMeaning | src/components/task-relationship/useTaskGraph.ts:93-98 | a task has a subtask-map entry exactly when it has subtasks, and the entry is their ids in order |
| TaskGraphMaps.BlockedByMapMeaning | src/components/task-relationship/useTaskGraph.ts:101-104 | a task has a blocked-by entry exactly when it has blockers, and the entry is their ids in order |
| TaskGraphMaps.PushAllMeaning | src/components/task-relationship/useTaskGraph.ts:106-111 | pushing `x` for a blocker list adds `x` to each blocker's entry as often as the blocker is listed, and creates no empty entry |
| TaskGraphMaps.BlocksMapMeaning | src/components/task-relationship/useTaskGraph.ts:105-111 | the blocks map has a non-empty entry exactly for the ids some task lists as a blocker |
| TaskGraphMaps.BlockedTasksAreTaskIds | src/components/task-relationship/useTaskGraph.ts:101-112 | only ids of listed tasks appear in a blocks-map entry |
| TaskGraphMaps.BlockedTasksCount | src/components/task-relationship/useTaskGraph.ts:101-112 | when no other task shares its id, a task occurs under blocker `b` as often as it lists `b` |
| TaskGraphMaps.UnknownIdHasNoRelations | src/components/task-relationship/useTaskGraph.ts:93-112 | an id naming no task is blocked by nothing and blocks nothing |
| TaskGraphMaps.BlocksMapInvertsBlockedByMap | src/components/task-relationship/useTaskGraph.ts:93-112 | the blocks map is the exact inverse of the blocked-by map, counting repeated listings, in both directions |
| TaskGraphGeometry.NodeDimensions | src/components/task-relationship/useTaskGraph.ts:211-227 | the height is always 100; an unknown id gets width 150; the width is 150 + 45·total below ten man-days and 600 from ten on, so it lies in [150, 600] for non-negative totals |
| TaskGraphGeometry.GroupHeight | src/components/task-relationship/useTaskGraph.ts:246-253 | a group is at least its 120 header tall, and every subtask row fits inside it |
| TaskGraphGeometry.LeafRowTop | src/components/task-relationship/useTaskGraph.ts:136-139 | every leaf row starts below the 120 group header |
| TaskGraphGeometry.FinalGroupWidth | src/components/task-relationship/useTaskGraph.ts:471-476 | the final group width lies in [350, 900]; it is 900 from ten man-days on, else max(300 + 60·total, 350) |
| TaskGraphGeometry.MaxRight | src/components/task-relationship/useTaskGraph.ts:291-296 | the result is at least 0 and at least every blocker's recorded right edge (a missing one counts as 0), and it is 0 or one of them |
| TaskGraphGeometry.MaxBlockerRight | src/components/task-relationship/useTaskGraph.ts:291-296 | the accumulation loop computes that maximum |
| TaskGraphGeometry.HorizontalStart | src/components/task-relationship/useTaskGraph.ts:283-300 | without blockers the start is 0; with blockers it is at least 150 and at least 150 past each blocker's right edge, and exactly 150 past one of them when above 150 |
| TaskGraphGeometry.CalculateHorizontalPosition | src/components/task-relationship/useTaskGraph.ts:283-300 | `calculateHorizontalPosition` computes that start |
| TaskGraphNodes.AssignLeafParents | src/components/task-relationship/useTaskGraph.ts:116-153 | the loop over all tasks and their subtasks gives exactly the leaf placements the pass describes |
| TaskGraphNodes.PlaceSubtasksMeaning | src/components/task-relationship/useTaskGraph.ts:119-143 | one parent's pass places exactly its leaf subtasks, keeps other placements, and gives a leaf its last row index under that parent |
| TaskGraphNodes.PlaceLeafSubtasks | src/components/task-relationship/useTaskGraph.ts:118-143 | the inner `forEach` over one task's subtasks makes exactly that parent's placements, and changes nothing for a task without subtasks |
| TaskGraphNodes.LeafPlacementsDomain | src/components/task-relationship/useTaskGraph.ts:116-153 | a leaf subtask gets a placement exactly when some task lists it; nothing else does |
| TaskGraphNodes.LeafPlacementIsLastListing | src/components/task-relationship/useTaskGraph.ts:119-143 | a leaf listed several times belongs to the group of its last listing, at the row of that listing |
| TaskGraphNodes.ParentIds | src/components/task-relationship/useTaskGraph.ts:230 | the parent list holds exactly the ids of tasks with subtasks |
| TaskGraphNodes.CreateGroups | src/components/task-relationship/useTaskGraph.ts:241-266 | one group per task with subtasks, in list order, registered under its id: at the origin, 350 wide, 120 + 80 per subtask tall |
| TaskGraphEdges.BlockEdges | src/components/task-relationship/useTaskGraph.ts:157-206 | one edge per blocker listing of a task, in blocker order |
| TaskGraphEdges.BuildEdges | src/components/task-relationship/useTaskGraph.ts:155-208 | the second `forEach` emits the edges of all tasks, task by task |
| TaskGraphEdges.AddBlockEdges | src/components/task-relationship/useTaskGraph.ts:156-206 | the inner `forEach` over one task's blockers appends exactly that task's block edges, in blocker order, after the edges already emitted |
| TaskGraphEdges.BlockEdgesCount | src/components/task-relationship/useTaskGraph.ts:157-206 | a task's edges from `b` are as many as its listings of `b`, and it has no edges to other targets |
| TaskGraphEdges.EdgeCountIsBlockerCount | src/components/task-relationship/useTaskGraph.ts:156-206 | with unique ids, exactly one edge is emitted per (task, blocker) listing |
| TaskGraphEdges.NoEdgesToUnlisted | src/components/task-relationship/useTaskGraph.ts:156-206 | no edge points at an id that is not a listed task |
| TaskGraphEdges.EdgesAreBlockEdges | src/components/task-relationship/useTaskGraph.ts:159-204 | every edge comes from a listing; its id is `blocks-<blocker>-<task>`; each end is `group-<id>` exactly when that task is nobody's subtask, else the raw id |
| TaskGraphLayout.MoveTo | src/components/task-relationship/useTaskGraph.ts:406-408 | moving a box places it at the point and changes no other box, no size and no right edge |
| TaskGraphLayout.ProcessTask | src/components/task-relationship/useTaskGraph.ts:303-351 | a visited or unknown id changes nothing; otherwise the box is put at the start point, its right edge is recorded, and its bottom is returned |
| TaskGraphLayout.PlaceUnit | src/components/task-relationship/useTaskGraph.ts:400-418 | a processed id is skipped; a group goes to the current row, which advances by its height + 200, with no right edge; any other id goes through `processTask`, and the row moves 200 below its bottom |
| TaskGraphLayout.PlaceAll | src/components/task-relationship/useTaskGraph.ts:400-418 | a round places its ids in order: only new ids move, each is stacked a row below the previous, and each follows the horizontal rule |
| TaskGraphLayout.RoundKeepsLayoutState | src/components/task-relationship/useTaskGraph.ts:370-422 | a ready round or the fallback keeps the loop invariant: placed once, stacked in order, ready units after their blockers, nothing else moved |
| TaskGraphLayout.ReadyRound | src/components/task-relationship/useTaskGraph.ts:392-415 | a round with ready ids keeps the loop invariant and strictly shortens the remaining list, so the loop ends |
| TaskGraphLayout.FallbackRound | src/components/task-relationship/useTaskGraph.ts:374-390 | the fallback places what is left, after which every top-level id is processed and the layout invariant holds |
| TaskGraphLayout.LayoutRoots | src/components/task-relationship/useTaskGraph.ts:354-422 | the loop ends with every top-level id processed exactly once. Each is a row (200) below the previous. Outside the fallback each unit comes after its blockers, 150 past their recorded right edges. A unit blocked by a non-top-level id is placed only by the fallback |
| TaskGraphAdjust.ShiftNode | src/components/task-relationship/useTaskGraph.ts:446-454 | one node moves right by the offset and its right edge is re-recorded from its new x |
| TaskGraphAdjust.ShiftSubtree | src/components/task-relationship/useTaskGraph.ts:442-459 | every newly visited node is shifted exactly once, the subtasks of each are visited, and a node without subtasks is the only one shifted |
| TaskGraphAdjust.ChildShifted | src/components/task-relationship/useTaskGraph.ts:456-458 | a recursive call on a child extends what the parent's call shifted and visited |
| TaskGraphAdjust.AdjustLeaves | src/components/task-relationship/useTaskGraph.ts:425-464 | the leaf pass moves only leaves and groups are untouched. A blocked leaf left of 150 past its rightmost blocker, as seen at its step, moves to exactly that x at the same y; other leaves stay |
| TaskGraphAdjust.AdjustLeaf | src/components/task-relationship/useTaskGraph.ts:426-463 | one leaf of the pass: it moves to 150 past the rightmost right edge of its blockers, at the same y, when it starts left of that, and otherwise stays; no other node moves and no other right edge changes |
| TaskGraphAdjust.LeafClearsBlockers | src/components/task-relationship/useTaskGraph.ts:425-464 | after the pass, a blocked leaf sits 150 past the final right edge of each blocker not updated later, never further left, at its old y |
| TaskGraphAdjust.ResizeGroups | src/components/task-relationship/useTaskGraph.ts:467-489 | every group gets its final width, keeps position and height, and records its right edge; nothing else changes |
| TaskGraphAdjust.ShiftGroups | src/components/task-relationship/useTaskGraph.ts:493-516 | a blocked group left of 150 past its rightmost blocker, as seen at its step, moves to exactly that x at the same y; other groups and all nodes stay |
| TaskGraphAdjust.GroupClearsBlockers | src/components/task-relationship/useTaskGraph.ts:493-516 | after the pass, a blocked group sits 150 past the final right edge of each blocker not updated later, never further left, at its old y |
| TaskGraph.StandaloneIds | src/components/task-relationship/useTaskGraph.ts:233-235 | the top-level ids are exactly the ids of tasks nobody lists as a subtask |
| TaskGraph.LeafIdsMembers | src/components/task-relationship/useTaskGraph.ts:54-75 | the `nodes` array holds exactly the ids of leaf subtasks |
| TaskGraph.LeafIdsDistinct | src/components/task-relationship/useTaskGraph.ts:58-75 | with unique task ids no leaf node is created twice |
| TaskGraph.ParentIdsDistinct | src/components/task-relationship/useTaskGraph.ts:241-266 | with unique task ids no group is created twice |
| TaskGraph.StandaloneTaskNotDrawn | src/components/task-relationship/useTaskGraph.ts:58-90 | a top-level task without subtasks gets neither a group nor a leaf node |
| TaskGraph.InitialPositions | src/components/task-relationship/useTaskGraph.ts:60-89 | every node-map entry has a position after step 2 |
| TaskGraph.Prepare | src/components/task-relationship/useTaskGraph.ts:45-266 | steps 1 to 3 give the relationship maps, the leaf placements, the groups, the top-level ids and the edges as described |
| TaskGraph.BlockersOf | src/components/task-relationship/useTaskGraph.ts:101-103 | a listed task's blocked-by lookup is its blocker list |
| TaskGraph.PreparedForLayout | src/components/task-relationship/useTaskGraph.ts:237-238 | every top-level id has a node entry and no group has negative height, so the main loop may run |
| TaskGraph.PreparedLeaf | src/components/task-relationship/useTaskGraph.ts:116-143 | a leaf is neither a group nor top-level, has no subtasks, and sits at its placement's row |
| TaskGraph.GroupFlowNodes | src/components/task-relationship/useTaskGraph.ts:520-521 | one output group node per group, in order, with its box |
| TaskGraph.LeafFlowNodes | src/components/task-relationship/useTaskGraph.ts:520-521 | one output leaf node per leaf, in order, with its position and parent group |
| TaskGraph.FlowNodes | src/components/task-relationship/useTaskGraph.ts:520-523 | the output is the group nodes in order followed by the leaf nodes in order |
| TaskGraph.UseTaskGraph | src/components/task-relationship/useTaskGraph.ts:16-525 | the edges are one per blocker listing. Groups come first: sized from their task, blocked ones at x ≥ 150, standalone ones in separate rows, each 150 past earlier blocker groups. Then leaves: in the group of their last listing, at that row, at x ≥ 20, and x ≥ 150 when blocked |
| TaskGraph.LayoutKeepsGroups | src/components/task-relationship/useTaskGraph.ts:354-422 | the main loop keeps every group with the estimate and height it was created with |
| TaskGraph.LayoutRows | src/components/task-relationship/useTaskGraph.ts:354-422 | the groups of two top-level tasks end up at least a row (200) apart |
| TaskGraph.RowsApart | src/components/task-relationship/useTaskGraph.ts:406-417 | two distinct boxes of a stacked run are at least a row apart |
| TaskGraph.LeafUntouchedByLayout | src/components/task-relationship/useTaskGraph.ts:354-422 | the main loop moves only top-level boxes, so a leaf keeps its step-2 position |
| TaskGraph.ShiftLeaves | src/components/task-relationship/useTaskGraph.ts:425-464 | after the leaf pass every leaf is in its placement's row, at x ≥ 20, at x ≥ 150 when blocked, and the groups are unchanged |
| TaskGraph.LeafShiftBounds | src/components/task-relationship/useTaskGraph.ts:437-454 | the shift of a leaf keeps its y, never moves it left, and puts a blocked leaf at x ≥ 150 |
| TaskGraph.AdjustGroups | src/components/task-relationship/useTaskGraph.ts:467-516 | steps 5 and 6 give every group its final width, keep its height and row, put blocked groups at x ≥ 150, and put a group 150 past the end of every blocker group handled before it |
| TaskGraph.GroupAfterAdjust | src/components/task-relationship/useTaskGraph.ts:471-516 | a group after both steps is resized, moved only horizontally, and its right edge is where it ends |
| TaskGraph.PlaceGroupsAndEmit | src/components/task-relationship/useTaskGraph.ts:467-523 | from the canvas of the leaf pass, steps 5 and 6 and the node list satisfy the four output properties |
| TaskGraph.GroupsSized | src/components/task-relationship/useTaskGraph.ts:471-483 | each output group has its task's final width and its height |
| TaskGraph.GroupsInRows | src/components/task-relationship/useTaskGraph.ts:406-412 | output groups of top-level tasks stay in separate rows |
| TaskGraph.GroupsAfterBlockers | src/components/task-relationship/useTaskGraph.ts:493-516 | an output group starts 150 past the end of every earlier blocker group |
| TaskGraph.LeavesPlaced | src/components/task-relationship/useTaskGraph.ts:119-143 | output leaves carry the group and row of their last listing and the settled positions |
| GanttSections.TitleAllMeaning | src/components/task-relationship/TaskRelationshipGraph.tsx:68-70 | after recording a title for a list of ids, an id has that title when listed, else keeps its old entry |
| GanttSections.CollectSectionTitles | src/components/task-relationship/TaskRelationshipGraph.tsx:59-72 | the first loop leaves the title map the task-by-task description gives |
| GanttSections.RecordSubtaskTitles | src/components/task-relationship/TaskRelationshipGraph.tsx:67-69 | the inner `forEach` maps every subtask id of the task to the task's title, later listings winning |
| GanttSections.SectionTitleIsLastClaim | src/components/task-relationship/TaskRelationshipGraph.tsx:62-72 | an id has a title exactly when a task with subtasks is it or lists it, and the title is that of the last such task |
| GanttSections.SectionName | src/components/task-relationship/TaskRelationshipGraph.tsx:86 | a section name is never empty: an absent or empty title becomes `Tasks` |
| GanttSections.FindSection | src/components/task-relationship/TaskRelationshipGraph.tsx:88 | the lookup finds the section of that name, or reports that none exists |
| GanttSections.GroupSections | src/components/task-relationship/TaskRelationshipGraph.tsx:80-93 | the second loop leaves the sections the task-by-task description gives |
| GanttSections.PushToSection | src/components/task-relationship/TaskRelationshipGraph.tsx:87-92 | the task is appended to the section of that name, which is created last when missing |
| GanttSections.AddToSectionNames | src/components/task-relationship/TaskRelationshipGraph.tsx:88-92 | after a push the name has a section; earlier sections keep their names and places; a missing name gets a new section holding just the task, at the end |
| GanttSections.AddToSectionShape | src/components/task-relationship/TaskRelationshipGraph.tsx:88-92 | with distinct names, a push keeps the names distinct and appends the task to the named section only |
| GanttSections.SectionsMeaning | src/components/task-relationship/TaskRelationshipGraph.tsx:80-93 | `Tasks` is the first section, names are distinct, and each section holds exactly the tasks of its name in list order |
| GanttSections.SectionsHaveNames | src/components/task-relationship/TaskRelationshipGraph.tsx:85-93 | every task's section name is a section |
| GanttSections.InSectionMembers | src/components/task-relationship/TaskRelationshipGraph.tsx:85-93 | a task is in the section of its own name and in no other |
| GanttSections.InSectionCount | src/components/task-relationship/TaskRelationshipGraph.tsx:85-93 | a section holds every occurrence of the tasks of its name and nothing else |
| GanttSections.EveryTaskInOneSection | src/components/task-relationship/TaskRelationshipGraph.tsx:59-93 | each task lands in exactly one section: the one of its name holds all its occurrences, the others none |
| Gantt.Max | src/components/task-relationship/TaskRelationshipGraph.tsx:156 | `Math.max` is an upper bound of both arguments and equals one of them |
| Gantt.EstimateOfFirst | src/components/task-relationship/TaskRelationshipGraph.tsx:153-154 | a blocker's duration is the estimate of the first task with that id |
| Gantt.EstimateOfAbsent | src/components/task-relationship/TaskRelationshipGraph.tsx:153-154 | a blocker id no task has lasts 0 |
| Gantt.PositionIsEarlierBar | src/components/task-relationship/TaskRelationshipGraph.tsx:123-163 | a recorded position is the start of an earlier bar of that task |
| Gantt.AppendBar | src/components/task-relationship/TaskRelationshipGraph.tsx:123-129 | drawing a bar moves the counter to its end and records its start as the task's position |
| Gantt.Unblocked | src/components/task-relationship/TaskRelationshipGraph.tsx:110 | exactly the section's tasks without blockers |
| Gantt.Blocked | src/components/task-relationship/TaskRelationshipGraph.tsx:111 | exactly the section's tasks with blockers |
| Gantt.SplitSection | src/components/task-relationship/TaskRelationshipGraph.tsx:110-111 | the two filters split the section: every task is in exactly one of them |
| Gantt.StartAfter | src/components/task-relationship/TaskRelationshipGraph.tsx:149-157 | the result is the least number that is at least 0 and at least every blocker's position plus its estimate |
| Gantt.PlaceUnblocked | src/components/task-relationship/TaskRelationshipGraph.tsx:114-130 | each unblocked task is drawn in order at the counter, without the warning |
| Gantt.PlaceReady | src/components/task-relationship/TaskRelationshipGraph.tsx:143-163 | a ready task is drawn at `max(currentPos, startAfter)`, well placed |
| Gantt.BlockedBarPlaced | src/components/task-relationship/TaskRelationshipGraph.tsx:149-163 | a bar drawn at `max(currentPos, startAfter)` is well placed |
| Gantt.TakeReady | src/components/task-relationship/TaskRelationshipGraph.tsx:147-188 | drawing `remaining[i]` appends exactly one bar, for that task, without the warning, and the splice leaves the list without position `i`; its id becomes positioned |
| Gantt.RoundDrawsNothing | src/components/task-relationship/TaskRelationshipGraph.tsx:139-192 | a round draws nothing exactly when no waiting task has all its blockers positioned, and then the waiting list and the positioned ids are unchanged |
| Gantt.RoundPermutes | src/components/task-relationship/TaskRelationshipGraph.tsx:139-188 | a round only moves tasks from the waiting list to the drawn ones: drawn plus left is the waiting list as a multiset |
| Gantt.BlockedOrderPermutes | src/components/task-relationship/TaskRelationshipGraph.tsx:136-213 | the rounds and the fallback together draw every blocked task exactly once |
| Gantt.PlaceRound | src/components/task-relationship/TaskRelationshipGraph.tsx:137-189 | one pass of the `for` loop draws exactly the tasks `Round` draws, in that order and without the warning, leaves exactly the tasks `Round` leaves, and positions exactly the ids `Round` knows; `processed` is the number drawn; every bar is well placed |
| Gantt.PlaceCircular | src/components/task-relationship/TaskRelationshipGraph.tsx:194-209 | the fallback draws every waiting task in list order at the counter, with the warning, every bar well placed |
| Gantt.PlaceFallback | src/components/task-relationship/TaskRelationshipGraph.tsx:192-213 | after a round that drew nothing, the fallback completes the section as `BlockedOrder` says, and none of its tasks has all its blockers positioned where it starts |
| Gantt.PlaceSection | src/components/task-relationship/TaskRelationshipGraph.tsx:105-218 | a section draws its unblocked tasks in order, then its blocked tasks exactly in the order `BlockedOrder` gives: the rounds' tasks without the warning, then, only after a round that drew nothing, the rest in list order with it, each of those missing a positioned blocker; every bar is well placed |
| Gantt.WarnedLast | src/components/task-relationship/TaskRelationshipGraph.tsx:136-213 | in a scheduled section the bars with the cycle warning come after all the others |
| Gantt.SectionBarsComplete | src/components/task-relationship/TaskRelationshipGraph.tsx:136-213 | a section draws each of its tasks exactly once |
| Gantt.ScheduleGantt | src/components/task-relationship/TaskRelationshipGraph.tsx:47-218 | no tasks gives the empty chart; otherwise one chart section per section, in order, each scheduled as above from the positions left by the sections before it |
| Gantt.BlockersDrawnFirst | src/components/task-relationship/TaskRelationshipGraph.tsx:143-163 | a blocked bar without the warning comes after a bar of each blocker and starts no earlier than its end |
| Gantt.CounterNeverDecreases | src/components/task-relationship/TaskRelationshipGraph.tsx:99-209 | `currentPos` never goes back when a bar with a non-negative estimate is drawn |
| Gantt.StartsInOrder | src/components/task-relationship/TaskRelationshipGraph.tsx:99-209 | with non-negative estimates the bars start in the order they are drawn |
| Gantt.ReplaceHyphens | src/components/task-relationship/TaskRelationshipGraph.tsx:96 | every `-` becomes `_`, every other character is kept |
| Gantt.SafeIdShape | src/components/task-relationship/TaskRelationshipGraph.tsx:96 | a Mermaid id is `task_` followed by the id with no hyphen left |
| Gantt.SafeIdCollision | src/components/task-relationship/TaskRelationshipGraph.tsx:96 | two different ids (`a-b`, `a_b`) get the same Mermaid id |
| Gantt.SafeIds | src/components/task-relationship/TaskRelationshipGraph.tsx:174 | the `after` clause lists the Mermaid id of each blocker in order |
| Gantt.GenerateMermaidGantt | src/components/task-relationship/TaskRelationshipGraph.tsx:47-221 | no tasks gives the fixed "No tasks found" chart; otherwise the four header lines followed by the text of a schedule as `ScheduleGantt` makes it |
| TaskRepository.Dehydrate | src/repository/taskRepository.ts:49-57 | title, description and estimate are copied, and subtasks and blockers become their ids in order |
| TaskRepository.BareTasks | src/repository/taskRepository.ts:83-92 | the first pass puts a bare task under every document id |
| TaskRepository.RelatedBare | src/repository/taskRepository.ts:95-111 | relating a bare task gives the hydrated task of its document |
| TaskRepository.RelateTasks | src/repository/taskRepository.ts:95-112 | the second pass replaces every document's task by its hydrated form |
| TaskRepository.MapValues | src/repository/taskRepository.ts:115 | the map's values come out in document order |
| TaskRepository.LoadTasks | src/repository/taskRepository.ts:79-115 | the load gives one hydrated task per document, in document order |
| TaskRepository.ResolveKeepsKnown | src/repository/taskRepository.ts:98-110 | hydration keeps exactly the stored ids that name a loaded task, as often as stored, and drops the others |
| TaskRepository.LoadedReferencesResolve | src/repository/taskRepository.ts:95-112 | every reference of a loaded task points at a task of the same load |
| TaskRepository.ReloadIsStable | src/repository/taskRepository.ts:79-112 | saving a load and loading it again gives the same tasks |
| TaskRepository.DehydrateThenLoad | src/repository/taskRepository.ts:49-112 | for a collection whose relations stay inside it, storing then loading gives every task its relations' ids unchanged |
| TaskRepository.UpdateTask | src/repository/taskRepository.ts:190-224 | exactly the defined fields are written; relations as id lists, a non-array relation as the empty list |
| TaskRepository.DeleteTask | src/repository/taskRepository.ts:243-266 | the scrub writes one update per referencing task, in list order, then the deletion |
| TaskRepository.IdsWithoutId | src/repository/taskRepository.ts:248 | removing a task from a list removes exactly its id from the id list, keeping order |
| TaskRepository.ScrubbedHasNoId | src/repository/taskRepository.ts:246-256 | after the scrub no list names the deleted id, and every other entry keeps its count |
| TaskRepository.ScrubWritesMeaning | src/repository/taskRepository.ts:243-262 | every scrub write is an update of a task that referenced the id, and no written list names it |
| TaskRepository.ScrubReachesEveryReference | src/repository/taskRepository.ts:243-262 | every task that referenced the deleted id gets its update |
| TaskRepository.FindIndex | src/repository/taskRepository.ts:141 | the lookup returns the first task with the id, or reports none |
| TaskRepository.AddSubtask | src/repository/taskRepository.ts:279-293 | error for a missing parent; no write when the subtask is listed; otherwise the parent's subtasks with the new one appended |
| TaskRepository.RemoveSubtask | src/repository/taskRepository.ts:306-320 | error for a missing parent; no write when the subtask is absent; otherwise the subtasks without every entry of that id |
| TaskRepository.RemovalShrinks | src/repository/taskRepository.ts:312-317 | removing a listed id makes the list strictly shorter |
| TaskRepository.AddBlocker | src/repository/taskRepository.ts:333-353 | error for a missing task, then for a missing blocker; no write when already listed; otherwise the blocker appended |
| TaskRepository.AddBlockerKeepsDistinct | src/repository/taskRepository.ts:344-350 | adding a blocker to a list without repeats keeps it without repeats |
| TaskRepository.RemoveBlocker | src/repository/taskRepository.ts:366-380 | error for a missing task; no write when the blocker is absent; otherwise the blockers without every entry of that id |
| TaskList.TotalEstimateOfRow | src/components/task/TaskList.tsx:86-97 | without subtasks the total is the own estimate; with non-negative data it is at least the own estimate; it is the sum of all estimates in the tree |
| TaskList.ListedSubtaskIds | src/components/task/TaskList.tsx:307-314 | the set holds exactly the ids listed as some task's subtask |
| TaskList.GetTopLevelTasks | src/components/task/TaskList.tsx:305-318 | the nested loops and the filter give the tasks whose id nobody lists as a subtask |
| TaskList.ListedSnoc | src/components/task/TaskList.tsx:308-314 | one more outer iteration adds exactly that task's subtask ids |
| TaskList.TopLevelMembers | src/components/task/TaskList.tsx:305-318 | a task is top-level exactly when it is listed and nobody lists its id as a subtask |
| TaskList.TopLevelKeepsOrder | src/components/task/TaskList.tsx:317 | the top-level tasks are a subsequence of the list, and each keeps its number of occurrences |
| TaskForm.CollectSubtaskIds | src/components/task/TaskForm.tsx:89-95 | the collected ids are the ids of the task's tree in preorder |
| TaskForm.PreorderMembers | src/components/task/TaskForm.tsx:89-95 | the preorder listing starts with the task and holds exactly the task and its descendants |
| TaskForm.CollectedIdsMeaning | src/components/task/TaskForm.tsx:89-95 | the collected ids start with the task's id and are exactly the ids of the task and its descendants |
| TaskForm.AvailableExcludesSubtree | src/components/task/TaskForm.tsx:97-99 | while editing, a task is offered exactly when it is listed and is neither the edited task nor a descendant, in list order |
| TaskForm.FirstParent | src/components/task/TaskForm.tsx:112-114 | the first task listing the id as a subtask, or none when nobody lists it |
| TaskForm.ParentId | src/components/task/TaskForm.tsx:112-115 | the preselected parent is that first task's id; none without a parent, and none when that id is empty |
| TaskForm.Initialize | src/components/task/TaskForm.tsx:87-119 | editing offers all but the subtree and loads the task, its first parent and its blocker ids; creating offers every task and changes nothing else |
| TaskForm.EstimateChange | src/components/task/TaskForm.tsx:145-155 | only a parsed number ≥ 0 becomes the estimate and clears its message; anything else changes nothing |
| TaskForm.EstimateStaysNonNegative | src/components/task/TaskForm.tsx:145-155 | after any sequence of typed inputs the estimate is the initial one or a typed number ≥ 0, so a non-negative estimate stays non-negative; no other form field changes |
| TaskForm.BlockerChange | src/components/task/TaskForm.tsx:180-193 | the blocker ids are stored as chosen, and the blockers are exactly the offered tasks with a chosen id |
| TaskForm.BlockersInOfferedOrder | src/components/task/TaskForm.tsx:185-187 | the blockers keep the order of the offered tasks |
| TaskForm.ValidateForm | src/components/task/TaskForm.tsx:196-218 | one message per failed check, the own-parent message replacing the title one; valid exactly when title and description are not blank, estimate ≥ 0, and the task is not its own parent |
| People.Set | src/components/person/PersonForm.tsx:188-191 | the day gets the capacity and every other day keeps its capacity |
| People.FindCapacity | src/components/person/PersonForm.tsx:183 | the first capacity with the id, or none when no capacity has it |
| People.FindDate | src/components/person/PersonForm.tsx:219-221 | the first index with the date, or -1 when none has it |
| People.UpsertException | src/components/person/PersonForm.tsx:219-247 | an existing date is overwritten in place at its first index, lengths unchanged, all else kept; a new date is appended |
| People.UpsertMeaning | src/components/person/PersonForm.tsx:219-247 | after the upsert the new entry is found for its date, other dates are found as before, and unique dates stay unique |
| People.WithoutDateMeaning | src/components/person/PersonForm.tsx:255-260 | deleting by date drops exactly the entries of that date and keeps every other entry's count and order |
| People.WithoutSkillMeaning | src/components/person/PersonForm.tsx:174-179 | removing a skill drops every equal entry and keeps the others in order |
| People.AppendNewKeepsDistinct | src/components/person/PersonForm.tsx:163-166 | appending a skill that is not listed keeps the list free of repeats |
| PersonForm.AddSkill | src/components/person/PersonForm.tsx:160-171 | a non-blank input is trimmed and appended when new; the input is emptied whenever it was not blank; a blank input changes nothing |
| PersonForm.AddSkillKeepsDistinct | src/components/person/PersonForm.tsx:160-171 | skills stay without repeats, and an added skill is the trimmed, non-empty input |
| PersonForm.RemoveSkill | src/components/person/PersonForm.tsx:174-179 | the skill is gone and nothing else of the form changes |
| PersonForm.DayCapacityChange | src/components/person/PersonForm.tsx:182-194 | only the chosen day changes, to the first capacity with the id; an unknown id changes nothing |
| PersonForm.AddException | src/components/person/PersonForm.tsx:211-252 | with a date, an availability id and a known capacity, the exception is upserted by date and the dialog closes; otherwise nothing changes |
| PersonForm.RemoveException | src/components/person/PersonForm.tsx:255-260 | no exception of the date is left and nothing else of the form changes |
| PersonForm.ValidateForm | src/components/person/PersonForm.tsx:263-272 | the only message is for a blank name; valid exactly when the name is not blank |
| PersonDetail.SaveName | src/components/person/PersonDetail.tsx:129-140 | a loaded person and a non-blank name store the untrimmed name; otherwise nothing is written |
| PersonDetail.AddSkill | src/components/person/PersonDetail.tsx:150-159 | a non-blank new skill is trimmed, appended, and the input cleared; a blank or listed skill changes neither list nor input |
| PersonDetail.AddSkillClearsOnlyWhenAdded | src/components/person/PersonDetail.tsx:150-159 | the input is cleared exactly when the list grew (or was already empty), and skills stay without repeats |
| PersonDetail.RemoveSkill | src/components/person/PersonDetail.tsx:161-163 | every equal entry is removed and the list does not grow |
| PersonDetail.SaveSchedule | src/components/person/PersonDetail.tsx:194-213 | with a person, a day and a known capacity, only that day changes; otherwise nothing is written |
| PersonDetail.SaveException | src/components/person/PersonDetail.tsx:241-267 | without a person or an availability id nothing is written; otherwise the exception is upserted by date |
| PersonDetail.DeleteException | src/components/person/PersonDetail.tsx:282-296 | the person's exceptions lose exactly the entries of the date |
| PersonDetail.CapitalizeFirstLetter | src/components/person/PersonDetail.tsx:318-320 | the length is kept, the first character is upper-cased, the rest are unchanged |
| PersonDetail.CapitalizeIdempotent | src/components/person/PersonDetail.tsx:318-320 | capitalising twice is capitalising once |
| DayCapacityForm.IdError | src/components/day-capacity/DayCapacityForm.tsx:83-87 | an id fails exactly when it does not match the character class; blank ids get "ID is required", others the pattern message |
| DayCapacityForm.BlankIsNoId | src/components/day-capacity/DayCapacityForm.tsx:83-87 | a blank id never matches the pattern |
| DayCapacityForm.ValidateForm | src/components/day-capacity/DayCapacityForm.tsx:70-92 | a name message exactly for a blank name; an availability message exactly outside [0, 1]; an id message only when creating with an id that does not match |
| DayCapacityForm.ValidIff | src/components/day-capacity/DayCapacityForm.tsx:70-92 | valid exactly when the name is not blank, the availability is in [0, 1], and a new entry's id, if any, uses only letters, digits, `-`, `_`, `/` |
| TeamRepository.PersonIds | src/repository/teamRepository.ts:127 | people are stored as their ids, in order |
| TeamRepository.HydrateMembers | src/repository/teamRepository.ts:60-64 | a person is loaded exactly when some stored id finds it |
| TeamRepository.HydrateAppend | src/repository/teamRepository.ts:94-99 | hydration works id by id and keeps the stored order |
| TeamRepository.HydrateAllFound | src/repository/teamRepository.ts:94-99 | when every id is found, nobody is dropped |
| TeamRepository.LoadTeam | src/repository/teamRepository.ts:82-113 | the loaded team has the stored id and name, and no more people than stored ids |
| TeamRepository.CreateTeam | src/repository/teamRepository.ts:121-148 | the document stores the name and the people's ids in order; the returned team has the given people |
| TeamRepository.CreatedTeamLoadsBack | src/repository/teamRepository.ts:121-148 | loading a created team back gives the returned team while its people are all found |
| TeamRepository.UpdateTeam | src/repository/teamRepository.ts:156-177 | only defined fields are written, people as ids |
| TeamRepository.AddPersonToTeam | src/repository/teamRepository.ts:200-221 | error for a missing team; no write for an existing member; otherwise the ids with the person appended |
| TeamRepository.AddPersonKeepsDistinct | src/repository/teamRepository.ts:207-216 | adding never lists an id twice |
| TeamRepository.RemovePersonFromTeam | src/repository/teamRepository.ts:229-249 | error for a missing team; when it writes, the people without every member of the id |
| TeamRepository.RemovePersonMeaning | src/repository/teamRepository.ts:236-242 | the length test skips the write exactly when nobody has the id; when written, the id is gone and everybody else stays in order |
| TeamDetail.Split | src/components/team/TeamDetail.tsx:186 | splitting yields at least one piece |
| TeamDetail.SplitJoin | src/components/team/TeamDetail.tsx:186 | joining the pieces with spaces gives the name back, and no piece holds a space |
| TeamDetail.HeadsOfSplit | src/components/team/TeamDetail.tsx:186-188 | the first characters of the pieces are exactly the word-start characters, in order |
| TeamDetail.Initials | src/components/team/TeamDetail.tsx:184-191 | at most two characters: the first two word starts (fewer if there are fewer), upper-cased |
| TeamDetail.InitialsOfTwoWords | src/components/team/TeamDetail.tsx:184-191 | a name that begins with two space-free words separated by a space has their upper-cased first letters as initials, whatever follows |
| TeamDetail.InitialsIgnoreExtraSpaces | src/components/team/TeamDetail.tsx:184-191 | doubling a space anywhere, or adding a leading space, does not change the initials |
| TeamDetail.AvailablePeople | src/components/team/TeamDetail.tsx:119-120 | exactly the people not in the team are offered, in list order |
| TeamDetail.AddMember | src/components/team/TeamDetail.tsx:130-140 | after a successful write the loaded team shows the person appended; otherwise nothing changes |
| TeamDetail.AddOfferedKeepsDistinct | src/components/team/TeamDetail.tsx:119-140 | a person picked among the offered ones keeps the member ids unique |
| TeamDetail.RemoveMember | src/components/team/TeamDetail.tsx:150-161 | after a confirmed write the loaded team shows its people without the id |
| TeamDetail.SaveName | src/components/team/TeamDetail.tsx:100-105 | a blank name or no loaded team writes nothing; otherwise the untrimmed name is stored |

## Left out

- Database reads and writes, snapshot listeners, `async`/`await` and `Promise.all`: operations take the stored documents as input and return the writes or patches they would make; the order of concurrent person lookups is not modelled.
- React rendering, state setters, dialogs, notifications, console logging, Mermaid rendering and DOM code.
- Floating point: numbers are `real`, so rounding, `NaN` and infinities are not modelled. `parseFloat` is an `Option<real>` input to `TaskForm.EstimateChange`, with none standing for `NaN`.
- JavaScript's number-to-text conversion in the Gantt text is the parameter `num`; its output format is not modelled.
- `Common.Upper`: covers only the ASCII letters of `toUpperCase`; other case mappings, including ones that change the length, are not modelled. UTF-16 surrogate pairs are treated as single characters.
- Task lists that are absent (`undefined`) are modelled as empty lists; the model cannot tell the two apart.
- `TaskList.TotalEstimateOfRow`: the `task.estimate || 0` fallback for a missing or `NaN` estimate is not modelled, because estimates are always present reals here.
- `TaskRepository.LoadTasks`: requires distinct document ids, which the document store guarantees within a collection. A loaded reference is written as the id of the task it points at, so object identity and sharing are not modelled. The sort by title is the order of the input documents.
- `Tasks.TotalEstimate`, `TaskList.TotalEstimateOfRow` and `TaskForm.CollectSubtaskIds`: a `Task` value is a finite tree, so a subtask cycle cannot be represented. The store can hold one, because `addSubtask` (src/repository/taskRepository.ts:279-293) only rejects a direct duplicate. A load then links such a cycle, and the source's recursions over subtasks (src/components/task-relationship/useTaskGraph.ts:31-42, src/components/task/TaskList.tsx:86-97, src/components/task/TaskForm.tsx:89-95) do not terminate on it. The model covers only acyclic data.
- `createTask` and `getTaskById` are not modelled separately: their logic is `Dehydrate` and `FindIndex`.
- `TaskGraph.UseTaskGraph`: requires unique task ids, as the store guarantees. The `subtreeBottoms` map and the `extent`, `type` and styling fields of nodes and edges are not modelled, because no output depends on them.
- `TaskGraphAdjust.LeafClearsBlockers` and `TaskGraphAdjust.GroupClearsBlockers`: state the clearance only for blockers whose right edge is not updated later in the same pass. The source records right edges in mixed frames (a leaf's local x, a group's canvas x), and a later shift can move a blocker again.
- `TaskGraph.UseTaskGraph` in the main loop: a group gets a position but no right edge there, exactly as in the source; groups first get right edges in the resize step.
- `TaskGraph.UseTaskGraph` for top-level tasks without subtasks: such a task only gets a placeholder and never appears in the output, exactly as in the source.
- Gantt: the section of a task with an empty title falls back to `Tasks` and merges with the default section. Positions are shared across sections, so a blocker in a later section sends a task to the cycle fallback. These behaviours are modelled as written.
- `Gantt.SafeIdCollision`: two ids differing only in `-` versus `_` share a Mermaid id; this is modelled as written.
- `Gantt.CounterNeverDecreases` and `Gantt.StartsInOrder`: hold only for non-negative estimates; a negative estimate moves the counter back, as in the source.
- `PersonForm` initial state, `handleInputChange` and the dialog field handlers (`handleAddExceptionChange` in the detail view) are plain state plumbing and are not modelled.
- `PersonForm.AddException`: date-fns `format(date, 'yyyy-MM-dd')` is the already formatted date string given as input.
- `TeamRepository.CreateTeam`: the generated `uuidv4` identifier is the parameter `newId`.
- `TeamRepository.HydratePeople`: `getPersonById` is the parameter `find`.
- `TeamDetail.AddMember`: the view appends the person locally even when the store skipped the write for an existing member. Only people not in the team are offered, so this cannot create a duplicate from the view (`TeamDetail.AddOfferedKeepsDistinct`).
- `TeamDetail.RemoveMember`: the confirmation dialog is the `saved` flag.
