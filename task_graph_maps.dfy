/**
 * Step 1 of the task-relationship layout: one pass over the task list that
 * records, per task id, a node entry (a real node for leaf subtasks, a
 * placeholder for everything else), the subtask ids, the blocker ids and the
 * inverse "blocks" lists.
 */
module TaskGraphMaps {
  import opened Common
  import opened Tasks

  /** `type: 'taskNode'` (a leaf subtask, rendered) or `type: 'placeholder'`. */
  datatype NodeKind = LeafSubtask | Placeholder

  /** What `nodeMap` holds for a task: its kind and the `data` fields read later. */
  datatype NodeEntry = NodeEntry(kind: NodeKind, totalEstimate: real, isSubtask: bool)

  /** A leaf subtask: listed as a subtask somewhere and without subtasks of its own. */
  predicate IsLeafSubtask(tasks: seq<Task>, t: Task)
  {
    IsListedAsSubtask(tasks, t.id) && |t.subtasks| == 0
  }

  /** The entry the first pass stores for task `t` of the list `tasks`. */
  function EntryFor(tasks: seq<Task>, t: Task): NodeEntry
  {
    NodeEntry(
      if IsLeafSubtask(tasks, t) then LeafSubtask else Placeholder,
      TotalEstimate(t),
      IsListedAsSubtask(tasks, t.id))
  }

  /** `m.get(k) || []` */
  function Lookup(m: map<string, seq<string>>, k: string): seq<string>
  {
    if k in m then m[k] else []
  }

  /** The ids of the leaf subtasks among `ts`, in list order: the `nodes` array. */
  function LeafIds(tasks: seq<Task>, ts: seq<Task>): (r: seq<string>)
    ensures |r| <= |ts|
  {
    if ts == [] then []
    else LeafIds(tasks, ts[..|ts| - 1])
         + (if IsLeafSubtask(tasks, ts[|ts| - 1]) then [ts[|ts| - 1].id] else [])
  }

  function Repeat(x: string, n: nat): (r: seq<string>)
    ensures |r| == n
    ensures forall i :: 0 <= i < n ==> r[i] == x
  {
    if n == 0 then [] else Repeat(x, n - 1) + [x]
  }

  /**
   * The ids of the tasks of `ts` that list `b` as a blocker, in list order,
   * once per listing: what `blocksMap.get(b)` accumulates.
   */
  function BlockedTasks(ts: seq<Task>, b: string): seq<string>
  {
    if ts == [] then []
    else BlockedTasks(ts[..|ts| - 1], b) + Repeat(ts[|ts| - 1].id, multiset(BlockerIds(ts[|ts| - 1]))[b])
  }

  /** `nodeMap` has one entry per task, as `EntryFor` describes it. */
  ghost predicate IsNodeMap(tasks: seq<Task>, nodeMap: map<string, NodeEntry>)
  {
    && (forall id :: id in nodeMap <==> id in Ids(tasks))
    && (forall k :: 0 <= k < |tasks| ==> nodeMap[tasks[k].id] == EntryFor(tasks, tasks[k]))
  }

  /** `subtaskMap` maps exactly the tasks with subtasks to their subtask ids. */
  ghost predicate IsSubtaskMap(tasks: seq<Task>, subtaskMap: map<string, seq<string>>)
  {
    && (forall id :: id in subtaskMap ==> id in Ids(tasks))
    && (forall k :: 0 <= k < |tasks| ==>
          (tasks[k].id in subtaskMap <==> |tasks[k].subtasks| > 0)
          && Lookup(subtaskMap, tasks[k].id) == SubtaskIds(tasks[k]))
  }

  /** `blockedByMap` maps exactly the blocked tasks to their blocker ids. */
  ghost predicate IsBlockedByMap(tasks: seq<Task>, blockedByMap: map<string, seq<string>>)
  {
    && (forall id :: id in blockedByMap ==> id in Ids(tasks))
    && (forall k :: 0 <= k < |tasks| ==>
          (tasks[k].id in blockedByMap <==> |tasks[k].blockedBy| > 0)
          && Lookup(blockedByMap, tasks[k].id) == BlockerIds(tasks[k]))
  }

  /** `blocksMap` has a non-empty entry for exactly the ids some task is blocked by. */
  ghost predicate IsBlocksMap(tasks: seq<Task>, blocksMap: map<string, seq<string>>)
  {
    && NoEmptyEntries(blocksMap)
    && forall b :: Lookup(blocksMap, b) == BlockedTasks(tasks, b)
  }

  /** Entries are created only to be appended to, so none is empty. */
  ghost predicate NoEmptyEntries(m: map<string, seq<string>>)
  {
    forall b :: b in m ==> m[b] != []
  }

  /** The four relationship maps and the leaf list, as the first pass leaves them. */
  ghost predicate IsRelationships(
    tasks: seq<Task>, nodeMap: map<string, NodeEntry>, leaves: seq<string>,
    subtaskMap: map<string, seq<string>>, blockedByMap: map<string, seq<string>>,
    blocksMap: map<string, seq<string>>)
  {
    && IsNodeMap(tasks, nodeMap)
    && leaves == LeafIds(tasks, tasks)
    && IsSubtaskMap(tasks, subtaskMap)
    && IsBlockedByMap(tasks, blockedByMap)
    && IsBlocksMap(tasks, blocksMap)
  }

  lemma IdsPrefix(ts: seq<Task>, i: nat)
    requires i < |ts|
    ensures Ids(ts[..i + 1]) == Ids(ts[..i]) + [ts[i].id]
  {
  }

  /** `if (!m.has(b)) m.set(b, []); m.get(b).push(x)` */
  function Push(m: map<string, seq<string>>, b: string, x: string): (r: map<string, seq<string>>)
    ensures r.Keys == m.Keys + {b}
    ensures r[b] == Lookup(m, b) + [x]
    ensures forall c :: c != b && c in m ==> r[c] == m[c]
  {
    m[b := Lookup(m, b) + [x]]
  }

  /** `blockers.forEach(b => push x onto the entry of b)` */
  function PushAll(m: map<string, seq<string>>, x: string, blockers: seq<string>): map<string, seq<string>>
  {
    if blockers == [] then m else Push(PushAll(m, x, blockers[..|blockers| - 1]), blockers[|blockers| - 1], x)
  }

  /** The first pass, described task by task (each stated for a prefix `ts` of the list). */
  function NodeMapOf(tasks: seq<Task>, ts: seq<Task>): map<string, NodeEntry>
  {
    if ts == [] then map[]
    else NodeMapOf(tasks, ts[..|ts| - 1])[ts[|ts| - 1].id := EntryFor(tasks, ts[|ts| - 1])]
  }

  function SubtaskMapOf(ts: seq<Task>): map<string, seq<string>>
  {
    if ts == [] then map[]
    else if |ts[|ts| - 1].subtasks| > 0 then SubtaskMapOf(ts[..|ts| - 1])[ts[|ts| - 1].id := SubtaskIds(ts[|ts| - 1])]
    else SubtaskMapOf(ts[..|ts| - 1])
  }

  function BlockedByMapOf(ts: seq<Task>): map<string, seq<string>>
  {
    if ts == [] then map[]
    else if |ts[|ts| - 1].blockedBy| > 0 then BlockedByMapOf(ts[..|ts| - 1])[ts[|ts| - 1].id := BlockerIds(ts[|ts| - 1])]
    else BlockedByMapOf(ts[..|ts| - 1])
  }

  function BlocksMapOf(ts: seq<Task>): map<string, seq<string>>
  {
    if ts == [] then map[]
    else if |ts[|ts| - 1].blockedBy| > 0 then PushAll(BlocksMapOf(ts[..|ts| - 1]), ts[|ts| - 1].id, BlockerIds(ts[|ts| - 1]))
    else BlocksMapOf(ts[..|ts| - 1])
  }

  /** Appends `taskId` to the `blocksMap` entry of every blocker id, creating entries as needed. */
  method AddBlocks(blocksMap: map<string, seq<string>>, taskId: string, blockers: seq<string>)
    returns (m: map<string, seq<string>>)
    ensures m == PushAll(blocksMap, taskId, blockers)
  {
    m := blocksMap;
    var j := 0;
    while j < |blockers|
      invariant 0 <= j <= |blockers|
      invariant m == PushAll(blocksMap, taskId, blockers[..j])
    {
      PushAllSnoc(blocksMap, taskId, blockers, j);
      ghost var prev := m;
      var b := blockers[j];
      if b !in m {
        m := m[b := []];
      }
      m := m[b := m[b] + [taskId]];
      assert m == Push(prev, b, taskId);
      j := j + 1;
    }
    assert blockers[..j] == blockers;
  }

  /** The first pass over the task list (the first `tasks.forEach` of the layout). */
  method FirstPass(tasks: seq<Task>)
    returns (nodeMap: map<string, NodeEntry>, leaves: seq<string>,
             subtaskMap: map<string, seq<string>>, blockedByMap: map<string, seq<string>>,
             blocksMap: map<string, seq<string>>)
    ensures nodeMap == NodeMapOf(tasks, tasks) && leaves == LeafIds(tasks, tasks)
    ensures subtaskMap == SubtaskMapOf(tasks) && blockedByMap == BlockedByMapOf(tasks)
    ensures blocksMap == BlocksMapOf(tasks)
  {
    nodeMap, leaves, subtaskMap, blockedByMap, blocksMap := map[], [], map[], map[], map[];
    var i := 0;
    while i < |tasks|
      invariant 0 <= i <= |tasks|
      invariant nodeMap == NodeMapOf(tasks, tasks[..i])
      invariant leaves == LeafIds(tasks, tasks[..i])
      invariant subtaskMap == SubtaskMapOf(tasks[..i])
      invariant blockedByMap == BlockedByMapOf(tasks[..i])
      invariant blocksMap == BlocksMapOf(tasks[..i])
    {
      FirstPassSnoc(tasks, i);
      var task := tasks[i];
      var entry := EntryFor(tasks, task);
      nodeMap := nodeMap[task.id := entry];
      if entry.kind == LeafSubtask {
        leaves := leaves + [task.id];
      }
      if |task.subtasks| > 0 {
        subtaskMap := subtaskMap[task.id := SubtaskIds(task)];
      }
      if |task.blockedBy| > 0 {
        var blockers := BlockerIds(task);
        blockedByMap := blockedByMap[task.id := blockers];
        blocksMap := AddBlocks(blocksMap, task.id, blockers);
      }
      i := i + 1;
    }
    assert tasks[..i] == tasks;
  }

  lemma PushAllSnoc(m: map<string, seq<string>>, x: string, blockers: seq<string>, j: nat)
    requires j < |blockers|
    ensures PushAll(m, x, blockers[..j + 1]) == Push(PushAll(m, x, blockers[..j]), blockers[j], x)
  {
    assert blockers[..j + 1][..j] == blockers[..j];
  }

  /** One more task of the first pass, map by map. */
  lemma FirstPassSnoc(tasks: seq<Task>, i: nat)
    requires i < |tasks|
    ensures var ts, t := tasks[..i], tasks[i];
            && NodeMapOf(tasks, tasks[..i + 1]) == NodeMapOf(tasks, ts)[t.id := EntryFor(tasks, t)]
            && LeafIds(tasks, tasks[..i + 1]) == LeafIds(tasks, ts) + (if IsLeafSubtask(tasks, t) then [t.id] else [])
            && SubtaskMapOf(tasks[..i + 1]) == (if |t.subtasks| > 0 then SubtaskMapOf(ts)[t.id := SubtaskIds(t)] else SubtaskMapOf(ts))
            && BlockedByMapOf(tasks[..i + 1]) == (if |t.blockedBy| > 0 then BlockedByMapOf(ts)[t.id := BlockerIds(t)] else BlockedByMapOf(ts))
            && BlocksMapOf(tasks[..i + 1]) == (if |t.blockedBy| > 0 then PushAll(BlocksMapOf(ts), t.id, BlockerIds(t)) else BlocksMapOf(ts))
  {
    assert tasks[..i + 1][..i] == tasks[..i];
  }

  /** The first pass, with the meaning of what it builds. */
  method BuildRelationships(tasks: seq<Task>)
    returns (nodeMap: map<string, NodeEntry>, leaves: seq<string>,
             subtaskMap: map<string, seq<string>>, blockedByMap: map<string, seq<string>>,
             blocksMap: map<string, seq<string>>)
    requires UniqueIds(tasks)
    ensures IsRelationships(tasks, nodeMap, leaves, subtaskMap, blockedByMap, blocksMap)
  {
    nodeMap, leaves, subtaskMap, blockedByMap, blocksMap := FirstPass(tasks);
    RelationshipsMeaning(tasks);
  }

  /** The maps the first pass builds have the meaning `IsRelationships` gives them. */
  lemma RelationshipsMeaning(tasks: seq<Task>)
    requires UniqueIds(tasks)
    ensures IsRelationships(tasks, NodeMapOf(tasks, tasks), LeafIds(tasks, tasks),
                            SubtaskMapOf(tasks), BlockedByMapOf(tasks), BlocksMapOf(tasks))
  {
    NodeMapMeaning(tasks, tasks);
    SubtaskMapMeaning(tasks);
    BlockedByMapMeaning(tasks);
    BlocksMapMeaning(tasks);
  }

  lemma UniquePrefix(ts: seq<Task>)
    requires UniqueIds(ts) && ts != []
    ensures UniqueIds(ts[..|ts| - 1])
    ensures ts[|ts| - 1].id !in Ids(ts[..|ts| - 1])
  {
    var n := |ts| - 1;
    assert forall i :: 0 <= i < n ==> Ids(ts[..n])[i] == Ids(ts)[i];
    assert Ids(ts)[n] == ts[n].id;
  }

  /** No other task of `ts` shares the id of task `k`. */
  ghost predicate IdUniqueAt(ts: seq<Task>, k: nat)
    requires k < |ts|
  {
    forall j :: 0 <= j < |ts| && j != k ==> ts[j].id != ts[k].id
  }

  lemma UniqueAt(ts: seq<Task>, k: nat)
    requires UniqueIds(ts) && k < |ts|
    ensures IdUniqueAt(ts, k)
  {
    forall j | 0 <= j < |ts| && j != k ensures ts[j].id != ts[k].id {
      DistinctAt(Ids(ts), j, k);
    }
  }

  lemma UniqueAtPrefix(ts: seq<Task>, k: nat)
    requires k < |ts| - 1 && IdUniqueAt(ts, k)
    ensures IdUniqueAt(ts[..|ts| - 1], k)
    ensures ts[|ts| - 1].id != ts[k].id
  {
  }

  lemma {:induction false} NodeMapKeys(tasks: seq<Task>, ts: seq<Task>)
    ensures forall id :: id in NodeMapOf(tasks, ts) <==> id in Ids(ts)
  {
    if ts != [] {
      var n := |ts| - 1;
      NodeMapKeys(tasks, ts[..n]);
      IdsPrefix(ts, n);
      assert ts[..n + 1] == ts;
    }
  }

  lemma {:induction false} NodeMapAt(tasks: seq<Task>, ts: seq<Task>, k: nat)
    requires k < |ts| && IdUniqueAt(ts, k)
    ensures ts[k].id in NodeMapOf(tasks, ts) && NodeMapOf(tasks, ts)[ts[k].id] == EntryFor(tasks, ts[k])
  {
    var n := |ts| - 1;
    if k < n {
      UniqueAtPrefix(ts, k);
      NodeMapAt(tasks, ts[..n], k);
      assert ts[..n][k] == ts[k];
    }
  }

  lemma NodeMapMeaning(tasks: seq<Task>, ts: seq<Task>)
    requires UniqueIds(ts)
    ensures forall id :: id in NodeMapOf(tasks, ts) <==> id in Ids(ts)
    ensures forall k :: 0 <= k < |ts| ==> NodeMapOf(tasks, ts)[ts[k].id] == EntryFor(tasks, ts[k])
  {
    NodeMapKeys(tasks, ts);
    forall k | 0 <= k < |ts| ensures NodeMapOf(tasks, ts)[ts[k].id] == EntryFor(tasks, ts[k]) {
      UniqueAt(ts, k);
      NodeMapAt(tasks, ts, k);
    }
  }

  lemma {:induction false} SubtaskMapKeys(ts: seq<Task>)
    ensures forall id :: id in SubtaskMapOf(ts) ==> id in Ids(ts)
  {
    if ts != [] {
      var n := |ts| - 1;
      SubtaskMapKeys(ts[..n]);
      IdsPrefix(ts, n);
      assert ts[..n + 1] == ts;
    }
  }

  lemma {:induction false} SubtaskMapAt(ts: seq<Task>, k: nat)
    requires k < |ts| && IdUniqueAt(ts, k)
    ensures ts[k].id in SubtaskMapOf(ts) <==> |ts[k].subtasks| > 0
    ensures Lookup(SubtaskMapOf(ts), ts[k].id) == SubtaskIds(ts[k])
  {
    var n := |ts| - 1;
    if k < n {
      UniqueAtPrefix(ts, k);
      SubtaskMapAt(ts[..n], k);
      assert ts[..n][k] == ts[k];
    } else {
      assert |SubtaskIds(ts[k])| == |ts[k].subtasks|;
      if |ts[k].subtasks| == 0 {
        SubtaskMapKeys(ts[..n]);
        UniquePrefixAt(ts);
      }
    }
  }

  lemma SubtaskMapMeaning(ts: seq<Task>)
    requires UniqueIds(ts)
    ensures IsSubtaskMap(ts, SubtaskMapOf(ts))
  {
    SubtaskMapKeys(ts);
    forall k | 0 <= k < |ts|
      ensures (ts[k].id in SubtaskMapOf(ts) <==> |ts[k].subtasks| > 0)
              && Lookup(SubtaskMapOf(ts), ts[k].id) == SubtaskIds(ts[k])
    {
      UniqueAt(ts, k);
      SubtaskMapAt(ts, k);
    }
  }

  lemma {:induction false} BlockedByMapKeys(ts: seq<Task>)
    ensures forall id :: id in BlockedByMapOf(ts) ==> id in Ids(ts)
  {
    if ts != [] {
      var n := |ts| - 1;
      BlockedByMapKeys(ts[..n]);
      IdsPrefix(ts, n);
      assert ts[..n + 1] == ts;
    }
  }

  lemma {:induction false} BlockedByMapAt(ts: seq<Task>, k: nat)
    requires k < |ts| && IdUniqueAt(ts, k)
    ensures ts[k].id in BlockedByMapOf(ts) <==> |ts[k].blockedBy| > 0
    ensures Lookup(BlockedByMapOf(ts), ts[k].id) == BlockerIds(ts[k])
  {
    var n := |ts| - 1;
    if k < n {
      UniqueAtPrefix(ts, k);
      BlockedByMapAt(ts[..n], k);
      assert ts[..n][k] == ts[k];
    } else {
      assert |BlockerIds(ts[k])| == |ts[k].blockedBy|;
      if |ts[k].blockedBy| == 0 {
        BlockedByMapKeys(ts[..n]);
        UniquePrefixAt(ts);
      }
    }
  }

  lemma BlockedByMapMeaning(ts: seq<Task>)
    requires UniqueIds(ts)
    ensures IsBlockedByMap(ts, BlockedByMapOf(ts))
  {
    BlockedByMapKeys(ts);
    forall k | 0 <= k < |ts|
      ensures (ts[k].id in BlockedByMapOf(ts) <==> |ts[k].blockedBy| > 0)
              && Lookup(BlockedByMapOf(ts), ts[k].id) == BlockerIds(ts[k])
    {
      UniqueAt(ts, k);
      BlockedByMapAt(ts, k);
    }
  }

  lemma {:induction false} PushAllMeaning(m: map<string, seq<string>>, x: string, blockers: seq<string>)
    requires NoEmptyEntries(m)
    ensures NoEmptyEntries(PushAll(m, x, blockers))
    ensures forall b :: Lookup(PushAll(m, x, blockers), b) == Lookup(m, b) + Repeat(x, multiset(blockers)[b])
  {
    if blockers != [] {
      var n := |blockers| - 1;
      var last, prefix := blockers[n], blockers[..n];
      var m0 := PushAll(m, x, prefix);
      PushAllMeaning(m, x, prefix);
      PushAllSnoc(m, x, blockers, n);
      assert blockers[..n + 1] == blockers;
      PushEntries(m0, last, x);
      forall b ensures Lookup(PushAll(m, x, blockers), b) == Lookup(m, b) + Repeat(x, multiset(blockers)[b]) {
        SnocCount(blockers, b);
        var k := multiset(prefix)[b];
        if b == last {
          assert Repeat(x, k + 1) == Repeat(x, k) + [x];
        }
      }
    }
  }

  /** One push keeps entries non-empty and appends `x` to the entry of `b0` only. */
  lemma PushEntries(m: map<string, seq<string>>, b0: string, x: string)
    requires NoEmptyEntries(m)
    ensures NoEmptyEntries(Push(m, b0, x))
    ensures forall b :: Lookup(Push(m, b0, x), b) == Lookup(m, b) + (if b == b0 then [x] else [])
  {
  }

  lemma SnocCount(s: seq<string>, b: string)
    requires s != []
    ensures multiset(s)[b] == multiset(s[..|s| - 1])[b] + if b == s[|s| - 1] then 1 else 0
  {
    assert s == s[..|s| - 1] + [s[|s| - 1]];
  }

  lemma {:induction false} BlocksMapMeaning(ts: seq<Task>)
    ensures IsBlocksMap(ts, BlocksMapOf(ts))
  {
    if ts != [] {
      var n := |ts| - 1;
      var last := ts[n];
      BlocksMapMeaning(ts[..n]);
      if |last.blockedBy| > 0 {
        PushAllMeaning(BlocksMapOf(ts[..n]), last.id, BlockerIds(last));
      } else {
        assert BlockerIds(last) == [];
        forall b ensures Repeat(last.id, multiset(BlockerIds(last))[b]) == [] { }
      }
    }
  }

  /** An id occurs in a `blocksMap` list only if it is the id of a listed task. */
  lemma {:induction false} BlockedTasksAreTaskIds(ts: seq<Task>, b: string, x: string)
    requires x !in Ids(ts)
    ensures multiset(BlockedTasks(ts, b))[x] == 0
  {
    if ts != [] {
      IdsPrefix(ts, |ts| - 1);
      assert ts[..|ts| - 1 + 1] == ts;
      BlockedTasksAreTaskIds(ts[..|ts| - 1], b, x);
      assert x !in Repeat(ts[|ts| - 1].id, multiset(BlockerIds(ts[|ts| - 1]))[b]);
    }
  }

  lemma {:induction false} RepeatCount(y: string, n: nat, x: string)
    ensures multiset(Repeat(y, n))[x] == if x == y then n else 0
  {
    if n > 0 {
      RepeatCount(y, n - 1, x);
    }
  }

  /**
   * With unique ids, `x` occurs in the "blocks" list of `b` exactly as often as
   * `b` occurs among the blockers of task `x`.
   */
  lemma BlockedTasksCount(ts: seq<Task>, b: string, k: nat)
    requires k < |ts| && IdUniqueAt(ts, k)
    ensures multiset(BlockedTasks(ts, b))[ts[k].id] == multiset(BlockerIds(ts[k]))[b]
  {
    BlockedTasksIsListings(ts, b, ts[k].id);
    ListingsOfUnique(ts, b, k);
  }

  /** How often the tasks of `ts` with id `x` list `b` as a blocker, summed over those tasks. */
  function Listings(ts: seq<Task>, b: string, x: string): nat
  {
    if ts == [] then 0
    else Listings(ts[..|ts| - 1], b, x) + if ts[|ts| - 1].id == x then multiset(BlockerIds(ts[|ts| - 1]))[b] else 0
  }

  lemma {:induction false} BlockedTasksIsListings(ts: seq<Task>, b: string, x: string)
    ensures multiset(BlockedTasks(ts, b))[x] == Listings(ts, b, x)
  {
    if ts != [] {
      BlockedTasksIsListings(ts[..|ts| - 1], b, x);
      BlockedTasksSnocCount(ts, b, x);
    }
  }

  lemma {:induction false} ListingsOfUnique(ts: seq<Task>, b: string, k: nat)
    requires k < |ts| && IdUniqueAt(ts, k)
    ensures Listings(ts, b, ts[k].id) == multiset(BlockerIds(ts[k]))[b]
  {
    var n := |ts| - 1;
    if k == n {
      UniquePrefixAt(ts);
      ListingsOfAbsent(ts[..n], b, ts[k].id);
    } else {
      UniqueAtPrefix(ts, k);
      ListingsOfUnique(ts[..n], b, k);
      assert ts[..n][k] == ts[k];
    }
  }

  lemma {:induction false} ListingsOfAbsent(ts: seq<Task>, b: string, x: string)
    requires x !in Ids(ts)
    ensures Listings(ts, b, x) == 0
  {
    if ts != [] {
      IdsPrefix(ts, |ts| - 1);
      assert ts[..|ts| - 1 + 1] == ts;
      ListingsOfAbsent(ts[..|ts| - 1], b, x);
    }
  }

  /** The last task adds its id once per listing of `b` among its blockers. */
  lemma BlockedTasksSnocCount(ts: seq<Task>, b: string, x: string)
    requires ts != []
    ensures var n := |ts| - 1;
      multiset(BlockedTasks(ts, b))[x]
      == multiset(BlockedTasks(ts[..n], b))[x] + if ts[n].id == x then multiset(BlockerIds(ts[n]))[b] else 0
  {
    var n := |ts| - 1;
    var rep := Repeat(ts[n].id, multiset(BlockerIds(ts[n]))[b]);
    assert BlockedTasks(ts, b) == BlockedTasks(ts[..n], b) + rep;
    RepeatCount(ts[n].id, multiset(BlockerIds(ts[n]))[b], x);
  }

  /** The last id of a list is not among the ones before it when nothing shares it. */
  lemma UniquePrefixAt(ts: seq<Task>)
    requires ts != [] && IdUniqueAt(ts, |ts| - 1)
    ensures ts[|ts| - 1].id !in Ids(ts[..|ts| - 1])
  {
    var n := |ts| - 1;
    forall i | 0 <= i < n ensures Ids(ts[..n])[i] != ts[n].id {
      assert ts[..n][i] == ts[i];
    }
  }

  /** An id that names no task is blocked by nothing and blocks nothing. */
  lemma UnknownIdHasNoRelations(tasks: seq<Task>, blockedByMap: map<string, seq<string>>,
                                blocksMap: map<string, seq<string>>, b: string, x: string)
    requires IsBlockedByMap(tasks, blockedByMap) && IsBlocksMap(tasks, blocksMap)
    requires x !in Ids(tasks)
    ensures Lookup(blockedByMap, x) == []
    ensures multiset(Lookup(blocksMap, b))[x] == 0
  {
    BlockedTasksAreTaskIds(tasks, b, x);
  }

  /**
   * `blocksMap` is the exact inverse of `blockedByMap`: `x` is listed under `b`
   * in one map as many times as `b` is listed under `x` in the other.
   */
  lemma BlocksMapInvertsBlockedByMap(tasks: seq<Task>, blockedByMap: map<string, seq<string>>,
                                     blocksMap: map<string, seq<string>>, b: string, x: string)
    requires UniqueIds(tasks)
    requires IsBlockedByMap(tasks, blockedByMap) && IsBlocksMap(tasks, blocksMap)
    ensures multiset(Lookup(blocksMap, b))[x] == multiset(Lookup(blockedByMap, x))[b]
    ensures x in Lookup(blocksMap, b) <==> b in Lookup(blockedByMap, x)
  {
    var fwd, back := Lookup(blocksMap, b), Lookup(blockedByMap, x);
    if x in Ids(tasks) {
      var k :| 0 <= k < |Ids(tasks)| && Ids(tasks)[k] == x;
      assert tasks[k].id == x;
      assert back == BlockerIds(tasks[k]);
      assert fwd == BlockedTasks(tasks, b);
      UniqueAt(tasks, k);
      BlockedTasksCount(tasks, b, k);
    } else {
      UnknownIdHasNoRelations(tasks, blockedByMap, blocksMap, b, x);
    }
    assert x in fwd <==> multiset(fwd)[x] > 0;
    assert b in back <==> multiset(back)[b] > 0;
  }
}
