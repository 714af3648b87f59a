/**
 * The task store. Each task is one document holding its subtasks and blockers
 * as lists of ids. Loading turns the id lists back into references, and the
 * list edits read the loaded tasks and write id lists. The document reads and
 * writes themselves are the inputs and outputs of the operations here.
 */
module TaskRepository {
  import opened Common
  import opened Tasks

  // Dehydration

  /** The fields written for a task (`TaskWithReferences` without its id). */
  datatype Stored = Stored(title: string, description: string, estimate: real,
                           subtaskIds: seq<string>, blockedByIds: seq<string>)

  /** `taskToTaskWithReferences`: the relations become the ids of the related tasks, in order. */
  function Dehydrate(t: Task): (r: Stored)
    ensures r.title == t.title && r.description == t.description && r.estimate == t.estimate
    ensures |r.subtaskIds| == |t.subtasks| && forall i :: 0 <= i < |t.subtasks| ==> r.subtaskIds[i] == t.subtasks[i].id
    ensures |r.blockedByIds| == |t.blockedBy| && forall i :: 0 <= i < |t.blockedBy| ==> r.blockedByIds[i] == t.blockedBy[i].id
  {
    Stored(t.title, t.description, t.estimate, SubtaskIds(t), BlockerIds(t))
  }

  // Hydration

  /** An id list as read from a document: an array, no value at all, or a value of another type. */
  datatype StoredList = Absent | List(ids: seq<string>) | NotAList

  /** A task document as read back, with its document id. */
  datatype Doc = Doc(id: string, title: string, description: string, estimate: real,
                     subtaskIds: StoredList, blockedByIds: StoredList)

  /**
   * A loaded task. Its relations are references to tasks of the same load;
   * a reference is written here as the id of the task it points at.
   */
  datatype Loaded = Loaded(id: string, title: string, description: string, estimate: real,
                           subtasks: seq<string>, blockedBy: seq<string>)

  /** Document ids are unique within the collection: two documents at different places name different tasks. */
  predicate UniqueDocIds(docs: seq<Doc>)
  {
    forall a, b :: 0 <= a < |docs| && 0 <= b < |docs| && a != b ==> docs[a].id != docs[b].id
  }

  /** The ids of the task map built from the documents. */
  function Known(docs: seq<Doc>): set<string>
  {
    set k | 0 <= k < |docs| :: docs[k].id
  }

  /** `x || []` followed by the `Array.isArray` guard: only an array contributes ids. */
  function Present(l: StoredList): seq<string>
  {
    if l.List? then l.ids else []
  }

  /** `ids.map(id => taskMap.get(id)).filter(t => !!t)`, each reference written as its id. */
  function Resolve(ids: seq<string>, known: set<string>): seq<string>
  {
    Filter(ids, id => id in known)
  }

  /** The task first put in the task map for a document, without relations. */
  function Bare(d: Doc): Loaded
  {
    Loaded(d.id, d.title, d.description, d.estimate, [], [])
  }

  /** A document after the relation pass of the load. */
  function Hydrate(d: Doc, known: set<string>): Loaded
  {
    Loaded(d.id, d.title, d.description, d.estimate, Resolve(Present(d.subtaskIds), known), Resolve(Present(d.blockedByIds), known))
  }

  /**
   * `getAllTasks` after the query: one pass puts a bare task per document in
   * the task map, a second fills in the relations, and the map's values come
   * out in insertion order. Document ids are unique within the collection.
   */
  method LoadTasks(docs: seq<Doc>) returns (tasks: seq<Loaded>)
    requires UniqueDocIds(docs)
    ensures |tasks| == |docs|
    ensures forall k :: 0 <= k < |docs| ==> tasks[k] == Hydrate(docs[k], Known(docs))
  {
    var taskMap := BareTasks(docs);
    taskMap := RelateTasks(docs, taskMap);
    tasks := MapValues(docs, taskMap);
  }

  /** The first pass: a bare task under every document id. */
  method BareTasks(docs: seq<Doc>) returns (taskMap: map<string, Loaded>)
    ensures taskMap.Keys == Known(docs)
    ensures forall j :: 0 <= j < |docs| && (forall m :: j < m < |docs| ==> docs[m].id != docs[j].id) ==> taskMap[docs[j].id] == Bare(docs[j])
  {
    taskMap := map[];
    for i := 0 to |docs|
      invariant BareSoFar(docs, i, taskMap)
    {
      BareStep(docs, i, taskMap);
      taskMap := taskMap[docs[i].id := Bare(docs[i])];
    }
    assert docs[..|docs|] == docs;
  }

  /** After the first `i` documents: their ids are the keys, and the last document of each id left its bare task. */
  ghost predicate BareSoFar(docs: seq<Doc>, i: nat, taskMap: map<string, Loaded>)
    requires i <= |docs|
  {
    && taskMap.Keys == Known(docs[..i])
    && forall j :: 0 <= j < i && (forall m :: j < m < i ==> docs[m].id != docs[j].id) ==> taskMap[docs[j].id] == Bare(docs[j])
  }

  lemma BareStep(docs: seq<Doc>, i: nat, taskMap: map<string, Loaded>)
    requires i < |docs| && BareSoFar(docs, i, taskMap)
    ensures BareSoFar(docs, i + 1, taskMap[docs[i].id := Bare(docs[i])])
  {
    var next := taskMap[docs[i].id := Bare(docs[i])];
    KnownSnoc(docs, i);
    assert next.Keys == Known(docs[..i + 1]);
    forall j | 0 <= j < i + 1 && (forall m :: j < m < i + 1 ==> docs[m].id != docs[j].id)
      ensures next[docs[j].id] == Bare(docs[j])
    {
      if j < i {
        assert docs[i].id != docs[j].id;
        assert forall m :: j < m < i ==> docs[m].id != docs[j].id;
      }
    }
  }

  lemma KnownSnoc(docs: seq<Doc>, i: nat)
    requires i < |docs|
    ensures Known(docs[..i + 1]) == Known(docs[..i]) + {docs[i].id}
  {
    var a, b := docs[..i], docs[..i + 1];
    forall x | x in Known(b) ensures x in Known(a) + {docs[i].id} {
      var k :| 0 <= k < |b| && b[k].id == x;
      if k < i {
        assert a[k] == b[k];
      }
    }
    forall x | x in Known(a) ensures x in Known(b) {
      var k :| 0 <= k < |a| && a[k].id == x;
      assert b[k] == a[k];
    }
    assert b[i] == docs[i];
  }

  /** One step of the relation pass: the document's task gets its resolved relations. */
  function Related(d: Doc, task: Loaded, known: set<string>): Loaded
  {
    var withSubtasks := if d.subtaskIds.List? then task.(subtasks := Resolve(d.subtaskIds.ids, known)) else task;
    if d.blockedByIds.List? then withSubtasks.(blockedBy := Resolve(d.blockedByIds.ids, known)) else withSubtasks
  }

  /** Relating a bare task is hydrating its document. */
  lemma RelatedBare(d: Doc, known: set<string>)
    ensures Related(d, Bare(d), known) == Hydrate(d, known)
  {
  }

  /** The second pass: every document's task is replaced by its hydrated form. */
  method RelateTasks(docs: seq<Doc>, bare: map<string, Loaded>) returns (taskMap: map<string, Loaded>)
    requires UniqueDocIds(docs)
    requires bare.Keys == Known(docs)
    requires forall j :: 0 <= j < |docs| ==> bare[docs[j].id] == Bare(docs[j])
    ensures taskMap.Keys == Known(docs)
    ensures forall j :: 0 <= j < |docs| ==> taskMap[docs[j].id] == Hydrate(docs[j], Known(docs))
  {
    taskMap := bare;
    ghost var keys := Known(docs);
    for i := 0 to |docs|
      invariant taskMap.Keys == keys
      invariant forall j :: 0 <= j < i ==> taskMap[docs[j].id] == Hydrate(docs[j], keys)
      invariant forall j :: i <= j < |docs| ==> taskMap[docs[j].id] == Bare(docs[j])
    {
      var ref := docs[i];
      assert ref.id in keys;
      var task := taskMap[ref.id];
      if ref.subtaskIds.List? {
        task := task.(subtasks := Resolve(ref.subtaskIds.ids, taskMap.Keys));
      }
      if ref.blockedByIds.List? {
        task := task.(blockedBy := Resolve(ref.blockedByIds.ids, taskMap.Keys));
      }
      assert task == Related(ref, Bare(ref), keys);
      RelatedBare(ref, keys);
      taskMap := taskMap[ref.id := task];
    }
  }

  /** `Array.from(taskMap.values())`: the tasks in the order of their documents. */
  method MapValues(docs: seq<Doc>, taskMap: map<string, Loaded>) returns (tasks: seq<Loaded>)
    requires forall j :: 0 <= j < |docs| ==> docs[j].id in taskMap
    ensures |tasks| == |docs|
    ensures forall j :: 0 <= j < |docs| ==> tasks[j] == taskMap[docs[j].id]
  {
    tasks := [];
    for k := 0 to |docs|
      invariant |tasks| == k
      invariant forall j :: 0 <= j < k ==> tasks[j] == taskMap[docs[j].id]
    {
      tasks := tasks + [taskMap[docs[k].id]];
    }
  }

  /**
   * Hydration keeps exactly the stored ids that name a loaded task, as often
   * and in the order they were stored, and drops the others.
   */
  lemma ResolveKeepsKnown(ids: seq<string>, known: set<string>, x: string)
    ensures multiset(Resolve(ids, known))[x] == if x in known then multiset(ids)[x] else 0
    ensures forall i :: 0 <= i < |Resolve(ids, known)| ==> Resolve(ids, known)[i] in known
  {
    FilterCount(ids, id => id in known, x);
  }

  /** Every reference of a loaded task points at a task of the same load. */
  lemma LoadedReferencesResolve(docs: seq<Doc>, k: int, x: string)
    requires 0 <= k < |docs|
    requires x in Hydrate(docs[k], Known(docs)).subtasks || x in Hydrate(docs[k], Known(docs)).blockedBy
    ensures exists j :: 0 <= j < |docs| && docs[j].id == x
  {
    var t := Hydrate(docs[k], Known(docs));
    if x in t.subtasks {
      var i :| 0 <= i < |t.subtasks| && t.subtasks[i] == x;
      ResolveKeepsKnown(Present(docs[k].subtaskIds), Known(docs), x);
    } else {
      var i :| 0 <= i < |t.blockedBy| && t.blockedBy[i] == x;
      ResolveKeepsKnown(Present(docs[k].blockedByIds), Known(docs), x);
    }
  }

  /** The document a loaded task is written back as: its references as id arrays. */
  function Save(t: Loaded): Doc
  {
    Doc(t.id, t.title, t.description, t.estimate, List(t.subtasks), List(t.blockedBy))
  }

  /** Saving a load and loading it again gives the same tasks: hydration drops nothing the second time. */
  lemma ReloadIsStable(docs: seq<Doc>, saved: seq<Doc>, k: int)
    requires |saved| == |docs|
    requires forall j :: 0 <= j < |docs| ==> saved[j] == Save(Hydrate(docs[j], Known(docs)))
    requires 0 <= k < |docs|
    ensures Known(saved) == Known(docs)
    ensures Hydrate(saved[k], Known(saved)) == Hydrate(docs[k], Known(docs))
  {
    assert Known(saved) == Known(docs) by {
      forall x | x in Known(docs) ensures x in Known(saved) {
        var j :| 0 <= j < |docs| && docs[j].id == x;
        assert saved[j].id == x;
      }
      forall x | x in Known(saved) ensures x in Known(docs) {
        var j :| 0 <= j < |saved| && saved[j].id == x;
        assert docs[j].id == x;
      }
    }
    var known := Known(docs);
    var t := Hydrate(docs[k], known);
    ResolveKeepsKnown(Present(docs[k].subtaskIds), known, "");
    ResolveKeepsKnown(Present(docs[k].blockedByIds), known, "");
    FilterAllKept(t.subtasks, id => id in known);
    FilterAllKept(t.blockedBy, id => id in known);
  }

  /**
   * Storing a collection whose relations stay inside it and loading it back
   * gives every task its relations' ids unchanged, in order.
   */
  lemma DehydrateThenLoad(tasks: seq<Task>, docs: seq<Doc>, k: int)
    requires |docs| == |tasks|
    requires forall j :: 0 <= j < |tasks| ==> docs[j] == DocOf(tasks[j])
    requires Closed(tasks)
    requires 0 <= k < |tasks|
    ensures Hydrate(docs[k], Known(docs)).subtasks == SubtaskIds(tasks[k])
    ensures Hydrate(docs[k], Known(docs)).blockedBy == BlockerIds(tasks[k])
  {
    var known := Known(docs);
    var t := tasks[k];
    forall i | 0 <= i < |t.subtasks| ensures SubtaskIds(t)[i] in known {
      var m :| 0 <= m < |tasks| && tasks[m].id == t.subtasks[i].id;
      assert docs[m].id == tasks[m].id;
    }
    forall i | 0 <= i < |t.blockedBy| ensures BlockerIds(t)[i] in known {
      var m :| 0 <= m < |tasks| && tasks[m].id == t.blockedBy[i].id;
      assert docs[m].id == tasks[m].id;
    }
    FilterAllKept(SubtaskIds(t), id => id in known);
    FilterAllKept(BlockerIds(t), id => id in known);
  }

  /** Every subtask and blocker of a task of the list is itself a task of the list, by id. */
  predicate Closed(tasks: seq<Task>)
  {
    && (forall j, i :: 0 <= j < |tasks| && 0 <= i < |tasks[j].subtasks| ==>
          exists m :: 0 <= m < |tasks| && tasks[m].id == tasks[j].subtasks[i].id)
    && (forall j, i :: 0 <= j < |tasks| && 0 <= i < |tasks[j].blockedBy| ==>
          exists m :: 0 <= m < |tasks| && tasks[m].id == tasks[j].blockedBy[i].id)
  }

  /** The document stored for a task: its id and its dehydrated fields. */
  function DocOf(t: Task): Doc
  {
    Doc(t.id, Dehydrate(t).title, Dehydrate(t).description, Dehydrate(t).estimate,
        List(Dehydrate(t).subtaskIds), List(Dehydrate(t).blockedByIds))
  }

  // updateTask

  /** A relation in a partial task: an array of tasks, or a value of another type. */
  datatype Relation = Array(tasks: seq<Task>) | NotArray

  /** The partial task given to `updateTask`; `None` is a field left undefined. */
  datatype Patch = Patch(title: Option<string>, description: Option<string>, estimate: Option<real>,
                         subtasks: Option<Relation>, blockedBy: Option<Relation>)

  /** The fields `updateTask` writes; `None` is a field it does not write. */
  datatype UpdateData = UpdateData(title: Option<string>, description: Option<string>, estimate: Option<real>,
                                   subtaskIds: Option<seq<string>>, blockedByIds: Option<seq<string>>)

  /**
   * `updateTask`: writes exactly the defined fields, the relations as id lists,
   * and an empty list for a relation that is not an array.
   */
  method UpdateTask(patch: Patch) returns (data: UpdateData)
    ensures data.title == patch.title && data.description == patch.description && data.estimate == patch.estimate
    ensures data.subtaskIds.Some? <==> patch.subtasks.Some?
    ensures data.blockedByIds.Some? <==> patch.blockedBy.Some?
    ensures patch.subtasks == Some(NotArray) ==> data.subtaskIds == Some([])
    ensures patch.blockedBy == Some(NotArray) ==> data.blockedByIds == Some([])
    ensures patch.subtasks.Some? && patch.subtasks.value.Array? ==> data.subtaskIds == Some(Ids(patch.subtasks.value.tasks))
    ensures patch.blockedBy.Some? && patch.blockedBy.value.Array? ==> data.blockedByIds == Some(Ids(patch.blockedBy.value.tasks))
  {
    data := UpdateData(None, None, None, None, None);
    if patch.title.Some? {
      data := data.(title := patch.title);
    }
    if patch.description.Some? {
      data := data.(description := patch.description);
    }
    if patch.estimate.Some? {
      data := data.(estimate := patch.estimate);
    }
    if patch.subtasks.Some? {
      if patch.subtasks.value.Array? {
        data := data.(subtaskIds := Some(Ids(patch.subtasks.value.tasks)));
      } else {
        data := data.(subtaskIds := Some([]));
      }
    }
    if patch.blockedBy.Some? {
      if patch.blockedBy.value.Array? {
        data := data.(blockedByIds := Some(Ids(patch.blockedBy.value.tasks)));
      } else {
        data := data.(blockedByIds := Some([]));
      }
    }
  }

  /** The patch `updateTask(workspaceId, task.id, task)` passes: every field of the task. */
  function WholeTask(t: Task): Patch
  {
    Patch(Some(t.title), Some(t.description), Some(t.estimate), Some(Array(t.subtasks)), Some(Array(t.blockedBy)))
  }

  /** What `updateTask` writes for a whole task: its dehydrated form. */
  function WholeUpdate(t: Task): UpdateData
  {
    var s := Dehydrate(t);
    UpdateData(Some(s.title), Some(s.description), Some(s.estimate), Some(s.subtaskIds), Some(s.blockedByIds))
  }

  // deleteTask

  /** A write to the store: an update of one task document, or the deletion of one. */
  datatype Write = Update(target: string, data: UpdateData) | Delete(target: string)

  /** `ts.filter(t => t.id !== id)` */
  function WithoutId(ts: seq<Task>, id: string): seq<Task>
  {
    Filter(ts, (t: Task) => t.id != id)
  }

  /** Whether a task lists `id` as a subtask or as a blocker. */
  predicate References(t: Task, id: string)
  {
    id in SubtaskIds(t) || id in BlockerIds(t)
  }

  /** A task after `deleteTask` took `id` out of its lists. */
  function Scrubbed(t: Task, id: string): Task
  {
    t.(subtasks := if id in SubtaskIds(t) then WithoutId(t.subtasks, id) else t.subtasks,
       blockedBy := if id in BlockerIds(t) then WithoutId(t.blockedBy, id) else t.blockedBy)
  }

  /** The updates of the scrub loop: one per task that referenced `id`, in list order. */
  function ScrubWrites(tasks: seq<Task>, id: string): seq<Write>
  {
    if tasks == [] then []
    else
      var t := tasks[|tasks| - 1];
      ScrubWrites(tasks[..|tasks| - 1], id) + if References(t, id) then [Update(t.id, WholeUpdate(Scrubbed(t, id)))] else []
  }

  /** `deleteTask`: the loop over all tasks that takes the id out of every list, then the deletion. */
  method DeleteTask(allTasks: seq<Task>, id: string) returns (writes: seq<Write>)
    ensures writes == ScrubWrites(allTasks, id) + [Delete(id)]
  {
    writes := [];
    for k := 0 to |allTasks|
      invariant writes == ScrubWrites(allTasks[..k], id)
    {
      var task := allTasks[k];
      var updated := false;
      if id in SubtaskIds(task) {
        task := task.(subtasks := WithoutId(task.subtasks, id));
        updated := true;
      }
      if id in BlockerIds(task) {
        task := task.(blockedBy := WithoutId(task.blockedBy, id));
        updated := true;
      }
      assert task == Scrubbed(allTasks[k], id);
      if updated {
        var data := UpdateTask(WholeTask(task));
        writes := writes + [Update(task.id, data)];
      }
      assert allTasks[..k + 1][..k] == allTasks[..k];
    }
    assert allTasks[..|allTasks|] == allTasks;
    writes := writes + [Delete(id)];
  }

  /** Taking an id out of a task list takes exactly that id out of the id list, keeping the rest in order. */
  lemma {:induction false} IdsWithoutId(ts: seq<Task>, id: string)
    ensures Ids(WithoutId(ts, id)) == Filter(Ids(ts), x => x != id)
  {
    if ts != [] {
      IdsWithoutId(ts[1..], id);
      assert Ids(ts)[1..] == Ids(ts[1..]);
    }
  }

  /** After the scrub, no written list names the deleted task, and the other entries keep their order and count. */
  lemma ScrubbedHasNoId(t: Task, id: string, x: string)
    ensures id !in SubtaskIds(Scrubbed(t, id)) && id !in BlockerIds(Scrubbed(t, id))
    ensures x != id ==> multiset(SubtaskIds(Scrubbed(t, id)))[x] == multiset(SubtaskIds(t))[x]
    ensures x != id ==> multiset(BlockerIds(Scrubbed(t, id)))[x] == multiset(BlockerIds(t))[x]
  {
    WithoutIdCount(t.subtasks, id, x);
    WithoutIdCount(t.blockedBy, id, x);
  }

  /** Taking `id` out of a task list removes every listing of `id` and keeps the count of every other id. */
  lemma WithoutIdCount(ts: seq<Task>, id: string, x: string)
    ensures id !in Ids(WithoutId(ts, id))
    ensures x != id ==> multiset(Ids(WithoutId(ts, id)))[x] == multiset(Ids(ts))[x]
  {
    var keep := (x': string) => x' != id;
    IdsWithoutId(ts, id);
    FilterCount(Ids(ts), keep, x);
    FilterCount(Ids(ts), keep, id);
  }

  /**
   * The scrub writes one update for each task that referenced the deleted id
   * and for no other, and no update it writes names the deleted id.
   */
  lemma {:induction false} ScrubWritesMeaning(tasks: seq<Task>, id: string, w: Write)
    requires w in ScrubWrites(tasks, id)
    ensures w.Update?
    ensures exists k :: 0 <= k < |tasks| && References(tasks[k], id) && w.target == tasks[k].id
    ensures w.data.subtaskIds.Some? && id !in w.data.subtaskIds.value
    ensures w.data.blockedByIds.Some? && id !in w.data.blockedByIds.value
  {
    var n := |tasks| - 1;
    var t := tasks[n];
    if w in ScrubWrites(tasks[..n], id) {
      ScrubWritesMeaning(tasks[..n], id, w);
      var k :| 0 <= k < n && References(tasks[..n][k], id) && w.target == tasks[..n][k].id;
      TakeIndex(tasks, n, k);
    } else {
      ScrubbedHasNoId(t, id, id);
    }
  }

  /** Every task that referenced the deleted id gets an update. */
  lemma {:induction false} ScrubReachesEveryReference(tasks: seq<Task>, id: string, k: int)
    requires 0 <= k < |tasks| && References(tasks[k], id)
    ensures Update(tasks[k].id, WholeUpdate(Scrubbed(tasks[k], id))) in ScrubWrites(tasks, id)
  {
    var n := |tasks| - 1;
    var t := tasks[n];
    var w := Update(tasks[k].id, WholeUpdate(Scrubbed(tasks[k], id)));
    var init := ScrubWrites(tasks[..n], id);
    var last := if References(t, id) then [Update(t.id, WholeUpdate(Scrubbed(t, id)))] else [];
    assert ScrubWrites(tasks, id) == init + last;
    if k < n {
      TakeIndex(tasks, n, k);
      ScrubReachesEveryReference(tasks[..n], id, k);
      assert w in init;
    } else {
      assert w == last[0];
    }
  }

  // Single-list edits

  /** `tasks.find(task => task.id === id)`: the index of the first task with the id, or -1. */
  function FindIndex(tasks: seq<Task>, id: string): (r: int)
    ensures -1 <= r < |tasks|
    ensures r == -1 <==> forall k :: 0 <= k < |tasks| ==> tasks[k].id != id
    ensures r >= 0 ==> tasks[r].id == id && forall k :: 0 <= k < r ==> tasks[k].id != id
  {
    if tasks == [] then -1
    else if tasks[0].id == id then 0
    else
      var r := FindIndex(tasks[1..], id);
      if r == -1 then -1 else r + 1
  }

  /** `list.some(t => t.id === id)` */
  predicate Lists(ts: seq<Task>, id: string)
  {
    id in Ids(ts)
  }

  /**
   * `addSubtask`: an error for a missing parent; no write when the subtask is
   * already listed; otherwise the parent's subtasks with the new one at the end.
   */
  function AddSubtask(tasks: seq<Task>, parentId: string, subtask: Task): (r: Result<Option<Patch>>)
    ensures r.Err? <==> FindIndex(tasks, parentId) == -1
    ensures r.Err? ==> r.message == "Parent task with ID " + parentId + " not found"
    ensures r == Ok(None) <==> FindIndex(tasks, parentId) >= 0 && subtask.id in SubtaskIds(tasks[FindIndex(tasks, parentId)])
    ensures r.Ok? && r.value.Some? ==>
              var parent := tasks[FindIndex(tasks, parentId)];
              && r.value.value == Patch(None, None, None, Some(Array(parent.subtasks + [subtask])), None)
              && Ids(parent.subtasks + [subtask]) == SubtaskIds(parent) + [subtask.id]
              && subtask.id !in SubtaskIds(parent)
  {
    var i := FindIndex(tasks, parentId);
    if i < 0 then Err("Parent task with ID " + parentId + " not found")
    else if Lists(tasks[i].subtasks, subtask.id) then Ok(None)
    else
      IdsAppend(tasks[i].subtasks, [subtask]);
      Ok(Some(Patch(None, None, None, Some(Array(tasks[i].subtasks + [subtask])), None)))
  }

  /**
   * `removeSubtask`: an error for a missing parent; no write when the subtask is
   * not listed; otherwise the parent's subtasks without every entry of that id.
   */
  function RemoveSubtask(tasks: seq<Task>, parentId: string, subtaskId: string): (r: Result<Option<Patch>>)
    ensures r.Err? <==> FindIndex(tasks, parentId) == -1
    ensures r.Err? ==> r.message == "Parent task with ID " + parentId + " not found"
    ensures r == Ok(None) <==> FindIndex(tasks, parentId) >= 0 && subtaskId !in SubtaskIds(tasks[FindIndex(tasks, parentId)])
    ensures r.Ok? && r.value.Some? ==>
              var parent := tasks[FindIndex(tasks, parentId)];
              && r.value.value == Patch(None, None, None, Some(Array(WithoutId(parent.subtasks, subtaskId))), None)
              && Ids(WithoutId(parent.subtasks, subtaskId)) == Filter(SubtaskIds(parent), x => x != subtaskId)
              && |WithoutId(parent.subtasks, subtaskId)| < |parent.subtasks|
  {
    var i := FindIndex(tasks, parentId);
    if i < 0 then Err("Parent task with ID " + parentId + " not found")
    else if !Lists(tasks[i].subtasks, subtaskId) then Ok(None)
    else
      IdsWithoutId(tasks[i].subtasks, subtaskId);
      RemovalShrinks(tasks[i].subtasks, subtaskId);
      Ok(Some(Patch(None, None, None, Some(Array(WithoutId(tasks[i].subtasks, subtaskId))), None)))
  }

  lemma RemovalShrinks(ts: seq<Task>, id: string)
    requires id in Ids(ts)
    ensures |WithoutId(ts, id)| < |ts|
  {
    var i :| 0 <= i < |ts| && Ids(ts)[i] == id;
    FilterShrinks(ts, (t: Task) => t.id != id, i);
  }

  /**
   * `addBlocker`: an error for a missing task, then for a missing blocker; no
   * write when the blocker is already listed; otherwise the task's blockers
   * with the blocker at the end, so no blocker is ever listed twice by it.
   */
  function AddBlocker(tasks: seq<Task>, taskId: string, blockerId: string): (r: Result<Option<Patch>>)
    ensures FindIndex(tasks, taskId) == -1 ==> r == Err("Task with ID " + taskId + " not found")
    ensures FindIndex(tasks, taskId) >= 0 && FindIndex(tasks, blockerId) == -1 ==>
              r == Err("Blocker task with ID " + blockerId + " not found")
    ensures r.Ok? <==> FindIndex(tasks, taskId) >= 0 && FindIndex(tasks, blockerId) >= 0
    ensures r == Ok(None) <==> r.Ok? && blockerId in BlockerIds(tasks[FindIndex(tasks, taskId)])
    ensures r.Ok? && r.value.Some? ==>
              var task, blocker := tasks[FindIndex(tasks, taskId)], tasks[FindIndex(tasks, blockerId)];
              && r.value.value == Patch(None, None, None, None, Some(Array(task.blockedBy + [blocker])))
              && Ids(task.blockedBy + [blocker]) == BlockerIds(task) + [blockerId]
              && blockerId !in BlockerIds(task)
  {
    var i := FindIndex(tasks, taskId);
    if i < 0 then Err("Task with ID " + taskId + " not found")
    else
      var j := FindIndex(tasks, blockerId);
      if j < 0 then Err("Blocker task with ID " + blockerId + " not found")
      else if Lists(tasks[i].blockedBy, blockerId) then Ok(None)
      else
        IdsAppend(tasks[i].blockedBy, [tasks[j]]);
        Ok(Some(Patch(None, None, None, None, Some(Array(tasks[i].blockedBy + [tasks[j]])))))
  }

  /** Adding a blocker to a list without repeats keeps it without repeats. */
  lemma AddBlockerKeepsDistinct(tasks: seq<Task>, taskId: string, blockerId: string)
    requires FindIndex(tasks, taskId) >= 0 && Distinct(BlockerIds(tasks[FindIndex(tasks, taskId)]))
    requires AddBlocker(tasks, taskId, blockerId).Ok? && AddBlocker(tasks, taskId, blockerId).value.Some?
    ensures Distinct(Ids(AddBlocker(tasks, taskId, blockerId).value.value.blockedBy.value.tasks))
  {
  }

  /**
   * `removeBlocker`: an error for a missing task; no write when the blocker is
   * not listed; otherwise the task's blockers without every entry of that id.
   */
  function RemoveBlocker(tasks: seq<Task>, taskId: string, blockerId: string): (r: Result<Option<Patch>>)
    ensures r.Err? <==> FindIndex(tasks, taskId) == -1
    ensures r.Err? ==> r.message == "Task with ID " + taskId + " not found"
    ensures r == Ok(None) <==> FindIndex(tasks, taskId) >= 0 && blockerId !in BlockerIds(tasks[FindIndex(tasks, taskId)])
    ensures r.Ok? && r.value.Some? ==>
              var task := tasks[FindIndex(tasks, taskId)];
              && r.value.value == Patch(None, None, None, None, Some(Array(WithoutId(task.blockedBy, blockerId))))
              && Ids(WithoutId(task.blockedBy, blockerId)) == Filter(BlockerIds(task), x => x != blockerId)
              && |WithoutId(task.blockedBy, blockerId)| < |task.blockedBy|
  {
    var i := FindIndex(tasks, taskId);
    if i < 0 then Err("Task with ID " + taskId + " not found")
    else if !Lists(tasks[i].blockedBy, blockerId) then Ok(None)
    else
      IdsWithoutId(tasks[i].blockedBy, blockerId);
      RemovalShrinks(tasks[i].blockedBy, blockerId);
      Ok(Some(Patch(None, None, None, None, Some(Array(WithoutId(tasks[i].blockedBy, blockerId))))))
  }
}
