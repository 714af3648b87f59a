/**
 * The first half of the Mermaid Gantt generator: the section every task is
 * drawn in. A task with subtasks names a section after its title, and so do
 * its subtasks; every other task goes to the default section `Tasks`.
 */
module GanttSections {
  import opened Common
  import opened Tasks

  const DEFAULT_SECTION: string := "Tasks"

  /** Task `t` claims section title `t.title` for `id`: it is that task, or lists it, and has subtasks. */
  predicate Claims(t: Task, id: string)
  {
    |t.subtasks| > 0 && (t.id == id || id in SubtaskIds(t))
  }

  /** `title` recorded for each of `ids`, the later writes last. */
  function TitleAll(m: map<string, string>, ids: seq<string>, title: string): map<string, string>
  {
    if ids == [] then m else TitleAll(m, ids[..|ids| - 1], title)[ids[|ids| - 1] := title]
  }

  lemma {:induction false} TitleAllMeaning(m: map<string, string>, ids: seq<string>, title: string, id: string)
    ensures id in TitleAll(m, ids, title) <==> id in m || id in ids
    ensures id in TitleAll(m, ids, title) ==> TitleAll(m, ids, title)[id] == if id in ids then title else m[id]
  {
    if ids != [] {
      TitleAllMeaning(m, ids[..|ids| - 1], title, id);
      assert ids == ids[..|ids| - 1] + [ids[|ids| - 1]];
    }
  }

  /** The `taskSections` map the first `forEach` leaves after the tasks `ts`. */
  function SectionTitlesOf(ts: seq<Task>): map<string, string>
  {
    if ts == [] then map[]
    else
      var m := SectionTitlesOf(ts[..|ts| - 1]);
      var t := ts[|ts| - 1];
      if |t.subtasks| > 0 then TitleAll(m[t.id := t.title], SubtaskIds(t), t.title) else m
  }

  /** The first `tasks.forEach`: parent and subtasks recorded under the parent's title. */
  method CollectSectionTitles(tasks: seq<Task>) returns (titles: map<string, string>)
    ensures titles == SectionTitlesOf(tasks)
  {
    titles := map[];
    var k := 0;
    while k < |tasks|
      invariant 0 <= k <= |tasks|
      invariant titles == SectionTitlesOf(tasks[..k])
    {
      SectionTitlesOfSnoc(tasks, k);
      var task := tasks[k];
      if |task.subtasks| > 0 {
        titles := titles[task.id := task.title];
        titles := RecordSubtaskTitles(titles, task);
      }
      k := k + 1;
    }
    assert tasks[..k] == tasks;
  }

  /** `task.subtasks.forEach(st => taskSections.set(st.id, task.title))` */
  method RecordSubtaskTitles(titles0: map<string, string>, task: Task) returns (titles: map<string, string>)
    ensures titles == TitleAll(titles0, SubtaskIds(task), task.title)
  {
    titles := titles0;
    var sids := SubtaskIds(task);
    var i := 0;
    while i < |task.subtasks|
      invariant 0 <= i <= |task.subtasks|
      invariant titles == TitleAll(titles0, sids[..i], task.title)
    {
      assert sids[..i + 1][..i] == sids[..i];
      titles := titles[task.subtasks[i].id := task.title];
      i := i + 1;
    }
    assert sids[..i] == sids;
  }

  lemma SectionTitlesOfSnoc(tasks: seq<Task>, k: nat)
    requires k < |tasks|
    ensures var m, t := SectionTitlesOf(tasks[..k]), tasks[k];
      SectionTitlesOf(tasks[..k + 1]) == if |t.subtasks| > 0 then TitleAll(m[t.id := t.title], SubtaskIds(t), t.title) else m
  {
    assert tasks[..k + 1][..k] == tasks[..k];
  }

  /**
   * An id has a recorded title exactly when some task claims it, and the title
   * is that of the last task in the list that claims it.
   */
  lemma SectionTitleIsLastClaim(ts: seq<Task>, id: string)
    ensures id in SectionTitlesOf(ts) <==> exists k :: 0 <= k < |ts| && Claims(ts[k], id)
    ensures forall k :: 0 <= k < |ts| && Claims(ts[k], id) && (forall k' :: k < k' < |ts| ==> !Claims(ts[k'], id)) ==>
              id in SectionTitlesOf(ts) && SectionTitlesOf(ts)[id] == ts[k].title
  {
    SectionTitleKeys(ts, id);
    forall k | 0 <= k < |ts| && Claims(ts[k], id) && (forall k' :: k < k' < |ts| ==> !Claims(ts[k'], id))
      ensures id in SectionTitlesOf(ts) && SectionTitlesOf(ts)[id] == ts[k].title
    {
      SectionTitleAt(ts, id, k);
    }
  }

  /** One more task: its claim is added to the titles of the tasks before it. */
  lemma SectionTitlesSnoc(ts: seq<Task>, id: string)
    requires ts != []
    ensures var m, t := SectionTitlesOf(ts[..|ts| - 1]), ts[|ts| - 1];
      && (id in SectionTitlesOf(ts) <==> id in m || Claims(t, id))
      && (Claims(t, id) ==> SectionTitlesOf(ts)[id] == t.title)
      && (!Claims(t, id) && id in m ==> SectionTitlesOf(ts)[id] == m[id])
  {
    var m, t := SectionTitlesOf(ts[..|ts| - 1]), ts[|ts| - 1];
    if |t.subtasks| > 0 {
      TitleAllMeaning(m[t.id := t.title], SubtaskIds(t), t.title, id);
    }
  }

  lemma {:induction false} SectionTitleKeys(ts: seq<Task>, id: string)
    ensures id in SectionTitlesOf(ts) <==> exists k :: 0 <= k < |ts| && Claims(ts[k], id)
  {
    if ts != [] {
      var n := |ts| - 1;
      var init := ts[..n];
      SectionTitleKeys(init, id);
      SectionTitlesSnoc(ts, id);
      if exists k :: 0 <= k < |ts| && Claims(ts[k], id) {
        var k :| 0 <= k < |ts| && Claims(ts[k], id);
        if k < n {
          assert init[k] == ts[k];
        }
      }
      if exists k :: 0 <= k < n && Claims(init[k], id) {
        var k :| 0 <= k < n && Claims(init[k], id);
        assert init[k] == ts[k];
      }
    }
  }

  lemma {:induction false} SectionTitleAt(ts: seq<Task>, id: string, k: nat)
    requires k < |ts| && Claims(ts[k], id)
    requires forall k' :: k < k' < |ts| ==> !Claims(ts[k'], id)
    ensures id in SectionTitlesOf(ts) && SectionTitlesOf(ts)[id] == ts[k].title
  {
    var n := |ts| - 1;
    var init := ts[..n];
    SectionTitlesSnoc(ts, id);
    if k < n {
      assert init[k] == ts[k];
      assert forall k' :: k < k' < n ==> init[k'] == ts[k'];
      SectionTitleAt(init, id, k);
    }
  }

  /** `taskSections.get(task.id) || 'Tasks'`: an absent or empty title falls back to `Tasks`. */
  function SectionName(titles: map<string, string>, id: string): (r: string)
    ensures r != []
  {
    if id in titles && titles[id] != "" then titles[id] else DEFAULT_SECTION
  }

  /** One entry of the `sections` map: its name and the tasks pushed to it. */
  datatype Section = Section(name: string, tasks: seq<Task>)

  /** The position of the section called `name`, or -1: `sections.has(name)`. */
  function FindSection(ss: seq<Section>, name: string): (r: int)
    ensures -1 <= r < |ss|
    ensures r == -1 <==> forall i :: 0 <= i < |ss| ==> ss[i].name != name
    ensures r >= 0 ==> ss[r].name == name
  {
    if ss == [] then -1
    else if ss[|ss| - 1].name == name then |ss| - 1
    else FindSection(ss[..|ss| - 1], name)
  }

  /** `sections.get(name)?.push(t)`, creating the entry at the end when it is missing. */
  function AddToSection(ss: seq<Section>, name: string, t: Task): (r: seq<Section>)
  {
    var i := FindSection(ss, name);
    if i == -1 then ss + [Section(name, [t])]
    else ss[i := Section(name, ss[i].tasks + [t])]
  }

  /** The `sections` map after the tasks `ts`, in insertion order; `Tasks` is created first. */
  function SectionsOf(titles: map<string, string>, ts: seq<Task>): seq<Section>
  {
    if ts == [] then [Section(DEFAULT_SECTION, [])]
    else AddToSection(SectionsOf(titles, ts[..|ts| - 1]), SectionName(titles, ts[|ts| - 1].id), ts[|ts| - 1])
  }

  /** The second `tasks.forEach`: every task pushed to the section of its name. */
  method GroupSections(tasks: seq<Task>, titles: map<string, string>) returns (sections: seq<Section>)
    ensures sections == SectionsOf(titles, tasks)
  {
    sections := [Section(DEFAULT_SECTION, [])];
    var k := 0;
    while k < |tasks|
      invariant 0 <= k <= |tasks|
      invariant sections == SectionsOf(titles, tasks[..k])
    {
      SectionsOfSnoc(titles, tasks, k);
      var task := tasks[k];
      var sectionName := SectionName(titles, task.id);
      sections := PushToSection(sections, sectionName, task);
      k := k + 1;
    }
    assert tasks[..k] == tasks;
  }

  /** `if (!sections.has(name)) sections.set(name, []); sections.get(name).push(task)` */
  method PushToSection(sections0: seq<Section>, name: string, task: Task) returns (sections: seq<Section>)
    ensures sections == AddToSection(sections0, name, task)
  {
    sections := sections0;
    var i := FindSection(sections, name);
    if i == -1 {
      sections := sections + [Section(name, [])];
      i := |sections| - 1;
      assert sections[i].tasks + [task] == [task];
    }
    sections := sections[i := Section(name, sections[i].tasks + [task])];
  }

  lemma SectionsOfSnoc(titles: map<string, string>, tasks: seq<Task>, k: nat)
    requires k < |tasks|
    ensures SectionsOf(titles, tasks[..k + 1]) == AddToSection(SectionsOf(titles, tasks[..k]), SectionName(titles, tasks[k].id), tasks[k])
  {
    assert tasks[..k + 1][..k] == tasks[..k];
  }

  /** The tasks of `ts` whose section is `name`, in list order. */
  function InSection(titles: map<string, string>, name: string, ts: seq<Task>): seq<Task>
  {
    if ts == [] then []
    else InSection(titles, name, ts[..|ts| - 1]) + if SectionName(titles, ts[|ts| - 1].id) == name then [ts[|ts| - 1]] else []
  }

  /** `sections.has(name)` */
  predicate HasName(ss: seq<Section>, name: string)
  {
    exists i :: 0 <= i < |ss| && ss[i].name == name
  }

  predicate DistinctNames(ss: seq<Section>)
  {
    forall i, j :: 0 <= i < j < |ss| ==> ss[i].name != ss[j].name
  }

  /** Pushing to a section keeps the earlier names, adds `name` if it was missing, and nothing else. */
  lemma AddToSectionNames(ss: seq<Section>, name: string, t: Task)
    ensures var r := AddToSection(ss, name, t);
      && HasName(r, name)
      && (|r| == |ss| || (|r| == |ss| + 1 && r[|ss|] == Section(name, [t]) && !HasName(ss, name)))
      && (forall j :: 0 <= j < |ss| ==> r[j].name == ss[j].name)
  {
    var i := FindSection(ss, name);
    var r := AddToSection(ss, name, t);
    if i == -1 {
      assert r[|ss|].name == name;
    } else {
      assert r[i].name == name;
    }
  }

  /** With distinct names, pushing extends only the section called `name` and keeps the names distinct. */
  lemma AddToSectionShape(ss: seq<Section>, name: string, t: Task)
    requires DistinctNames(ss)
    ensures DistinctNames(AddToSection(ss, name, t))
    ensures var r := AddToSection(ss, name, t);
      forall j :: 0 <= j < |ss| ==> r[j].tasks == if ss[j].name == name then ss[j].tasks + [t] else ss[j].tasks
  {
    AddToSectionNames(ss, name, t);
  }

  lemma HasNameKept(ss: seq<Section>, r: seq<Section>, x: string)
    requires HasName(ss, x) && |ss| <= |r|
    requires forall j :: 0 <= j < |ss| ==> r[j].name == ss[j].name
    ensures HasName(r, x)
  {
    var j :| 0 <= j < |ss| && ss[j].name == x;
    assert r[j].name == x;
  }

  /**
   * The sections: `Tasks` first, names distinct, each holding exactly the tasks
   * of its name in list order, and one section for every name a task has.
   */
  lemma {:induction false} SectionsMeaning(titles: map<string, string>, ts: seq<Task>)
    ensures |SectionsOf(titles, ts)| >= 1 && SectionsOf(titles, ts)[0].name == DEFAULT_SECTION
    ensures DistinctNames(SectionsOf(titles, ts))
    ensures forall i :: 0 <= i < |SectionsOf(titles, ts)| ==>
              SectionsOf(titles, ts)[i].tasks == InSection(titles, SectionsOf(titles, ts)[i].name, ts)
  {
    if ts != [] {
      var n := |ts| - 1;
      var init, t := ts[..n], ts[n];
      var ss := SectionsOf(titles, init);
      var name := SectionName(titles, t.id);
      SectionsMeaning(titles, init);
      var r := SectionsOf(titles, ts);
      assert r == AddToSection(ss, name, t);
      AddToSectionNames(ss, name, t);
      AddToSectionShape(ss, name, t);
      forall j | 0 <= j < |r| ensures r[j].tasks == InSection(titles, r[j].name, ts) {
        var nm := r[j].name;
        assert InSection(titles, nm, ts) == InSection(titles, nm, init) + if name == nm then [t] else [];
        if j == |ss| {
          NewNameUnused(titles, init, name);
        }
      }
    }
  }

  /** A name without a section has no tasks yet. */
  lemma NewNameUnused(titles: map<string, string>, ts: seq<Task>, name: string)
    requires !HasName(SectionsOf(titles, ts), name)
    ensures InSection(titles, name, ts) == []
  {
    SectionsHaveNames(titles, ts);
    forall k | 0 <= k < |ts| ensures SectionName(titles, ts[k].id) != name {
      assert HasName(SectionsOf(titles, ts), SectionName(titles, ts[k].id));
    }
    InSectionEmpty(titles, name, ts);
  }

  /** Every task's section name is a key of the sections. */
  lemma {:induction false} SectionsHaveNames(titles: map<string, string>, ts: seq<Task>)
    ensures forall k :: 0 <= k < |ts| ==> HasName(SectionsOf(titles, ts), SectionName(titles, ts[k].id))
  {
    if ts != [] {
      var n := |ts| - 1;
      var init, t := ts[..n], ts[n];
      var ss := SectionsOf(titles, init);
      var name := SectionName(titles, t.id);
      SectionsHaveNames(titles, init);
      var r := SectionsOf(titles, ts);
      assert r == AddToSection(ss, name, t);
      AddToSectionNames(ss, name, t);
      forall k | 0 <= k < n ensures HasName(r, SectionName(titles, ts[k].id)) {
        assert init[k] == ts[k];
        HasNameKept(ss, r, SectionName(titles, init[k].id));
      }
    }
  }

  /** No task of a list without a section called `name` has that section name. */
  lemma {:induction false} InSectionEmpty(titles: map<string, string>, name: string, ts: seq<Task>)
    requires forall k :: 0 <= k < |ts| ==> SectionName(titles, ts[k].id) != name
    ensures InSection(titles, name, ts) == []
  {
    if ts != [] {
      InSectionEmpty(titles, name, ts[..|ts| - 1]);
    }
  }

  /** A task is in the section of its own name and in no other. */
  lemma {:induction false} InSectionMembers(titles: map<string, string>, name: string, ts: seq<Task>)
    ensures forall t :: t in InSection(titles, name, ts) <==> t in ts && SectionName(titles, t.id) == name
  {
    if ts != [] {
      InSectionMembers(titles, name, ts[..|ts| - 1]);
      assert ts == ts[..|ts| - 1] + [ts[|ts| - 1]];
    }
  }

  /** A section holds every occurrence of the tasks of its name and nothing else. */
  lemma {:induction false} InSectionCount(titles: map<string, string>, name: string, ts: seq<Task>, t: Task)
    ensures multiset(InSection(titles, name, ts))[t] == if SectionName(titles, t.id) == name then multiset(ts)[t] else 0
  {
    if ts != [] {
      var init, last := ts[..|ts| - 1], ts[|ts| - 1];
      InSectionCount(titles, name, init, t);
      var added := if SectionName(titles, last.id) == name then [last] else [];
      assert InSection(titles, name, ts) == InSection(titles, name, init) + added;
      assert ts == init + [last];
      assert multiset(ts)[t] == multiset(init)[t] + multiset([last])[t];
    }
  }

  /**
   * Each task lands in exactly one section: the one named after it holds all
   * its occurrences, and every other section holds none.
   */
  lemma EveryTaskInOneSection(titles: map<string, string>, ts: seq<Task>, t: Task)
    requires t in ts
    ensures exists i :: 0 <= i < |SectionsOf(titles, ts)| && SectionsOf(titles, ts)[i].name == SectionName(titles, t.id)
                        && multiset(SectionsOf(titles, ts)[i].tasks)[t] == multiset(ts)[t]
    ensures forall i :: 0 <= i < |SectionsOf(titles, ts)| && SectionsOf(titles, ts)[i].name != SectionName(titles, t.id) ==>
              t !in SectionsOf(titles, ts)[i].tasks
  {
    var r := SectionsOf(titles, ts);
    SectionsMeaning(titles, ts);
    SectionsHaveNames(titles, ts);
    var k :| 0 <= k < |ts| && ts[k] == t;
    var i :| 0 <= i < |r| && r[i].name == SectionName(titles, t.id);
    InSectionCount(titles, r[i].name, ts, t);
    forall j | 0 <= j < |r| && r[j].name != SectionName(titles, t.id) ensures t !in r[j].tasks {
      InSectionMembers(titles, r[j].name, ts);
    }
  }
}
