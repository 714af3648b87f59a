/**
 * The second half of the Mermaid Gantt generator: section by section, the
 * tasks without blockers are drawn first, in list order, and the blocked ones
 * in rounds once all their blockers have a position; a position counter is
 * shared by all sections. When a round places nothing, the rest is drawn in
 * order with a cycle warning.
 */
module Gantt {
  import opened Common
  import opened Tasks
  import opened GanttSections

  /** One task line of the chart: the task, where its bar starts, whether it is indented, and whether it carries the cycle warning. */
  datatype Bar = Bar(task: Task, start: real, subtask: bool, circular: bool)

  datatype ChartSection = ChartSection(name: string, bars: seq<Bar>)

  /** The chart: the fixed placeholder when there are no tasks, or the sections with their bars. */
  datatype Chart = NoTasks | Gantt(sections: seq<ChartSection>)

  /** `Math.max(a, b)` */
  function Max(a: real, b: real): (r: real)
    ensures r >= a && r >= b && (r == a || r == b)
  {
    if a >= b then a else b
  }

  /** `tasks.find(t => t.id === id)?.estimate || 0` */
  function EstimateOf(tasks: seq<Task>, id: string): real
  {
    if tasks == [] then 0.0
    else if tasks[0].id == id then tasks[0].estimate
    else EstimateOf(tasks[1..], id)
  }

  /** The estimate found is that of the first task with the id. */
  lemma {:induction false} EstimateOfFirst(tasks: seq<Task>, id: string, k: nat)
    requires k < |tasks| && tasks[k].id == id
    requires forall k' :: 0 <= k' < k ==> tasks[k'].id != id
    ensures EstimateOf(tasks, id) == tasks[k].estimate
  {
    if k > 0 {
      assert tasks[0].id != id;
      assert tasks[1..][k - 1] == tasks[k];
      EstimateOfFirst(tasks[1..], id, k - 1);
    }
  }

  /** A blocker no task has lasts 0. */
  lemma {:induction false} EstimateOfAbsent(tasks: seq<Task>, id: string)
    requires forall k :: 0 <= k < |tasks| ==> tasks[k].id != id
    ensures EstimateOf(tasks, id) == 0.0
  {
    if tasks != [] {
      assert tasks[0].id != id;
      EstimateOfAbsent(tasks[1..], id);
    }
  }

  /** `currentPos` after the bars `bars`: where the last one ends, or 0 before the first. */
  function Cursor(bars: seq<Bar>): real
  {
    if bars == [] then 0.0 else bars[|bars| - 1].start + bars[|bars| - 1].task.estimate
  }

  /** `taskPositions` after the bars `bars`: the start of the last bar drawn for each id. */
  function PositionsOf(bars: seq<Bar>): map<string, real>
  {
    if bars == [] then map[]
    else PositionsOf(bars[..|bars| - 1])[bars[|bars| - 1].task.id := bars[|bars| - 1].start]
  }

  /** A recorded position is the start of an earlier bar of that task. */
  lemma {:induction false} PositionIsEarlierBar(bars: seq<Bar>, id: string)
    requires id in PositionsOf(bars)
    ensures exists m :: 0 <= m < |bars| && bars[m].task.id == id && PositionsOf(bars)[id] == bars[m].start
  {
    var n := |bars| - 1;
    if bars[n].task.id != id {
      PositionIsEarlierBar(bars[..n], id);
      var m :| 0 <= m < n && bars[..n][m].task.id == id && PositionsOf(bars[..n])[id] == bars[..n][m].start;
      assert bars[m] == bars[..n][m];
    }
  }

  /**
   * How a bar drawn after the bars `prefix` is placed. Every bar starts at or
   * after the counter. A bar without blockers, or drawn by the cycle fallback,
   * starts exactly at the counter. Any other bar starts only once all its
   * blockers have a position, at or after each blocker's position plus its
   * estimate and at or after 0, and at the least such point.
   */
  ghost predicate WellPlaced(tasks: seq<Task>, prefix: seq<Bar>, bar: Bar)
  {
    var cur, pos := Cursor(prefix), PositionsOf(prefix);
    && bar.subtask == IsListedAsSubtask(tasks, bar.task.id)
    && bar.start >= cur
    && if BlockerIds(bar.task) == [] || bar.circular then bar.start == cur
       else
         && (forall b :: b in BlockerIds(bar.task) ==> b in pos && bar.start >= pos[b] + EstimateOf(tasks, b))
         && bar.start >= 0.0
         && (|| bar.start == cur || bar.start == 0.0
             || exists b :: b in BlockerIds(bar.task) && b in pos && bar.start == pos[b] + EstimateOf(tasks, b))
  }

  /** Every bar of `bars`, drawn after the bars `before`, is well placed. */
  ghost predicate AllWellPlaced(tasks: seq<Task>, before: seq<Bar>, bars: seq<Bar>)
  {
    forall n {:trigger WellPlaced(tasks, before + bars[..n], bars[n])} :: 0 <= n < |bars| ==> WellPlaced(tasks, before + bars[..n], bars[n])
  }

  /** Drawing one more bar: the counter moves to its end and its task's position is its start. */
  lemma AppendBar(tasks: seq<Task>, before: seq<Bar>, bars: seq<Bar>, bar: Bar)
    requires AllWellPlaced(tasks, before, bars) && WellPlaced(tasks, before + bars, bar)
    ensures AllWellPlaced(tasks, before, bars + [bar])
    ensures Cursor(before + (bars + [bar])) == bar.start + bar.task.estimate
    ensures PositionsOf(before + (bars + [bar])) == PositionsOf(before + bars)[bar.task.id := bar.start]
  {
    AssocSnoc(before, bars, bar);
    SnocPrefix(before + bars, bar, |before + bars|);
    forall n | 0 <= n < |bars| + 1
      ensures WellPlaced(tasks, before + (bars + [bar])[..n], (bars + [bar])[n])
    {
      SnocPrefix(bars, bar, if n < |bars| then n else |bars|);
    }
  }

  /** `sectionTasks.filter(task => !task.blockedBy || task.blockedBy.length === 0)` */
  function Unblocked(ts: seq<Task>): (r: seq<Task>)
    ensures forall t :: t in r <==> t in ts && |t.blockedBy| == 0
  {
    if ts == [] then []
    else Unblocked(ts[..|ts| - 1]) + if |ts[|ts| - 1].blockedBy| == 0 then [ts[|ts| - 1]] else []
  }

  /** `sectionTasks.filter(task => task.blockedBy && task.blockedBy.length > 0)` */
  function Blocked(ts: seq<Task>): (r: seq<Task>)
    ensures forall t :: t in r <==> t in ts && |t.blockedBy| > 0
  {
    if ts == [] then []
    else Blocked(ts[..|ts| - 1]) + if |ts[|ts| - 1].blockedBy| > 0 then [ts[|ts| - 1]] else []
  }

  /** The two filters split a section: every task is in exactly one of them. */
  lemma {:induction false} SplitSection(ts: seq<Task>)
    ensures multiset(Unblocked(ts)) + multiset(Blocked(ts)) == multiset(ts)
  {
    if ts != [] {
      SplitSection(ts[..|ts| - 1]);
      TakeSnoc(ts, |ts| - 1);
      TakeAll(ts);
    }
  }

  /** The tasks of the bars, in order. */
  function BarTasks(bars: seq<Bar>): (r: seq<Task>)
    ensures |r| == |bars| && forall i :: 0 <= i < |bars| ==> r[i] == bars[i].task
  {
    if bars == [] then [] else BarTasks(bars[..|bars| - 1]) + [bars[|bars| - 1].task]
  }

  /** `task.blockedBy.every(blocker => taskPositions.has(blocker.id))`, with `known` the positioned ids. */
  predicate Ready(t: Task, known: set<string>)
  {
    forall j :: 0 <= j < |BlockerIds(t)| ==> BlockerIds(t)[j] in known
  }

  /** What one round does: the tasks it draws, in order, the tasks still waiting, and the positioned ids after it. */
  datatype RoundResult = RoundResult(drawn: seq<Task>, left: seq<Task>, known: set<string>)

  /**
   * One round of the `for` loop over the waiting list `ws`, front to back: a
   * task whose blockers are all positioned is drawn and its id is positioned
   * for the tasks after it; any other task keeps waiting.
   */
  function Round(ws: seq<Task>, known: set<string>): (r: RoundResult)
    ensures |r.drawn| + |r.left| == |ws|
  {
    if ws == [] then RoundResult([], [], known)
    else if Ready(ws[0], known) then
      var r := Round(ws[1..], known + {ws[0].id});
      RoundResult([ws[0]] + r.drawn, r.left, r.known)
    else
      var r := Round(ws[1..], known);
      RoundResult(r.drawn, [ws[0]] + r.left, r.known)
  }

  /**
   * A round draws nothing exactly when no waiting task is ready; it then
   * leaves the waiting list and the positioned ids as they were.
   */
  lemma {:induction false} RoundDrawsNothing(ws: seq<Task>, known: set<string>)
    ensures Round(ws, known).drawn == [] <==> forall k :: 0 <= k < |ws| ==> !Ready(ws[k], known)
    ensures Round(ws, known).drawn == [] ==> Round(ws, known).left == ws && Round(ws, known).known == known
  {
    if ws != [] {
      RoundDrawsNothing(ws[1..], known);
      assert ws == [ws[0]] + ws[1..];
      assert forall k :: 1 <= k < |ws| ==> ws[k] == ws[1..][k - 1];
    }
  }

  /** A round moves tasks from the waiting list to the drawn ones and loses none. */
  lemma {:induction false} RoundPermutes(ws: seq<Task>, known: set<string>)
    ensures multiset(Round(ws, known).drawn) + multiset(Round(ws, known).left) == multiset(ws)
  {
    if ws != [] {
      RoundPermutes(ws[1..], if Ready(ws[0], known) then known + {ws[0].id} else known);
      assert ws == [ws[0]] + ws[1..];
    }
  }

  /**
   * The blocked tasks of a section in the order they are drawn: rounds while
   * tasks wait (`.0`); when a round draws nothing, the fallback draws all that
   * is still waiting, in list order (`.1`).
   */
  function BlockedOrder(ws: seq<Task>, known: set<string>): (seq<Task>, seq<Task>)
    decreases |ws|
  {
    if ws == [] then ([], [])
    else
      var r := Round(ws, known);
      if r.drawn == [] then ([], ws)
      else
        var rest := BlockedOrder(r.left, r.known);
        (r.drawn + rest.0, rest.1)
  }

  /** Every blocked task is drawn exactly once, by a round or by the fallback. */
  lemma {:induction false} BlockedOrderPermutes(ws: seq<Task>, known: set<string>)
    ensures multiset(BlockedOrder(ws, known).0) + multiset(BlockedOrder(ws, known).1) == multiset(ws)
    decreases |ws|
  {
    if ws != [] {
      var r := Round(ws, known);
      RoundPermutes(ws, known);
      if r.drawn != [] {
        BlockedOrderPermutes(r.left, r.known);
      }
    }
  }

  /**
   * The bars of one section: first the unblocked tasks in list order, then the
   * blocked ones in the order `BlockedOrder` gives from the ids positioned so far.
   */
  ghost predicate SectionScheduled(sectionTasks: seq<Task>, before: seq<Bar>, bars: seq<Bar>)
  {
    var u := Unblocked(sectionTasks);
    && |u| <= |bars|
    && (forall n :: 0 <= n < |u| ==> bars[n].task == u[n] && !bars[n].circular)
    && BlockedDrawn(Blocked(sectionTasks), PositionsOf(before + bars[..|u|]).Keys, before, bars, |u|)
  }

  /**
   * From bar `u` on, the bars draw the blocked tasks `ws` as `BlockedOrder`
   * orders them: the tasks drawn in rounds without the warning, then the
   * fallback's with it. The fallback starts only when none of its tasks has
   * all its blockers positioned.
   */
  ghost predicate BlockedDrawn(ws: seq<Task>, known: set<string>, before: seq<Bar>, bars: seq<Bar>, u: nat)
  {
    var o := BlockedOrder(ws, known);
    DrawnAs(o.0, o.1, before, bars, u)
  }

  /**
   * From bar `u` on, the bars draw `drawn` without the warning, then
   * `fallback` with it; no task of `fallback` has all its blockers positioned
   * where the fallback starts.
   */
  ghost predicate DrawnAs(drawn: seq<Task>, fallback: seq<Task>, before: seq<Bar>, bars: seq<Bar>, u: nat)
  {
    && |bars| == u + |drawn| + |fallback|
    && (forall n :: u <= n < u + |drawn| ==> bars[n].task == drawn[n - u] && !bars[n].circular)
    && (forall n :: u + |drawn| <= n < |bars| ==> bars[n].task == fallback[n - (u + |drawn|)] && bars[n].circular)
    && (forall k :: 0 <= k < |fallback| ==> !Ready(fallback[k], PositionsOf(before + bars[..u + |drawn|]).Keys))
  }

  /**
   * While no fallback has happened: the bars from `u` on are the rounds so far,
   * and what `BlockedOrder` still draws is what it draws for the waiting list.
   */
  ghost predicate QuietSoFar(ws: seq<Task>, known0: set<string>, bars: seq<Bar>, u: nat, remaining: seq<Task>,
                             known: set<string>)
  {
    var o, r := BlockedOrder(ws, known0), BlockedOrder(remaining, known);
    && u <= |bars|
    && o.0 == BarTasks(bars[u..]) + r.0 && o.1 == r.1
    && (forall n :: u <= n < |bars| ==> !bars[n].circular)
  }

  /** A round that draws something keeps `QuietSoFar`. */
  lemma {:induction false} RoundKeepsQuiet(ws: seq<Task>, known0: set<string>, bars0: seq<Bar>, bars: seq<Bar>, u: nat,
                        remaining: seq<Task>, known: set<string>)
    requires QuietSoFar(ws, known0, bars0, u, remaining, known) && remaining != []
    requires |bars0| <= |bars| && bars[..|bars0|] == bars0
    requires forall n :: |bars0| <= n < |bars| ==> !bars[n].circular
    requires BarTasks(bars[|bars0|..]) == Round(remaining, known).drawn != []
    ensures QuietSoFar(ws, known0, bars, u, Round(remaining, known).left, Round(remaining, known).known)
  {
    var r := Round(remaining, known);
    var rest := BlockedOrder(r.left, r.known);
    var o := BlockedOrder(ws, known0);
    assert BlockedOrder(remaining, known) == (r.drawn + rest.0, rest.1);
    BarTasksSplit(bars0, bars, u);
    assert o.0 == BarTasks(bars0[u..]) + (r.drawn + rest.0);
    assert o.0 == BarTasks(bars[u..]) + rest.0;
    QuietStaysQuiet(bars0, bars, u);
  }

  /** The bars drawn from `u` on are those before the round, then the round's. */
  lemma {:induction false} BarTasksSplit(bars0: seq<Bar>, bars: seq<Bar>, u: nat)
    requires u <= |bars0| <= |bars| && bars[..|bars0|] == bars0
    ensures BarTasks(bars[u..]) == BarTasks(bars0[u..]) + BarTasks(bars[|bars0|..])
  {
    assert bars[u..] == bars0[u..] + bars[|bars0|..];
    BarTasksAppend(bars0[u..], bars[|bars0|..]);
  }

  /** A round that draws without the warning keeps the bars from `u` on free of it. */
  lemma {:induction false} QuietStaysQuiet(bars0: seq<Bar>, bars: seq<Bar>, u: nat)
    requires u <= |bars0| <= |bars| && bars[..|bars0|] == bars0
    requires forall n :: u <= n < |bars0| ==> !bars0[n].circular
    requires forall n :: |bars0| <= n < |bars| ==> !bars[n].circular
    ensures forall n :: u <= n < |bars| ==> !bars[n].circular
  {
    forall n | u <= n < |bars0| ensures !bars[n].circular {
      assert bars[n] == bars[..|bars0|][n];
    }
  }

  /** The waiting list ran empty without a fallback: the rounds drew all blocked tasks. */
  lemma {:induction false} QuietDone(ws: seq<Task>, known0: set<string>, before: seq<Bar>, bars: seq<Bar>, u: nat, known: set<string>)
    requires QuietSoFar(ws, known0, bars, u, [], known)
    ensures BlockedDrawn(ws, known0, before, bars, u)
  {
    var o := BlockedOrder(ws, known0);
    assert o.0 == BarTasks(bars[u..]) && o.1 == [];
    forall n | u <= n < u + |o.0| ensures bars[n].task == o.0[n - u] {
      assert bars[u..][n - u] == bars[n];
    }
  }

  /**
   * A round drew nothing, so the fallback drew the waiting list in order with
   * the warning: the section is drawn as `BlockedOrder` says.
   */
  lemma {:induction false} FallbackDone(ws: seq<Task>, known0: set<string>, before: seq<Bar>, bars0: seq<Bar>, bars: seq<Bar>, u: nat,
                     remaining: seq<Task>, known: set<string>)
    requires known == PositionsOf(before + bars0).Keys
    requires QuietSoFar(ws, known0, bars0, u, remaining, known) && remaining != []
    requires Round(remaining, known).drawn == []
    requires |bars| == |bars0| + |remaining| && bars[..|bars0|] == bars0
    requires forall n :: |bars0| <= n < |bars| ==> bars[n].task == remaining[n - |bars0|] && bars[n].circular
    ensures BlockedDrawn(ws, known0, before, bars, u)
  {
    var drawn := BarTasks(bars0[u..]);
    FallbackOrder(ws, known0, bars0, u, remaining, known);
    QuietKept(drawn, bars0, bars, u);
    FallbackNotReady(remaining, known, before, bars0, bars, u + |drawn|);
    FallbackDrawnAs(drawn, remaining, before, bars0, bars, u);
  }

  /** The quiet bars, then the fallback's in list order, none of whose tasks is ready where it starts. */
  lemma {:induction false} FallbackDrawnAs(drawn: seq<Task>, remaining: seq<Task>, before: seq<Bar>, bars0: seq<Bar>,
                                           bars: seq<Bar>, u: nat)
    requires |bars0| == u + |drawn| && |bars| == |bars0| + |remaining|
    requires forall n :: u <= n < u + |drawn| ==> bars[n].task == drawn[n - u] && !bars[n].circular
    requires forall n :: |bars0| <= n < |bars| ==> bars[n].task == remaining[n - |bars0|] && bars[n].circular
    requires forall k :: 0 <= k < |remaining| ==> !Ready(remaining[k], PositionsOf(before + bars[..u + |drawn|]).Keys)
    ensures DrawnAs(drawn, remaining, before, bars, u)
  {
  }

  /** No task the fallback draws is ready where the fallback starts. */
  lemma {:induction false} FallbackNotReady(remaining: seq<Task>, known: set<string>, before: seq<Bar>, bars0: seq<Bar>, bars: seq<Bar>, m: nat)
    requires known == PositionsOf(before + bars0).Keys && Round(remaining, known).drawn == []
    requires m == |bars0| <= |bars| && bars[..|bars0|] == bars0
    ensures forall k :: 0 <= k < |remaining| ==> !Ready(remaining[k], PositionsOf(before + bars[..m]).Keys)
  {
    RoundDrawsNothing(remaining, known);
  }

  /** After a round that drew nothing, `BlockedOrder` ends with the waiting list as its fallback. */
  lemma {:induction false} FallbackOrder(ws: seq<Task>, known0: set<string>, bars0: seq<Bar>, u: nat, remaining: seq<Task>, known: set<string>)
    requires QuietSoFar(ws, known0, bars0, u, remaining, known) && remaining != []
    requires Round(remaining, known).drawn == []
    ensures BlockedOrder(ws, known0).0 == BarTasks(bars0[u..]) && BlockedOrder(ws, known0).1 == remaining
    ensures forall n :: u <= n < |bars0| ==> !bars0[n].circular
  {
  }

  /** The quiet bars before the fallback stay where they were. */
  lemma {:induction false} QuietKept(drawn: seq<Task>, bars0: seq<Bar>, bars: seq<Bar>, u: nat)
    requires u <= |bars0| <= |bars| && bars[..|bars0|] == bars0
    requires drawn == BarTasks(bars0[u..]) && forall n :: u <= n < |bars0| ==> !bars0[n].circular
    ensures |bars0| == u + |drawn|
    ensures forall n :: u <= n < u + |drawn| ==> bars[n].task == drawn[n - u] && !bars[n].circular
  {
    forall n | u <= n < u + |drawn| ensures bars[n].task == drawn[n - u] && !bars[n].circular {
      assert bars[n] == bars[..|bars0|][n] == bars0[u..][n - u];
    }
  }

  /** The bars with the cycle warning come after all the others. */
  ghost predicate CircularLast(bars: seq<Bar>)
  {
    forall m, n :: 0 <= m < n < |bars| && bars[m].circular ==> bars[n].circular
  }

  /** In a scheduled section, the bars with the cycle warning come last. */
  lemma {:induction false} WarnedLast(sectionTasks: seq<Task>, before: seq<Bar>, bars: seq<Bar>)
    requires SectionScheduled(sectionTasks, before, bars)
    ensures CircularLast(bars)
  {
    var u := |Unblocked(sectionTasks)|;
    var o := BlockedOrder(Blocked(sectionTasks), PositionsOf(before + bars[..u]).Keys);
    forall m, n | 0 <= m < n < |bars| && bars[m].circular ensures bars[n].circular {
      assert m >= u + |o.0|;
    }
  }

  /** Bars appended after `bars0` leave its first `u` bars as they were. */
  lemma PrefixKept(bars0: seq<Bar>, bars: seq<Bar>, unblocked: seq<Task>)
    requires |unblocked| <= |bars0| <= |bars| && bars[..|bars0|] == bars0
    requires forall n :: 0 <= n < |unblocked| ==> bars0[n].task == unblocked[n] && !bars0[n].circular
    ensures forall n :: 0 <= n < |unblocked| ==> bars[n].task == unblocked[n] && !bars[n].circular
    ensures bars[..|unblocked|] == bars0[..|unblocked|]
  {
    forall n | 0 <= n < |unblocked| ensures bars[n].task == unblocked[n] && !bars[n].circular {
      assert bars[n] == bars[..|bars0|][n];
    }
  }

  /**
   * `blocker => Math.max(startAfter, blockerPos + blockerDuration)` over the
   * blockers: the least number that is at least 0 and at least the end of every blocker.
   */
  method StartAfter(tasks: seq<Task>, blockers: seq<string>, positions: map<string, real>) returns (startAfter: real)
    requires forall j :: 0 <= j < |blockers| ==> blockers[j] in positions
    ensures startAfter >= 0.0
    ensures forall j :: 0 <= j < |blockers| ==> startAfter >= BlockerEnd(tasks, positions, blockers[j])
    ensures startAfter == 0.0
            || exists j :: 0 <= j < |blockers| && startAfter == BlockerEnd(tasks, positions, blockers[j])
  {
    startAfter := 0.0;
    ghost var w := 0;
    var j := 0;
    while j < |blockers|
      invariant 0 <= j <= |blockers|
      invariant startAfter >= 0.0
      invariant forall j' :: 0 <= j' < j ==> startAfter >= BlockerEnd(tasks, positions, blockers[j'])
      invariant startAfter == 0.0 || (0 <= w < j && startAfter == BlockerEnd(tasks, positions, blockers[w]))
    {
      var candidate := Max(startAfter, BlockerEnd(tasks, positions, blockers[j]));
      if candidate != startAfter {
        w := j;
      }
      startAfter := candidate;
      j := j + 1;
    }
  }

  /** Where a drawn blocker's bar ends: its position plus its estimate. */
  function BlockerEnd(tasks: seq<Task>, positions: map<string, real>, b: string): real
    requires b in positions
  {
    positions[b] + EstimateOf(tasks, b)
  }

  /** One section of `sections.forEach`: its unblocked tasks, then its blocked tasks in rounds. */
  method PlaceSection(tasks: seq<Task>, sectionTasks: seq<Task>, cursor0: real, positions0: map<string, real>,
                      ghost before: seq<Bar>)
    returns (bars: seq<Bar>, cursor: real, positions: map<string, real>)
    requires cursor0 == Cursor(before) && positions0 == PositionsOf(before)
    ensures cursor == Cursor(before + bars) && positions == PositionsOf(before + bars)
    ensures SectionScheduled(sectionTasks, before, bars)
    ensures AllWellPlaced(tasks, before, bars)
  {
    var unblocked := Unblocked(sectionTasks);
    var blocked := Blocked(sectionTasks);
    bars, cursor, positions := PlaceUnblocked(tasks, unblocked, cursor0, positions0, before);
    var u := |bars|;
    ghost var head := bars;
    ghost var known0 := positions.Keys;
    assert bars[..u] == head && bars[u..] == [];
    var remaining := blocked;
    ghost var fallback := false;
    while |remaining| > 0
      invariant u == |unblocked| <= |bars| && bars[..u] == head && known0 == PositionsOf(before + head).Keys
      invariant forall n :: 0 <= n < u ==> bars[n].task == unblocked[n] && !bars[n].circular
      invariant forall t :: t in remaining ==> |t.blockedBy| > 0
      invariant !fallback ==> QuietSoFar(blocked, known0, bars, u, remaining, positions.Keys)
      invariant fallback ==> remaining == [] && BlockedDrawn(blocked, known0, before, bars, u)
      invariant cursor == Cursor(before + bars) && positions == PositionsOf(before + bars)
      invariant AllWellPlaced(tasks, before, bars)
      decreases |remaining|
    {
      ghost var bars0, known := bars, positions.Keys;
      var remaining', processed;
      remaining', bars, cursor, positions, processed := PlaceRound(tasks, remaining, bars, cursor, positions, before);
      PrefixKept(bars0, bars, unblocked);
      if processed == 0 {
        assert bars == bars0 && bars[|bars0|..] == [];
        assert Round(remaining, known).drawn == [];
        RoundDrawsNothing(remaining, known);
        bars, cursor, positions := PlaceFallback(tasks, remaining', bars, cursor, positions, before, blocked, known0, u);
        PrefixKept(bars0, bars, unblocked);
        remaining := [];
        fallback := true;
      } else {
        RoundKeepsQuiet(blocked, known0, bars0, bars, u, remaining, known);
        remaining := remaining';
      }
    }
    if !fallback {
      QuietDone(blocked, known0, before, bars, u, positions.Keys);
    }
  }

  /**
   * A round that drew nothing ends the section: the fallback draws what is
   * still waiting, which completes the blocked part as `BlockedOrder` says.
   */
  method PlaceFallback(tasks: seq<Task>, remaining: seq<Task>, bars0: seq<Bar>, cursor0: real, positions0: map<string, real>,
                       ghost before: seq<Bar>, ghost blocked: seq<Task>, ghost known0: set<string>, ghost u: nat)
    returns (bars: seq<Bar>, cursor: real, positions: map<string, real>)
    requires cursor0 == Cursor(before + bars0) && positions0 == PositionsOf(before + bars0)
    requires AllWellPlaced(tasks, before, bars0)
    requires QuietSoFar(blocked, known0, bars0, u, remaining, positions0.Keys) && remaining != []
    requires Round(remaining, positions0.Keys).drawn == []
    ensures |bars0| <= |bars| && bars[..|bars0|] == bars0
    ensures BlockedDrawn(blocked, known0, before, bars, u)
    ensures cursor == Cursor(before + bars) && positions == PositionsOf(before + bars)
    ensures AllWellPlaced(tasks, before, bars)
  {
    bars, cursor, positions := PlaceCircular(tasks, remaining, bars0, cursor0, positions0, before);
    FallbackDone(blocked, known0, before, bars0, bars, u, remaining, positions0.Keys);
  }

  /** The first loop of a section: each unblocked task, in order, at the counter. */
  method PlaceUnblocked(tasks: seq<Task>, unblocked: seq<Task>, cursor0: real, positions0: map<string, real>,
                        ghost before: seq<Bar>)
    returns (bars: seq<Bar>, cursor: real, positions: map<string, real>)
    requires cursor0 == Cursor(before) && positions0 == PositionsOf(before)
    requires forall k :: 0 <= k < |unblocked| ==> |unblocked[k].blockedBy| == 0
    ensures |bars| == |unblocked|
    ensures forall n :: 0 <= n < |bars| ==> bars[n].task == unblocked[n] && !bars[n].circular
    ensures cursor == Cursor(before + bars) && positions == PositionsOf(before + bars)
    ensures AllWellPlaced(tasks, before, bars)
  {
    bars, cursor, positions := [], cursor0, positions0;
    TakeAll(before);
    var k := 0;
    while k < |unblocked|
      invariant 0 <= k <= |unblocked| && |bars| == k
      invariant forall n :: 0 <= n < k ==> bars[n].task == unblocked[n] && !bars[n].circular
      invariant cursor == Cursor(before + bars) && positions == PositionsOf(before + bars)
      invariant AllWellPlaced(tasks, before, bars)
    {
      var task := unblocked[k];
      var bar := Bar(task, cursor, IsListedAsSubtask(tasks, task.id), false);
      AppendBar(tasks, before, bars, bar);
      positions := positions[task.id := cursor];
      bars := bars + [bar];
      cursor := cursor + task.estimate;
      k := k + 1;
    }
  }

  /**
   * One round of `while (remaining.length > 0)`: every waiting task whose
   * blockers all have a position is drawn and taken off the list, exactly as
   * `Round` says; `processed` counts them.
   */
  method PlaceRound(tasks: seq<Task>, remaining0: seq<Task>, bars0: seq<Bar>, cursor0: real, positions0: map<string, real>,
                    ghost before: seq<Bar>)
    returns (remaining: seq<Task>, bars: seq<Bar>, cursor: real, positions: map<string, real>, processed: nat)
    requires cursor0 == Cursor(before + bars0) && positions0 == PositionsOf(before + bars0)
    requires AllWellPlaced(tasks, before, bars0)
    requires forall t :: t in remaining0 ==> |t.blockedBy| > 0
    ensures |bars0| <= |bars| && bars[..|bars0|] == bars0
    ensures forall n :: |bars0| <= n < |bars| ==> !bars[n].circular
    ensures BarTasks(bars[|bars0|..]) == Round(remaining0, positions0.Keys).drawn
    ensures remaining == Round(remaining0, positions0.Keys).left
    ensures positions.Keys == Round(remaining0, positions0.Keys).known
    ensures forall t :: t in remaining ==> |t.blockedBy| > 0
    ensures |bars| == |bars0| + processed
    ensures cursor == Cursor(before + bars) && positions == PositionsOf(before + bars)
    ensures AllWellPlaced(tasks, before, bars)
  {
    remaining, bars, cursor, positions, processed := remaining0, bars0, cursor0, positions0, 0;
    var i := 0;
    assert remaining[..0] == [] && remaining[0..] == remaining0 && bars[|bars0|..] == [];
    while i < |remaining|
      invariant 0 <= i <= |remaining| && |bars| == |bars0| + processed
      invariant bars[..|bars0|] == bars0
      invariant forall n :: |bars0| <= n < |bars| ==> !bars[n].circular
      invariant RoundSoFar(remaining0, positions0.Keys, bars0, bars, remaining, i, positions.Keys)
      invariant forall t :: t in remaining ==> |t.blockedBy| > 0
      invariant cursor == Cursor(before + bars) && positions == PositionsOf(before + bars)
      invariant AllWellPlaced(tasks, before, bars)
      decreases |remaining| - i
    {
      var task := remaining[i];
      if Ready(task, positions.Keys) {
        ghost var barsPrev, remainingPrev, known := bars, remaining, positions.Keys;
        remaining, bars, cursor, positions := TakeReady(tasks, remaining, i, bars, cursor, positions, before, bars0);
        RoundSoFarReady(remaining0, positions0.Keys, bars0, barsPrev, bars, remainingPrev, i, known);
        processed := processed + 1;
      } else {
        RoundSoFarSkip(remaining0, positions0.Keys, bars0, bars, remaining, i, positions.Keys);
        i := i + 1;
      }
    }
    assert remaining[..i] == remaining && remaining[i..] == [];
  }

  /**
   * Part way through a round over `ws`: the bars drawn since `bars0`, then what
   * the round draws from the rest of the list, are what it draws from `ws`;
   * the tasks skipped so far, then those it skips in the rest, are what it leaves.
   */
  ghost predicate RoundSoFar(ws: seq<Task>, known0: set<string>, bars0: seq<Bar>, bars: seq<Bar>,
                             remaining: seq<Task>, i: nat, known: set<string>)
  {
    && i <= |remaining| && |bars0| <= |bars|
    && var whole, rest := Round(ws, known0), Round(remaining[i..], known);
    && whole.drawn == BarTasks(bars[|bars0|..]) + rest.drawn
    && whole.left == remaining[..i] + rest.left
    && whole.known == rest.known
  }

  /** Drawing the ready `remaining[i]` moves it from the rest of the round to the bars drawn. */
  lemma {:induction false} RoundSoFarReady(ws: seq<Task>, known0: set<string>, bars0: seq<Bar>, bars: seq<Bar>, bars': seq<Bar>,
                        remaining: seq<Task>, i: nat, known: set<string>)
    requires i < |remaining| && RoundSoFar(ws, known0, bars0, bars, remaining, i, known)
    requires Ready(remaining[i], known)
    requires |bars'| == |bars| + 1 && bars'[..|bars|] == bars && bars'[|bars|].task == remaining[i]
    ensures RoundSoFar(ws, known0, bars0, bars', remaining[..i] + remaining[i + 1..], i, known + {remaining[i].id})
  {
    var remaining' := remaining[..i] + remaining[i + 1..];
    assert remaining'[i..] == remaining[i..][1..] && remaining'[..i] == remaining[..i];
    assert bars' == bars + [bars'[|bars|]];
    AppendTask(bars, |bars0|, bars'[|bars|]);
  }

  /** Passing over a task that is not ready moves it from the rest of the round to the tasks left. */
  lemma {:induction false} RoundSoFarSkip(ws: seq<Task>, known0: set<string>, bars0: seq<Bar>, bars: seq<Bar>,
                       remaining: seq<Task>, i: nat, known: set<string>)
    requires i < |remaining| && RoundSoFar(ws, known0, bars0, bars, remaining, i, known)
    requires !Ready(remaining[i], known)
    ensures RoundSoFar(ws, known0, bars0, bars, remaining, i + 1, known)
  {
    assert remaining[i + 1..] == remaining[i..][1..];
    assert remaining[..i + 1] == remaining[..i] + [remaining[i]];
  }

  /** Draws the ready task `remaining[i]` and takes it off the waiting list (`remaining.splice(i, 1)`). */
  method TakeReady(tasks: seq<Task>, remaining0: seq<Task>, i: nat, bars0: seq<Bar>, cursor0: real, positions0: map<string, real>,
                   ghost before: seq<Bar>, ghost start: seq<Bar>)
    returns (remaining: seq<Task>, bars: seq<Bar>, cursor: real, positions: map<string, real>)
    requires i < |remaining0| && |start| <= |bars0| && bars0[..|start|] == start
    requires forall n :: |start| <= n < |bars0| ==> !bars0[n].circular
    requires forall t :: t in remaining0 ==> |t.blockedBy| > 0
    requires forall j :: 0 <= j < |BlockerIds(remaining0[i])| ==> BlockerIds(remaining0[i])[j] in positions0
    requires cursor0 == Cursor(before + bars0) && positions0 == PositionsOf(before + bars0)
    requires AllWellPlaced(tasks, before, bars0)
    ensures remaining == remaining0[..i] + remaining0[i + 1..]
    ensures |bars| == |bars0| + 1 && bars[..|bars0|] == bars0 && bars[|bars0|].task == remaining0[i]
    ensures bars[..|start|] == start
    ensures forall n :: |start| <= n < |bars| ==> !bars[n].circular
    ensures positions.Keys == positions0.Keys + {remaining0[i].id}
    ensures forall t :: t in remaining ==> |t.blockedBy| > 0
    ensures cursor == Cursor(before + bars) && positions == PositionsOf(before + bars)
    ensures AllWellPlaced(tasks, before, bars)
  {
    var task := remaining0[i];
    var bar := PlaceReady(tasks, task, cursor0, positions0, before + bars0);
    AppendBar(tasks, before, bars0, bar);
    AppendQuiet(start, bars0, bar);
    bars := bars0 + [bar];
    positions := positions0[task.id := bar.start];
    cursor := bar.start + task.estimate;
    remaining := remaining0[..i] + remaining0[i + 1..];
    StillWaiting(remaining0, i);
  }

  /** Taking one task off the waiting list leaves only blocked tasks waiting. */
  lemma StillWaiting(remaining: seq<Task>, i: nat)
    requires i < |remaining| && forall t :: t in remaining ==> |t.blockedBy| > 0
    ensures |remaining[..i] + remaining[i + 1..]| + 1 == |remaining|
    ensures forall t :: t in remaining[..i] + remaining[i + 1..] ==> |t.blockedBy| > 0
  {
    RemoveAt(remaining, i);
  }

  /** Appending a bar without the warning keeps the round's bars free of it. */
  lemma AppendQuiet(start: seq<Bar>, bars0: seq<Bar>, bar: Bar)
    requires |start| <= |bars0| && bars0[..|start|] == start && !bar.circular
    requires forall n :: |start| <= n < |bars0| ==> !bars0[n].circular
    ensures (bars0 + [bar])[..|start|] == start
    ensures forall n :: |start| <= n < |bars0| + 1 ==> !(bars0 + [bar])[n].circular
  {
    SnocPrefix(bars0, bar, |start|);
  }

  /** A waiting task whose blockers all have a position: `Math.max(currentPos, startAfter)`. */
  method PlaceReady(tasks: seq<Task>, task: Task, cursor: real, positions: map<string, real>, ghost prefix: seq<Bar>)
    returns (bar: Bar)
    requires cursor == Cursor(prefix) && positions == PositionsOf(prefix)
    requires |task.blockedBy| > 0
    requires forall j :: 0 <= j < |BlockerIds(task)| ==> BlockerIds(task)[j] in positions
    ensures bar.task == task && !bar.circular
    ensures WellPlaced(tasks, prefix, bar)
  {
    var startAfter := StartAfter(tasks, BlockerIds(task), positions);
    bar := Bar(task, Max(cursor, startAfter), IsListedAsSubtask(tasks, task.id), false);
    BlockedBarPlaced(tasks, prefix, bar, positions, startAfter);
  }

  /** The fallback of a round that drew nothing: every waiting task, in order, at the counter, with the cycle warning. */
  method PlaceCircular(tasks: seq<Task>, remaining: seq<Task>, bars0: seq<Bar>, cursor0: real, positions0: map<string, real>,
                       ghost before: seq<Bar>)
    returns (bars: seq<Bar>, cursor: real, positions: map<string, real>)
    requires cursor0 == Cursor(before + bars0) && positions0 == PositionsOf(before + bars0)
    requires AllWellPlaced(tasks, before, bars0)
    ensures |bars| == |bars0| + |remaining| && bars[..|bars0|] == bars0
    ensures forall n :: |bars0| <= n < |bars| ==> bars[n].task == remaining[n - |bars0|] && bars[n].circular
    ensures cursor == Cursor(before + bars) && positions == PositionsOf(before + bars)
    ensures AllWellPlaced(tasks, before, bars)
  {
    bars, cursor, positions := bars0, cursor0, positions0;
    var j := 0;
    CircularRunStart(tasks, remaining, bars0, before);
    while j < |remaining|
      invariant 0 <= j <= |remaining|
      invariant CircularRun(tasks, remaining, j, bars0, bars, before)
      invariant cursor == Cursor(before + bars) && positions == PositionsOf(before + bars)
    {
      var task := remaining[j];
      var bar := Bar(task, cursor, IsListedAsSubtask(tasks, task.id), true);
      CircularStep(tasks, remaining, j, bars0, bars, before);
      positions := positions[task.id := cursor];
      bars := bars + [bar];
      cursor := cursor + task.estimate;
      j := j + 1;
    }
  }

  /** Before the fallback draws anything, its run is empty. */
  lemma CircularRunStart(tasks: seq<Task>, remaining: seq<Task>, bars0: seq<Bar>, before: seq<Bar>)
    requires AllWellPlaced(tasks, before, bars0)
    ensures CircularRun(tasks, remaining, 0, bars0, bars0, before)
  {
    assert bars0[..|bars0|] == bars0;
  }

  /** The fallback after `j` waiting tasks: they are drawn in order after `bars0`, all with the warning. */
  ghost predicate CircularRun(tasks: seq<Task>, remaining: seq<Task>, j: nat, bars0: seq<Bar>, bars: seq<Bar>,
                              before: seq<Bar>)
    requires j <= |remaining|
  {
    && |bars| == |bars0| + j && bars[..|bars0|] == bars0
    && (forall n :: |bars0| <= n < |bars| ==> bars[n].task == remaining[n - |bars0|] && bars[n].circular)
    && AllWellPlaced(tasks, before, bars)
  }

  /** Drawing the next waiting task at the counter, with the warning, extends the fallback run. */
  lemma CircularStep(tasks: seq<Task>, remaining: seq<Task>, j: nat, bars0: seq<Bar>, bars: seq<Bar>,
                     before: seq<Bar>)
    requires j < |remaining| && CircularRun(tasks, remaining, j, bars0, bars, before)
    ensures var bar := Bar(remaining[j], Cursor(before + bars), IsListedAsSubtask(tasks, remaining[j].id), true);
            && CircularRun(tasks, remaining, j + 1, bars0, bars + [bar], before)
            && Cursor(before + (bars + [bar])) == Cursor(before + bars) + remaining[j].estimate
            && PositionsOf(before + (bars + [bar])) == PositionsOf(before + bars)[remaining[j].id := Cursor(before + bars)]
  {
    var bar := Bar(remaining[j], Cursor(before + bars), IsListedAsSubtask(tasks, remaining[j].id), true);
    CircularBarPlaced(tasks, before, bars, bar);
    CircularOrder(remaining, j, bars0, bars, bar);
    SnocPrefix(bars, bar, |bars0|);
  }

  /** A bar drawn at the counter with the warning is well placed, and moves the counter and its task's position. */
  lemma CircularBarPlaced(tasks: seq<Task>, before: seq<Bar>, bars: seq<Bar>, bar: Bar)
    requires AllWellPlaced(tasks, before, bars)
    requires bar.start == Cursor(before + bars) && bar.subtask == IsListedAsSubtask(tasks, bar.task.id) && bar.circular
    ensures AllWellPlaced(tasks, before, bars + [bar])
    ensures Cursor(before + (bars + [bar])) == bar.start + bar.task.estimate
    ensures PositionsOf(before + (bars + [bar])) == PositionsOf(before + bars)[bar.task.id := bar.start]
  {
    AppendBar(tasks, before, bars, bar);
  }

  /** Drawing `remaining[j]` with the warning extends the fallback's run in list order. */
  lemma {:induction false} CircularOrder(remaining: seq<Task>, j: nat, bars0: seq<Bar>, bars: seq<Bar>, bar: Bar)
    requires j < |remaining| && |bars| == |bars0| + j && bar.task == remaining[j] && bar.circular
    requires forall n :: |bars0| <= n < |bars| ==> bars[n].task == remaining[n - |bars0|] && bars[n].circular
    ensures forall n :: |bars0| <= n < |bars| + 1 ==>
              (bars + [bar])[n].task == remaining[n - |bars0|] && (bars + [bar])[n].circular
  {
  }

  /** A blocked bar drawn at `Math.max(currentPos, startAfter)` is well placed. */
  lemma BlockedBarPlaced(tasks: seq<Task>, prefix: seq<Bar>, bar: Bar, positions: map<string, real>, startAfter: real)
    requires positions == PositionsOf(prefix)
    requires BlockerIds(bar.task) != [] && !bar.circular
    requires bar.subtask == IsListedAsSubtask(tasks, bar.task.id)
    requires bar.start == Max(Cursor(prefix), startAfter)
    requires forall j :: 0 <= j < |BlockerIds(bar.task)| ==> BlockerIds(bar.task)[j] in positions
    requires startAfter >= 0.0
    requires forall j :: 0 <= j < |BlockerIds(bar.task)| ==>
               startAfter >= BlockerEnd(tasks, positions, BlockerIds(bar.task)[j])
    requires startAfter == 0.0 ||
             exists j :: 0 <= j < |BlockerIds(bar.task)| && startAfter == BlockerEnd(tasks, positions, BlockerIds(bar.task)[j])
    ensures WellPlaced(tasks, prefix, bar)
  {
    var blockers := BlockerIds(bar.task);
    forall b | b in blockers ensures b in positions && bar.start >= positions[b] + EstimateOf(tasks, b) {
      var j :| 0 <= j < |blockers| && blockers[j] == b;
    }
    if startAfter != 0.0 && bar.start == startAfter {
      var j :| 0 <= j < |blockers| && startAfter == BlockerEnd(tasks, positions, blockers[j]);
      assert blockers[j] in blockers;
    }
  }

  /** The blocked part of a section grows by the task of the appended bar. */
  lemma AppendTask(bars: seq<Bar>, u: int, bar: Bar)
    requires 0 <= u <= |bars|
    ensures BarTasks((bars + [bar])[u..]) == BarTasks(bars[u..]) + [bar.task]
  {
    DropSnoc(bars, bar, u);
    SnocPrefix(bars[u..], bar, |bars[u..]|);
  }

  /** All bars of all sections, section after section. */
  function AllBars(cs: seq<ChartSection>): seq<Bar>
  {
    if cs == [] then [] else AllBars(cs[..|cs| - 1]) + cs[|cs| - 1].bars
  }

  lemma AllWellPlacedConcat(tasks: seq<Task>, a: seq<Bar>, b: seq<Bar>)
    requires AllWellPlaced(tasks, [], a) && AllWellPlaced(tasks, a, b)
    ensures AllWellPlaced(tasks, [], a + b)
  {
    forall n | 0 <= n < |a + b| ensures WellPlaced(tasks, [] + (a + b)[..n], (a + b)[n]) {
      TakeAll((a + b)[..n]);
      if n < |a| {
        TakeAll(a[..n]);
        assert (a + b)[..n] == a[..n];
      } else {
        assert (a + b)[..n] == a + b[..n - |a|];
      }
    }
  }

  /**
   * The schedule of a non-empty task list: one chart section per section, in
   * the same order and with the same name, each scheduled as its tasks demand,
   * and every bar well placed after all the bars before it.
   */
  ghost predicate ChartScheduled(tasks: seq<Task>, cs: seq<ChartSection>)
  {
    var ss := SectionsOf(SectionTitlesOf(tasks), tasks);
    && |cs| == |ss|
    && SectionsScheduled(ss, cs, |cs|)
    && AllWellPlaced(tasks, [], AllBars(cs))
  }

  /** The scheduling done by `generateMermaidGantt`, section by section with one shared counter. */
  method ScheduleGantt(tasks: seq<Task>) returns (chart: Chart)
    ensures tasks == [] <==> chart == NoTasks
    ensures chart.Gantt? ==> ChartScheduled(tasks, chart.sections)
  {
    if |tasks| == 0 {
      return NoTasks;
    }
    var titles := CollectSectionTitles(tasks);
    var sections := GroupSections(tasks, titles);
    var cursor, positions := 0.0, map[];
    var out: seq<ChartSection> := [];
    var i := 0;
    while i < |sections|
      invariant 0 <= i <= |sections| && |out| == i
      invariant SectionsScheduled(sections, out, i)
      invariant cursor == Cursor(AllBars(out)) && positions == PositionsOf(AllBars(out))
      invariant AllWellPlaced(tasks, [], AllBars(out))
    {
      var bars;
      bars, cursor, positions := PlaceSection(tasks, sections[i].tasks, cursor, positions, AllBars(out));
      AllWellPlacedConcat(tasks, AllBars(out), bars);
      var section := ChartSection(sections[i].name, bars);
      AllBarsAppend(out, section);
      SectionsScheduledSnoc(sections, out, section);
      out := out + [section];
      i := i + 1;
    }
    chart := Gantt(out);
  }

  /** The first `i` chart sections have the names and the schedules of the first `i` sections. */
  ghost predicate SectionsScheduled(ss: seq<Section>, cs: seq<ChartSection>, i: nat)
  {
    i <= |ss| && i <= |cs|
    && forall j :: 0 <= j < i ==> cs[j].name == ss[j].name && SectionScheduled(ss[j].tasks, AllBars(cs[..j]), cs[j].bars)
  }

  lemma SectionsScheduledSnoc(ss: seq<Section>, cs: seq<ChartSection>, c: ChartSection)
    requires SectionsScheduled(ss, cs, |cs|) && |cs| < |ss|
    requires c.name == ss[|cs|].name && SectionScheduled(ss[|cs|].tasks, AllBars(cs), c.bars)
    ensures SectionsScheduled(ss, cs + [c], |cs| + 1)
  {
    forall j | 0 <= j < |cs| + 1
      ensures (cs + [c])[j].name == ss[j].name && SectionScheduled(ss[j].tasks, AllBars((cs + [c])[..j]), (cs + [c])[j].bars)
    {
      SnocPrefix(cs, c, if j < |cs| then j else |cs|);
      if j < |cs| {
        assert (cs + [c])[j] == cs[j];
      }
    }
  }

  lemma AllBarsAppend(cs: seq<ChartSection>, s: ChartSection)
    ensures AllBars(cs + [s]) == AllBars(cs) + s.bars
  {
    SnocPrefix(cs, s, |cs|);
  }

  /** A section lists each of its tasks exactly once: as many bars as tasks, the same tasks. */
  lemma {:induction false} SectionBarsComplete(sectionTasks: seq<Task>, before: seq<Bar>, bars: seq<Bar>)
    requires SectionScheduled(sectionTasks, before, bars)
    ensures multiset(BarTasks(bars)) == multiset(sectionTasks)
    ensures |bars| == |sectionTasks|
  {
    var u := Unblocked(sectionTasks);
    var blocked := Blocked(sectionTasks);
    var known := PositionsOf(before + bars[..|u|]).Keys;
    UnblockedBarTasks(u, bars);
    BlockedBarTasks(blocked, known, before, bars, |u|);
    BlockedOrderPermutes(blocked, known);
    SplitSection(sectionTasks);
    var o := BlockedOrder(blocked, known);
    calc {
      multiset(BarTasks(bars));
      multiset(u + (o.0 + o.1));
      multiset(u) + multiset(o.0) + multiset(o.1);
      multiset(sectionTasks);
    }
    calc {
      |bars|;
      |BarTasks(bars)|;
      |multiset(BarTasks(bars))|;
      |multiset(sectionTasks)|;
      |sectionTasks|;
    }
  }

  /** The first `|u|` bars draw the tasks `u`, in order. */
  lemma {:induction false} UnblockedBarTasks(u: seq<Task>, bars: seq<Bar>)
    requires |u| <= |bars| && forall n :: 0 <= n < |u| ==> bars[n].task == u[n]
    ensures BarTasks(bars) == u + BarTasks(bars[|u|..])
  {
    var a := bars[..|u|];
    assert BarTasks(a) == u by {
      assert forall i :: 0 <= i < |u| ==> BarTasks(a)[i] == a[i].task == bars[i].task;
    }
    SplitAt(bars, |u|);
    BarTasksAppend(a, bars[|u|..]);
  }

  /** The bars from `u` on draw the blocked tasks in the order `BlockedOrder` gives. */
  lemma {:induction false} BlockedBarTasks(ws: seq<Task>, known: set<string>, before: seq<Bar>, bars: seq<Bar>, u: nat)
    requires BlockedDrawn(ws, known, before, bars, u)
    ensures BarTasks(bars[u..]) == BlockedOrder(ws, known).0 + BlockedOrder(ws, known).1
  {
  }

  lemma BarTasksAppend(a: seq<Bar>, b: seq<Bar>)
    ensures BarTasks(a + b) == BarTasks(a) + BarTasks(b)
  {
  }

  /**
   * A blocked bar without the cycle warning comes after a bar of each of its
   * blockers, and starts no earlier than that blocker's position plus its estimate.
   */
  lemma BlockersDrawnFirst(tasks: seq<Task>, bars: seq<Bar>, n: int, b: string)
    requires AllWellPlaced(tasks, [], bars)
    requires 0 <= n < |bars| && !bars[n].circular && b in BlockerIds(bars[n].task)
    ensures exists m :: 0 <= m < n && bars[m].task.id == b && bars[n].start >= bars[m].start + EstimateOf(tasks, b)
  {
    var prefix := bars[..n];
    StartsAfterBlocker(tasks, bars, n, b);
    PositionIsEarlierBar(prefix, b);
    var m :| 0 <= m < n && prefix[m].task.id == b && PositionsOf(prefix)[b] == prefix[m].start;
    assert prefix[m] == bars[m];
  }

  /** A blocked bar without the warning starts after the recorded position of each blocker plus its estimate. */
  lemma StartsAfterBlocker(tasks: seq<Task>, bars: seq<Bar>, n: int, b: string)
    requires AllWellPlaced(tasks, [], bars)
    requires 0 <= n < |bars| && !bars[n].circular && b in BlockerIds(bars[n].task)
    ensures b in PositionsOf(bars[..n]) && bars[n].start >= PositionsOf(bars[..n])[b] + EstimateOf(tasks, b)
  {
    assert WellPlaced(tasks, [] + bars[..n], bars[n]);
    assert [] + bars[..n] == bars[..n];
  }

  /** `currentPos` never goes back when a bar with a non-negative estimate is drawn. */
  lemma CounterNeverDecreases(tasks: seq<Task>, bars: seq<Bar>, n: int)
    requires AllWellPlaced(tasks, [], bars)
    requires 0 <= n < |bars| && bars[n].task.estimate >= 0.0
    ensures Cursor(bars[..n]) <= Cursor(bars[..n + 1])
  {
    StartsAfterCounter(tasks, bars, n);
    CursorAfter(bars, n);
  }

  /** Every bar starts at or after the counter left by the bars before it. */
  lemma StartsAfterCounter(tasks: seq<Task>, bars: seq<Bar>, n: int)
    requires AllWellPlaced(tasks, [], bars) && 0 <= n < |bars|
    ensures bars[n].start >= Cursor(bars[..n])
  {
    assert WellPlaced(tasks, [] + bars[..n], bars[n]);
    assert [] + bars[..n] == bars[..n];
  }

  lemma CursorAfter(bars: seq<Bar>, n: int)
    requires 0 <= n < |bars|
    ensures Cursor(bars[..n + 1]) == bars[n].start + bars[n].task.estimate
  {
    assert bars[..n + 1][n] == bars[n];
  }

  /** With non-negative estimates, the bars start in the order they are drawn. */
  lemma {:induction false} StartsInOrder(tasks: seq<Task>, bars: seq<Bar>, m: int, n: int)
    requires AllWellPlaced(tasks, [], bars)
    requires forall i :: 0 <= i < |bars| ==> bars[i].task.estimate >= 0.0
    requires 0 <= m <= n < |bars|
    ensures bars[m].start <= bars[n].start
    decreases n - m
  {
    if m < n {
      StartsInOrder(tasks, bars, m + 1, n);
      StartsAfterCounter(tasks, bars, m + 1);
      CursorAfter(bars, m);
    }
  }

  // The chart text

  const HEADER: string := "gantt\n  title Task Dependencies\n  dateFormat X\n  axisFormat %d\n\n"

  const NO_TASKS_CHART: string := "gantt\n  title Task Dependencies\n  dateFormat X\n  section No Tasks\n  No tasks found :0, 1"

  /** `id.replace(/-/g, '_')` */
  function ReplaceHyphens(id: string): (r: string)
    ensures |r| == |id|
    ensures forall i :: 0 <= i < |id| ==> r[i] == if id[i] == '-' then '_' else id[i]
  {
    if id == [] then [] else [if id[0] == '-' then '_' else id[0]] + ReplaceHyphens(id[1..])
  }

  /** `safeId`: the Mermaid id of a task. */
  function SafeId(id: string): string
  {
    "task_" + ReplaceHyphens(id)
  }

  /** A Mermaid id starts with `task_` and holds no hyphen. */
  lemma SafeIdShape(id: string)
    ensures |SafeId(id)| == |id| + 5 && SafeId(id)[..5] == "task_"
    ensures '-' !in SafeId(id)
  {
    var r := SafeId(id);
    forall i | 0 <= i < |r| ensures r[i] != '-' {
      if i >= 5 {
        assert r[i] == ReplaceHyphens(id)[i - 5];
      }
    }
  }

  /** Two different ids can share a Mermaid id: the replacement is not one-to-one. */
  lemma SafeIdCollision()
    ensures "a-b" != "a_b" && SafeId("a-b") == SafeId("a_b")
  {
    assert ReplaceHyphens("a-b") == ReplaceHyphens("a_b") == "a_b";
  }

  function SafeIds(ids: seq<string>): (r: seq<string>)
    ensures |r| == |ids| && forall i :: 0 <= i < |ids| ==> r[i] == SafeId(ids[i])
  {
    if ids == [] then [] else [SafeId(ids[0])] + SafeIds(ids[1..])
  }

  /**
   * One task line. `num` is JavaScript's conversion of a number to text, which
   * the template literals apply to the start and the duration.
   */
  function BarLine(bar: Bar, num: real -> string): string
  {
    var prefix := if bar.subtask then "    " else "  ";
    var warning := if bar.circular then " (circular dependency)" else "";
    var after := if !bar.circular && |bar.task.blockedBy| > 0
                 then " after " + Join(SafeIds(BlockerIds(bar.task)), " ") else "";
    prefix + bar.task.title + warning + " :" + SafeId(bar.task.id) + ", " + num(bar.start) + ", "
      + num(bar.task.estimate) + "d" + after + "\n"
  }

  function BarLines(bars: seq<Bar>, num: real -> string): string
  {
    if bars == [] then "" else BarLines(bars[..|bars| - 1], num) + BarLine(bars[|bars| - 1], num)
  }

  /** A section header, its task lines and the empty line after them. */
  function SectionText(s: ChartSection, num: real -> string): string
  {
    "  section " + s.name + "\n" + BarLines(s.bars, num) + "\n"
  }

  function SectionsText(cs: seq<ChartSection>, num: real -> string): string
  {
    if cs == [] then "" else SectionsText(cs[..|cs| - 1], num) + SectionText(cs[|cs| - 1], num)
  }

  /** The Mermaid text of a chart. */
  function Render(chart: Chart, num: real -> string): string
  {
    match chart
    case NoTasks => NO_TASKS_CHART
    case Gantt(cs) => HEADER + SectionsText(cs, num)
  }

  /**
   * `generateMermaidGantt`: the fixed placeholder for no tasks; otherwise the
   * four header lines followed by the text of a schedule as `ScheduleGantt` makes it.
   */
  method GenerateMermaidGantt(tasks: seq<Task>, num: real -> string) returns (code: string)
    ensures tasks == [] ==> code == NO_TASKS_CHART
    ensures tasks != [] ==> |code| >= |HEADER| && code[..|HEADER|] == HEADER
    ensures tasks != [] ==> exists cs :: ChartScheduled(tasks, cs) && code == HEADER + SectionsText(cs, num)
  {
    var chart := ScheduleGantt(tasks);
    code := Render(chart, num);
    if chart.Gantt? {
      assert (HEADER + SectionsText(chart.sections, num))[..|HEADER|] == HEADER;
    }
  }
}
