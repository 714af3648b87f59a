/**
 * People and their availability: named day capacities, the weekly schedule
 * that gives one capacity per weekday, and dated exceptions to it. The lookups
 * and the date-keyed upsert here are shared by the person form and the person
 * detail view.
 */
module People {
  import opened Common

  /** A kind of day and the fraction of it a person is available (0 to 1). */
  datatype DayCapacity = DayCapacity(id: string, name: string, availability: real)

  datatype Weekday = Monday | Tuesday | Wednesday | Thursday | Friday | Saturday | Sunday

  datatype WeeklySchedule = WeeklySchedule(
    monday: DayCapacity, tuesday: DayCapacity, wednesday: DayCapacity, thursday: DayCapacity,
    friday: DayCapacity, saturday: DayCapacity, sunday: DayCapacity)

  /** An override of the weekly schedule on one date, written `yyyy-MM-dd`. */
  datatype ScheduleException = ScheduleException(date: string, availability: DayCapacity)

  datatype Person = Person(id: string, name: string, skills: seq<string>, weeklySchedule: WeeklySchedule,
                           scheduleExceptions: seq<ScheduleException>)

  /** `schedule[day]` */
  function Get(w: WeeklySchedule, day: Weekday): DayCapacity
  {
    match day
    case Monday => w.monday
    case Tuesday => w.tuesday
    case Wednesday => w.wednesday
    case Thursday => w.thursday
    case Friday => w.friday
    case Saturday => w.saturday
    case Sunday => w.sunday
  }

  /** `{ ...schedule, [day]: capacity }` */
  function Set(w: WeeklySchedule, day: Weekday, c: DayCapacity): (r: WeeklySchedule)
    ensures Get(r, day) == c
    ensures forall d :: d != day ==> Get(r, d) == Get(w, d)
  {
    match day
    case Monday => w.(monday := c)
    case Tuesday => w.(tuesday := c)
    case Wednesday => w.(wednesday := c)
    case Thursday => w.(thursday := c)
    case Friday => w.(friday := c)
    case Saturday => w.(saturday := c)
    case Sunday => w.(sunday := c)
  }

  /** `capacities.find(c => c.id === id)`: the first capacity with the id. */
  function FindCapacity(caps: seq<DayCapacity>, id: string): (r: Option<DayCapacity>)
    ensures r.None? <==> forall k :: 0 <= k < |caps| ==> caps[k].id != id
    ensures r.Some? ==> r.value in caps && r.value.id == id
    ensures r.Some? ==> exists k :: 0 <= k < |caps| && caps[k] == r.value && forall j :: 0 <= j < k ==> caps[j].id != id
  {
    if caps == [] then None
    else if caps[0].id == id then Some(caps[0])
    else
      var r := FindCapacity(caps[1..], id);
      assert forall k :: 1 <= k < |caps| ==> caps[1..][k - 1] == caps[k];
      r
  }

  /** `exceptions.findIndex(e => e.date === date)`: the first index with the date, or -1. */
  function FindDate(exs: seq<ScheduleException>, date: string): (r: int)
    ensures -1 <= r < |exs|
    ensures r == -1 <==> forall k :: 0 <= k < |exs| ==> exs[k].date != date
    ensures r >= 0 ==> exs[r].date == date && forall k :: 0 <= k < r ==> exs[k].date != date
  {
    if exs == [] then -1
    else if exs[0].date == date then 0
    else
      var r := FindDate(exs[1..], date);
      assert forall k :: 1 <= k < |exs| ==> exs[1..][k - 1] == exs[k];
      if r == -1 then -1 else r + 1
  }

  /** The exception list after an upsert by date. */
  function Upserted(exs: seq<ScheduleException>, e: ScheduleException): seq<ScheduleException>
  {
    var i := FindDate(exs, e.date);
    if i >= 0 then exs[i := e] else exs + [e]
  }

  /**
   * The upsert both views perform: the list is copied into a fresh array, and
   * the entry at the first index with the same date is overwritten; without
   * such an entry the new one is appended.
   */
  method UpsertException(exs: seq<ScheduleException>, e: ScheduleException) returns (updated: seq<ScheduleException>)
    ensures updated == Upserted(exs, e)
    ensures FindDate(exs, e.date) >= 0 ==> |updated| == |exs| && updated[FindDate(exs, e.date)] == e
    ensures FindDate(exs, e.date) >= 0 ==> forall k :: 0 <= k < |exs| && k != FindDate(exs, e.date) ==> updated[k] == exs[k]
    ensures FindDate(exs, e.date) == -1 ==> updated == exs + [e]
  {
    var existingIndex := FindDate(exs, e.date);
    if existingIndex >= 0 {
      var copy := new ScheduleException[|exs|](k requires 0 <= k < |exs| => exs[k]);
      copy[existingIndex] := e;
      updated := copy[..];
    } else {
      updated := exs + [e];
    }
  }

  /** No two exceptions share a date. */
  predicate UniqueDates(exs: seq<ScheduleException>)
  {
    forall i, j :: 0 <= i < j < |exs| ==> exs[i].date != exs[j].date
  }

  /**
   * After an upsert the new entry is the one found for its date, the entries
   * of every other date are found as before, and dates that were unique stay so.
   */
  lemma UpsertMeaning(exs: seq<ScheduleException>, e: ScheduleException, date: string)
    ensures FindDate(Upserted(exs, e), e.date) >= 0
    ensures Upserted(exs, e)[FindDate(Upserted(exs, e), e.date)] == e
    ensures date != e.date ==> FindDate(Upserted(exs, e), date) == FindDate(exs, date)
    ensures UniqueDates(exs) ==> UniqueDates(Upserted(exs, e))
    ensures |Upserted(exs, e)| == if FindDate(exs, e.date) >= 0 then |exs| else |exs| + 1
  {
    UpsertFindsNew(exs, e);
    if date != e.date {
      UpsertKeepsOthers(exs, e, date);
    }
    if UniqueDates(exs) {
      UpsertKeepsUnique(exs, e);
    }
  }

  lemma UpsertFindsNew(exs: seq<ScheduleException>, e: ScheduleException)
    ensures FindDate(Upserted(exs, e), e.date) >= 0
    ensures Upserted(exs, e)[FindDate(Upserted(exs, e), e.date)] == e
  {
    var r := Upserted(exs, e);
    var i := FindDate(exs, e.date);
    if i >= 0 {
      FindDateAt(r, e.date, i);
    } else {
      FindDateAt(r, e.date, |exs|);
    }
  }

  lemma UpsertKeepsOthers(exs: seq<ScheduleException>, e: ScheduleException, date: string)
    requires date != e.date
    ensures FindDate(Upserted(exs, e), date) == FindDate(exs, date)
  {
    var r := Upserted(exs, e);
    var j := FindDate(exs, date);
    if j >= 0 {
      FindDateAt(r, date, j);
    } else {
      assert forall k :: 0 <= k < |r| ==> r[k].date != date;
    }
  }

  lemma UpsertKeepsUnique(exs: seq<ScheduleException>, e: ScheduleException)
    requires UniqueDates(exs)
    ensures UniqueDates(Upserted(exs, e))
  {
    var r := Upserted(exs, e);
    var i := FindDate(exs, e.date);
    forall a, b | 0 <= a < b < |r| ensures r[a].date != r[b].date {
      if i >= 0 {
        if a == i {
          assert r[a].date == exs[a].date;
        } else if b == i {
          assert r[b].date == exs[b].date;
        }
      } else if b == |exs| {
        assert r[a] == exs[a];
      }
    }
  }

  /** An index is the first with a date when it has the date and no earlier index does. */
  lemma FindDateAt(exs: seq<ScheduleException>, date: string, i: int)
    requires 0 <= i < |exs| && exs[i].date == date
    requires forall k :: 0 <= k < i ==> exs[k].date != date
    ensures FindDate(exs, date) == i
  {
  }

  /** `list.filter(e => e.date !== date)` */
  function WithoutDate(exs: seq<ScheduleException>, date: string): seq<ScheduleException>
  {
    Filter(exs, (e: ScheduleException) => e.date != date)
  }

  /**
   * Deleting by date drops exactly the entries with that date: every other
   * entry keeps its number of occurrences and its order.
   */
  lemma WithoutDateMeaning(exs: seq<ScheduleException>, date: string, e: ScheduleException)
    ensures multiset(WithoutDate(exs, date))[e] == if e.date == date then 0 else multiset(exs)[e]
    ensures Subsequence(WithoutDate(exs, date), exs)
    ensures FindDate(WithoutDate(exs, date), date) == -1
  {
    FilterCount(exs, (e: ScheduleException) => e.date != date, e);
    FilterIsSubsequence(exs, (e: ScheduleException) => e.date != date);
  }

  /** `list.filter(s => s !== skill)` */
  function WithoutSkill(skills: seq<string>, skill: string): seq<string>
  {
    Filter(skills, (s: string) => s != skill)
  }

  /** Removing a skill drops every equal entry and keeps the others, in order. */
  lemma WithoutSkillMeaning(skills: seq<string>, skill: string, s: string)
    ensures skill !in WithoutSkill(skills, skill)
    ensures s != skill ==> (s in WithoutSkill(skills, skill) <==> s in skills)
    ensures multiset(WithoutSkill(skills, skill))[s] == if s == skill then 0 else multiset(skills)[s]
    ensures Subsequence(WithoutSkill(skills, skill), skills)
  {
    FilterCount(skills, (x: string) => x != skill, s);
    FilterIsSubsequence(skills, (x: string) => x != skill);
    if s in WithoutSkill(skills, skill) {
      FilterSubset(skills, (x: string) => x != skill, s);
    }
  }

  /** A skill list without repeats, extended by a new skill, has no repeats. */
  lemma AppendNewKeepsDistinct(skills: seq<string>, skill: string)
    requires Distinct(skills) && skill !in skills
    ensures Distinct(skills + [skill])
  {
  }
}
