/**
 * The person detail view: it edits a loaded person in place. Each handler
 * yields the person it writes back (and shows), or none when it writes nothing.
 */
module PersonDetail {
  import opened Common
  import opened People

  /** `handleSaveName`: a person is loaded and the new name is not blank; the name is stored untrimmed. */
  function SaveName(person: Option<Person>, name: string): (r: Option<Person>)
    ensures r.Some? <==> person.Some? && !IsBlank(name)
    ensures r.Some? ==> r.value == person.value.(name := name)
  {
    TrimEmptyIffBlank(name);
    if person.None? || Trim(name) == "" then None else Some(person.value.(name := name))
  }

  /**
   * `handleAddSkill`: a non-blank input is trimmed and appended when new, and
   * only then is the input field emptied; a blank or already listed skill
   * leaves both the list and the input as they were.
   */
  function AddSkill(skills: seq<string>, newSkill: string): (r: (seq<string>, string))
    ensures IsBlank(newSkill) || Trim(newSkill) in skills ==> r == (skills, newSkill)
    ensures !IsBlank(newSkill) && Trim(newSkill) !in skills ==> r == (skills + [Trim(newSkill)], "")
  {
    TrimEmptyIffBlank(newSkill);
    if Trim(newSkill) == "" then (skills, newSkill)
    else if Trim(newSkill) !in skills then (skills + [Trim(newSkill)], "")
    else (skills, newSkill)
  }

  /** The input is cleared exactly when the skill list grew, and a list without repeats keeps none. */
  lemma AddSkillClearsOnlyWhenAdded(skills: seq<string>, newSkill: string)
    requires Distinct(skills)
    ensures AddSkill(skills, newSkill).1 == "" <==> |AddSkill(skills, newSkill).0| == |skills| + 1 || newSkill == ""
    ensures Distinct(AddSkill(skills, newSkill).0)
  {
    TrimEmptyIffBlank(newSkill);
    if !IsBlank(newSkill) && Trim(newSkill) !in skills {
      AppendNewKeepsDistinct(skills, Trim(newSkill));
    }
  }

  /** `handleRemoveSkill`: every entry equal to the skill is dropped. */
  function RemoveSkill(skills: seq<string>, skill: string): (r: seq<string>)
    ensures r == WithoutSkill(skills, skill)
    ensures skill !in r && |r| <= |skills|
  {
    WithoutSkillMeaning(skills, skill, skill);
    WithoutSkill(skills, skill)
  }

  /**
   * `handleSaveSchedule`: with a loaded person, a chosen day and a capacity of
   * the chosen id, that day gets the capacity and every other day is kept;
   * otherwise nothing is written.
   */
  function SaveSchedule(person: Option<Person>, selectedDay: Option<Weekday>, caps: seq<DayCapacity>,
                        selectedCapacity: string): (r: Option<Person>)
    ensures r.Some? <==> person.Some? && selectedDay.Some? && FindCapacity(caps, selectedCapacity).Some?
    ensures r.Some? ==> r.value == person.value.(weeklySchedule := r.value.weeklySchedule)
    ensures r.Some? ==> Get(r.value.weeklySchedule, selectedDay.value) == FindCapacity(caps, selectedCapacity).value
    ensures r.Some? ==> forall d :: d != selectedDay.value ==> Get(r.value.weeklySchedule, d) == Get(person.value.weeklySchedule, d)
  {
    if person.None? || selectedDay.None? then None
    else
      var capacity := FindCapacity(caps, selectedCapacity);
      if capacity.None? then None
      else Some(person.value.(weeklySchedule := Set(person.value.weeklySchedule, selectedDay.value, capacity.value)))
  }

  /**
   * `handleSaveException`: with a loaded person and an exception whose
   * capacity has a non-empty id, the exception is upserted by date; otherwise
   * nothing is written.
   */
  method SaveException(person: Option<Person>, newException: ScheduleException) returns (r: Option<Person>)
    ensures r.Some? <==> person.Some? && newException.availability.id != ""
    ensures r.Some? ==> r.value == person.value.(scheduleExceptions := Upserted(person.value.scheduleExceptions, newException))
  {
    if person.None? || newException.availability.id == "" {
      return None;
    }
    var updatedExceptions := UpsertException(person.value.scheduleExceptions, newException);
    r := Some(person.value.(scheduleExceptions := updatedExceptions));
  }

  /** `handleDeleteException`: every exception on the date is dropped. */
  function DeleteException(person: Option<Person>, date: string): (r: Option<Person>)
    ensures r.Some? <==> person.Some?
    ensures r.Some? ==> r.value == person.value.(scheduleExceptions := WithoutDate(person.value.scheduleExceptions, date))
    ensures r.Some? ==> FindDate(r.value.scheduleExceptions, date) == -1
  {
    if person.None? then None
    else
      WithoutDateMeaning(person.value.scheduleExceptions, date, ScheduleException(date, DayCapacity("", "", 0.0)));
      Some(person.value.(scheduleExceptions := WithoutDate(person.value.scheduleExceptions, date)))
  }

  /**
   * `capitalizeFirstLetter`: `charAt(0).toUpperCase() + slice(1)`; the empty
   * string stays empty.
   */
  function CapitalizeFirstLetter(s: string): (r: string)
    ensures |r| == |s|
    ensures |s| > 0 ==> r[0] == UpperChar(s[0])
    ensures forall i :: 1 <= i < |s| ==> r[i] == s[i]
  {
    if s == [] then [] else Upper(s[..1]) + s[1..]
  }

  /** Capitalising twice is capitalising once. */
  lemma CapitalizeIdempotent(s: string)
    ensures CapitalizeFirstLetter(CapitalizeFirstLetter(s)) == CapitalizeFirstLetter(s)
  {
  }
}
