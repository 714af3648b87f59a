/**
 * The form that creates a person: editing the skill list, the weekly schedule
 * and the schedule exceptions of the person being entered, and the check that
 * accepts it.
 */
module PersonForm {
  import opened Common
  import opened People

  /** The person being entered, without an id. */
  datatype FormData = FormData(name: string, skills: seq<string>, weeklySchedule: WeeklySchedule,
                               scheduleExceptions: seq<ScheduleException>)

  /** The validation messages per field; only the name is ever checked. */
  datatype Errors = Errors(name: Option<string>, skills: Option<string>, weeklySchedule: Option<string>)

  /**
   * `handleAddSkill`: a non-blank input is trimmed and appended unless the list
   * already has it; the input field is emptied whenever it was not blank, even
   * when the skill was already listed. A blank input changes nothing.
   */
  function AddSkill(form: FormData, newSkill: string): (r: (FormData, string))
    ensures IsBlank(newSkill) ==> r == (form, newSkill)
    ensures !IsBlank(newSkill) ==> r.1 == ""
    ensures r.0 == form.(skills := r.0.skills)
    ensures !IsBlank(newSkill) && Trim(newSkill) !in form.skills ==> r.0.skills == form.skills + [Trim(newSkill)]
    ensures !IsBlank(newSkill) && Trim(newSkill) in form.skills ==> r.0.skills == form.skills
  {
    TrimEmptyIffBlank(newSkill);
    var skill := Trim(newSkill);
    if skill != "" then
      if skill !in form.skills then (form.(skills := form.skills + [skill]), "") else (form, "")
    else (form, newSkill)
  }

  /** Adding skills never lists a skill twice, and never lists a blank or untrimmed one. */
  lemma AddSkillKeepsDistinct(form: FormData, newSkill: string)
    requires Distinct(form.skills)
    ensures Distinct(AddSkill(form, newSkill).0.skills)
    ensures forall s :: s in AddSkill(form, newSkill).0.skills && s !in form.skills ==> s == Trim(newSkill) && s != ""
  {
    TrimEmptyIffBlank(newSkill);
    if !IsBlank(newSkill) && Trim(newSkill) !in form.skills {
      AppendNewKeepsDistinct(form.skills, Trim(newSkill));
    }
  }

  /** `handleRemoveSkill`: every entry equal to the skill is dropped. */
  function RemoveSkill(form: FormData, skill: string): (r: FormData)
    ensures r == form.(skills := WithoutSkill(form.skills, skill))
    ensures skill !in r.skills
  {
    WithoutSkillMeaning(form.skills, skill, skill);
    form.(skills := WithoutSkill(form.skills, skill))
  }

  /**
   * `handleDayCapacityChange`: when a capacity with the chosen id exists, the
   * first such capacity becomes the day's entry; nothing else changes, and an
   * unknown id changes nothing at all.
   */
  function DayCapacityChange(form: FormData, caps: seq<DayCapacity>, day: Weekday, capacityId: string): (r: FormData)
    ensures r == form.(weeklySchedule := r.weeklySchedule)
    ensures FindCapacity(caps, capacityId).None? ==> r == form
    ensures FindCapacity(caps, capacityId).Some? ==> Get(r.weeklySchedule, day) == FindCapacity(caps, capacityId).value
    ensures forall d :: d != day ==> Get(r.weeklySchedule, d) == Get(form.weeklySchedule, d)
  {
    var selected := FindCapacity(caps, capacityId);
    if selected.Some? then form.(weeklySchedule := Set(form.weeklySchedule, day, selected.value)) else form
  }

  /**
   * `handleAddException`: `date` is the picked date already formatted as
   * `yyyy-MM-dd`, none when no date is picked. With a date, a non-empty
   * capacity id and a capacity of that id, the exception is upserted by date
   * and the dialog closes (`closed`); otherwise nothing changes.
   */
  method AddException(form: FormData, caps: seq<DayCapacity>, date: Option<string>, availabilityId: string)
    returns (updated: FormData, closed: bool)
    ensures closed <==> date.Some? && availabilityId != "" && FindCapacity(caps, availabilityId).Some?
    ensures !closed ==> updated == form
    ensures closed ==> updated == form.(scheduleExceptions :=
                          Upserted(form.scheduleExceptions, ScheduleException(date.value, FindCapacity(caps, availabilityId).value)))
  {
    updated, closed := form, false;
    if date.Some? && availabilityId != "" {
      var selected := FindCapacity(caps, availabilityId);
      if selected.Some? {
        var exceptions := UpsertException(form.scheduleExceptions, ScheduleException(date.value, selected.value));
        updated := form.(scheduleExceptions := exceptions);
        closed := true;
      }
    }
  }

  /** `handleRemoveException`: every exception on the date is dropped. */
  function RemoveException(form: FormData, date: string): (r: FormData)
    ensures r == form.(scheduleExceptions := WithoutDate(form.scheduleExceptions, date))
    ensures FindDate(r.scheduleExceptions, date) == -1
  {
    WithoutDateMeaning(form.scheduleExceptions, date, ScheduleException(date, DayCapacity("", "", 0.0)));
    form.(scheduleExceptions := WithoutDate(form.scheduleExceptions, date))
  }

  /** `validateForm`: the only check is that the name is not blank. */
  method ValidateForm(form: FormData) returns (errors: Errors, valid: bool)
    ensures errors.skills.None? && errors.weeklySchedule.None?
    ensures errors.name == if IsBlank(form.name) then Some("Name is required") else None
    ensures valid <==> !IsBlank(form.name)
  {
    TrimEmptyIffBlank(form.name);
    errors := Errors(None, None, None);
    if Trim(form.name) == [] {
      errors := errors.(name := Some("Name is required"));
    }
    valid := errors.name.None? && errors.skills.None? && errors.weeklySchedule.None?;
  }
}
