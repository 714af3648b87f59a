/**
 * The form for a kind of day: its checks on the name, on the availability
 * fraction and, when a new entry is created with its own id, on that id.
 */
module DayCapacityForm {
  import opened Common

  /** The entered data; `id` is absent unless an id was typed in. */
  datatype FormData = FormData(id: Option<string>, name: string, availability: real)

  /** The validation messages per field; an absent message means the field is fine. */
  datatype Errors = Errors(name: Option<string>, availability: Option<string>, id: Option<string>)

  const NoErrors := Errors(None, None, None)

  /** A character of the class `[a-z0-9-_\/]` matched case-insensitively. */
  predicate IdChar(c: char)
  {
    ('a' <= c <= 'z') || ('A' <= c <= 'Z') || ('0' <= c <= '9') || c == '-' || c == '_' || c == '/'
  }

  /** `/^[a-z0-9-_\/]+$/i.test(id)`: at least one character, and only allowed ones. */
  predicate MatchesIdPattern(id: string)
  {
    |id| > 0 && forall i :: 0 <= i < |id| ==> IdChar(id[i])
  }

  /** The id checks: a blank id is missing, any other id must match the pattern. */
  function IdError(id: string): (r: Option<string>)
    ensures r.Some? <==> !MatchesIdPattern(id)
    ensures r.Some? ==> r.value == (if IsBlank(id) then "ID is required" else "ID can only contain letters, numbers, hyphens, underscores, and forward slashes")
  {
    TrimEmptyIffBlank(id);
    BlankIsNoId(id);
    if Trim(id) == "" then Some("ID is required")
    else if !MatchesIdPattern(id) then Some("ID can only contain letters, numbers, hyphens, underscores, and forward slashes")
    else None
  }

  /**
   * `validateForm`: independent checks on the name, the availability and, only
   * when creating (`editing` is false) with an id entered, the id; the form is
   * valid when no message was recorded.
   */
  function ValidateForm(form: FormData, editing: bool): (errors: Errors)
    ensures errors.name.Some? <==> IsBlank(form.name)
    ensures errors.name.Some? ==> errors.name.value == "Name is required"
    ensures errors.availability.Some? <==> form.availability < 0.0 || form.availability > 1.0
    ensures errors.availability.Some? ==> errors.availability.value == "Availability must be between 0 and 1"
    ensures errors.id.Some? <==> !editing && form.id.Some? && !MatchesIdPattern(form.id.value)
    ensures errors.id.Some? ==> errors.id == IdError(form.id.value)
  {
    TrimEmptyIffBlank(form.name);
    var nameError := if Trim(form.name) == "" then Some("Name is required") else None;
    var availabilityError :=
      if form.availability < 0.0 || form.availability > 1.0 then Some("Availability must be between 0 and 1") else None;
    var idError := if form.id.Some? && !editing then IdError(form.id.value) else None;
    Errors(nameError, availabilityError, idError)
  }

  /** No whitespace character is allowed in an id, so a blank id never matches. */
  lemma BlankIsNoId(id: string)
    ensures IsBlank(id) ==> !MatchesIdPattern(id)
  {
    if |id| > 0 {
      assert IsWhitespace(id[0]) ==> !IdChar(id[0]);
    }
  }

  /**
   * The form is accepted exactly when the name is not blank, the availability
   * lies in the closed interval from 0 to 1, and a new entry's own id, if
   * any, consists of letters, digits, `-`, `_` and `/` only.
   */
  lemma ValidIff(form: FormData, editing: bool)
    ensures ValidateForm(form, editing) == NoErrors <==>
              && !IsBlank(form.name)
              && 0.0 <= form.availability <= 1.0
              && (editing || form.id.None? || MatchesIdPattern(form.id.value))
  {
  }
}
