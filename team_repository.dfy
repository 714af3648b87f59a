/**
 * Team storage: a stored team lists its people by id; loading replaces each id
 * by the person found under it, dropping ids whose person is gone. Membership
 * edits work on the loaded team and write back the resulting id list.
 */
module TeamRepository {
  import opened Common
  import opened People

  datatype Team = Team(id: string, name: string, people: seq<Person>)

  /** The stored document of a team: its people as ids. */
  datatype StoredTeam = StoredTeam(name: string, people: seq<string>)

  /** The fields `updateTeam` writes; absent fields are left as stored. */
  datatype UpdateData = UpdateData(name: Option<string>, people: Option<seq<string>>)

  /** `people.map(person => person.id)` */
  function PersonIds(ps: seq<Person>): (r: seq<string>)
    ensures |r| == |ps|
    ensures forall i :: 0 <= i < |ps| ==> r[i] == ps[i].id
  {
    if ps == [] then [] else [ps[0].id] + PersonIds(ps[1..])
  }

  /**
   * Hydration of stored ids: `find` stands for the person lookup by id, none
   * meaning the person no longer exists. Found people are kept in stored
   * order; the others are dropped.
   */
  function HydratePeople(ids: seq<string>, find: string -> Option<Person>): (r: seq<Person>)
    ensures |r| <= |ids|
  {
    if ids == [] then []
    else (if find(ids[0]).Some? then [find(ids[0]).value] else []) + HydratePeople(ids[1..], find)
  }

  /** A person is loaded exactly when some stored id finds it. */
  lemma {:induction false} HydrateMembers(ids: seq<string>, find: string -> Option<Person>, p: Person)
    ensures p in HydratePeople(ids, find) <==> exists i :: 0 <= i < |ids| && find(ids[i]) == Some(p)
  {
    if ids != [] {
      HydrateMembers(ids[1..], find, p);
      if exists i :: 1 <= i < |ids| && find(ids[i]) == Some(p) {
        var i :| 1 <= i < |ids| && find(ids[i]) == Some(p);
        assert ids[1..][i - 1] == ids[i];
      }
      if exists i :: 0 <= i < |ids[1..]| && find(ids[1..][i]) == Some(p) {
        var i :| 0 <= i < |ids[1..]| && find(ids[1..][i]) == Some(p);
        assert ids[i + 1] == ids[1..][i];
      }
    }
  }

  /** Hydration works id by id, so it keeps the stored order across any split of the list. */
  lemma {:induction false} HydrateAppend(a: seq<string>, b: seq<string>, find: string -> Option<Person>)
    ensures HydratePeople(a + b, find) == HydratePeople(a, find) + HydratePeople(b, find)
  {
    if a == [] {
      assert a + b == b;
    } else {
      assert (a + b)[0] == a[0] && (a + b)[1..] == a[1..] + b;
      HydrateAppend(a[1..], b, find);
      var head := if find(a[0]).Some? then [find(a[0]).value] else [];
      calc {
        HydratePeople(a + b, find);
        head + HydratePeople(a[1..] + b, find);
        head + (HydratePeople(a[1..], find) + HydratePeople(b, find));
        (head + HydratePeople(a[1..], find)) + HydratePeople(b, find);
      }
    }
  }

  /** When every id finds a person, nobody is dropped. */
  lemma {:induction false} HydrateAllFound(ids: seq<string>, find: string -> Option<Person>)
    requires forall i :: 0 <= i < |ids| ==> find(ids[i]).Some?
    ensures |HydratePeople(ids, find)| == |ids|
  {
    if ids != [] {
      assert forall i :: 0 <= i < |ids[1..]| ==> ids[1..][i] == ids[i + 1];
      HydrateAllFound(ids[1..], find);
    }
  }

  /** `getTeamById` / `getAllTeams` for one stored document. */
  function LoadTeam(id: string, doc: StoredTeam, find: string -> Option<Person>): (r: Team)
    ensures r.id == id && r.name == doc.name && |r.people| <= |doc.people|
  {
    Team(id, doc.name, HydratePeople(doc.people, find))
  }

  /**
   * `createTeam`: `newId` is the generated identifier. The document stores the
   * people as their ids in the given order, and the returned team holds the
   * people as given.
   */
  function CreateTeam(newId: string, name: string, people: seq<Person>): (r: (StoredTeam, Team))
    ensures r.0.name == name && r.0.people == PersonIds(people)
    ensures r.1 == Team(newId, name, people)
  {
    (StoredTeam(name, PersonIds(people)), Team(newId, name, people))
  }

  /**
   * Loading a created team back gives the team that was returned, as long as
   * each of its people is still found under its id.
   */
  lemma {:induction false} CreatedTeamLoadsBack(newId: string, name: string, people: seq<Person>, find: string -> Option<Person>)
    requires forall i :: 0 <= i < |people| ==> find(people[i].id) == Some(people[i])
    ensures LoadTeam(newId, CreateTeam(newId, name, people).0, find) == CreateTeam(newId, name, people).1
  {
    PeopleReload(people, find);
  }

  lemma {:induction false} PeopleReload(people: seq<Person>, find: string -> Option<Person>)
    requires forall i :: 0 <= i < |people| ==> find(people[i].id) == Some(people[i])
    ensures HydratePeople(PersonIds(people), find) == people
  {
    if people != [] {
      assert forall i :: 0 <= i < |people[1..]| ==> people[1..][i] == people[i + 1];
      PeopleReload(people[1..], find);
      assert PersonIds(people)[1..] == PersonIds(people[1..]);
      assert people == [people[0]] + people[1..];
    }
  }

  /** `updateTeam`: only the given fields are written, people as their ids. */
  function UpdateTeam(name: Option<string>, people: Option<seq<Person>>): (r: UpdateData)
    ensures r.name == name
    ensures r.people.Some? <==> people.Some?
    ensures people.Some? ==> r.people.value == PersonIds(people.value)
  {
    UpdateData(name, if people.Some? then Some(PersonIds(people.value)) else None)
  }

  /**
   * `addPersonToTeam`: an error for a missing team; no write when a member
   * has the person's id; otherwise the people with the person appended.
   */
  function AddPersonToTeam(team: Option<Team>, teamId: string, person: Person): (r: Result<Option<UpdateData>>)
    ensures r.Err? <==> team.None?
    ensures r.Err? ==> r.message == "Team with ID " + teamId + " not found"
    ensures r == Ok(None) <==> team.Some? && person.id in PersonIds(team.value.people)
    ensures r.Ok? && r.value.Some? ==>
              && r.value.value == UpdateData(None, Some(PersonIds(team.value.people) + [person.id]))
              && person.id !in PersonIds(team.value.people)
  {
    if team.None? then Err("Team with ID " + teamId + " not found")
    else if person.id in PersonIds(team.value.people) then Ok(None)
    else
      assert PersonIds(team.value.people + [person]) == PersonIds(team.value.people) + [person.id];
      Ok(Some(UpdateTeam(None, Some(team.value.people + [person]))))
  }

  /** Adding a member never lists an id twice. */
  lemma AddPersonKeepsDistinct(team: Option<Team>, teamId: string, person: Person)
    requires team.Some? && Distinct(PersonIds(team.value.people))
    requires AddPersonToTeam(team, teamId, person).Ok? && AddPersonToTeam(team, teamId, person).value.Some?
    ensures Distinct(AddPersonToTeam(team, teamId, person).value.value.people.value)
  {
  }

  /** `team.people.filter(p => p.id !== personId)` */
  function WithoutPerson(people: seq<Person>, personId: string): seq<Person>
  {
    Filter(people, (p: Person) => p.id != personId)
  }

  /**
   * `removePersonFromTeam`: an error for a missing team; no write when the
   * filtered list is as long as before; otherwise the people without every
   * member of that id.
   */
  function RemovePersonFromTeam(team: Option<Team>, teamId: string, personId: string): (r: Result<Option<UpdateData>>)
    ensures r.Err? <==> team.None?
    ensures r.Err? ==> r.message == "Team with ID " + teamId + " not found"
    ensures r.Ok? && r.value.Some? ==>
              r.value.value == UpdateData(None, Some(PersonIds(WithoutPerson(team.value.people, personId))))
  {
    if team.None? then Err("Team with ID " + teamId + " not found")
    else
      var updatedPeople := WithoutPerson(team.value.people, personId);
      if |updatedPeople| == |team.value.people| then Ok(None)
      else Ok(Some(UpdateTeam(None, Some(updatedPeople))))
  }

  /**
   * The length test skips the write exactly when nobody has the id; when it
   * writes, the id is gone and everybody else stays, in order.
   */
  lemma RemovePersonMeaning(team: Option<Team>, teamId: string, personId: string, p: Person)
    requires team.Some?
    ensures RemovePersonFromTeam(team, teamId, personId) == Ok(None) <==> personId !in PersonIds(team.value.people)
    ensures personId !in PersonIds(WithoutPerson(team.value.people, personId))
    ensures p.id != personId ==> (p in WithoutPerson(team.value.people, personId) <==> p in team.value.people)
    ensures Subsequence(WithoutPerson(team.value.people, personId), team.value.people)
  {
    var people := team.value.people;
    var keep := (p: Person) => p.id != personId;
    if personId in PersonIds(people) {
      var i :| 0 <= i < |people| && PersonIds(people)[i] == personId;
      FilterShrinks(people, keep, i);
    } else {
      FilterAllKept(people, keep);
    }
    if p in WithoutPerson(people, personId) {
      FilterSubset(people, keep, p);
    }
    FilterIsSubsequence(people, keep);
  }
}
