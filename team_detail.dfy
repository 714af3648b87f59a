/**
 * The team detail view: the avatar initials, the people offered for adding,
 * the local membership edits that follow a successful write, and the guard on
 * renaming.
 */
module TeamDetail {
  import opened Common
  import opened People
  import opened TeamRepository

  /**
   * `s.split(' ')`: the pieces between single spaces, empty pieces included,
   * so there is always at least one piece.
   */
  function Split(s: string): (r: seq<string>)
    ensures |r| >= 1
    decreases |s|
  {
    if s == [] then [""]
    else if s[0] == ' ' then [""] + Split(s[1..])
    else
      var rest := Split(s[1..]);
      [[s[0]] + rest[0]] + rest[1..]
  }

  /** Splitting at spaces loses nothing: joining the pieces with spaces gives the text back. */
  lemma SplitJoin(s: string)
    ensures Join(Split(s), " ") == s
    ensures forall i :: 0 <= i < |Split(s)| ==> ' ' !in Split(s)[i]
  {
    JoinSplit(s);
    SplitPiecesHaveNoSpace(s);
  }

  lemma {:induction false} JoinSplit(s: string)
    ensures Join(Split(s), " ") == s
    decreases |s|
  {
    if s != [] {
      JoinSplit(s[1..]);
      var rest := Split(s[1..]);
      if s[0] == ' ' {
        assert ([""] + rest)[1..] == rest;
        assert s == " " + s[1..];
      } else {
        var r := Split(s);
        assert r[1..] == rest[1..];
        if |rest| > 1 {
          assert Join(rest, " ") == rest[0] + " " + Join(rest[1..], " ");
          assert s == [s[0]] + s[1..];
        }
      }
    }
  }

  lemma {:induction false} SplitPiecesHaveNoSpace(s: string)
    ensures forall i :: 0 <= i < |Split(s)| ==> ' ' !in Split(s)[i]
    decreases |s|
  {
    if s != [] {
      SplitPiecesHaveNoSpace(s[1..]);
      var rest := Split(s[1..]);
      var r := Split(s);
      forall i | 0 <= i < |r| ensures ' ' !in r[i] {
        if s[0] == ' ' {
          if i > 0 {
            assert r[i] == rest[i - 1];
          }
        } else if i > 0 {
          assert r[i] == rest[i];
        }
      }
    }
  }

  /** `parts.map(part => part[0]).join('')`: an empty piece contributes nothing. */
  function Heads(parts: seq<string>): string
  {
    if parts == [] then ""
    else (if parts[0] == "" then "" else [parts[0][0]]) + Heads(parts[1..])
  }

  /**
   * The characters that begin a word: not a space, and either first or right
   * after a space (`afterSpace` says whether the previous character was one).
   */
  function WordStarts(s: string, afterSpace: bool): (r: string)
    ensures |r| <= |s|
  {
    if s == [] then ""
    else (if s[0] != ' ' && afterSpace then [s[0]] else "") + WordStarts(s[1..], s[0] == ' ')
  }

  /** The first characters of the pieces are exactly the word-start characters, in order. */
  lemma {:induction false} HeadsOfSplit(s: string)
    ensures Heads(Split(s)) == WordStarts(s, true)
    ensures Heads(Split(s)[1..]) == WordStarts(s, false)
    decreases |s|
  {
    if s != [] {
      HeadsOfSplit(s[1..]);
      var rest := Split(s[1..]);
      if s[0] == ' ' {
        assert Split(s)[1..] == rest;
      } else {
        assert Split(s)[1..] == rest[1..];
      }
    }
  }

  /** `getInitials`: the first characters of the pieces, upper-cased, at most two of them. */
  function Initials(name: string): (r: string)
    ensures |r| <= 2
    ensures |r| == if |WordStarts(name, true)| < 2 then |WordStarts(name, true)| else 2
    ensures forall i :: 0 <= i < |r| ==> r[i] == UpperChar(WordStarts(name, true)[i])
  {
    HeadsOfSplit(name);
    var all := Upper(Heads(Split(name)));
    if |all| <= 2 then all else all[..2]
  }

  /** A word without spaces contributes its first character, when it starts after a space, and nothing more. */
  lemma {:induction false} WordStartsOfWord(w: string, rest: string, afterSpace: bool)
    requires w != [] && ' ' !in w
    ensures WordStarts(w + rest, afterSpace) == (if afterSpace then [w[0]] else "") + WordStarts(rest, false)
    decreases |w|
  {
    assert (w + rest)[0] == w[0] && (w + rest)[1..] == w[1..] + rest;
    if |w| > 1 {
      assert w[1] in w;
      WordStartsOfWord(w[1..], rest, false);
    } else {
      assert w[1..] + rest == rest;
    }
  }

  /**
   * A name that begins with two words separated by a space has as initials
   * their upper-cased first letters, whatever follows.
   */
  lemma InitialsOfTwoWords(w1: string, w2: string, rest: string)
    requires w1 != [] && w2 != [] && ' ' !in w1 && ' ' !in w2
    ensures Initials(w1 + " " + w2 + rest) == [UpperChar(w1[0]), UpperChar(w2[0])]
  {
    var tail := w2 + rest;
    assert w1 + " " + w2 + rest == w1 + ([' '] + tail);
    WordStartsOfWord(w1, [' '] + tail, true);
    assert ([' '] + tail)[0] == ' ' && ([' '] + tail)[1..] == tail;
    WordStartsOfWord(w2, rest, true);
  }

  /** Doubling a space anywhere in the name leaves the word starts as they were. */
  lemma {:induction false} WordStartsCollapse(a: string, b: string, afterSpace: bool)
    ensures WordStarts(a + "  " + b, afterSpace) == WordStarts(a + " " + b, afterSpace)
    decreases |a|
  {
    if a == [] {
      assert a + "  " + b == [' '] + ([' '] + b);
      assert a + " " + b == [' '] + b;
      assert ([' '] + ([' '] + b))[1..] == [' '] + b;
      assert ([' '] + b)[1..] == b;
    } else {
      assert (a + "  " + b)[0] == a[0] && (a + "  " + b)[1..] == a[1..] + "  " + b;
      assert (a + " " + b)[0] == a[0] && (a + " " + b)[1..] == a[1..] + " " + b;
      WordStartsCollapse(a[1..], b, a[0] == ' ');
    }
  }

  /** Extra spaces between or before the words do not change the initials. */
  lemma InitialsIgnoreExtraSpaces(a: string, b: string, s: string)
    ensures Initials(a + "  " + b) == Initials(a + " " + b)
    ensures Initials(" " + s) == Initials(s)
  {
    WordStartsCollapse(a, b, true);
    assert (" " + s)[0] == ' ' && (" " + s)[1..] == s;
    assert WordStarts(" " + s, true) == WordStarts(s, true);
  }


  /** The ids of the loaded team's members, or none while no team is loaded. */
  function MemberIds(team: Option<Team>): seq<string>
  {
    if team.Some? then PersonIds(team.value.people) else []
  }

  /** `allPeople.filter(p => !teamPersonIds.has(p.id))` */
  function AvailablePeople(allPeople: seq<Person>, team: Option<Team>): (r: seq<Person>)
    ensures forall p :: p in r <==> p in allPeople && p.id !in MemberIds(team)
    ensures Subsequence(r, allPeople)
  {
    var keep := (p: Person) => p.id !in MemberIds(team);
    var r := Filter(allPeople, keep);
    forall p | p in r ensures p in allPeople {
      FilterSubset(allPeople, keep, p);
    }
    FilterIsSubsequence(allPeople, keep);
    r
  }

  /**
   * `handleAddPersonToTeam`: once the write succeeded (`saved`), the loaded
   * team shows the person appended; otherwise nothing changes.
   */
  function AddMember(team: Option<Team>, person: Person, saved: bool): (r: Option<Team>)
    ensures team.None? || !saved ==> r == team
    ensures team.Some? && saved ==> r == Some(team.value.(people := team.value.people + [person]))
  {
    if team.None? || !saved then team else Some(team.value.(people := team.value.people + [person]))
  }

  /** A person picked among the offered ones is new, so members stay unique. */
  lemma AddOfferedKeepsDistinct(allPeople: seq<Person>, team: Option<Team>, person: Person, saved: bool)
    requires team.Some? && Distinct(PersonIds(team.value.people))
    requires person in AvailablePeople(allPeople, team)
    ensures Distinct(MemberIds(AddMember(team, person, saved)))
  {
    if saved {
      assert PersonIds(team.value.people + [person]) == PersonIds(team.value.people) + [person.id];
    }
  }

  /**
   * `handleRemovePerson`: once confirmed and written, the loaded team shows
   * its people without the id.
   */
  function RemoveMember(team: Option<Team>, personId: string, saved: bool): (r: Option<Team>)
    ensures team.None? || !saved ==> r == team
    ensures team.Some? && saved ==> r == Some(team.value.(people := WithoutPerson(team.value.people, personId)))
    ensures r.Some? && saved ==> personId !in MemberIds(r)
  {
    if team.None? || !saved then team
    else
      Some(team.value.(people := WithoutPerson(team.value.people, personId)))
  }

  /** `handleSaveName`: a blank name, or no loaded team, writes nothing; the name is stored untrimmed. */
  function SaveName(team: Option<Team>, newName: string): (r: Option<Team>)
    ensures r.Some? <==> team.Some? && !IsBlank(newName)
    ensures r.Some? ==> r.value == team.value.(name := newName)
  {
    TrimEmptyIffBlank(newName);
    if team.None? || Trim(newName) == "" then None else Some(team.value.(name := newName))
  }
}
