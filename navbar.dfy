/** The navigation bar (pro-network/src/components/layout/Navbar.tsx): the
    session user's initials, shown on the avatar button and in the dropdown
    header, and the notification badge. */
module Navbar {
  import opened Common

  /** `s.split(' ')`: the pieces between single spaces, empty pieces included;
      the empty string splits into one empty piece. */
  function Split(s: string): (parts: seq<string>)
    ensures |parts| >= 1
    ensures forall k :: 0 <= k < |parts| ==> ' ' !in parts[k]
  {
    if s == [] then [[]]
    else if s[0] == ' ' then [[]] + Split(s[1..])
    else
      var rest := Split(s[1..]);
      [[s[0]] + rest[0]] + rest[1..]
  }

  /** `parts.join(' ')`. */
  function JoinWithSpace(parts: seq<string>): string
    requires |parts| >= 1
  {
    if |parts| == 1 then parts[0] else parts[0] + " " + JoinWithSpace(parts[1..])
  }

  /** Splitting loses nothing: joining the pieces with spaces gives the name back. */
  lemma {:induction false} SplitJoin(s: string)
    ensures JoinWithSpace(Split(s)) == s
  {
    if s != [] {
      SplitJoin(s[1..]);
      var rest := Split(s[1..]);
      if s[0] == ' ' {
        assert Split(s)[1..] == rest;
        assert s == [' '] + s[1..];
      } else {
        assert s == [s[0]] + s[1..];
        if |rest| > 1 {
          assert Split(s)[1..] == rest[1..];
        }
      }
    }
  }

  /** `n[0]` joined by `join('')`: the first character, or nothing for an
      empty piece (its `undefined` joins as the empty string). */
  function FirstChar(part: string): (r: string)
    ensures |r| <= 1
  {
    if part == [] then [] else [part[0]]
  }

  /** `parts.map(n => n[0]).join('')`. */
  function JoinFirstChars(parts: seq<string>): string {
    if parts == [] then [] else FirstChar(parts[0]) + JoinFirstChars(parts[1..])
  }

  /** The characters of `s` that begin a word: not a space, and first or right
      after a space. `atStart` says whether the character before `s` was a space
      (or there was none). */
  function WordStarts(s: string, atStart: bool): string {
    if s == [] then []
    else (if atStart && s[0] != ' ' then [s[0]] else []) + WordStarts(s[1..], s[0] == ' ')
  }

  lemma JoinFirstCharsCons(p: string, ps: seq<string>)
    ensures JoinFirstChars([p] + ps) == FirstChar(p) + JoinFirstChars(ps)
  {
    assert ([p] + ps)[1..] == ps;
  }

  /** The split/map/join expression picks out exactly the characters that begin
      a word; `atStart == false` accounts for a first piece that continues an
      earlier word. */
  lemma {:induction false} InitialsAreWordStarts(s: string, atStart: bool)
    ensures WordStarts(s, atStart)
            == (if atStart then FirstChar(Split(s)[0]) else []) + JoinFirstChars(Split(s)[1..])
  {
    if s == [] {
    } else {
      var rest := Split(s[1..]);
      InitialsAreWordStarts(s[1..], s[0] == ' ');
      if s[0] == ' ' {
        assert Split(s) == [[]] + rest;
        assert Split(s)[1..] == rest;
        assert rest == [rest[0]] + rest[1..];
        JoinFirstCharsCons(rest[0], rest[1..]);
      } else {
        assert Split(s)[1..] == rest[1..];
      }
    }
  }

  /** The avatar text: the word-initial characters of the name in order, as
      typed (no case conversion), or 'U' for an absent name or one with no
      non-space character. The dropdown header evaluates the same expression. */
  function NavbarInitials(name: Option<string>): (r: string)
    ensures name.None? ==> r == "U"
    ensures name.Some? ==> r == (if WordStarts(name.value, true) == [] then "U" else WordStarts(name.value, true))
  {
    match name
    case None => "U"
    case Some(s) =>
      InitialsAreWordStarts(s, true);
      var joined := JoinFirstChars(Split(s));
      if joined != [] then joined else "U"
  }

  /** A name made only of spaces (or empty) has no word start. */
  lemma {:induction false} BlankHasNoWordStarts(s: string, atStart: bool)
    requires forall i :: 0 <= i < |s| ==> s[i] == ' '
    ensures WordStarts(s, atStart) == []
  {
    if s != [] {
      BlankHasNoWordStarts(s[1..], true);
    }
  }

  /** Every character of the initials is a non-space character of the name. */
  lemma {:induction false} WordStartsFromName(s: string, atStart: bool)
    ensures forall c :: c in WordStarts(s, atStart) ==> c in s && c != ' '
  {
    if s != [] {
      WordStartsFromName(s[1..], s[0] == ' ');
    }
  }

  lemma BlankNameGivesU(s: string)
    requires forall i :: 0 <= i < |s| ==> s[i] == ' '
    ensures NavbarInitials(Some(s)) == "U"
  {
    BlankHasNoWordStarts(s, true);
  }

  /** A doubled space adds nothing: "Jane  Doe" gives "JD". */
  lemma DoubledSpaceExample()
    ensures NavbarInitials(Some("Jane  Doe")) == "JD"
  {
    assert WordStarts("Doe", true) == "D";
    assert WordStarts(" Doe", true) == "D";
    assert WordStarts("  Doe", false) == "D";
    assert WordStarts("Jane  Doe", true) == "JD";
  }

  /** No case conversion: "jane doe" gives "jd". */
  lemma KeepsCaseExample()
    ensures NavbarInitials(Some("jane doe")) == "jd"
  {
    assert WordStarts("doe", true) == "d";
    assert WordStarts(" doe", false) == "d";
    assert WordStarts("jane doe", true) == "jd";
  }

  lemma EmptyNameExample()
    ensures NavbarInitials(Some("")) == "U" && NavbarInitials(None) == "U"
  {
  }

  /** The mock notification count: initialised to 3, its setter never called. */
  const NotificationsCount := 3

  /** The bell's badge: the count, shown only when it is positive. */
  function NotificationBadge(count: int): (r: Option<string>)
    ensures r.Some? <==> count > 0
    ensures r.Some? ==> AllDigits(r.value) && ParseNat(r.value) == count
  {
    if count > 0 then
      ParseNatToString(count);
      Some(NatToString(count))
    else None
  }

  lemma BadgeShowsThree()
    ensures NotificationBadge(NotificationsCount) == Some("3")
  {
  }
}
