/** The dashboard's display logic (pro-network/src/app/dashboard/page.tsx): the
    avatar initials and the fallbacks shown for missing profile fields. */
module Dashboard {
  import opened Common

  /** The profile fields the dashboard's expressions read. A field the backend
      leaves out, or sends as null, is None. */
  datatype UserData = UserData(
    firstName: Option<string>, lastName: Option<string>,
    location: Option<string>, bio: Option<string>, skills: Option<string>)

  /** ASCII upper-casing of one character. */
  function UpperChar(c: char): (u: char)
    ensures 'a' <= c <= 'z' ==> u as int == c as int - 32
    ensures !('a' <= c <= 'z') ==> u == c
  {
    if 'a' <= c <= 'z' then (c as int - 32) as char else c
  }

  /** `s.toUpperCase()` restricted to ASCII: each character upper-cased, the length kept. */
  function Upper(s: string): (r: string)
    ensures |r| == |s|
    ensures forall i :: 0 <= i < |s| ==> r[i] == UpperChar(s[i])
  {
    if s == [] then [] else [UpperChar(s[0])] + Upper(s[1..])
  }

  /** `s.charAt(0)`: the first character, or the empty string. */
  function CharAt0(s: string): (r: string)
    ensures |r| <= 1
    ensures s == [] ==> r == ""
    ensures s != [] ==> r == [s[0]]
  {
    if s == [] then "" else s[..1]
  }

  /** `getUserInitials`: the upper-cased first characters of the first and last
      names, missing names read as empty, and 'U' when nothing is left. */
  function UserInitials(user: Option<UserData>): (r: string)
    ensures 1 <= |r| <= 2
    ensures user.None? ==> r == "U"
    ensures user.Some? ==>
      var first := OrElse(user.value.firstName, "");
      var last := OrElse(user.value.lastName, "");
      && (first == "" && last == "" ==> r == "U")
      && (first != "" && last != "" ==> r == [UpperChar(first[0]), UpperChar(last[0])])
      && (first != "" && last == "" ==> r == [UpperChar(first[0])])
      && (first == "" && last != "" ==> r == [UpperChar(last[0])])
  {
    match user
    case None => "U"
    case Some(u) =>
      var firstName := OrElse(u.firstName, "");
      var lastName := OrElse(u.lastName, "");
      var initials := Upper(CharAt0(firstName) + CharAt0(lastName));
      if initials != "" then initials else "U"
  }

  /** The welcome line's name: the first name, or "User" when it is empty or absent. */
  function WelcomeName(user: Option<UserData>): (r: string)
    ensures user.Some? && Truthy(user.value.firstName) ==> r == user.value.firstName.value
    ensures !(user.Some? && Truthy(user.value.firstName)) ==> r == "User"
  {
    match user
    case None => "User"
    case Some(u) => OrElse(u.firstName, "User")
  }

  /** The profile summary's location, bio and skills lines, each with its placeholder. */
  function LocationText(user: Option<UserData>): (r: string)
    ensures !(user.Some? && Truthy(user.value.location)) ==> r == "Add location"
    ensures user.Some? && Truthy(user.value.location) ==> r == user.value.location.value
  {
    match user
    case None => "Add location"
    case Some(u) => OrElse(u.location, "Add location")
  }

  function BioText(user: Option<UserData>): (r: string)
    ensures !(user.Some? && Truthy(user.value.bio)) ==> r == "Add a bio to tell people about yourself"
    ensures user.Some? && Truthy(user.value.bio) ==> r == user.value.bio.value
  {
    match user
    case None => "Add a bio to tell people about yourself"
    case Some(u) => OrElse(u.bio, "Add a bio to tell people about yourself")
  }

  function SkillsText(user: Option<UserData>): (r: string)
    ensures !(user.Some? && Truthy(user.value.skills)) ==> r == "Add your skills"
    ensures user.Some? && Truthy(user.value.skills) ==> r == user.value.skills.value
  {
    match user
    case None => "Add your skills"
    case Some(u) => OrElse(u.skills, "Add your skills")
  }

  /** "jane" and "doe" give "JD"; an absent last name gives a single letter. */
  lemma InitialsExamples()
    ensures UserInitials(Some(UserData(Some("jane"), Some("doe"), None, None, None))) == "JD"
    ensures UserInitials(Some(UserData(Some("jane"), None, None, None, None))) == "J"
    ensures UserInitials(Some(UserData(Some(""), None, None, None, None))) == "U"
  {
  }
}
