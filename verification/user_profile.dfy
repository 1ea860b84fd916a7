/**
 * The user-profile page: the strings derived from the (possibly not yet
 * loaded) user, and the local click counter. The profile fetch is a
 * parameter: `None` while no user is available.
 */
module UserProfile {
  import opened Wrappers

  datatype User = User(firstName: string, lastName: string)

  /** The name line: `'Loading...'` until a user is present. */
  function UserName(user: Option<User>): (r: string)
    ensures user.None? ==> r == "Loading..."
    ensures user.Some? ==>
              && |r| == |user.value.firstName| + 1 + |user.value.lastName|
              && r[..|user.value.firstName|] == user.value.firstName
              && r[|user.value.firstName|] == ' '
              && r[|user.value.firstName| + 1..] == user.value.lastName
  {
    match user
    case None => "Loading..."
    case Some(u) => u.firstName + " " + u.lastName
  }

  /** The display name: `'Guest'` until a user is present. */
  function DisplayName(user: Option<User>): (r: string)
    ensures user.Some? ==> r == UserName(user)
    ensures user.None? ==> r == "Guest" && r != UserName(user)
  {
    match user
    case Some(u) => u.firstName + " " + u.lastName
    case None => "Guest"
  }

  /**
   * `s[0]` interpolated into a template literal: the first character, or the
   * text `undefined` when the string is empty.
   */
  function FirstChar(s: string): (r: string)
    ensures s != "" ==> r == [s[0]]
    ensures s == "" ==> r == "undefined"
  {
    if s == "" then "undefined" else s[..1]
  }

  predicate IsLowerAscii(c: char)
  {
    'a' <= c <= 'z'
  }

  /** Upper-cases one character; only ASCII letters are mapped. */
  function UpperChar(c: char): (r: char)
    ensures !IsLowerAscii(r)
    ensures !IsLowerAscii(c) ==> r == c
    ensures IsLowerAscii(c) ==> 'A' <= r <= 'Z' && r as int - 'A' as int == c as int - 'a' as int
  {
    if IsLowerAscii(c) then (c as int - 'a' as int + 'A' as int) as char else c
  }

  /** Upper-cases a string character by character. */
  function Upper(s: string): (r: string)
    ensures |r| == |s|
    ensures forall i :: 0 <= i < |s| ==> r[i] == UpperChar(s[i])
  {
    seq(|s|, i requires 0 <= i < |s| => UpperChar(s[i]))
  }

  /** The initials: `'??'` until a user is present, else the upper-cased first characters of both names. */
  function Initials(user: Option<User>): (r: string)
    ensures user.None? ==> r == "??"
    ensures user.Some? ==> 2 <= |r| <= 18
    ensures forall i :: 0 <= i < |r| ==> !IsLowerAscii(r[i])
  {
    match user
    case None => "??"
    case Some(u) => Upper(FirstChar(u.firstName) + FirstChar(u.lastName))
  }

  /** Upper-casing twice is the same as once. */
  lemma UpperIdempotent(s: string)
    ensures Upper(Upper(s)) == Upper(s)
  {
  }

  /** The page's own state: the user it was given and the click counter. */
  datatype Profile = Profile(user: Option<User>, localCounter: nat)

  /** The counter starts at 0. */
  function InitialProfile(user: Option<User>): (p: Profile)
    ensures p.localCounter == 0 && p.user == user
  {
    Profile(user, 0)
  }

  /** One click of the counter button. */
  function HandleClick(p: Profile): (p': Profile)
    ensures p'.localCounter == p.localCounter + 1
    ensures p'.user == p.user
  {
    p.(localCounter := p.localCounter + 1)
  }

  /** `n` clicks in a row. */
  function Clicks(p: Profile, n: nat): Profile
    decreases n
  {
    if n == 0 then p else Clicks(HandleClick(p), n - 1)
  }

  /** With no user the three strings are their placeholders. */
  lemma NoUserPlaceholders()
    ensures UserName(None) == "Loading..."
    ensures DisplayName(None) == "Guest"
    ensures Initials(None) == "??"
  {
  }

  /** With a user, the name line and the display name agree: first name, a space, last name. */
  lemma NamesAgree(u: User)
    ensures UserName(Some(u)) == DisplayName(Some(u))
    ensures UserName(Some(u)) == u.firstName + " " + u.lastName
    ensures |UserName(Some(u))| == |u.firstName| + 1 + |u.lastName|
  {
  }

  /** With both names non-empty the initials are two characters: each name's first, upper-cased. */
  lemma InitialsOfNamedUser(u: User)
    requires u.firstName != "" && u.lastName != ""
    ensures |Initials(Some(u))| == 2
    ensures Initials(Some(u))[0] == UpperChar(u.firstName[0])
    ensures Initials(Some(u))[1] == UpperChar(u.lastName[0])
    ensures !IsLowerAscii(Initials(Some(u))[0]) && !IsLowerAscii(Initials(Some(u))[1])
  {
  }

  /** An empty name contributes `UNDEFINED` to the initials, in either position. */
  lemma InitialsOfEmptyNames(firstName: string, lastName: string)
    ensures firstName == "" && lastName != "" ==>
              Initials(Some(User(firstName, lastName))) == "UNDEFINED" + [UpperChar(lastName[0])]
    ensures firstName != "" && lastName == "" ==>
              Initials(Some(User(firstName, lastName))) == [UpperChar(firstName[0])] + "UNDEFINED"
    ensures firstName == "" && lastName == "" ==>
              Initials(Some(User(firstName, lastName))) == "UNDEFINEDUNDEFINED"
  {
    var s := FirstChar(firstName) + FirstChar(lastName);
    assert Upper("undefined") == "UNDEFINED";
    assert Upper(s) == Upper(FirstChar(firstName)) + Upper(FirstChar(lastName));
  }

  /** After `n` clicks the counter has grown by exactly `n` and the user is the same. */
  lemma {:induction false} ClicksCount(p: Profile, n: nat)
    ensures Clicks(p, n).localCounter == p.localCounter + n
    ensures Clicks(p, n).user == p.user
    decreases n
  {
    if n > 0 {
      ClicksCount(HandleClick(p), n - 1);
    }
  }

  /** Starting from a fresh page, `n` clicks show `n`. */
  lemma CounterShowsClicks(user: Option<User>, n: nat)
    ensures Clicks(InitialProfile(user), n).localCounter == n
  {
    ClicksCount(InitialProfile(user), n);
  }

  /** Clicking the counter changes none of the displayed names. */
  lemma ClickKeepsNames(p: Profile)
    ensures UserName(HandleClick(p).user) == UserName(p.user)
    ensures DisplayName(HandleClick(p).user) == DisplayName(p.user)
    ensures Initials(HandleClick(p).user) == Initials(p.user)
  {
  }
}
