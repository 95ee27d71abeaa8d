/** Browser storage as the session store every screen reads: the keys the
    client uses, the gate a protected screen runs when it mounts, what a login
    writes and what a logout removes. */
module Session {
  import opened Common

  const IsLoggedInKey := "isLoggedIn"
  const UserTypeKey := "userType"
  const StudentDataKey := "studentData"
  const WashermanDataKey := "washermanData"
  const LanguageKey := "preferred-language"

  /** A decoded JSON object: a student's or a washerman's profile. */
  type Record = map<string, string>

  /** `JSON.parse` (failing with `None` where it throws) and `JSON.stringify`. */
  datatype Codec = Codec(parse: string -> Option<Record>, stringify: Record -> string)

  /** Storing `r` and reading it back gives `r`, and what is stored is not
      empty (JSON text of an object is at least `{}`). */
  predicate RoundTrips(c: Codec, r: Record)
  {
    c.parse(c.stringify(r)) == Some(r) && c.stringify(r) != ""
  }

  /** `localStorage`: one string value per key. */
  class Storage {
    var items: map<string, string>

    constructor (initial: map<string, string>)
      ensures items == initial
    {
      items := initial;
    }

    method SetItem(key: string, value: string)
      modifies this
      ensures items == old(items)[key := value]
    {
      items := items[key := value];
    }

    method RemoveItem(key: string)
      modifies this
      ensures items == old(items) - {key}
    {
      items := items - {key};
    }
  }

  /** What a protected screen does on mount: carry on with the parsed
      profile, or go to a login screen. */
  datatype Gate = Proceed(profile: Record) | Redirect(to: string)

  /** The staff screens' check: `isLoggedIn` set, `userType` exactly
      "washerman", and `washermanData` present and parseable. */
  function WashermanGate(m: map<string, string>, c: Codec): (g: Gate)
    ensures g.Proceed? <==>
      && Truthy(Get(m, IsLoggedInKey))
      && Get(m, UserTypeKey) == Some("washerman")
      && Truthy(Get(m, WashermanDataKey))
      && c.parse(m[WashermanDataKey]).Some?
    ensures g.Proceed? ==> Some(g.profile) == c.parse(m[WashermanDataKey])
    ensures g.Redirect? ==> g.to == "/washerman/login"
  {
    if !Truthy(Get(m, IsLoggedInKey)) || Get(m, UserTypeKey) != Some("washerman")
       || !Truthy(Get(m, WashermanDataKey)) then
      Redirect("/washerman/login")
    else
      match c.parse(m[WashermanDataKey])
      case Some(w) => Proceed(w)
      case None => Redirect("/washerman/login")
  }

  /** The student screens' check: `isLoggedIn` set and `studentData` present
      and parseable; `userType` is not looked at. */
  function StudentGate(m: map<string, string>, c: Codec): (g: Gate)
    ensures g.Proceed? <==>
      && Truthy(Get(m, IsLoggedInKey))
      && Truthy(Get(m, StudentDataKey))
      && c.parse(m[StudentDataKey]).Some?
    ensures g.Proceed? ==> Some(g.profile) == c.parse(m[StudentDataKey])
    ensures g.Redirect? ==> g.to == "/student/login"
  {
    if !Truthy(Get(m, IsLoggedInKey)) || !Truthy(Get(m, StudentDataKey)) then
      Redirect("/student/login")
    else
      match c.parse(m[StudentDataKey])
      case Some(s) => Proceed(s)
      case None => Redirect("/student/login")
  }

  /** The storage after a logout: the profile key, `isLoggedIn` and
      `userType` are gone, every other entry is as it was. */
  function SessionCleared(m: map<string, string>, profileKey: string): (r: map<string, string>)
    ensures r.Keys == m.Keys - {profileKey, IsLoggedInKey, UserTypeKey}
    ensures forall k :: k in r ==> r[k] == m[k]
  {
    m - {profileKey, IsLoggedInKey, UserTypeKey}
  }

  /** The storage after a successful student login. */
  function StudentSession(m: map<string, string>, c: Codec, student: Record): (r: map<string, string>)
    ensures r.Keys == m.Keys + {StudentDataKey, IsLoggedInKey}
    ensures r[StudentDataKey] == c.stringify(student) && r[IsLoggedInKey] == "true"
    ensures forall k :: k in m && k != StudentDataKey && k != IsLoggedInKey ==> r[k] == m[k]
  {
    m[StudentDataKey := c.stringify(student)][IsLoggedInKey := "true"]
  }

  /** The storage after a successful washerman login. */
  function WashermanSession(m: map<string, string>, c: Codec, washerman: Record): (r: map<string, string>)
    ensures r.Keys == m.Keys + {WashermanDataKey, IsLoggedInKey, UserTypeKey}
    ensures r[WashermanDataKey] == c.stringify(washerman)
    ensures r[IsLoggedInKey] == "true" && r[UserTypeKey] == "washerman"
    ensures forall k :: k in m && k !in {WashermanDataKey, IsLoggedInKey, UserTypeKey} ==> r[k] == m[k]
  {
    m[WashermanDataKey := c.stringify(washerman)][IsLoggedInKey := "true"][UserTypeKey := "washerman"]
  }

  /** A washerman login writes exactly what the staff gate checks: the gate
      then lets the same profile through, whatever was stored before. */
  lemma WashermanLoginOpensGate(m: map<string, string>, c: Codec, w: Record)
    requires RoundTrips(c, w)
    ensures WashermanGate(WashermanSession(m, c, w), c) == Proceed(w)
  {
  }

  /** A student login opens the student gate, whatever was stored before. */
  lemma StudentLoginOpensGate(m: map<string, string>, c: Codec, s: Record)
    requires RoundTrips(c, s)
    ensures StudentGate(StudentSession(m, c, s), c) == Proceed(s)
  {
  }

  /** A student login leaves `userType` and `washermanData` alone, so the
      staff gate opens after it exactly when a washerman's profile and role
      were already stored. */
  lemma StudentLoginKeepsStaffRole(m: map<string, string>, c: Codec, s: Record)
    ensures Get(StudentSession(m, c, s), UserTypeKey) == Get(m, UserTypeKey)
    ensures WashermanGate(StudentSession(m, c, s), c).Proceed? <==>
      && Get(m, UserTypeKey) == Some("washerman")
      && Truthy(Get(m, WashermanDataKey))
      && c.parse(m[WashermanDataKey]).Some?
  {
    var m' := StudentSession(m, c, s);
    assert Get(m', WashermanDataKey) == Get(m, WashermanDataKey);
  }

  /** After either logout no protected screen opens, and the entries that are
      not part of the session (such as the preferred language) survive. */
  lemma LogoutClosesEveryGate(m: map<string, string>, c: Codec, profileKey: string)
    requires profileKey == StudentDataKey || profileKey == WashermanDataKey
    ensures StudentGate(SessionCleared(m, profileKey), c).Redirect?
    ensures WashermanGate(SessionCleared(m, profileKey), c).Redirect?
    ensures Get(SessionCleared(m, profileKey), LanguageKey) == Get(m, LanguageKey)
  {
    assert IsLoggedInKey !in SessionCleared(m, profileKey);
  }

  /** A stored profile without the login flag counts as logged out. */
  lemma ProfileWithoutFlagRedirects(m: map<string, string>, c: Codec)
    requires !Truthy(Get(m, IsLoggedInKey))
    ensures StudentGate(m, c) == Redirect("/student/login")
    ensures WashermanGate(m, c) == Redirect("/washerman/login")
  {
  }
}
