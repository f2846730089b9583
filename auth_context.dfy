/** The session context (lib/contexts/AuthContext.js): the state cells
    `user`, `userData` and `initialLoad`, the auth-state callback that updates
    them, and `createMissingUserProfile`, which writes a default profile for
    an identity that has none. */
module AuthContext {
  import opened JsText
  import opened Firebase
  import UserLookup

  /** `displayName?.replace(/\s+/g, '').toLowerCase()`, with `null` read as
      the empty string (both are falsy to the `||` that follows). */
  function NameCandidate(u: AuthUser): string {
    if u.displayName.Some? then ToLowerCase(RemoveWhitespace(u.displayName.value)) else ""
  }

  /** `safeUsername` (line 16): the whitespace-free, lower-cased display name
      if that is non-empty, else the email part before '@', and in both cases
      every character outside `[a-z0-9]` removed. `None` when the email part
      is needed and the email is `null` (the `split` throws). */
  function SafeUsername(u: AuthUser): (r: Option<string>)
    ensures r.Some? ==> AllLowerAlnum(r.value)
    ensures r.None? <==> NameCandidate(u) == "" && u.email.None?
    ensures NameCandidate(u) != "" ==> r == Some(KeepLowerAlnum(NameCandidate(u)))
    ensures NameCandidate(u) == "" && u.email.Some? ==> r == Some(KeepLowerAlnum(EmailLocalPart(u).value))
  {
    var name := NameCandidate(u);
    if name != "" then Some(KeepLowerAlnum(name))
    else match EmailLocalPart(u)
      case None => None
      case Some(local) => Some(KeepLowerAlnum(local))
  }

  /** The display-name path is taken exactly when the name has a
      non-whitespace character. */
  lemma NameCandidateNonEmpty(u: AuthUser)
    ensures NameCandidate(u) != "" <==> u.displayName.Some? && RemoveWhitespace(u.displayName.value) != ""
  {
  }

  /** A display name made of ASCII letters, digits and whitespace loses
      nothing but its whitespace: the username is the name lower-cased with
      the whitespace removed. */
  lemma {:induction false} AsciiNameKeptWhole(u: AuthUser)
    requires u.displayName.Some?
    requires forall i :: 0 <= i < |u.displayName.value| ==>
               IsAsciiAlnum(u.displayName.value[i]) || IsJsWhitespace(u.displayName.value[i])
    requires RemoveWhitespace(u.displayName.value) != ""
    ensures SafeUsername(u) == Some(ToLowerCase(RemoveWhitespace(u.displayName.value)))
  {
    var stripped := RemoveWhitespace(u.displayName.value);
    RemoveWhitespaceOnlyKeeps(u.displayName.value);
    LowerOfAsciiAlnum(stripped);
    KeepLowerAlnumFixpoint(ToLowerCase(stripped));
  }

  /** On the email path the username keeps exactly the `[a-z0-9]` characters
      of the email's local part: an upper-case letter there is dropped, not
      lower-cased. */
  lemma EmailPathDropsUpperCase(u: AuthUser, c: char)
    requires NameCandidate(u) == "" && u.email.Some?
    requires 'A' <= c <= 'Z'
    ensures var lower := (c as int + 32) as char;
      multiset(SafeUsername(u).value)[lower] == multiset(EmailLocalPart(u).value)[lower]
  {
  }

  /** Example: no display name and email `Ab@x` give the username `b`. */
  lemma EmailPathExample()
    ensures SafeUsername(AuthUser("u1", Some("Ab@x"), None, None)) == Some("b")
  {
    var u := AuthUser("u1", Some("Ab@x"), None, None);
    assert NameCandidate(u) == "";
    assert "Ab@x" == "Ab" + "@x";
    BeforeFirstPrefix("Ab", "@x", '@');
    assert "b" == ['b'] + "";
    KeepLowerAlnumCons('b', "");
    assert "Ab" == ['A'] + "b";
    KeepLowerAlnumCons('A', "b");
  }

  const ProfileFields: set<string> :=
    {"uid", "email", "displayName", "username", "photoURL", "links", "selectedTheme", "createdAt"}

  /** The record `createMissingUserProfile` builds (lines 16-27), or
      `None` when building it throws on a `null` email; `createdAt` is the
      ISO time stamp of the call. */
  function MissingProfile(u: AuthUser, createdAt: string): (r: Option<Document>)
    ensures r.Some? <==> SafeUsername(u).Some?
    ensures r.Some? ==>
      && r.value.Keys == ProfileFields
      && r.value["uid"] == Str(u.uid)
      && r.value["email"] == EmailValue(u)
      && r.value["username"] == Str(SafeUsername(u).value)
      && r.value["displayName"] == Str(if Truthy(u.displayName) then u.displayName.value else EmailLocalPart(u).value)
      && r.value["photoURL"] == Str(OrElse(u.photoURL, ""))
      && r.value["links"] == List([])
      && r.value["selectedTheme"] == Str(DefaultTheme)
      && r.value["createdAt"] == Str(createdAt)
  {
    match SafeUsername(u)
    case None => None
    case Some(name) =>
      if !Truthy(u.displayName) && u.email.None? then None
      else
        var displayName := if Truthy(u.displayName) then u.displayName.value else EmailLocalPart(u).value;
        Some(map[
          "uid" := Str(u.uid),
          "email" := EmailValue(u),
          "displayName" := Str(displayName),
          "username" := Str(name),
          "photoURL" := Str(OrElse(u.photoURL, "")),
          "links" := List([]),
          "selectedTheme" := Str(DefaultTheme),
          "createdAt" := Str(createdAt)])
  }

  /** `createMissingUserProfile` (lines 15-32) on the collections. */
  function CreateMissing(accounts: map<string, Document>, lookup: map<string, Document>,
                         u: AuthUser, faults: Faults, createdAt: string): (r: Stored<Document>)
    ensures r.result.Ok? <==> MissingProfile(u, createdAt).Some? && faults.write.None?
    ensures r.result.Err? ==> r.accounts == accounts && r.lookup == lookup
    ensures r.result.Ok? ==>
      && r.result.value == MissingProfile(u, createdAt).value
      && r.accounts == accounts[u.uid := r.result.value]
      && r.lookup == UserLookup.LookupAfter(lookup, u.uid, r.result.value["username"], faults.lookupWriteFails)
  {
    match MissingProfile(u, createdAt)
    case None => Stored(Err(NullEmailSplit), accounts, lookup)
    case Some(doc) =>
      if faults.write.Some? then Stored(Err(faults.write.value), accounts, lookup)
      else Stored(Ok(doc), accounts[u.uid := doc],
                  UserLookup.LookupAfter(lookup, u.uid, doc["username"], faults.lookupWriteFails))
  }

  /** lib/contexts/AuthContext.js:15-32. */
  method CreateMissingUserProfile(db: Database, u: AuthUser, faults: Faults, createdAt: string)
    returns (r: Result<Document>)
    modifies db`accountData, db`userLookup
    ensures var s := CreateMissing(old(db.accountData), old(db.userLookup), u, faults, createdAt);
      r == s.result && db.accountData == s.accounts && db.userLookup == s.lookup
  {
    var built := MissingProfile(u, createdAt);
    if built.None? {
      return Err(NullEmailSplit);
    }
    var doc := built.value;
    if faults.write.Some? {
      return Err(faults.write.value);
    }
    db.accountData := db.accountData[u.uid := doc];
    UserLookup.UpdateUserLookup(db, u.uid, doc["username"], faults.lookupWriteFails);
    r := Ok(doc);
  }

  /** The three state cells of `AuthProvider`. */
  datatype Session = Session(user: Option<AuthUser>, userData: Option<Document>, initialLoad: bool) {
    /** The `loading` flag the context exposes (line 79). */
    predicate Loading() { initialLoad }
  }

  /** The state before the first callback (lines 35-38). */
  const Initial := Session(None, None, true)

  /** One delivery of the auth-state callback: the identity (or `null`), the
      Firestore outcomes it meets, and the time stamp a created profile gets. */
  datatype AuthEvent = AuthEvent(identity: Option<AuthUser>, faults: Faults, createdAt: string)

  datatype Step = Step(session: Session, accounts: map<string, Document>, lookup: map<string, Document>)

  /** A callback that threw: it ran with an identity and the profile read
      failed, or the profile was missing and could not be created. */
  predicate Throws(accounts: map<string, Document>, e: AuthEvent) {
    && e.identity.Some?
    && (|| e.faults.read.Some?
        || (e.identity.value.uid !in accounts
            && (MissingProfile(e.identity.value, e.createdAt).None? || e.faults.write.Some?)))
  }

  /** The state and collections once the callback of lines 42-70 has run to
      its end. */
  function AuthStateChanged(s: Session, accounts: map<string, Document>, lookup: map<string, Document>,
                            e: AuthEvent): (r: Step)
    // loading drops whatever the outcome, and never comes back
    ensures !r.session.Loading()
    // identity and profile are present together or absent together
    ensures r.session.user.Some? <==> r.session.userData.Some?
    // signed in exactly when an identity arrived and nothing threw
    ensures r.session.user.Some? <==> e.identity.Some? && !Throws(accounts, e)
    ensures r.session.user.Some? ==> r.session.user == e.identity
    // an identity whose profile exists gets the stored profile, and nothing is written
    ensures e.identity.Some? && e.faults.read.None? && e.identity.value.uid in accounts ==>
      r.session.userData == Some(accounts[e.identity.value.uid]) && r.accounts == accounts && r.lookup == lookup
    // a profile is written only when none exists, and then it is the default record
    ensures r.accounts != accounts || r.lookup != lookup ==>
      && e.identity.Some? && e.identity.value.uid !in accounts && !Throws(accounts, e)
      && r.session.userData == MissingProfile(e.identity.value, e.createdAt)
      && r.accounts == accounts[e.identity.value.uid := r.session.userData.value]
    ensures Throws(accounts, e) ==> r.accounts == accounts && r.lookup == lookup
    // a missing profile is created, and the created record becomes the profile
    ensures e.identity.Some? && e.faults.read.None? && e.identity.value.uid !in accounts ==>
      var c := CreateMissing(accounts, lookup, e.identity.value, e.faults, e.createdAt);
      && r.accounts == c.accounts && r.lookup == c.lookup
      && (c.result.Ok? ==> r.session.userData == Some(c.result.value))
  {
    match e.identity
    case None => Step(Session(None, None, false), accounts, lookup)
    case Some(fu) =>
      if e.faults.read.Some? then Step(Session(None, None, false), accounts, lookup)
      else if fu.uid in accounts then Step(Session(Some(fu), Some(accounts[fu.uid]), false), accounts, lookup)
      else
        var c := CreateMissing(accounts, lookup, fu, e.faults, e.createdAt);
        if c.result.Err? then Step(Session(None, None, false), accounts, lookup)
        else Step(Session(Some(fu), Some(c.result.value), false), c.accounts, c.lookup)
  }

  /** The state rendered while the callback awaits the profile read or
      creation: `user` is already the new identity (line 45) and `userData`
      still holds whatever the previous callback left. */
  function Pending(s: Session, fu: AuthUser): (r: Session)
    ensures r.user == Some(fu) && r.userData == s.userData && r.initialLoad == s.initialLoad
  {
    s.(user := Some(fu))
  }

  /** Callbacks delivered one after the other. */
  function Replay(s: Session, accounts: map<string, Document>, lookup: map<string, Document>,
                  events: seq<AuthEvent>): Step
    decreases |events|
  {
    if events == [] then Step(s, accounts, lookup)
    else
      var r := AuthStateChanged(s, accounts, lookup, events[0]);
      Replay(r.session, r.accounts, r.lookup, events[1..])
  }

  /** A state the context settles in between callbacks. */
  predicate Settled(s: Session) {
    s.user.Some? <==> s.userData.Some?
  }

  /** After any sequence of callbacks, identity and profile are present
      together or absent together; once one callback has run, `loading` is
      false and stays false. */
  lemma {:induction false} ReplaySettles(s: Session, accounts: map<string, Document>, lookup: map<string, Document>,
                                         events: seq<AuthEvent>)
    requires Settled(s)
    ensures Settled(Replay(s, accounts, lookup, events).session)
    ensures |events| > 0 || !s.Loading() ==> !Replay(s, accounts, lookup, events).session.Loading()
    decreases |events|
  {
    if events != [] {
      var r := AuthStateChanged(s, accounts, lookup, events[0]);
      ReplaySettles(r.session, r.accounts, r.lookup, events[1..]);
    }
  }

  /** `AuthProvider` (lines 34-87): the three state cells and the callback
      that updates them. */
  class AuthProvider {
    var user: Option<AuthUser>
    var userData: Option<Document>
    var initialLoad: bool

    constructor ()
      ensures Snapshot() == Initial
    {
      user, userData, initialLoad := None, None, true;
    }

    function Snapshot(): Session
      reads this
    {
      Session(user, userData, initialLoad)
    }

    /** `loading` as the context exposes it (line 79). */
    function Loading(): (b: bool)
      reads this
      ensures b == Snapshot().Loading()
    {
      initialLoad
    }

    /** The callback of lines 42-70. */
    method OnAuthStateChanged(db: Database, e: AuthEvent)
      modifies this, db`accountData, db`userLookup
      ensures var r := AuthStateChanged(old(Snapshot()), old(db.accountData), old(db.userLookup), e);
        Snapshot() == r.session && db.accountData == r.accounts && db.userLookup == r.lookup
    {
      var threw := false;
      // try
      if e.identity.Some? {
        var fu := e.identity.value;
        user := Some(fu);
        if e.faults.read.Some? {
          threw := true;
        } else if fu.uid in db.accountData {
          userData := Some(db.accountData[fu.uid]);
        } else {
          var created := CreateMissingUserProfile(db, fu, e.faults, e.createdAt);
          if created.Ok? {
            userData := Some(created.value);
          } else {
            threw := true;
          }
        }
      } else {
        user := None;
        userData := None;
      }
      // catch: back to signed-out
      if threw {
        user := None;
        userData := None;
      }
      // finally
      if initialLoad {
        initialLoad := false;
      }
    }
  }
}
