/** The authentication helpers of lib/authentication/firebaseAuth.js: the
    welcome-mail subject, `createUserProfile`, the error-code-to-message
    mappings of registration, login, Google sign-in and password reset, the
    popup-to-redirect fallback, and the retrying profile loop of
    `signInWithGoogleFirebaseRobust`. Auth-service calls are oracle
    parameters; the welcome mail is not modelled. */
module FirebaseAuth {
  import opened JsText
  import opened Firebase
  import UserLookup

  // ---------------------------------------------------------------- subjects

  const EnglishWelcome := "Welcome to TapIt - Your account is ready! \U{1F680}"

  /** The welcome-mail subjects by language code (lines 23-29). */
  const WelcomeSubjects: map<string, string> := map[
    "en" := EnglishWelcome,
    "fr" := "Bienvenue sur TapIt - Votre compte est pr\U{EA}t ! \U{1F680}",
    "es" := "\U{A1}Bienvenido a TapIt - Tu cuenta est\U{E1} lista! \U{1F680}",
    "vm" := "Ch\U{E0}o m\U{1EEB}ng \U{111}\U{1EBF}n v\U{1EDB}i TapIt - T\U{E0}i kho\U{1EA3}n c\U{1EE7}a b\U{1EA1}n \U{111}\U{E3} s\U{1EB5}n s\U{E0}ng! \U{1F680}",
    "zh" := "\U{6B22}\U{8FCE}\U{6765}\U{5230} TapIt - \U{60A8}\U{7684}\U{8D26}\U{6237}\U{5DF2}\U{51C6}\U{5907}\U{5C31}\U{7EEA}\U{FF01}\U{1F680}"
  ]

  /** `getEmailSubject` (lines 22-31): the subject for a listed language,
      the English one for any other. */
  function GetEmailSubject(language: string): (r: string)
    ensures r in WelcomeSubjects.Values
    ensures language in WelcomeSubjects ==> r == WelcomeSubjects[language]
    ensures language !in {"en", "fr", "es", "vm", "zh"} ==> r == EnglishWelcome
  {
    if language in WelcomeSubjects then WelcomeSubjects[language] else WelcomeSubjects["en"]
  }

  // ---------------------------------------------------------- error messages

  const RegisterPrefix := "Registration failed: "
  const RegisterMessages: map<string, string> := map[
    "auth/email-already-in-use" := "This email is already registered",
    "auth/weak-password" := "Password should be at least 6 characters",
    "auth/invalid-email" := "Invalid email address"
  ]

  /** The message registration throws for an error (lines 118-126): a fixed
      message for three codes, the prefixed original message otherwise. The
      two kinds cannot be confused. */
  function RegisterErrorMessage(e: FirebaseError): (m: string)
    ensures e.code in RegisterMessages ==> m == RegisterMessages[e.code]
    ensures e.code !in RegisterMessages ==> m == RegisterPrefix + e.message
  {
    if e.code == "auth/email-already-in-use" then "This email is already registered"
    else if e.code == "auth/weak-password" then "Password should be at least 6 characters"
    else if e.code == "auth/invalid-email" then "Invalid email address"
    else RegisterPrefix + e.message
  }

  const LoginPrefix := "Login failed: "
  const LoginMessages: map<string, string> := map[
    "auth/user-not-found" := "No account found with this email",
    "auth/wrong-password" := "Incorrect password",
    "auth/invalid-email" := "Invalid email address",
    "auth/too-many-requests" := "Too many failed attempts. Please try again later"
  ]

  /** The message login throws for an error (lines 149-159). */
  function LoginErrorMessage(e: FirebaseError): (m: string)
    ensures e.code in LoginMessages ==> m == LoginMessages[e.code]
    ensures e.code !in LoginMessages ==> m == LoginPrefix + e.message
  {
    if e.code == "auth/user-not-found" then "No account found with this email"
    else if e.code == "auth/wrong-password" then "Incorrect password"
    else if e.code == "auth/invalid-email" then "Invalid email address"
    else if e.code == "auth/too-many-requests" then "Too many failed attempts. Please try again later"
    else LoginPrefix + e.message
  }

  const GooglePrefix := "Google sign-in failed: "
  const GoogleMessages: map<string, string> := map[
    "auth/popup-closed-by-user" := "Google sign-in was cancelled",
    "auth/popup-blocked" := "Popup was blocked by browser"
  ]

  /** The message both Google sign-in variants throw for an error (lines
      212-218 and 405-411). */
  function GoogleErrorMessage(e: FirebaseError): (m: string)
    ensures e.code in GoogleMessages ==> m == GoogleMessages[e.code]
    ensures e.code !in GoogleMessages ==> m == GooglePrefix + e.message
  {
    if e.code == "auth/popup-closed-by-user" then "Google sign-in was cancelled"
    else if e.code == "auth/popup-blocked" then "Popup was blocked by browser"
    else GooglePrefix + e.message
  }

  const ResetPrefix := "Password reset failed: "
  const ResetMessages: map<string, string> := map[
    "auth/user-not-found" := "No account found with this email",
    "auth/invalid-email" := "Invalid email address"
  ]

  /** The message the password reset throws for an error (lines 255-261). */
  function ResetErrorMessage(e: FirebaseError): (m: string)
    ensures e.code in ResetMessages ==> m == ResetMessages[e.code]
    ensures e.code !in ResetMessages ==> m == ResetPrefix + e.message
  {
    if e.code == "auth/user-not-found" then "No account found with this email"
    else if e.code == "auth/invalid-email" then "Invalid email address"
    else ResetPrefix + e.message
  }

  /** A string that differs from a prefix in some position does not start
      with it. */
  lemma CharRulesOut(prefix: string, m: string, i: nat)
    requires i < |prefix| && i < |m| && m[i] != prefix[i]
    ensures !(prefix <= m)
  {
  }

  /** A caller can tell a fixed registration message from a passed-through
      one: exactly the latter start with "Registration failed: ". */
  lemma RegisterMessageKinds(e: FirebaseError)
    ensures e.code in RegisterMessages <==> !(RegisterPrefix <= RegisterErrorMessage(e))
  {
    var m := RegisterErrorMessage(e);
    if e.code in RegisterMessages {
      assert m[0] in {'T', 'P', 'I'};
      CharRulesOut(RegisterPrefix, m, 0);
    }
  }

  /** Exactly the passed-through login messages start with "Login failed: ". */
  lemma LoginMessageKinds(e: FirebaseError)
    ensures e.code in LoginMessages <==> !(LoginPrefix <= LoginErrorMessage(e))
  {
    var m := LoginErrorMessage(e);
    if e.code == "auth/user-not-found" {
      CharRulesOut(LoginPrefix, m, 0);
    } else if e.code == "auth/wrong-password" {
      // the two codes have one length and part at index 5
      assert e.code[5] != "auth/user-not-found"[5];
      CharRulesOut(LoginPrefix, m, 0);
    } else if e.code == "auth/invalid-email" {
      assert m == "Invalid email address";
      CharRulesOut(LoginPrefix, m, 0);
    } else if e.code == "auth/too-many-requests" {
      assert m == "Too many failed attempts. Please try again later";
      CharRulesOut(LoginPrefix, m, 13);
    }
  }

  /** Exactly the passed-through Google messages start with "Google sign-in
      failed: ". */
  lemma GoogleMessageKinds(e: FirebaseError)
    ensures e.code in GoogleMessages <==> !(GooglePrefix <= GoogleErrorMessage(e))
  {
    var m := GoogleErrorMessage(e);
    if e.code == "auth/popup-closed-by-user" {
      // "Google sign-in was ..." and "Google sign-in failed: " part at index 15
      CharRulesOut(GooglePrefix, m, 15);
    } else if e.code == "auth/popup-blocked" {
      CharRulesOut(GooglePrefix, m, 0);
    }
  }

  /** Exactly the passed-through reset messages start with "Password reset
      failed: ". */
  lemma ResetMessageKinds(e: FirebaseError)
    ensures e.code in ResetMessages <==> !(ResetPrefix <= ResetErrorMessage(e))
  {
    var m := ResetErrorMessage(e);
    if e.code in ResetMessages {
      assert m[0] in {'N', 'I'};
      CharRulesOut(ResetPrefix, m, 0);
    }
  }

  /** `resetPasswordFirebase` (lines 247-263), given the outcome of
      `sendPasswordResetEmail`. */
  function ResetPasswordFirebase(sendError: Option<FirebaseError>): (r: Result<bool>)
    ensures r.Ok? <==> sendError.None?
    ensures r.Ok? ==> r.value
    ensures r.Err? ==> r.error == Thrown(ResetErrorMessage(sendError.value))
  {
    match sendError
    case None => Ok(true)
    case Some(e) => Err(Thrown(ResetErrorMessage(e)))
  }

  const SignOutPrefix := "Sign out failed: "

  /** `signOutFirebase` (lines 266-276), given the outcome of `signOut`:
      every error is reported with the one prefix, whatever its code. */
  function SignOutFirebase(signOutError: Option<FirebaseError>): (r: Result<bool>)
    ensures r.Ok? <==> signOutError.None?
    ensures r.Ok? ==> r.value
    ensures r.Err? ==> r.error.code == "" && SignOutPrefix <= r.error.message
    ensures r.Err? ==> r.error.message[|SignOutPrefix|..] == signOutError.value.message
  {
    match signOutError
    case None => Ok(true)
    case Some(e) => Err(Thrown(SignOutPrefix + e.message))
  }

  // ------------------------------------------------------- createUserProfile

  const UserProfileFields: set<string> := {
    "uid", "email", "displayName", "username", "photoURL", "links", "selectedTheme", "createdAt",
    "accountType", "isTeamManager", "teamId", "teamRole", "managerUserId"}

  /** `additionalData.username` is truthy. */
  predicate HasUsername(additional: Document) {
    "username" in additional && IsTruthy(additional["username"])
  }

  /** The record of lines 49-64 before `additionalData` is spread over it,
      given the two computed names. */
  function ProfileDefaults(u: AuthUser, displayName: Value, username: Value, createdAt: string): (d: Document)
    ensures d.Keys == UserProfileFields
    ensures d["displayName"] == displayName && d["username"] == username
    ensures d["uid"] == Str(u.uid) && d["email"] == EmailValue(u) && d["createdAt"] == Str(createdAt)
    ensures d["photoURL"] == Str(OrElse(u.photoURL, "")) && d["links"] == List([])
    ensures d["selectedTheme"] == Str(DefaultTheme) && d["accountType"] == Str("free")
    ensures d["isTeamManager"] == Bool(false)
    ensures d["teamId"] == Null && d["teamRole"] == Null && d["managerUserId"] == Null
  {
    map[
      "uid" := Str(u.uid),
      "email" := EmailValue(u),
      "displayName" := displayName,
      "username" := username,
      "photoURL" := Str(OrElse(u.photoURL, "")),
      "links" := List([]),
      "selectedTheme" := Str(DefaultTheme),
      "createdAt" := Str(createdAt),
      "accountType" := Str("free"),
      "isTeamManager" := Bool(false),
      "teamId" := Null,
      "teamRole" := Null,
      "managerUserId" := Null]
  }

  /** The record `createUserProfile` builds (lines 49-67): computed defaults
      with `additionalData` spread over them, or `NullEmailSplit` when a
      fallback needs the email part of a `null` email. */
  function NewProfile(u: AuthUser, additional: Document, createdAt: string): (r: Result<Document>)
    ensures r.Err? <==> !HasUsername(additional) && u.email.None?
    ensures r.Err? ==> r.error == NullEmailSplit
    ensures r.Ok? ==>
      var d := r.value;
      // every key of additionalData overrides the computed value
      && d.Keys == UserProfileFields + additional.Keys
      && (forall k :: k in additional ==> d[k] == additional[k])
      // the fallback chains of lines 52-53
      && ("displayName" !in additional ==>
            d["displayName"] ==
              if Truthy(u.displayName) then Str(u.displayName.value)
              else if HasUsername(additional) then additional["username"]
              else Str(EmailLocalPart(u).value))
      && ("username" !in additional ==> d["username"] == Str(EmailLocalPart(u).value))
      // the identity's email and the creation time (lines 51, 57)
      && ("email" !in additional ==> d["email"] == EmailValue(u))
      && ("createdAt" !in additional ==> d["createdAt"] == Str(createdAt))
  {
    if !HasUsername(additional) && u.email.None? then Err(NullEmailSplit)
    else
      var local := if u.email.Some? then EmailLocalPart(u).value else "";
      var displayName :=
        if Truthy(u.displayName) then Str(u.displayName.value)
        else if HasUsername(additional) then additional["username"]
        else Str(local);
      var username := if HasUsername(additional) then additional["username"] else Str(local);
      Ok(ProfileDefaults(u, displayName, username, createdAt) + additional)
  }

  /** The fixed defaults of a new profile, where `additionalData` does not
      override them (lines 54-64). */
  lemma NewProfileDefaults(u: AuthUser, additional: Document, createdAt: string)
    requires NewProfile(u, additional, createdAt).Ok?
    ensures var d := NewProfile(u, additional, createdAt).value;
      && ("uid" !in additional ==> d["uid"] == Str(u.uid))
      && ("photoURL" !in additional ==> d["photoURL"] == Str(OrElse(u.photoURL, "")))
      && ("links" !in additional ==> d["links"] == List([]))
      && ("selectedTheme" !in additional ==> d["selectedTheme"] == Str(DefaultTheme))
      && ("accountType" !in additional ==> d["accountType"] == Str("free"))
      && ("isTeamManager" !in additional ==> d["isTeamManager"] == Bool(false))
      && ("teamId" !in additional ==> d["teamId"] == Null)
      && ("teamRole" !in additional ==> d["teamRole"] == Null)
      && ("managerUserId" !in additional ==> d["managerUserId"] == Null)
  {
  }

  /** `createUserProfile` (lines 38-79) on the collections: an existing
      profile is returned as stored and nothing is written; otherwise the new
      record is written and returned, whatever becomes of the lookup write. */
  function CreateProfile(accounts: map<string, Document>, lookup: map<string, Document>,
                         u: AuthUser, additional: Document, faults: Faults, createdAt: string)
    : (r: Stored<Document>)
    ensures faults.read.Some? ==> r == Stored(Err(faults.read.value), accounts, lookup)
    ensures faults.read.None? && u.uid in accounts ==> r == Stored(Ok(accounts[u.uid]), accounts, lookup)
    ensures r.result.Err? ==> r.accounts == accounts && r.lookup == lookup
    ensures faults.read.None? && u.uid !in accounts ==>
      && (r.result.Ok? <==> NewProfile(u, additional, createdAt).Ok? && faults.write.None?)
      && (r.result.Ok? ==>
            && r.result == NewProfile(u, additional, createdAt)
            && r.accounts == accounts[u.uid := r.result.value]
            && r.lookup == UserLookup.LookupAfter(lookup, u.uid, r.result.value["username"], faults.lookupWriteFails))
      // which error a new profile fails with: the build's, then the write's
      && (NewProfile(u, additional, createdAt).Err? ==> r.result == Err(NullEmailSplit))
      && (NewProfile(u, additional, createdAt).Ok? && faults.write.Some? ==> r.result == Err(faults.write.value))
  {
    if faults.read.Some? then Stored(Err(faults.read.value), accounts, lookup)
    else if u.uid in accounts then Stored(Ok(accounts[u.uid]), accounts, lookup)
    else match NewProfile(u, additional, createdAt)
      case Err(e) => Stored(Err(e), accounts, lookup)
      case Ok(d) =>
        if faults.write.Some? then Stored(Err(faults.write.value), accounts, lookup)
        else Stored(Ok(d), accounts[u.uid := d],
                    UserLookup.LookupAfter(lookup, u.uid, d["username"], faults.lookupWriteFails))
  }

  /** lib/authentication/firebaseAuth.js:38-79. */
  method CreateUserProfile(db: Database, u: AuthUser, additional: Document, faults: Faults, createdAt: string)
    returns (r: Result<Document>)
    modifies db`accountData, db`userLookup
    ensures var s := CreateProfile(old(db.accountData), old(db.userLookup), u, additional, faults, createdAt);
      r == s.result && db.accountData == s.accounts && db.userLookup == s.lookup
  {
    if faults.read.Some? {
      return Err(faults.read.value);
    }
    if u.uid in db.accountData {
      return Ok(db.accountData[u.uid]);
    }
    var built := NewProfile(u, additional, createdAt);
    if built.Err? {
      return built;
    }
    if faults.write.Some? {
      return Err(faults.write.value);
    }
    db.accountData := db.accountData[u.uid := built.value];
    // the try/catch of lines 72-76: `updateUserLookup` swallows its own errors
    UserLookup.UpdateUserLookup(db, u.uid, built.value["username"], faults.lookupWriteFails);
    r := built;
  }

  // ------------------------------------------------- email/password flows

  /** The `{user, userData}` pair a successful sign-in returns. */
  datatype SignInResult = SignInResult(user: AuthUser, userData: Document)

  /** `additionalData` of a registration (line 98). */
  function RegistrationData(username: string, language: string): Document {
    map["username" := Str(username), "language" := Str(language)]
  }

  /** `registerWithEmailPassword` (lines 82-128), given the outcomes of
      `createUserWithEmailAndPassword` and `updateProfile`. Every error leaves
      as the registration message of its code. */
  method RegisterWithEmailPassword(db: Database, username: string, language: string,
                                   created: Result<AuthUser>, updateProfileError: Option<FirebaseError>,
                                   faults: Faults, createdAt: string)
    returns (r: Result<SignInResult>)
    modifies db`accountData, db`userLookup
    ensures created.Err? ==>
      r == Err(Thrown(RegisterErrorMessage(created.error)))
      && db.accountData == old(db.accountData) && db.userLookup == old(db.userLookup)
    ensures created.Ok? && updateProfileError.Some? ==>
      r == Err(Thrown(RegisterErrorMessage(updateProfileError.value)))
      && db.accountData == old(db.accountData) && db.userLookup == old(db.userLookup)
    ensures created.Ok? && updateProfileError.None? ==>
      var u := created.value.(displayName := Some(username));
      var s := CreateProfile(old(db.accountData), old(db.userLookup), u, RegistrationData(username, language),
                             faults, createdAt);
      && db.accountData == s.accounts && db.userLookup == s.lookup
      && r == (if s.result.Ok? then Ok(SignInResult(u, s.result.value))
               else Err(Thrown(RegisterErrorMessage(s.result.error))))
  {
    if created.Err? {
      return Err(Thrown(RegisterErrorMessage(created.error)));
    }
    if updateProfileError.Some? {
      return Err(Thrown(RegisterErrorMessage(updateProfileError.value)));
    }
    // `updateProfile` sets the display name on the user object itself
    var u := created.value.(displayName := Some(username));
    var profile := CreateUserProfile(db, u, RegistrationData(username, language), faults, createdAt);
    if profile.Err? {
      return Err(Thrown(RegisterErrorMessage(profile.error)));
    }
    // the welcome mail's failure is caught and logged (lines 101-109)
    r := Ok(SignInResult(u, profile.value));
  }

  /** `loginWithEmailPassword` (lines 131-161), given the outcome of
      `signInWithEmailAndPassword`. */
  method LoginWithEmailPassword(db: Database, signedIn: Result<AuthUser>, faults: Faults, createdAt: string)
    returns (r: Result<SignInResult>)
    modifies db`accountData, db`userLookup
    ensures signedIn.Err? ==>
      r == Err(Thrown(LoginErrorMessage(signedIn.error)))
      && db.accountData == old(db.accountData) && db.userLookup == old(db.userLookup)
    ensures signedIn.Ok? ==>
      var s := CreateProfile(old(db.accountData), old(db.userLookup), signedIn.value, map[], faults, createdAt);
      && db.accountData == s.accounts && db.userLookup == s.lookup
      && r == (if s.result.Ok? then Ok(SignInResult(signedIn.value, s.result.value))
               else Err(Thrown(LoginErrorMessage(s.result.error))))
  {
    if signedIn.Err? {
      return Err(Thrown(LoginErrorMessage(signedIn.error)));
    }
    var profile := CreateUserProfile(db, signedIn.value, map[], faults, createdAt);
    if profile.Err? {
      return Err(Thrown(LoginErrorMessage(profile.error)));
    }
    r := Ok(SignInResult(signedIn.value, profile.value));
  }

  // --------------------------------------------------------- Google sign-in

  /** What `signInWithPopup` resolves to: the user and
      `result._tokenResponse?.isNewUser || false`. */
  datatype Credential = Credential(user: AuthUser, isNewUser: bool)

  /** The `{user, userData, isNewUser}` a Google sign-in returns. */
  datatype GoogleSession = GoogleSession(user: AuthUser, userData: Document, isNewUser: bool)

  datatype GoogleOutcome =
    | RequiresRedirect           // `{ requiresRedirect: true }`
    | SignedIn(session: GoogleSession)
    | Failed(message: string)    // the message of the thrown `Error`

  /** The fallback test of lines 176-178 and 301-303; `isMobile` is the
      user-agent test. */
  predicate FallsBackToRedirect(popupError: FirebaseError, isMobile: bool) {
    || popupError.code == "auth/popup-blocked"
    || popupError.code == "auth/popup-closed-by-user"
    || isMobile
  }

  /** Where the popup stage leaves a Google sign-in: on with the credential,
      or finished. */
  datatype PopupStage = Proceed(cred: Credential) | Finished(outcome: GoogleOutcome)

  /** The popup stage shared by both variants (lines 171-184 and 296-309):
      `popup` is the outcome of `signInWithPopup`, `redirect` the error of
      `signInWithRedirect` if it fails. A sign-in switches to the redirect
      flow exactly when the popup failed with one of the two popup codes or
      the browser is mobile. */
  function PopupStep(popup: Result<Credential>, isMobile: bool, redirect: Option<FirebaseError>): (r: PopupStage)
    ensures r.Proceed? <==> popup.Ok?
    ensures r.Proceed? ==> r.cred == popup.value
    ensures r == Finished(RequiresRedirect) <==>
      popup.Err? && FallsBackToRedirect(popup.error, isMobile) && redirect.None?
    ensures popup.Err? && !FallsBackToRedirect(popup.error, isMobile) ==>
      r == Finished(Failed(GooglePrefix + popup.error.message))
    ensures popup.Err? && FallsBackToRedirect(popup.error, isMobile) && redirect.Some? ==>
      r == Finished(Failed(GoogleErrorMessage(redirect.value)))
  {
    match popup
    case Ok(cred) => Proceed(cred)
    case Err(popupError) =>
      if FallsBackToRedirect(popupError, isMobile) then
        match redirect
        case None => Finished(RequiresRedirect)
        case Some(e) => Finished(Failed(GoogleErrorMessage(e)))
      else
        // `throw popupError`, then the outer catch
        Finished(Failed(GoogleErrorMessage(popupError)))
  }

  /** The "cancelled" and "blocked" messages never describe the popup
      itself: a popup error with those codes switches to the redirect, so a
      fixed message can only come from a failing `signInWithRedirect`. */
  lemma FixedGoogleMessageFromRedirect(popup: Result<Credential>, isMobile: bool, redirect: Option<FirebaseError>)
    requires PopupStep(popup, isMobile, redirect).Finished?
    requires PopupStep(popup, isMobile, redirect).outcome.Failed?
    requires !(GooglePrefix <= PopupStep(popup, isMobile, redirect).outcome.message)
    ensures popup.Err? && FallsBackToRedirect(popup.error, isMobile)
    ensures redirect.Some? && redirect.value.code in GoogleMessages
  {
    if FallsBackToRedirect(popup.error, isMobile) {
      GoogleMessageKinds(redirect.value);
    } else {
      GoogleMessageKinds(popup.error);
    }
  }

  /** `signInWithGoogleFirebase` (lines 164-220). */
  method SignInWithGoogle(db: Database, popup: Result<Credential>, isMobile: bool, redirect: Option<FirebaseError>,
                          language: string, faults: Faults, createdAt: string)
    returns (o: GoogleOutcome)
    modifies db`accountData, db`userLookup
    ensures PopupStep(popup, isMobile, redirect).Finished? ==>
      o == PopupStep(popup, isMobile, redirect).outcome
      && db.accountData == old(db.accountData) && db.userLookup == old(db.userLookup)
    ensures popup.Ok? ==>
      var s := CreateProfile(old(db.accountData), old(db.userLookup), popup.value.user,
                             map["language" := Str(language)], faults, createdAt);
      && db.accountData == s.accounts && db.userLookup == s.lookup
      && o == (if s.result.Ok? then SignedIn(GoogleSession(popup.value.user, s.result.value, popup.value.isNewUser))
               else Failed(GoogleErrorMessage(s.result.error)))
  {
    var stage := PopupStep(popup, isMobile, redirect);
    if stage.Finished? {
      return stage.outcome;
    }
    var cred := stage.cred;
    var profile := CreateUserProfile(db, cred.user, map["language" := Str(language)], faults, createdAt);
    if profile.Err? {
      return Failed(GoogleErrorMessage(profile.error));
    }
    o := SignedIn(GoogleSession(cred.user, profile.value, cred.isNewUser));
  }

  /** `handleGoogleRedirectResultFirebase` (lines 223-244), given the
      outcome of `getRedirectResult` (`None` = no pending redirect). Errors
      keep no code-specific message. */
  method HandleGoogleRedirectResult(db: Database, redirectResult: Result<Option<Credential>>, language: string,
                                    faults: Faults, createdAt: string)
    returns (r: Result<Option<GoogleSession>>)
    modifies db`accountData, db`userLookup
    ensures redirectResult.Err? ==>
      r == Err(Thrown(GooglePrefix + redirectResult.error.message))
      && db.accountData == old(db.accountData) && db.userLookup == old(db.userLookup)
    ensures redirectResult == Ok(None) ==>
      r == Ok(None) && db.accountData == old(db.accountData) && db.userLookup == old(db.userLookup)
    ensures redirectResult.Ok? && redirectResult.value.Some? ==>
      var cred := redirectResult.value.value;
      var s := CreateProfile(old(db.accountData), old(db.userLookup), cred.user,
                             map["language" := Str(language)], faults, createdAt);
      && db.accountData == s.accounts && db.userLookup == s.lookup
      && r == (if s.result.Ok? then Ok(Some(GoogleSession(cred.user, s.result.value, cred.isNewUser)))
               else Err(Thrown(GooglePrefix + s.result.error.message)))
  {
    if redirectResult.Err? {
      return Err(Thrown(GooglePrefix + redirectResult.error.message));
    }
    if redirectResult.value.None? {
      return Ok(None);
    }
    var cred := redirectResult.value.value;
    var profile := CreateUserProfile(db, cred.user, map["language" := Str(language)], faults, createdAt);
    if profile.Err? {
      return Err(Thrown(GooglePrefix + profile.error.message));
    }
    r := Ok(Some(GoogleSession(cred.user, profile.value, cred.isNewUser)));
  }

  // ------------------------------------------ the robust variant's retries

  const MaxRetries: nat := 3

  /** The error thrown once every attempt has failed (line 379). */
  const ProfileExhausted := Thrown("Failed to create user profile after multiple attempts")

  /** The Firestore outcomes one attempt of the loop meets, and the time
      stamp its record gets (`createdAt` is taken anew on every attempt). */
  datatype Attempt = Attempt(read: Option<FirebaseError>, write: Option<FirebaseError>,
                             lookupWriteFails: bool, createdAt: string)

  /** Building the robust record needs the email only when there is no
      display name. */
  predicate RobustBuildable(u: AuthUser) {
    Truthy(u.displayName) || u.email.Some?
  }

  const RobustFields: set<string> := UserProfileFields + {"language", "signupMethod", "isNewUser"}

  /** The record of lines 336-357: the fields of `createUserProfile` with no
      `additionalData`, except that username and display name are both the
      raw display name (else the email part before '@'), not sanitised, plus
      the language and two metadata fields. */
  function RobustProfile(u: AuthUser, isNewUser: bool, language: string, createdAt: string): (r: Option<Document>)
    ensures r.Some? <==> RobustBuildable(u)
    ensures r.Some? ==>
      && r.value.Keys == RobustFields
      && r.value["language"] == Str(language)
      && r.value["signupMethod"] == Str("google")
      && r.value["isNewUser"] == Bool(isNewUser)
  {
    if !RobustBuildable(u) then None
    else
      var name := if Truthy(u.displayName) then u.displayName.value else EmailLocalPart(u).value;
      var d := ProfileDefaults(u, Str(name), Str(name), createdAt);
      Some(d["language" := Str(language)]["signupMethod" := Str("google")]["isNewUser" := Bool(isNewUser)])
  }

  /** The robust record's profile fields: username and display name are
      both the raw display name, else the email part before '@'; the
      identity, timestamp and plan fields are those of `createUserProfile`. */
  lemma RobustProfileNames(u: AuthUser, isNewUser: bool, language: string, createdAt: string)
    requires RobustBuildable(u)
    ensures var r := RobustProfile(u, isNewUser, language, createdAt).value;
      var name := if Truthy(u.displayName) then u.displayName.value else EmailLocalPart(u).value;
      && r["username"] == Str(name)
      && r["displayName"] == Str(name)
      && r["uid"] == Str(u.uid)
      && r["email"] == EmailValue(u)
      && r["createdAt"] == Str(createdAt)
      && r["accountType"] == Str("free")
  {
  }

  /** The robust record's fixed fields (lines 341-352): the photo URL or
      `""`, no links, the default theme, and a free account outside any
      team. */
  lemma RobustProfileFixed(u: AuthUser, isNewUser: bool, language: string, createdAt: string)
    requires RobustBuildable(u)
    ensures var r := RobustProfile(u, isNewUser, language, createdAt).value;
      && r["photoURL"] == Str(OrElse(u.photoURL, ""))
      && r["links"] == List([])
      && r["selectedTheme"] == Str(DefaultTheme)
      && r["isTeamManager"] == Bool(false)
      && r["teamId"] == Null && r["teamRole"] == Null && r["managerUserId"] == Null
  {
  }

  /** Unlike `createMissingUserProfile`, the robust variant keeps whitespace
      in the username: its lookup key then holds the whitespace too. */
  lemma RobustUsernameUnsanitised(u: AuthUser, i: nat)
    requires Truthy(u.displayName) && i < |u.displayName.value| && IsJsWhitespace(u.displayName.value[i])
    ensures var r := RobustProfile(u, false, "en", "");
      r.Some? && r.value["username"].Str? && !AllLowerAlnum(r.value["username"].s)
  {
    var r := RobustProfile(u, false, "en", "");
    RobustProfileNames(u, false, "en", "");
    assert r.value["username"].s[i] == u.displayName.value[i];
  }

  /** An attempt ends the loop: the read succeeds and the profile exists, or
      it is built and written. */
  predicate AttemptSucceeds(a: Attempt, found: bool, buildable: bool) {
    a.read.None? && (found || (buildable && a.write.None?))
  }

  /** The first attempt from `from` on, below `MaxRetries`, that ends the
      loop. */
  function FirstSuccess(attempt: nat -> Attempt, found: bool, buildable: bool, from: nat): (k: Option<nat>)
    ensures k.Some? ==>
      && from <= k.value < MaxRetries
      && AttemptSucceeds(attempt(k.value), found, buildable)
      && (forall j :: from <= j < k.value ==> !AttemptSucceeds(attempt(j), found, buildable))
    ensures k.None? ==> forall j :: from <= j < MaxRetries ==> !AttemptSucceeds(attempt(j), found, buildable)
    decreases MaxRetries - from
  {
    if from >= MaxRetries then None
    else if AttemptSucceeds(attempt(from), found, buildable) then Some(from)
    else FirstSuccess(attempt, found, buildable, from + 1)
  }

  /** An attempt that succeeds after only failures is the first success. */
  lemma FirstSuccessAt(attempt: nat -> Attempt, found: bool, buildable: bool, k: nat)
    requires k < MaxRetries && AttemptSucceeds(attempt(k), found, buildable)
    requires forall j :: 0 <= j < k ==> !AttemptSucceeds(attempt(j), found, buildable)
    ensures FirstSuccess(attempt, found, buildable, 0) == Some(k)
  {
  }

  /** The waits after failures 1..n: `1000 * n` ms after failure n. */
  function RetryDelays(n: nat): (d: seq<nat>)
    ensures |d| == n
    ensures forall i :: 0 <= i < n ==> d[i] == 1000 * (i + 1)
  {
    if n == 0 then [] else RetryDelays(n - 1) + [1000 * n]
  }

  /** The outcome of the loop, with the waits it made. */
  datatype LoopResult = LoopResult(stored: Stored<Document>, waits: seq<nat>)

  /** The profile loop of lines 317-385 on the collections. It makes at most
      three attempts, stops at the first that finds or writes a profile, and
      throws after the third failure; a failed attempt changes nothing, so
      every attempt sees the collections as they were. */
  function RobustLoopOutcome(accounts: map<string, Document>, lookup: map<string, Document>,
                             u: AuthUser, isNewUser: bool, language: string, attempt: nat -> Attempt)
    : (r: LoopResult)
    ensures |r.waits| < MaxRetries
    ensures r.stored.result.Err? <==>
      forall j :: 0 <= j < MaxRetries ==> !AttemptSucceeds(attempt(j), u.uid in accounts, RobustBuildable(u))
    ensures r.stored.result.Err? ==>
      && r.stored.result.error == ProfileExhausted
      && r.waits == RetryDelays(MaxRetries - 1)
      && r.stored.accounts == accounts && r.stored.lookup == lookup
    ensures r.stored.result.Ok? && u.uid in accounts ==>
      r.stored.result.value == accounts[u.uid] && r.stored.accounts == accounts && r.stored.lookup == lookup
    ensures r.stored.result.Ok? ==>
      var k := FirstSuccess(attempt, u.uid in accounts, RobustBuildable(u), 0).value;
      && r.waits == RetryDelays(k)
      && (u.uid !in accounts ==>
            && Some(r.stored.result.value) == RobustProfile(u, isNewUser, language, attempt(k).createdAt)
            && r.stored.accounts == accounts[u.uid := r.stored.result.value]
            && r.stored.lookup == UserLookup.LookupAfter(lookup, u.uid, r.stored.result.value["username"],
                                                          attempt(k).lookupWriteFails))
  {
    var found := u.uid in accounts;
    match FirstSuccess(attempt, found, RobustBuildable(u), 0)
    case None => LoopResult(Stored(Err(ProfileExhausted), accounts, lookup), RetryDelays(MaxRetries - 1))
    case Some(k) =>
      if found then LoopResult(Stored(Ok(accounts[u.uid]), accounts, lookup), RetryDelays(k))
      else
        var d := RobustProfile(u, isNewUser, language, attempt(k).createdAt).value;
        LoopResult(Stored(Ok(d), accounts[u.uid := d],
                          UserLookup.LookupAfter(lookup, u.uid, d["username"], attempt(k).lookupWriteFails)),
                   RetryDelays(k))
  }

  /** The loop's outcome when attempt `k` finds the profile. */
  lemma LoopEndsFound(accounts: map<string, Document>, lookup: map<string, Document>,
                      u: AuthUser, isNewUser: bool, language: string, attempt: nat -> Attempt, k: nat)
    requires u.uid in accounts && k < MaxRetries && attempt(k).read.None?
    requires forall j :: 0 <= j < k ==> !AttemptSucceeds(attempt(j), true, RobustBuildable(u))
    ensures RobustLoopOutcome(accounts, lookup, u, isNewUser, language, attempt)
            == LoopResult(Stored(Ok(accounts[u.uid]), accounts, lookup), RetryDelays(k))
  {
    FirstSuccessAt(attempt, true, RobustBuildable(u), k);
  }

  /** The loop's outcome when attempt `k` builds and writes the record `d`. */
  lemma LoopEndsWritten(accounts: map<string, Document>, lookup: map<string, Document>,
                        u: AuthUser, isNewUser: bool, language: string, attempt: nat -> Attempt, k: nat,
                        d: Document)
    requires u.uid !in accounts && k < MaxRetries && attempt(k).read.None? && attempt(k).write.None?
    requires RobustProfile(u, isNewUser, language, attempt(k).createdAt) == Some(d)
    requires forall j :: 0 <= j < k ==> !AttemptSucceeds(attempt(j), false, RobustBuildable(u))
    ensures RobustLoopOutcome(accounts, lookup, u, isNewUser, language, attempt)
            == LoopResult(Stored(Ok(d), accounts[u.uid := d],
                                 UserLookup.LookupAfter(lookup, u.uid, d["username"], attempt(k).lookupWriteFails)),
                          RetryDelays(k))
  {
    FirstSuccessAt(attempt, false, RobustBuildable(u), k);
  }

  /** The `try` block of one attempt (lines 322-372): read the profile,
      else build and write the robust record and its lookup entry. `None`
      when the attempt fails, which then changes nothing. */
  method TryAttempt(db: Database, u: AuthUser, isNewUser: bool, language: string, a: Attempt)
    returns (userData: Option<Document>)
    modifies db`accountData, db`userLookup
    ensures userData.None? <==> !AttemptSucceeds(a, u.uid in old(db.accountData), RobustBuildable(u))
    ensures userData.None? || u.uid in old(db.accountData) ==>
      db.accountData == old(db.accountData) && db.userLookup == old(db.userLookup)
    ensures userData.Some? && u.uid in old(db.accountData) ==> userData.value == old(db.accountData)[u.uid]
    ensures userData.Some? && u.uid !in old(db.accountData) ==>
      && userData == RobustProfile(u, isNewUser, language, a.createdAt)
      && db.accountData == old(db.accountData)[u.uid := userData.value]
      && db.userLookup == UserLookup.LookupAfter(old(db.userLookup), u.uid, userData.value["username"],
                                                  a.lookupWriteFails)
  {
    if a.read.Some? {
      return None;
    }
    if u.uid in db.accountData {
      return Some(db.accountData[u.uid]);
    }
    var built := RobustProfile(u, isNewUser, language, a.createdAt);
    if built.None? || a.write.Some? {
      return None;
    }
    WriteProfile(db, u.uid, built.value, a.lookupWriteFails);
    userData := built;
  }

  /** The `setDoc` of a new record followed by `updateUserLookup` for its
      username. */
  method WriteProfile(db: Database, uid: string, d: Document, lookupWriteFails: bool)
    requires "username" in d
    modifies db`accountData, db`userLookup
    ensures db.accountData == old(db.accountData)[uid := d]
    ensures db.userLookup == UserLookup.LookupAfter(old(db.userLookup), uid, d["username"], lookupWriteFails)
  {
    var written := db.accountData[uid := d];
    db.accountData := written;
    UserLookup.UpdateUserLookup(db, uid, d["username"], lookupWriteFails);
    assert db.accountData == written;
  }

  /** The `while` loop of lines 317-385; `waits` lists the back-off sleeps in
      milliseconds. */
  method RobustProfileLoop(db: Database, u: AuthUser, isNewUser: bool, language: string, attempt: nat -> Attempt)
    returns (r: Result<Document>, waits: seq<nat>)
    modifies db`accountData, db`userLookup
    ensures var out := RobustLoopOutcome(old(db.accountData), old(db.userLookup), u, isNewUser, language, attempt);
      && r == out.stored.result && waits == out.waits
      && db.accountData == out.stored.accounts && db.userLookup == out.stored.lookup
  {
    ghost var accounts, lookup := db.accountData, db.userLookup;
    ghost var found := u.uid in accounts;
    ghost var buildable := RobustBuildable(u);
    var userData: Option<Document> := None;
    var retryCount: nat := 0;
    waits := [];
    while userData.None? && retryCount < MaxRetries
      invariant retryCount < MaxRetries
      invariant waits == RetryDelays(retryCount)
      invariant userData.None? ==>
        && db.accountData == accounts && db.userLookup == lookup
        && forall j :: 0 <= j < retryCount ==> !AttemptSucceeds(attempt(j), found, buildable)
      invariant userData.Some? ==>
        RobustLoopOutcome(accounts, lookup, u, isNewUser, language, attempt)
        == LoopResult(Stored(Ok(userData.value), db.accountData, db.userLookup), waits)
      decreases MaxRetries - retryCount, userData.None?
    {
      userData := TryAttempt(db, u, isNewUser, language, attempt(retryCount));
      if userData.Some? {
        if found {
          LoopEndsFound(accounts, lookup, u, isNewUser, language, attempt, retryCount);
        } else {
          LoopEndsWritten(accounts, lookup, u, isNewUser, language, attempt, retryCount, userData.value);
        }
      } else {
        // catch
        assert forall j :: 0 <= j <= retryCount ==> !AttemptSucceeds(attempt(j), found, buildable);
        retryCount := retryCount + 1;
        if retryCount >= MaxRetries {
          assert FirstSuccess(attempt, found, buildable, 0).None?;
          return Err(ProfileExhausted), waits;
        }
        waits := waits + [1000 * retryCount];
      }
    }
    r := Ok(userData.value);
  }

  /** `signInWithGoogleFirebaseRobust` (lines 289-413). */
  method SignInWithGoogleRobust(db: Database, popup: Result<Credential>, isMobile: bool,
                                redirect: Option<FirebaseError>, language: string, attempt: nat -> Attempt)
    returns (o: GoogleOutcome, waits: seq<nat>)
    modifies db`accountData, db`userLookup
    ensures PopupStep(popup, isMobile, redirect).Finished? ==>
      o == PopupStep(popup, isMobile, redirect).outcome && waits == []
      && db.accountData == old(db.accountData) && db.userLookup == old(db.userLookup)
    ensures popup.Ok? ==>
      var cred := popup.value;
      var out := RobustLoopOutcome(old(db.accountData), old(db.userLookup), cred.user, cred.isNewUser, language, attempt);
      && waits == out.waits
      && db.accountData == out.stored.accounts && db.userLookup == out.stored.lookup
      && o == (if out.stored.result.Ok? then SignedIn(GoogleSession(cred.user, out.stored.result.value, cred.isNewUser))
               else Failed(GoogleErrorMessage(out.stored.result.error)))
  {
    var stage := PopupStep(popup, isMobile, redirect);
    if stage.Finished? {
      return stage.outcome, [];
    }
    var cred := stage.cred;
    var profile;
    profile, waits := RobustProfileLoop(db, cred.user, cred.isNewUser, language, attempt);
    if profile.Err? {
      return Failed(GoogleErrorMessage(profile.error)), waits;
    }
    // the welcome mail's failure is caught and logged (lines 388-398)
    o := SignedIn(GoogleSession(cred.user, profile.value, cred.isNewUser));
  }
}
