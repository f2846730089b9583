/** The sign-up page (app/signup/componets/SignupForm.jsx): where it sends
    the browser after a sign-up, the validation effect with its message
    priority, the guards of its two handlers, and the once-per-mount check of
    a pending Google redirect. `validateEmail` and `validatePassword` are
    not part of this model: their verdicts are inputs. */
module SignupForm {
  import opened JsText
  import opened Firebase
  import FirebaseAuth
  import UrlQuery
  import LoginForm

  const CheckoutPath := "/nfc-cards/checkout"
  const DashboardPath := "/dashboard"

  /** The referrer names one of the NFC-card pages. */
  predicate FromCardPages(referrer: Option<string>) {
    referrer.Some? && Includes(referrer.value, "/nfc-cards")
  }

  /** `getRedirectUrl` (lines 37-54): a non-empty `returnUrl` parameter
      wins; else the checkout when the page was reached from the card pages
      (`referrer` is `None` where there is no `window`); else the
      dashboard. */
  function GetRedirectUrl(returnUrl: Option<string>, referrer: Option<string>): (r: string)
    ensures r != ""
    ensures Truthy(returnUrl) ==> r == returnUrl.value
    ensures !Truthy(returnUrl) ==> (r == CheckoutPath <==> FromCardPages(referrer))
    ensures !Truthy(returnUrl) ==> r in {CheckoutPath, DashboardPath}
  {
    if Truthy(returnUrl) then returnUrl.value
    else if FromCardPages(referrer) then CheckoutPath
    else DashboardPath
  }

  /** The login page hands its target on as `returnTo`, but this page reads
      `returnUrl`: whatever target the login page was given, a sign-up
      reached through its link lands on the checkout or the dashboard. */
  lemma LoginTargetIsDropped(returnTo: string, referrer: Option<string>)
    requires '&' !in returnTo
    ensures UrlQuery.SearchParam(LoginForm.SignupHref(returnTo), "returnUrl") == None
    ensures GetRedirectUrl(UrlQuery.SearchParam(LoginForm.SignupHref(returnTo), "returnUrl"), referrer)
         == (if FromCardPages(referrer) then CheckoutPath else DashboardPath)
  {
    if returnTo != LoginForm.DefaultReturnTo {
      LoginForm.SignupHrefCarriesReturnTo(returnTo, "returnUrl");
    } else {
      var href := LoginForm.SignupHref(returnTo);
      assert href == "/signup";
      assert '?' !in href;
      assert Split(UrlQuery.QueryOf(href), '&') == [""];
    }
  }

  /** The one validation message shown, by priority (lines 178-181). */
  datatype Issue = NoIssue | InvalidEmail | PasswordTooShort | UsernameTooShort

  /** The checks of lines 174-181: an empty field never raises its own
      message, and the first failing non-empty field in the order email,
      password, username decides. */
  function ValidationIssue(email: string, password: string, username: string,
                           emailValid: bool, passwordValid: bool): (i: Issue)
    ensures i == InvalidEmail <==> email != "" && !emailValid
    ensures i == PasswordTooShort <==> !(email != "" && !emailValid) && password != "" && !passwordValid
    ensures i == UsernameTooShort <==>
      !(email != "" && !emailValid) && !(password != "" && !passwordValid)
      && username != "" && Utf16Length(username) < 3
  {
    if email != "" && !emailValid then InvalidEmail
    else if password != "" && !passwordValid then PasswordTooShort
    else if username != "" && !(Utf16Length(username) >= 3) then UsernameTooShort
    else NoIssue
  }

  /** `canProceed` (lines 184-191). */
  predicate SignupCanProceed(email: string, password: string, username: string,
                             emailValid: bool, passwordValid: bool) {
    email != "" && username != "" && password != ""
    && emailValid && passwordValid && Utf16Length(username) >= 3
  }

  /** The form may be submitted exactly when every field is filled in and
      none raises a message. */
  lemma CanProceedIffNoIssue(email: string, password: string, username: string,
                             emailValid: bool, passwordValid: bool)
    ensures SignupCanProceed(email, password, username, emailValid, passwordValid) <==>
      email != "" && password != "" && username != ""
      && ValidationIssue(email, password, username, emailValid, passwordValid) == NoIssue
  {
  }

  /** The translated validation messages (`translations.validation`). */
  datatype Translations = Translations(invalidEmail: string, passwordLength: string)

  /** The username message is not translated (line 181). */
  const UsernameMessage := "Username must be at least 3 characters"

  /** The text of an issue, or `None` when it needs a translation and the
      translations are not loaded (`translations` is `{}` and reading
      `translations.validation.…` throws). */
  function MessageOf(i: Issue, tr: Option<Translations>): (m: Option<string>)
    ensures m.None? <==> tr.None? && (i == InvalidEmail || i == PasswordTooShort)
    ensures i == NoIssue ==> m == Some("")
    ensures i == UsernameTooShort ==> m == Some(UsernameMessage)
    ensures tr.Some? && i == InvalidEmail ==> m == Some(tr.value.invalidEmail)
    ensures tr.Some? && i == PasswordTooShort ==> m == Some(tr.value.passwordLength)
  {
    match i
    case NoIssue => Some("")
    case UsernameTooShort => Some(UsernameMessage)
    case InvalidEmail => if tr.Some? then Some(tr.value.invalidEmail) else None
    case PasswordTooShort => if tr.Some? then Some(tr.value.passwordLength) else None
  }

  /** What the page shows (lines 194-197). */
  datatype View = LoadingText | Nothing | Form

  function RenderedView(isInitialized: bool, authLoading: bool, hasUser: bool): (v: View)
    ensures v == Form <==> isInitialized && !authLoading && !hasUser
    ensures hasUser && v != LoadingText ==> v == Nothing
  {
    if !isInitialized || authLoading then LoadingText
    else if hasUser then Nothing
    else Form
  }

  /** The effect of lines 57-63 leaves the page exactly when the auth check
      is over and a user is present. */
  predicate ShouldRedirectAuthenticated(authLoading: bool, hasUser: bool) {
    !authLoading && hasUser
  }

  /** Whenever the form is on screen the page is not leaving it, and
      whenever the page leaves it the form is not on screen. */
  lemma FormAndRedirectExclusive(isInitialized: bool, authLoading: bool, hasUser: bool)
    ensures RenderedView(isInitialized, authLoading, hasUser) == Form ==> !ShouldRedirectAuthenticated(authLoading, hasUser)
    ensures ShouldRedirectAuthenticated(authLoading, hasUser) ==> RenderedView(isInitialized, authLoading, hasUser) != Form
  {
  }

  /** What a handler run amounts to. */
  datatype Outcome =
    | Skipped                   // the guard returned at once
    | Idle                      // it ran and found nothing to do
    | RedirectStarted           // the Google sign-in went on as a redirect
    | Navigates(url: string)    // `router.push(url)` after the one-second timer
    | Failed(message: string)   // the error shown to the user

  /** The component's state cells and its `hasCheckedRedirect` ref;
      `redirectChecks` counts the redirect-result checks made. */
  class SignupFormState {
    var email: string
    var username: string
    var password: string
    var canProceed: bool
    var errorMessage: string
    var isLoading: bool
    var isGoogleLoading: bool
    var hasCheckedRedirect: bool
    ghost var redirectChecks: nat

    /** The ref is set exactly when the check has run, and it runs once. */
    ghost predicate Valid()
      reads this
    {
      redirectChecks <= 1 && (hasCheckedRedirect <==> redirectChecks == 1)
    }

    /** The initial state of lines 25-34. */
    constructor ()
      ensures Valid()
      ensures email == "" && username == "" && password == "" && !canProceed && errorMessage == ""
      ensures !isLoading && !isGoogleLoading && !hasCheckedRedirect
    {
      email := "";
      username := "";
      password := "";
      canProceed := false;
      errorMessage := "";
      isLoading := false;
      isGoogleLoading := false;
      hasCheckedRedirect := false;
      redirectChecks := 0;
    }

    predicate Busy()
      reads this
    {
      isLoading || isGoogleLoading
    }

    /** The `onChange` handlers of the three inputs. */
    method Edit(newEmail: string, newUsername: string, newPassword: string)
      modifies this`email, this`username, this`password
      ensures email == newEmail && username == newUsername && password == newPassword
    {
      email := newEmail;
      username := newUsername;
      password := newPassword;
    }

    /** The validation effect (lines 171-192). It does nothing while a
        request is in flight; `threw` reports the `TypeError` of reading a
        message before the translations are loaded, which stops the effect
        before either cell is set. */
    method Validate(emailValid: bool, passwordValid: bool, tr: Option<Translations>) returns (threw: bool)
      modifies this`errorMessage, this`canProceed
      ensures Busy() || threw ==> errorMessage == old(errorMessage) && canProceed == old(canProceed)
      ensures !Busy() ==>
        var m := MessageOf(ValidationIssue(email, password, username, emailValid, passwordValid), tr);
        (threw <==> m.None?)
        && (!threw ==> errorMessage == m.value
                       && canProceed == SignupCanProceed(email, password, username, emailValid, passwordValid))
      ensures Busy() ==> !threw
    {
      if isLoading || isGoogleLoading {
        return false;
      }
      var isUsernameValid := Utf16Length(username) >= 3;
      var issue := ValidationIssue(email, password, username, emailValid, passwordValid);
      var m := MessageOf(issue, tr);
      if m.None? {
        return true;
      }
      threw := false;
      errorMessage := m.value;
      canProceed := email != "" && username != "" && password != ""
                    && emailValid && passwordValid && isUsernameValid;
    }

    /** `handleSignUp` (lines 137-158). `created` and `updateProfileError`
        are the auth service's answers; `returnUrl` and `referrer` feed
        `getRedirectUrl`. */
    method HandleSignUp(db: Database, created: Result<AuthUser>, updateProfileError: Option<FirebaseError>,
                        locale: string, faults: Faults, createdAt: string,
                        returnUrl: Option<string>, referrer: Option<string>)
      returns (o: Outcome)
      modifies this`isLoading, this`errorMessage, db`accountData, db`userLookup
      ensures o == Skipped <==> !canProceed || old(Busy())
      ensures o == Skipped ==>
        isLoading == old(isLoading) && errorMessage == old(errorMessage)
        && db.accountData == old(db.accountData) && db.userLookup == old(db.userLookup)
      ensures o != Skipped ==> o.Navigates? || o.Failed?
      ensures o.Navigates? ==> isLoading && errorMessage == "" && o.url == GetRedirectUrl(returnUrl, referrer)
      ensures o.Failed? ==> !isLoading && errorMessage == o.message
      // past the guard, the outcome is that of `registerWithEmailPassword`
      ensures o != Skipped && created.Err? ==>
        o == Failed(FirebaseAuth.RegisterErrorMessage(created.error))
        && db.accountData == old(db.accountData) && db.userLookup == old(db.userLookup)
      ensures o != Skipped && created.Ok? && updateProfileError.Some? ==>
        o == Failed(FirebaseAuth.RegisterErrorMessage(updateProfileError.value))
        && db.accountData == old(db.accountData) && db.userLookup == old(db.userLookup)
      ensures o != Skipped && created.Ok? && updateProfileError.None? ==>
        var u := created.value.(displayName := Some(username));
        var s := FirebaseAuth.CreateProfile(old(db.accountData), old(db.userLookup), u,
                                            FirebaseAuth.RegistrationData(username, locale), faults, createdAt);
        && db.accountData == s.accounts && db.userLookup == s.lookup
        && (o.Navigates? <==> s.result.Ok?)
        && (s.result.Err? ==> o == Failed(FirebaseAuth.RegisterErrorMessage(s.result.error)))
    {
      if !canProceed || isLoading || isGoogleLoading {
        return Skipped;
      }
      isLoading := true;
      errorMessage := "";
      var r := FirebaseAuth.RegisterWithEmailPassword(db, username, locale, created, updateProfileError, faults, createdAt);
      if r.Err? {
        isLoading := false;
        errorMessage := r.error.message;
        return Failed(r.error.message);
      }
      o := Navigates(GetRedirectUrl(returnUrl, referrer));
    }

    /** `handleGoogleSignIn` (lines 116-134). */
    method HandleGoogleSignIn(db: Database, popup: Result<FirebaseAuth.Credential>, isMobile: bool,
                              redirect: Option<FirebaseError>, locale: string, faults: Faults, createdAt: string,
                              returnUrl: Option<string>, referrer: Option<string>)
      returns (o: Outcome)
      modifies this`isGoogleLoading, db`accountData, db`userLookup
      ensures o == Skipped <==> old(Busy())
      ensures o == Skipped ==>
        isGoogleLoading == old(isGoogleLoading)
        && db.accountData == old(db.accountData) && db.userLookup == old(db.userLookup)
      ensures o != Skipped ==> (isGoogleLoading <==> !o.Failed?)
      ensures o.Navigates? ==> o.url == GetRedirectUrl(returnUrl, referrer)
      ensures o == RedirectStarted ==>
        FirebaseAuth.PopupStep(popup, isMobile, redirect) == FirebaseAuth.Finished(FirebaseAuth.RequiresRedirect)
      ensures o != Skipped ==> o.RedirectStarted? || o.Navigates? || o.Failed?
      // past the guard, the outcome is that of `signInWithGoogleFirebase`
      ensures o != Skipped && FirebaseAuth.PopupStep(popup, isMobile, redirect).Finished? ==>
        var g := FirebaseAuth.PopupStep(popup, isMobile, redirect).outcome;
        && db.accountData == old(db.accountData) && db.userLookup == old(db.userLookup)
        && (g.RequiresRedirect? ==> o == RedirectStarted)
        && (g.Failed? ==> o == Failed(g.message))
      ensures o != Skipped && popup.Ok? ==>
        var s := FirebaseAuth.CreateProfile(old(db.accountData), old(db.userLookup), popup.value.user,
                                            map["language" := Str(locale)], faults, createdAt);
        && db.accountData == s.accounts && db.userLookup == s.lookup
        && (o.Navigates? <==> s.result.Ok?)
        && (s.result.Err? ==> o == Failed(FirebaseAuth.GoogleErrorMessage(s.result.error)))
    {
      if isGoogleLoading || isLoading {
        return Skipped;
      }
      isGoogleLoading := true;
      var r := FirebaseAuth.SignInWithGoogle(db, popup, isMobile, redirect, locale, faults, createdAt);
      match r
      case RequiresRedirect =>
        o := RedirectStarted;
      case SignedIn(_) =>
        o := Navigates(GetRedirectUrl(returnUrl, referrer));
      case Failed(message) =>
        isGoogleLoading := false;
        o := Failed(message);
    }

    /** The redirect-result effect (lines 91-113). It runs only once the
        translations and the auth state are ready, and only on its first
        run: the ref is set before the result is awaited. */
    method CheckRedirectResult(db: Database, isInitialized: bool, authLoading: bool,
                               redirectResult: Result<Option<FirebaseAuth.Credential>>, locale: string,
                               faults: Faults, createdAt: string,
                               returnUrl: Option<string>, referrer: Option<string>)
      returns (o: Outcome)
      requires Valid()
      modifies this`hasCheckedRedirect, this`redirectChecks, this`isGoogleLoading, db`accountData, db`userLookup
      ensures Valid()
      ensures o == Skipped <==> !isInitialized || old(hasCheckedRedirect) || authLoading
      ensures o == Skipped ==>
        redirectChecks == old(redirectChecks) && isGoogleLoading == old(isGoogleLoading)
        && db.accountData == old(db.accountData) && db.userLookup == old(db.userLookup)
      ensures o != Skipped ==> redirectChecks == 1 && old(redirectChecks) == 0
      ensures o == Idle ==> redirectResult == Ok(None) && isGoogleLoading == old(isGoogleLoading)
      ensures o.Navigates? ==> isGoogleLoading && o.url == GetRedirectUrl(returnUrl, referrer)
      ensures o.Failed? ==> !isGoogleLoading
      ensures o != Skipped ==> o.Idle? || o.Navigates? || o.Failed?
      // once it runs, the outcome is that of `handleGoogleRedirectResultFirebase`
      ensures o != Skipped && redirectResult.Err? ==>
        o == Failed(FirebaseAuth.GooglePrefix + redirectResult.error.message)
        && db.accountData == old(db.accountData) && db.userLookup == old(db.userLookup)
      ensures o != Skipped && redirectResult == Ok(None) ==>
        o == Idle && db.accountData == old(db.accountData) && db.userLookup == old(db.userLookup)
      ensures o != Skipped && redirectResult.Ok? && redirectResult.value.Some? ==>
        var s := FirebaseAuth.CreateProfile(old(db.accountData), old(db.userLookup), redirectResult.value.value.user,
                                            map["language" := Str(locale)], faults, createdAt);
        && db.accountData == s.accounts && db.userLookup == s.lookup
        && (o.Navigates? <==> s.result.Ok?)
        && (s.result.Err? ==> o == Failed(FirebaseAuth.GooglePrefix + s.result.error.message))
    {
      if !isInitialized || hasCheckedRedirect || authLoading {
        return Skipped;
      }
      hasCheckedRedirect := true;
      redirectChecks := redirectChecks + 1;
      var r := FirebaseAuth.HandleGoogleRedirectResult(db, redirectResult, locale, faults, createdAt);
      match r
      case Err(e) =>
        isGoogleLoading := false;
        o := Failed(e.message);
      case Ok(None) =>
        o := Idle;
      case Ok(Some(_)) =>
        isGoogleLoading := true;
        o := Navigates(GetRedirectUrl(returnUrl, referrer));
    }
  }

  /** A failed sign-up leaves no inline message. The validation effect
      (lines 171-192) has set `canProceed`; `handleSignUp` (lines 136-157)
      sets the error's message and resets `isLoading`, a dependency of the
      effect, which then re-runs on the same fields. Those fields passed the
      checks, so it sets the message back to `""`. `shown` is the message
      between the two, and the toast of lines 160-166 keeps the error. */
  method FailedSignUpMessageCleared(form: SignupFormState, db: Database, emailValid: bool, passwordValid: bool,
                                    tr: Option<Translations>, created: Result<AuthUser>,
                                    updateProfileError: Option<FirebaseError>, locale: string, faults: Faults,
                                    createdAt: string, returnUrl: Option<string>, referrer: Option<string>)
    returns (threw: bool, o: Outcome, shown: string)
    requires !form.Busy()
    modifies form`errorMessage, form`canProceed, form`isLoading, db`accountData, db`userLookup
    ensures !threw && o.Failed? ==> shown == o.message && form.errorMessage == "" && !form.Busy()
  {
    threw := form.Validate(emailValid, passwordValid, tr);
    o := form.HandleSignUp(db, created, updateProfileError, locale, faults, createdAt, returnUrl, referrer);
    shown := form.errorMessage;
    if o.Failed? {
      CanProceedIffNoIssue(form.email, form.password, form.username, emailValid, passwordValid);
      var again := form.Validate(emailValid, passwordValid, tr);
    }
  }

  /** However often the effect re-runs on one mount, the redirect result is
      fetched at most once: after a check has run, every later run is
      skipped. */
  method CheckedTwice(form: SignupFormState, db: Database, redirectResult: Result<Option<FirebaseAuth.Credential>>,
                      locale: string, faults: Faults, createdAt: string,
                      returnUrl: Option<string>, referrer: Option<string>)
    returns (first: Outcome, second: Outcome)
    requires form.Valid()
    modifies form`hasCheckedRedirect, form`redirectChecks, form`isGoogleLoading, db`accountData, db`userLookup
    ensures second == Skipped
    ensures form.redirectChecks <= 1
  {
    first := form.CheckRedirectResult(db, true, false, redirectResult, locale, faults, createdAt, returnUrl, referrer);
    second := form.CheckRedirectResult(db, true, false, redirectResult, locale, faults, createdAt, returnUrl, referrer);
  }
}
