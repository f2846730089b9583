/** The login page (app/login/componets/LoginForm.jsx): the `returnTo`
    default, the `canProceed` check, the smart-redirect and gatekeeper
    conditions, the sign-up link, and the two submit handlers with the
    `isSubmitting` flag they set. */
module LoginForm {
  import opened JsText
  import opened Firebase
  import FirebaseAuth
  import UrlQuery

  const DefaultReturnTo := "/dashboard"

  /** `searchParams.get('returnTo') || '/dashboard'` (line 22): an absent or
      empty parameter falls back to the dashboard. */
  function ReturnTo(param: Option<string>): (r: string)
    ensures r != ""
    ensures Truthy(param) ==> r == param.value
    ensures !Truthy(param) ==> r == DefaultReturnTo
  {
    OrElse(param, DefaultReturnTo)
  }

  /** The validation effect's result (lines 87-91). */
  predicate CanProceed(email: string, password: string) {
    Includes(email, "@") && Includes(email, ".") && Utf16Length(password) >= 6
  }

  /** The form may be submitted exactly when the email holds an `@` and a
      `.` and the password has at least six UTF-16 code units; for a
      password of Basic Multilingual Plane characters that is six
      characters. */
  lemma CanProceedIff(email: string, password: string)
    ensures CanProceed(email, password) <==> '@' in email && '.' in email && Utf16Length(password) >= 6
    ensures (forall i :: 0 <= i < |password| ==> password[i] as int <= 0xFFFF) ==>
              (CanProceed(email, password) <==> '@' in email && '.' in email && |password| >= 6)
  {
    IncludesChar(email, '@');
    IncludesChar(email, '.');
  }

  /** The smart redirect of lines 31-44 pushes `returnTo` exactly when the
      initial check is over and both identity and profile are present. */
  predicate ShouldNavigate(loading: bool, hasUser: bool, hasUserData: bool) {
    !loading && hasUser && hasUserData
  }

  /** The gatekeeper of lines 97-106 shows the spinner instead of the form
      while loading or while an identity is present. */
  predicate ShowsSpinner(loading: bool, hasUser: bool) {
    loading || hasUser
  }

  /** The form is never on screen while the page navigates away, and it is
      on screen exactly when the context is settled and signed out. */
  lemma NavigationHidesForm(loading: bool, hasUser: bool, hasUserData: bool)
    ensures ShouldNavigate(loading, hasUser, hasUserData) ==> ShowsSpinner(loading, hasUser)
    ensures !ShowsSpinner(loading, hasUser) <==> !loading && !hasUser
  {
  }

  /** The sign-up link of line 144: `/signup`, with `?returnTo=` and the
      target only when the target is not the default. */
  function SignupHref(returnTo: string): (r: string)
    ensures returnTo == DefaultReturnTo <==> r == "/signup"
    ensures returnTo != DefaultReturnTo ==> r == "/signup?returnTo=" + returnTo
  {
    if returnTo != DefaultReturnTo then "/signup?returnTo=" + returnTo else "/signup"
  }

  /** The link hands a non-default target on under the name `returnTo`,
      unchanged when it holds no `&`, and under no other name. */
  lemma SignupHrefCarriesReturnTo(returnTo: string, other: string)
    requires returnTo != DefaultReturnTo && '&' !in returnTo && other != "returnTo"
    ensures UrlQuery.SearchParam(SignupHref(returnTo), "returnTo") == Some(returnTo)
    ensures UrlQuery.SearchParam(SignupHref(returnTo), other) == None
  {
    assert SignupHref(returnTo) == "/signup" + "?" + "returnTo" + "=" + returnTo;
    UrlQuery.SingleParamRoundTrip("/signup", "returnTo", returnTo, other);
  }

  /** The component's state cells that the handlers and the validation
      effect update. */
  class LoginFormState {
    var email: string
    var password: string
    var isSubmitting: bool
    var canProceed: bool

    /** The initial state of lines 24-28. */
    constructor ()
      ensures email == "" && password == "" && !isSubmitting && !canProceed
    {
      email := "";
      password := "";
      isSubmitting := false;
      canProceed := false;
    }

    /** The submit button's `disabled` of line 137, negated: the page's
        only guard against a second submission. */
    predicate SubmitEnabled()
      reads this
    {
      canProceed && !isSubmitting
    }

    /** The `onChange` handlers of the two inputs (lines 130 and 133). */
    method Edit(newEmail: string, newPassword: string)
      modifies this`email, this`password
      ensures email == newEmail && password == newPassword
    {
      email := newEmail;
      password := newPassword;
    }

    /** The validation effect (lines 87-91), run after an edit. */
    method Validate()
      modifies this`canProceed
      ensures canProceed == CanProceed(email, password)
    {
      var emailValid := Includes(email, "@") && Includes(email, ".");
      var passwordValid := Utf16Length(password) >= 6;
      canProceed := emailValid && passwordValid;
    }

    /** `handleEmailLogin` (lines 62-83). `signedIn` is the auth service's
        answer for the current email and password; `outcome` is `None` when
        the handler returns without calling the login. The handler checks
        only `canProceed`, not `isSubmitting`; `isSubmitting` drops back only
        on failure, and on success the smart redirect takes over. */
    method HandleEmailLogin(db: Database, signedIn: Result<AuthUser>, faults: Faults, createdAt: string)
      returns (outcome: Option<Result<FirebaseAuth.SignInResult>>)
      modifies this`isSubmitting, db`accountData, db`userLookup
      ensures outcome.Some? <==> canProceed
      ensures outcome.None? ==>
        isSubmitting == old(isSubmitting)
        && db.accountData == old(db.accountData) && db.userLookup == old(db.userLookup)
      ensures outcome.Some? ==> (isSubmitting <==> outcome.value.Ok?)
      // after a login that did not fail, the button stays disabled
      ensures outcome.Some? && outcome.value.Ok? ==> !SubmitEnabled()
      ensures outcome.Some? && signedIn.Err? ==>
        outcome.value.Err? && db.accountData == old(db.accountData) && db.userLookup == old(db.userLookup)
      ensures outcome.Some? && signedIn.Ok? ==>
        var s := FirebaseAuth.CreateProfile(old(db.accountData), old(db.userLookup), signedIn.value, map[], faults, createdAt);
        db.accountData == s.accounts && db.userLookup == s.lookup && (outcome.value.Ok? <==> s.result.Ok?)
    {
      if !canProceed {
        return None;
      }
      isSubmitting := true;
      var r := FirebaseAuth.LoginWithEmailPassword(db, signedIn, faults, createdAt);
      if r.Err? {
        isSubmitting := false;
      }
      outcome := Some(r);
    }

    /** `handleGoogleSignIn` (lines 48-59): `signInWithGoogleFirebase()` with
        its default language. A redirect hand-off is not an error, so it too
        leaves `isSubmitting` set. */
    method HandleGoogleSignIn(db: Database, popup: Result<FirebaseAuth.Credential>, isMobile: bool,
                              redirect: Option<FirebaseError>, faults: Faults, createdAt: string)
      returns (outcome: FirebaseAuth.GoogleOutcome)
      modifies this`isSubmitting, db`accountData, db`userLookup
      ensures isSubmitting <==> !outcome.Failed?
      ensures FirebaseAuth.PopupStep(popup, isMobile, redirect).Finished? ==>
        outcome == FirebaseAuth.PopupStep(popup, isMobile, redirect).outcome
        && db.accountData == old(db.accountData) && db.userLookup == old(db.userLookup)
      ensures popup.Ok? ==>
        var s := FirebaseAuth.CreateProfile(old(db.accountData), old(db.userLookup), popup.value.user,
                                            map["language" := Str("en")], faults, createdAt);
        db.accountData == s.accounts && db.userLookup == s.lookup && (outcome.SignedIn? <==> s.result.Ok?)
    {
      isSubmitting := true;
      outcome := FirebaseAuth.SignInWithGoogle(db, popup, isMobile, redirect, "en", faults, createdAt);
      if outcome.Failed? {
        isSubmitting := false;
      }
    }
  }

  /** One full pass of the email form: after an edit and its validation
      effect, a submission is attempted exactly when the new fields pass the
      check. */
  method EditAndSubmit(form: LoginFormState, db: Database, newEmail: string, newPassword: string,
                       signedIn: Result<AuthUser>, faults: Faults, createdAt: string)
    returns (called: bool)
    modifies form`email, form`password, form`canProceed, form`isSubmitting, db`accountData, db`userLookup
    ensures called <==> '@' in newEmail && '.' in newEmail && Utf16Length(newPassword) >= 6
  {
    form.Edit(newEmail, newPassword);
    form.Validate();
    CanProceedIff(newEmail, newPassword);
    var outcome := form.HandleEmailLogin(db, signedIn, faults, createdAt);
    called := outcome.Some?;
  }
}
