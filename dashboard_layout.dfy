/** The dashboard route gate (app/dashboard/layout.jsx): what the layout
    renders for each `(loading, user, userData)` and when its effect sends the
    browser to the login page. */
module DashboardLayout {
  import opened JsText
  import opened Firebase
  import opened AuthContext

  /** What `DashboardLayout` returns. */
  datatype Screen =
    | Spinner      // the full-page spinner of the initial check (lines 27-33)
    | SettingUp    // "Setting up your account..." (lines 37-44)
    | Dashboard    // the nav bar, the children and the preview (lines 48-58)
    | Blank        // `null`, shown while the redirect happens (line 61)

  const LoginPath := "/login"

  /** The effect of lines 18-24 pushes `/login` exactly when the initial check
      is over and there is no identity. */
  predicate RedirectsToLogin(loading: bool, hasUser: bool) {
    !loading && !hasUser
  }

  /** The ordered checks of lines 27-61. Every input gets exactly one screen,
      and the children are rendered only when both identity and profile are
      present after the initial check. */
  function Render(loading: bool, hasUser: bool, hasUserData: bool): (r: Screen)
    ensures r == Spinner <==> loading
    ensures r == SettingUp <==> !loading && hasUser && !hasUserData
    ensures r == Dashboard <==> !loading && hasUser && hasUserData
    ensures r == Blank <==> RedirectsToLogin(loading, hasUser)
  {
    if loading then Spinner
    else if hasUser && !hasUserData then SettingUp
    else if hasUser && hasUserData then Dashboard
    else Blank
  }

  /** The layout reading the session context. */
  function RenderSession(s: Session): Screen {
    Render(s.Loading(), s.user.Some?, s.userData.Some?)
  }

  /** Between callbacks the "Setting up" screen never shows: after any
      sequence of auth callbacks from the initial state the layout shows the
      spinner, the dashboard or nothing, and the dashboard exactly when the
      last callback left an identity. */
  lemma SettledNeverSettingUp(accounts: map<string, Document>, lookup: map<string, Document>,
                              events: seq<AuthEvent>)
    ensures var s := Replay(Initial, accounts, lookup, events).session;
      && RenderSession(s) != SettingUp
      && (RenderSession(s) == Dashboard <==> |events| > 0 && s.user.Some?)
      && (RenderSession(s) == Spinner <==> events == [])
  {
    ReplaySettles(Initial, accounts, lookup, events);
    if events == [] {
      assert Replay(Initial, accounts, lookup, events).session == Initial;
    }
  }

  /** While a later callback awaits the profile of a new identity, the layout
      shows "Setting up" when the previous callback left no profile, and the
      dashboard with the PREVIOUS profile when it left one: nothing checks
      that `userData` belongs to `user`. */
  lemma PendingShowsPreviousProfile(s: Session, fu: AuthUser)
    requires Settled(s) && !s.Loading()
    ensures s.userData.None? ==> RenderSession(Pending(s, fu)) == SettingUp
    ensures s.userData.Some? ==>
      RenderSession(Pending(s, fu)) == Dashboard && Pending(s, fu).userData == s.userData
  {
  }
}
