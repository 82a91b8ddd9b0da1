/** The launch screen: where the app goes once the session hook has settled. */
module Launch {
  import opened Optional
  import opened Auth

  const AuthHref := "/(auth)"
  const PatientHomeHref := "/(dashboard)/(user)/appointment"
  const AdminHomeHref := "/(dashboard)/(admin)/dashboard"

  /** `Index`: the redirect for the hook's state, or `None` (render nothing) while the
      session is still loading. Exactly one of the four outcomes applies. */
  function Index(isLoading: bool, isAuthenticated: bool, userTypeSaved: string): (r: Option<string>)
    ensures r.None? <==> isLoading
    ensures !isLoading && (!isAuthenticated || userTypeSaved == "") ==> r == Some(AuthHref)
    ensures r == Some(PatientHomeHref) <==> !isLoading && isAuthenticated && userTypeSaved == "customer"
    ensures r == Some(AdminHomeHref) <==> !isLoading && isAuthenticated && userTypeSaved == "admin"
    ensures r == Some(AuthHref) <==>
      !isLoading && !(isAuthenticated && (userTypeSaved == "customer" || userTypeSaved == "admin"))
  {
    if isLoading then None
    else if !isAuthenticated || userTypeSaved == "" then Some(AuthHref)
    else if userTypeSaved == "customer" then Some(PatientHomeHref)
    else if userTypeSaved == "admin" then Some(AdminHomeHref)
    else Some(AuthHref)
  }

  /** The redirect for a hook state. */
  function Route(s: AuthState): (r: Option<string>)
    ensures r.None? <==> s.isLoading
  {
    Index(s.isLoading, s.isAuthenticated, s.userTypeSaved)
  }

  /** Before the launch check has run, nothing is rendered. */
  lemma NothingBeforeCheck()
    ensures Route(Initial) == None
  {
  }

  /** A launch within seven days of signing in lands on the home route of the stored
      role ("customer" or "admin", the two roles the sign-in screen records). */
  lemma FreshLoginLandsHome(store: map<string, string>, token: string, loginIso: string, role: string, profile: string,
                            loginTime: int, now: int, parse: string -> Option<int>, failing: set<string>)
    requires token != "" && loginIso != "" && profile != ""
    requires role == "customer" || role == "admin"
    requires parse(loginIso) == Some(loginTime) && now - loginTime < 7 * DayMillis
    ensures Route(CheckAuthStep(Initial, LoggedIn(store, token, loginIso, role, profile), now, parse, failing).state)
      == Some(if role == "customer" then PatientHomeHref else AdminHomeHref)
  {
    ValidLoginRestores(store, token, loginIso, role, profile, loginTime, now, parse, failing);
  }

  /** A launch that completes without a valid session lands on the sign-in stack. */
  lemma NoValidSessionLandsOnAuth(store: map<string, string>, now: int, parse: string -> Option<int>, failing: set<string>)
    requires !ValidSession(store, now, parse) && !CleanupFails(store, now, parse, failing)
    ensures Route(CheckAuthStep(Initial, store, now, parse, failing).state) == Some(AuthHref)
  {
    CheckAuthSpec(Initial, store, now, parse, failing);
  }

  /** If the expiry cleanup's delete rejects, `checkAuth` aborts before clearing the
      loading flag, so the launch screen keeps rendering nothing. */
  lemma FailedCleanupRendersNothing(store: map<string, string>, now: int, parse: string -> Option<int>, failing: set<string>)
    requires CleanupFails(store, now, parse, failing)
    ensures Route(CheckAuthStep(Initial, store, now, parse, failing).state) == None
  {
    CheckAuthSpec(Initial, store, now, parse, failing);
  }
}
