/** The NextAuth callbacks shared by the middleware and the auth API
    (`auth.config.ts`): the `authorized` route guard and the `signIn` hook. */
module AuthConfig {
  import opened Wrappers

  datatype User = User(email: string)
  /** What `auth()` resolves to when there is a session. */
  datatype Session = Session(user: Option<User>)

  /** `!!auth?.user`. */
  predicate IsLoggedIn(auth: Option<Session>)
    ensures auth.None? ==> !IsLoggedIn(auth)
    ensures auth.Some? && auth.value.user.None? ==> !IsLoggedIn(auth)
    ensures auth.Some? && auth.value.user.Some? ==> IsLoggedIn(auth)
  {
    auth.Some? && auth.value.user.Some?
  }

  const DASHBOARD := "/dashboard"

  /** `pathname.startsWith('/dashboard')`: a plain prefix test. */
  predicate IsOnDashboard(pathname: string)
    ensures IsOnDashboard(pathname) <==> |pathname| >= 10 && pathname[..10] == "/dashboard"
  {
    DASHBOARD <= pathname
  }

  /** The request URL: its origin and its path. */
  datatype NextUrl = NextUrl(origin: string, pathname: string)

  /** `true`, `false` (the framework then sends the user to the sign-in
      page) or a redirect response. */
  datatype Decision = Allow | Deny | RedirectTo(url: string)

  /** `callbacks.authorized`. */
  function Authorized(auth: Option<Session>, nextUrl: NextUrl): (d: Decision)
    ensures IsOnDashboard(nextUrl.pathname) ==> (d == Allow <==> IsLoggedIn(auth))
    ensures IsOnDashboard(nextUrl.pathname) ==> (d == Deny <==> !IsLoggedIn(auth))
    ensures !IsOnDashboard(nextUrl.pathname) && IsLoggedIn(auth) ==> d == RedirectTo(nextUrl.origin + DASHBOARD)
    ensures !IsOnDashboard(nextUrl.pathname) && !IsLoggedIn(auth) ==> d == Allow
    ensures d == Deny ==> IsOnDashboard(nextUrl.pathname)
  {
    var isLoggedIn := IsLoggedIn(auth);
    if IsOnDashboard(nextUrl.pathname) then
      if isLoggedIn then Allow else Deny
    else if isLoggedIn then
      RedirectTo(nextUrl.origin + DASHBOARD)
    else
      Allow
  }

  /** Every path under the prefix is guarded, including ones like
      `/dashboardX` that are not below the `/dashboard/` directory. */
  lemma PrefixGuard(suffix: string)
    ensures IsOnDashboard(DASHBOARD + suffix)
    ensures IsOnDashboard("/dashboardX")
  {
    assert (DASHBOARD + suffix)[..|DASHBOARD|] == DASHBOARD;
    assert "/dashboardX"[..|DASHBOARD|] == DASHBOARD;
  }

  /** A signed-in user sent away from a public page lands on a page the
      guard lets through, so the redirect does not repeat. */
  lemma LoggedInRedirectSettles(auth: Option<Session>, nextUrl: NextUrl)
    requires Authorized(auth, nextUrl).RedirectTo?
    ensures IsLoggedIn(auth)
    ensures Authorized(auth, NextUrl(nextUrl.origin, DASHBOARD)) == Allow
  {
    assert DASHBOARD <= DASHBOARD;
  }

  /** `callbacks.signIn`: every sign-in is accepted. */
  function SignIn(user: Option<User>): (accepted: bool)
    ensures accepted
  {
    true
  }
}
