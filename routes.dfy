/**
 * The client's route table and its two guards. Each guard decides, from
 * the store's `isAuthenticated` and `user` and the current path, whether to
 * redirect or render its page; `ProtectedRoute` reads `user.isVerified`
 * without a null check, which throws when there is no user.
 */
module Routes {

  import opened Wrappers
  import opened LocalToken
  import opened AuthStore

  /** What a guard returns: a `<Navigate replace>`, its children, or a thrown TypeError. */
  datatype Decision = Redirect(to: string) | Render | Crash

  /** `ProtectedRoute`: login first, then a verified email. */
  function ProtectedRoute(isAuthenticated: bool, user: Option<ClientUser>): (d: Decision)
    ensures !isAuthenticated ==> d == Redirect("/login")
    ensures isAuthenticated && user.None? ==> d == Crash
    ensures isAuthenticated && user.Some? && !user.value.isVerified ==> d == Redirect("/verify-email")
    ensures d == Render <==> isAuthenticated && user.Some? && user.value.isVerified
  {
    if !isAuthenticated then Redirect("/login")
    else if user.None? then Crash
    else if !user.value.isVerified then Redirect("/verify-email")
    else Render
  }

  /** `RedirectAuthenticatedUser`: keeps signed-in users away from the guest pages. */
  function RedirectAuthenticatedUser(isAuthenticated: bool, user: Option<ClientUser>, pathname: string): (d: Decision)
    ensures d != Crash
    ensures isAuthenticated && user.Some? && user.value.isVerified ==> d == Redirect("/")
    ensures isAuthenticated && user.Some? && !user.value.isVerified && pathname != "/verify-email" ==> d == Redirect("/verify-email")
    ensures d == Render <==> !isAuthenticated || user.None? || (!user.value.isVerified && pathname == "/verify-email")
  {
    var isVerifyEmailRoute := pathname == "/verify-email";
    if isAuthenticated && user.Some? && user.value.isVerified then Redirect("/")
    else if isAuthenticated && user.Some? && !user.value.isVerified && !isVerifyEmailRoute then Redirect("/verify-email")
    else Render
  }

  /**
   * The guards exclude each other: no state renders both a protected page
   * and a guest page, and a state the protected guard sends to
   * `/verify-email` is let in there.
   */
  lemma GuardsExcludeEachOther(isAuthenticated: bool, user: Option<ClientUser>, pathname: string)
    ensures !(ProtectedRoute(isAuthenticated, user) == Render &&
              RedirectAuthenticatedUser(isAuthenticated, user, pathname) == Render)
    ensures ProtectedRoute(isAuthenticated, user) == Redirect("/verify-email") ==>
              RedirectAuthenticatedUser(isAuthenticated, user, "/verify-email") == Render
  {
  }

  datatype Page = DashboardPage | SignUpPage | LoginPage | EmailVerificationPage | ForgotPasswordPage | ResetPasswordPage

  /** A route's element: a fixed redirect, or a page behind one of the guards. */
  datatype Element = Navigate(to: string) | Protected(page: Page) | Guest(page: Page)

  const ResetPrefix := "/reset-password/"

  /** `/reset-password/:token`: the prefix and one non-empty segment. */
  predicate IsResetPasswordPath(path: string) {
    |path| > |ResetPrefix| && path[..|ResetPrefix|] == ResetPrefix && '/' !in path[|ResetPrefix|..]
  }

  /** The `<Routes>` table; the catch-all `*` redirects to `/`. */
  function MatchRoute(path: string): Element {
    if path == "/" then Navigate("/dashboard")
    else if path == "/dashboard" then Protected(DashboardPage)
    else if path == "/signup" then Guest(SignUpPage)
    else if path == "/login" then Guest(LoginPage)
    else if path == "/verify-email" then Guest(EmailVerificationPage)
    else if path == "/forgot-password" then Guest(ForgotPasswordPage)
    else if IsResetPasswordPath(path) then Guest(ResetPasswordPage)
    else Navigate("/")
  }

  /** What the router shows at a path: a redirect, a page, or an error. */
  datatype View = Redirected(to: string) | Shows(page: Page) | Crashed

  function Guarded(d: Decision, page: Page): View {
    match d
    case Redirect(to) => Redirected(to)
    case Render => Shows(page)
    case Crash => Crashed
  }

  /** One routing step at `path`. */
  function Step(isAuthenticated: bool, user: Option<ClientUser>, path: string): View {
    match MatchRoute(path)
    case Navigate(to) => Redirected(to)
    case Protected(page) => Guarded(ProtectedRoute(isAuthenticated, user), page)
    case Guest(page) => Guarded(RedirectAuthenticatedUser(isAuthenticated, user, path), page)
  }

  /** Following at most `fuel` redirects from `path`. */
  function Settle(isAuthenticated: bool, user: Option<ClientUser>, path: string, fuel: nat): View
    decreases fuel
  {
    var v := Step(isAuthenticated, user, path);
    if v.Redirected? && fuel > 0 then Settle(isAuthenticated, user, v.to, fuel - 1) else v
  }

  /** No route redirects a path to itself. */
  lemma NoSelfRedirect(isAuthenticated: bool, user: Option<ClientUser>, path: string)
    ensures Step(isAuthenticated, user, path).Redirected? ==> Step(isAuthenticated, user, path).to != path
  {
    if IsResetPasswordPath(path) {
      assert path != "/" && path != "/verify-email";
    }
  }

  /** From `/dashboard` the guard sends each kind of state to its final page in at most two redirects. */
  lemma {:induction false} DashboardSettles(isAuthenticated: bool, user: Option<ClientUser>)
    ensures var v := Settle(isAuthenticated, user, "/dashboard", 2);
            && (!isAuthenticated ==> v == Shows(LoginPage))
            && (isAuthenticated && user.None? ==> v == Crashed)
            && (isAuthenticated && user.Some? && user.value.isVerified ==> v == Shows(DashboardPage))
            && (isAuthenticated && user.Some? && !user.value.isVerified ==> v == Shows(EmailVerificationPage))
  {
    assert Step(isAuthenticated, user, "/login") == Guarded(RedirectAuthenticatedUser(isAuthenticated, user, "/login"), LoginPage);
    assert Step(isAuthenticated, user, "/verify-email")
        == Guarded(RedirectAuthenticatedUser(isAuthenticated, user, "/verify-email"), EmailVerificationPage);
  }

  /**
   * Following redirects from any path reaches a page (or the guard's error)
   * within three steps; the error arises only for an authenticated state
   * without a user object.
   */
  lemma {:induction false} SettlesWithinThreeRedirects(isAuthenticated: bool, user: Option<ClientUser>, path: string)
    ensures !Settle(isAuthenticated, user, path, 3).Redirected?
    ensures Settle(isAuthenticated, user, path, 3) == Crashed ==> isAuthenticated && user.None?
  {
    DashboardSettles(isAuthenticated, user);
    assert Step(isAuthenticated, user, "/") == Redirected("/dashboard");
    assert Settle(isAuthenticated, user, "/", 3) == Settle(isAuthenticated, user, "/dashboard", 2);
    var v := Step(isAuthenticated, user, path);
    if v.Redirected? {
      match MatchRoute(path)
      case Navigate(to) =>
        if to == "/" {
          assert Settle(isAuthenticated, user, "/", 2) == Settle(isAuthenticated, user, "/dashboard", 1);
          DashboardWithinOne(isAuthenticated, user);
        }
      case Protected(page) =>
        assert path == "/dashboard";
      case Guest(page) =>
        var d := RedirectAuthenticatedUser(isAuthenticated, user, path);
        assert d.to == "/" || d.to == "/verify-email";
        if d.to == "/verify-email" {
          assert Step(isAuthenticated, user, "/verify-email") == Shows(EmailVerificationPage);
        } else {
          assert Settle(isAuthenticated, user, "/", 2) == Settle(isAuthenticated, user, "/dashboard", 1);
          assert Step(isAuthenticated, user, "/dashboard") == Shows(DashboardPage);
        }
    }
  }

  /** From `/dashboard` with one redirect's fuel, even an unverified or signed-out state has stopped. */
  lemma DashboardWithinOne(isAuthenticated: bool, user: Option<ClientUser>)
    ensures !Settle(isAuthenticated, user, "/dashboard", 1).Redirected?
    ensures Settle(isAuthenticated, user, "/dashboard", 1) == Crashed ==> isAuthenticated && user.None?
  {
    assert Step(isAuthenticated, user, "/login") == Guarded(RedirectAuthenticatedUser(isAuthenticated, user, "/login"), LoginPage);
    assert Step(isAuthenticated, user, "/verify-email")
        == Guarded(RedirectAuthenticatedUser(isAuthenticated, user, "/verify-email"), EmailVerificationPage);
  }

  /** What `App` shows. */
  datatype Screen = Spinner | Routed(view: View)

  /** `App`: while the session check runs only the spinner is shown, whatever the path. */
  function AppScreen(isCheckingAuth: bool, isAuthenticated: bool, user: Option<ClientUser>, path: string): (s: Screen)
    ensures isCheckingAuth <==> s == Spinner
  {
    if isCheckingAuth then Spinner else Routed(Step(isAuthenticated, user, path))
  }

  /** Once the startup `checkAuth` has finished, whichever way, the routes replace the spinner. */
  method StartupShowsRoutes(s: Store, online: bool, outcome: HttpOutcome, decoded: Decoded, nowMs: int, path: string)
      returns (screen: Screen)
    modifies s
    ensures screen == Routed(Step(s.isAuthenticated, s.user, path))
  {
    var r := s.CheckAuth(online, outcome, decoded, nowMs);
    screen := AppScreen(s.isCheckingAuth, s.isAuthenticated, s.user, path);
  }
}
