/**
 The application router: the `PrivateRoute` and `PublicRoute` guards and the route table of
 `AppRouter`, as a function from a path and the provider's state to what is rendered.
 */
module Router {
  import opened Js
  import opened AuthContext

  datatype Page = LoginPage | RegisterPage | DashboardPage

  /** `null`, a page, or a `<Navigate to=... replace?>`. */
  datatype Element = Blank | Show(page: Page) | Redirect(to: string, replace: bool)

  /** Which guard a path sits under in the route table. */
  datatype Guard = PublicOnly | Private | Unguarded

  function GuardOf(path: string): (g: Guard)
    ensures g == PublicOnly <==> path in {"/login", "/register", "/"}
    ensures g == Private <==> path == "/dashboard"
  {
    if path == "/login" || path == "/register" || path == "/" then PublicOnly
    else if path == "/dashboard" then Private
    else Unguarded
  }

  /** `PrivateRoute`: nothing while loading, the child for a signed-in user, else /login. */
  function PrivateRoute(s: AuthState, child: Element): Element {
    if s.loading then Blank
    else if SignedIn(s) then child
    else Redirect("/login", true)
  }

  /** `PublicRoute`: nothing while loading, the child for a visitor, else /dashboard. */
  function PublicRoute(s: AuthState, child: Element): Element {
    if s.loading then Blank
    else if !SignedIn(s) then child
    else Redirect("/dashboard", true)
  }

  /** The route table: what a navigation to `path` renders. */
  function Route(path: string, s: AuthState): (e: Element)
    // while loading, a guarded path renders nothing and no path redirects to /login or /dashboard
    ensures s.loading && GuardOf(path) != Unguarded ==> e == Blank
    ensures s.loading ==> e == Blank || e == Redirect("/", false)
    // the private route
    ensures GuardOf(path) == Private && !s.loading ==>
              (if SignedIn(s) then e == Show(DashboardPage) else e == Redirect("/login", true))
    // public-only routes turn a signed-in user away
    ensures GuardOf(path) == PublicOnly && !s.loading && SignedIn(s) ==> e == Redirect("/dashboard", true)
    ensures path == "/login" && !s.loading && !SignedIn(s) ==> e == Show(LoginPage)
    ensures path == "/register" && !s.loading && !SignedIn(s) ==> e == Show(RegisterPage)
    ensures path == "/" && !s.loading && !SignedIn(s) ==> e == Redirect("/login", false)
    // everything else goes to the root, without replacing history
    ensures GuardOf(path) == Unguarded ==> e == Redirect("/", false)
  {
    if path == "/login" then PublicRoute(s, Show(LoginPage))
    else if path == "/register" then PublicRoute(s, Show(RegisterPage))
    else if path == "/" then PublicRoute(s, Redirect("/login", false))
    else if path == "/dashboard" then PrivateRoute(s, Show(DashboardPage))
    else Redirect("/", false)
  }

  /** Where following redirects ends: the last path reached and what it renders. */
  datatype Landing = Landing(path: string, element: Element)

  /** Follows at most `hops` redirects from `path`. */
  function Follow(path: string, s: AuthState, hops: nat): (l: Landing)
    decreases hops
  {
    var e := Route(path, s);
    if e.Redirect? && hops > 0 then Follow(e.to, s, hops - 1) else Landing(path, e)
  }

  /**
   Once loading has ended, every path lands on a page within two redirects: the dashboard
   exactly when a user is signed in, the register page only when it was asked for, and the
   login page otherwise. In particular `/` always resolves to /login or /dashboard.
   */
  lemma SettlesWithinTwoHops(path: string, s: AuthState)
    requires !s.loading
    ensures Follow(path, s, 2).element.Show?
    ensures Follow(path, s, 2).element.page == DashboardPage <==> SignedIn(s)
    ensures Follow(path, s, 2).element.page == RegisterPage <==> path == "/register" && !SignedIn(s)
    ensures path == "/" ==> Follow(path, s, 2).path in {"/login", "/dashboard"}
  {
  }

  /** While loading, following redirects never reaches /login or /dashboard, whatever the path. */
  lemma LoadingNeverRedirectsAway(path: string, s: AuthState, hops: nat)
    requires s.loading
    ensures Follow(path, s, hops).path == path || Follow(path, s, hops).path == "/"
    ensures Follow(path, s, hops).element == Blank || Follow(path, s, hops).element == Redirect("/", false)
  {
  }

  /** With no stored session after mount, the dashboard sends the visitor to /login. */
  lemma VisitorIsSentToLogin()
    ensures Route("/dashboard", Bootstrap(Initial)) == Redirect("/login", true)
  {
  }

  /** After `login(token)`, the dashboard renders and /login is turned away to /dashboard. */
  lemma SignedInUserReachesDashboard(s: AuthState, token: string)
    requires !s.loading && token != ""
    ensures Route("/dashboard", Login(s, token)) == Show(DashboardPage)
    ensures Route("/login", Login(s, token)) == Redirect("/dashboard", true)
  {
  }

  /** After `logout()`, the dashboard is closed again. */
  lemma LogoutClosesDashboard(s: AuthState)
    requires !s.loading
    ensures Route("/dashboard", Logout(s)) == Redirect("/login", true)
  {
  }
}
