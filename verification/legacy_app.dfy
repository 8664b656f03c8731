/**
 The older router of the `frontend/` tree (`App` in its entry module): the root path opens the
 dashboard when a token is stored under "token", and the login and register pages are open to
 everyone. The token is read from storage each time `App` renders.
 */
module LegacyApp {
  import opened Js
  import opened AuthService
  import opened Http

  datatype Page = DashboardPage | LoginPage | RegisterPage

  /** A page, a `<Navigate to=...>` (never replacing history), or no matching route. */
  datatype Element = NoMatch | Show(page: Page) | Redirect(to: string)

  function App(path: string, st: Storage): (e: Element)
    ensures path == "/" ==> (e == Show(DashboardPage) <==> Truthy(GetToken(st)))
    ensures path == "/" && !Truthy(GetToken(st)) ==> e == Redirect("/login")
    ensures path == "/login" ==> e == Show(LoginPage)
    ensures path == "/register" ==> e == Show(RegisterPage)
    ensures path !in {"/", "/login", "/register"} ==> e == NoMatch
  {
    var token := GetToken(st);
    if path == "/" then (if Truthy(token) then Show(DashboardPage) else Redirect("/login"))
    else if path == "/login" then Show(LoginPage)
    else if path == "/register" then Show(RegisterPage)
    else NoMatch
  }

  /** The login page's `onLogin`: a full reload at the root. */
  const AfterLogin := "/"

  /** Once a non-empty token is saved, the reload after login lands on the dashboard. */
  lemma SavedTokenOpensDashboard(st: Storage, token: string)
    requires token != ""
    ensures App(AfterLogin, SaveToken(st, token)) == Show(DashboardPage)
  {
  }

  /**
   The login page stores `res.data.token` unchecked, so a successful reply without a token
   stores the text "undefined", and the reload after login still opens the dashboard.
   */
  lemma ReplyWithoutTokenOpensDashboard(st: Storage)
    ensures App(AfterLogin, SaveValue(st, Undefined)) == Show(DashboardPage)
  {
  }

  /** Once the token is removed, the root sends the visitor to /login. */
  lemma RemovedTokenClosesDashboard(st: Storage)
    ensures App("/", RemoveToken(st)) == Redirect("/login")
  {
  }

  /** The login and register pages ignore the stored token. */
  lemma PublicPagesIgnoreToken(st1: Storage, st2: Storage)
    ensures App("/login", st1) == App("/login", st2)
    ensures App("/register", st1) == App("/register", st2)
  {
  }
}
