/** The application shell (client/src/App.js): the session check at start,
    login and logout, and the route table that guards every page behind
    the session. The browser's `localStorage` entry "token" is the field
    `storedToken`. */
module AppShell {
  import opened Json

  /** The pages the shell can render. */
  datatype Screen =
    | HomeScreen | LoginScreen | SignupScreen | BrainScreen | ThyroidLandingScreen
    | ThyroidScreen | TestFormScreen | LungScreen | DoctorScreen

  /** What the shell shows for a path. */
  datatype View = Loading | Render(screen: Screen) | Redirect(to: string)

  /** The paths that need a session, in the order of the table. */
  const ProtectedPaths: seq<string> := ["/", "/brain", "/thyroid-landing", "/thyroid", "/form", "/lung", "/doctor"]

  /** The page of a protected path. */
  function ProtectedScreen(path: string): (s: Option<Screen>)
    ensures s.Some? <==> path in ProtectedPaths
  {
    if path == "/" then Some(HomeScreen)
    else if path == "/brain" then Some(BrainScreen)
    else if path == "/thyroid-landing" then Some(ThyroidLandingScreen)
    else if path == "/thyroid" then Some(ThyroidScreen)
    else if path == "/form" then Some(TestFormScreen)
    else if path == "/lung" then Some(LungScreen)
    else if path == "/doctor" then Some(DoctorScreen)
    else None
  }

  /** The shell for a path, the session and the start-up check: the loader
      until the check ends, then the `<Routes>` table. */
  function Route(path: string, isAuthenticated: bool, loading: bool): View {
    if loading then Loading
    else if ProtectedScreen(path).Some? then
      (if isAuthenticated then Render(ProtectedScreen(path).value) else Redirect("/login"))
    else if path == "/login" then
      (if !isAuthenticated then Render(LoginScreen) else Redirect("/"))
    else if path == "/signup" then
      (if !isAuthenticated then Render(SignupScreen) else Redirect("/"))
    else Redirect(if isAuthenticated then "/" else "/login")
  }

  /** A protected path renders its page exactly with a session, and sends
      the visitor to the login page otherwise. */
  lemma ProtectedRoutes(path: string, isAuthenticated: bool)
    requires path in ProtectedPaths
    ensures Route(path, isAuthenticated, false).Render? <==> isAuthenticated
    ensures isAuthenticated ==> Route(path, true, false) == Render(ProtectedScreen(path).value)
    ensures !isAuthenticated ==> Route(path, false, false) == Redirect("/login")
  {
  }

  /** The login and signup pages show only without a session, and send a
      signed-in visitor home; any other path sends the visitor home or to
      login according to the session. */
  lemma PublicAndUnknownRoutes(path: string, isAuthenticated: bool)
    ensures path == "/login" ==>
      Route(path, isAuthenticated, false) == (if isAuthenticated then Redirect("/") else Render(LoginScreen))
    ensures path == "/signup" ==>
      Route(path, isAuthenticated, false) == (if isAuthenticated then Redirect("/") else Render(SignupScreen))
    ensures path !in ProtectedPaths && path != "/login" && path != "/signup" ==>
      Route(path, isAuthenticated, false) == Redirect(if isAuthenticated then "/" else "/login")
  {
    assert "/login" !in ProtectedPaths && "/signup" !in ProtectedPaths;
  }

  /** Without a session nothing but the login and signup pages renders;
      with one, never those two. */
  lemma SessionGuard(path: string, isAuthenticated: bool)
    ensures var v := Route(path, isAuthenticated, false);
      v.Render? ==> (v.screen == LoginScreen || v.screen == SignupScreen <==> !isAuthenticated)
  {
    assert "/login" !in ProtectedPaths && "/signup" !in ProtectedPaths;
  }

  /** Every redirect lands on a page that renders: the table has no
      redirect chains or loops. */
  lemma RedirectsLand(path: string, isAuthenticated: bool)
    ensures var v := Route(path, isAuthenticated, false);
      v.Redirect? ==> Route(v.to, isAuthenticated, false).Render?
  {
    assert "/" in ProtectedPaths;
    assert "/login" !in ProtectedPaths;
  }

  class App {
    var isAuthenticated: bool
    var user: Value
    var loading: bool
    var storedToken: Option<string>

    /** The first render: no session and the loader, with whatever token
        the browser kept. */
    constructor (token: Option<string>)
      ensures !isAuthenticated && user == Null && loading && storedToken == token
    {
      isAuthenticated := false;
      user := Null;
      loading := true;
      storedToken := token;
    }

    /** What the shell shows at a path. */
    function Shown(path: string): View
      reads this
    {
      Route(path, isAuthenticated, loading)
    }

    /** `checkAuthStatus`, given how the user request went. A missing or
        empty token sends nothing. An ok reply that parses signs the user
        in; a reply that is not ok removes the token; a network failure or
        a body that does not parse changes nothing. Loading ends false. */
    method CheckAuthStatus(outcome: Fetched) returns (sentToken: Option<string>)
      modifies this
      ensures sentToken == (if old(storedToken).Some? && old(storedToken).value != "" then old(storedToken) else None)
      ensures !loading
      ensures sentToken.Some? && outcome.Responded? && IsOk(outcome.status) && outcome.body.Parsed? ==>
        user == outcome.body.json && isAuthenticated && storedToken == old(storedToken)
      ensures sentToken.Some? && outcome.Responded? && !IsOk(outcome.status) ==>
        storedToken == None && user == old(user) && isAuthenticated == old(isAuthenticated)
      ensures sentToken.None? || outcome.NetworkError? || (IsOk(outcome.status) && outcome.body.Malformed?) ==>
        storedToken == old(storedToken) && user == old(user) && isAuthenticated == old(isAuthenticated)
    {
      sentToken := None;
      if storedToken.Some? && storedToken.value != "" {
        sentToken := storedToken;
        match outcome {
          case NetworkError(_) =>
          case Responded(status, body) =>
            if IsOk(status) {
              if body.Parsed? {
                user := body.json;
                isAuthenticated := true;
              }
            } else {
              storedToken := None;
            }
        }
      }
      loading := false;
    }

    /** `login`: the token is stored and the user signed in. */
    method Login(userData: Value, token: string)
      modifies this
      ensures storedToken == Some(token) && user == userData && isAuthenticated
      ensures loading == old(loading)
    {
      storedToken := Some(token);
      user := userData;
      isAuthenticated := true;
    }

    /** `logout`: the token is removed and the user signed out. */
    method Logout()
      modifies this
      ensures storedToken == None && user == Null && !isAuthenticated
      ensures loading == old(loading)
    {
      storedToken := None;
      user := Null;
      isAuthenticated := false;
    }
  }

  /** Logging in and then out leaves no token and no session, so every
      protected page redirects to the login page again. */
  method LoginThenLogout(app: App, userData: Value, token: string, path: string) returns (view: View)
    modifies app
    requires !app.loading
    ensures app.storedToken == None && !app.isAuthenticated && app.user == Null
    ensures path in ProtectedPaths ==> view == Redirect("/login")
  {
    app.Login(userData, token);
    app.Logout();
    view := app.Shown(path);
  }

  /** A start with no token ends signed out on the login page. */
  method StartWithoutToken(outcome: Fetched, path: string) returns (view: View)
    ensures path in ProtectedPaths ==> view == Redirect("/login")
    ensures path == "/login" ==> view == Render(LoginScreen)
  {
    var app := new App(None);
    var sent := app.CheckAuthStatus(outcome);
    assert "/login" !in ProtectedPaths;
    view := app.Shown(path);
  }
}
