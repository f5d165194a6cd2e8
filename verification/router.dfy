/**
 * The route table and the global `beforeEach` guard. The guard reads only
 * the session's `isAuthenticated`; a redirect issued by a record or by the
 * guard starts a new navigation, which is guarded again.
 */
module Router {
  import opened Basics
  import Auth

  datatype RouteMeta = RouteMeta(requiresAuth: bool, requiresGuest: bool)

  /** A route record: a static redirect, a page, or the catch-all redirect. */
  datatype Route =
    | RedirectRoute(path: string, target: string)
    | Page(path: string, name: string, meta: RouteMeta)
    | CatchAll(name: string, target: string)

  const AuthOnly: RouteMeta := RouteMeta(true, false)
  const GuestOnly: RouteMeta := RouteMeta(false, true)

  /** The application's routes, in declaration order. */
  const Routes: seq<Route> := [
    RedirectRoute("/", "/dashboard"),
    Page("/login", "Login", GuestOnly),
    Page("/profile-setup", "ProfileSetup", AuthOnly),
    Page("/dashboard", "Dashboard", AuthOnly),
    Page("/statistics", "Statistics", AuthOnly),
    Page("/history", "History", AuthOnly),
    Page("/settings", "Settings", AuthOnly),
    CatchAll("NotFound", "/login")
  ]

  /** ASCII upper-case letters fold to lower case; every other character is kept. */
  function FoldCase(c: char): (f: char)
    ensures 'A' <= c <= 'Z' ==> f as int == c as int + 32 && 'a' <= f <= 'z'
    ensures !('A' <= c <= 'Z') ==> f == c
  {
    if 'A' <= c <= 'Z' then (c as int + 32) as char else c
  }

  /**
   * The form of a path that a static record is compared with. The router
   * creates its records without `sensitive` or `strict`, so each static path
   * compiles to a case-insensitive pattern that also accepts one trailing
   * slash.
   */
  function Canonical(path: string): (c: string)
    ensures |path| > 1 && path[|path| - 1] == '/' ==> |c| == |path| - 1
    ensures !(|path| > 1 && path[|path| - 1] == '/') ==> |c| == |path|
    ensures forall i :: 0 <= i < |c| ==> c[i] == FoldCase(path[i])
  {
    var folded := seq(|path|, i requires 0 <= i < |path| => FoldCase(path[i]));
    if |path| > 1 && path[|path| - 1] == '/' then folded[..|path| - 1] else folded
  }

  /** A path already in canonical form: no upper-case letter and no trailing slash after the root. */
  predicate IsCanonical(path: string) {
    (forall i :: 0 <= i < |path| ==> !('A' <= path[i] <= 'Z'))
    && !(|path| > 1 && path[|path| - 1] == '/')
  }

  predicate Matches(r: Route, path: string)
    ensures r.CatchAll? ==> Matches(r, path)
    ensures (r.Page? || r.RedirectRoute?) && IsCanonical(r.path) && |r.path| > 1
            && (path == r.path || path == r.path + "/")
            ==> Matches(r, path)
  {
    match r
    case RedirectRoute(p, _) => p == Canonical(path)
    case Page(p, _, _) => p == Canonical(path)
    case CatchAll(_, _) => true
  }

  /**
   * The first record of `routes` that matches `path`. Every static path of
   * the table precedes the catch-all, so this agrees with the router's
   * ranking, under which a static path beats a parameterised one.
   */
  function MatchIn(routes: seq<Route>, path: string): (r: Option<Route>)
    ensures r.Some? ==> r.value in routes && Matches(r.value, path)
    ensures r == None ==> forall i :: 0 <= i < |routes| ==> !Matches(routes[i], path)
  {
    if |routes| == 0 then None
    else if Matches(routes[0], path) then Some(routes[0])
    else MatchIn(routes[1..], path)
  }

  /** The table always matches, thanks to the catch-all. */
  function Match(path: string): (r: Route)
    ensures r in Routes && Matches(r, path)
  {
    MatchIn(Routes, path).GetOr(CatchAll("NotFound", "/login"))
  }

  datatype GuardDecision = Proceed | RedirectTo(path: string)

  /** The `beforeEach` decision. */
  function Guard(meta: RouteMeta, authenticated: bool): (d: GuardDecision)
    ensures meta.requiresAuth && !authenticated ==> d == RedirectTo("/login")
    ensures meta.requiresGuest && authenticated ==> d == RedirectTo("/dashboard")
    ensures d == Proceed <==> (!meta.requiresAuth || authenticated) && (!meta.requiresGuest || !authenticated)
  {
    if meta.requiresAuth && !authenticated then RedirectTo("/login")
    else if meta.requiresGuest && authenticated then RedirectTo("/dashboard")
    else Proceed
  }

  /** One navigation step: arrive at a page, or go on to another path. */
  datatype Step = Arrive(page: Route) | GoTo(path: string)

  function NextStep(path: string, authenticated: bool): (s: Step)
    ensures s.Arrive? ==> s.page.Page? && Guard(s.page.meta, authenticated) == Proceed
  {
    match Match(path)
    case RedirectRoute(_, target) => GoTo(target)
    case CatchAll(_, target) => GoTo(target)
    case Page(p, n, meta) =>
      match Guard(meta, authenticated)
      case Proceed => Arrive(Page(p, n, meta))
      case RedirectTo(target) => GoTo(target)
  }

  /** Follow at most `hops` steps from `path`; `None` when no page was reached. */
  function Navigate(path: string, authenticated: bool, hops: nat): (r: Option<Route>)
    ensures r.Some? ==> r.value.Page? && Guard(r.value.meta, authenticated) == Proceed
    decreases hops
  {
    if hops == 0 then None
    else match NextStep(path, authenticated)
      case Arrive(page) => Some(page)
      case GoTo(next) => Navigate(next, authenticated, hops - 1)
  }

  /** A canonical path is its own canonical form. */
  lemma CanonicalFixesCanonical(path: string)
    requires IsCanonical(path)
    ensures Canonical(path) == path
  {
  }

  /** Which record a path reaches depends only on its canonical form. */
  lemma MatchByCanonical(path: string)
    ensures Match(path) == (var c := Canonical(path);
              if c == "/" then Routes[0]
              else if c == "/login" then Routes[1]
              else if c == "/profile-setup" then Routes[2]
              else if c == "/dashboard" then Routes[3]
              else if c == "/statistics" then Routes[4]
              else if c == "/history" then Routes[5]
              else if c == "/settings" then Routes[6]
              else Routes[7])
  {
    var c := Canonical(path);
    if c == "/" { MatchFirst(Routes, path, 0); }
    else if c == "/login" { MatchFirst(Routes, path, 1); }
    else if c == "/profile-setup" { MatchFirst(Routes, path, 2); }
    else if c == "/dashboard" { MatchFirst(Routes, path, 3); }
    else if c == "/statistics" { MatchFirst(Routes, path, 4); }
    else if c == "/history" { MatchFirst(Routes, path, 5); }
    else if c == "/settings" { MatchFirst(Routes, path, 6); }
    else { MatchFirst(Routes, path, 7); }
  }

  /** Upper-case letters and one trailing slash do not change which record a path reaches. */
  lemma MatchIgnoresCaseAndTrailingSlash()
    ensures Match("/Settings") == Page("/settings", "Settings", AuthOnly)
    ensures Match("/settings/") == Page("/settings", "Settings", AuthOnly)
    ensures Match("/LOGIN/") == Page("/login", "Login", GuestOnly)
    ensures Match("/settings//").CatchAll?
  {
    assert Canonical("/Settings") == "/settings";
    assert Canonical("/settings/") == "/settings";
    assert Canonical("/LOGIN/") == "/login";
    assert Canonical("/settings//") == "/settings/";
    MatchByCanonical("/Settings");
    MatchByCanonical("/settings/");
    MatchByCanonical("/LOGIN/");
    MatchByCanonical("/settings//");
  }

  /** `MatchIn` returns the first matching record. */
  lemma {:induction false} MatchFirst(routes: seq<Route>, path: string, i: nat)
    requires i < |routes| && Matches(routes[i], path)
    requires forall j :: 0 <= j < i ==> !Matches(routes[j], path)
    ensures MatchIn(routes, path) == Some(routes[i])
    decreases i
  {
    if i > 0 {
      assert !Matches(routes[0], path);
      forall j | 0 <= j < i - 1 ensures !Matches(routes[1..][j], path) {
        assert routes[1..][j] == routes[j + 1];
      }
      MatchFirst(routes[1..], path, i - 1);
    }
  }

  /** `/login` is canonical and reaches the login page. */
  lemma LoginMatches()
    ensures Canonical("/login") == "/login"
    ensures Match("/login") == Page("/login", "Login", GuestOnly)
  {
    CanonicalFixesCanonical("/login");
    MatchByCanonical("/login");
  }

  /** `/dashboard` is canonical and reaches the dashboard page. */
  lemma DashboardMatches()
    ensures Canonical("/dashboard") == "/dashboard"
    ensures Match("/dashboard") == Page("/dashboard", "Dashboard", AuthOnly)
  {
    CanonicalFixesCanonical("/dashboard");
    MatchByCanonical("/dashboard");
  }

  /** The two guard targets are pages their own redirect lets through. */
  lemma RedirectTargetsAreStable(authenticated: bool)
    ensures Canonical("/login") == "/login" && Canonical("/dashboard") == "/dashboard"
    ensures Match("/login") == Page("/login", "Login", GuestOnly)
    ensures Match("/dashboard") == Page("/dashboard", "Dashboard", AuthOnly)
    ensures !authenticated ==> NextStep("/login", authenticated) == Arrive(Page("/login", "Login", GuestOnly))
    ensures authenticated ==> NextStep("/dashboard", authenticated) == Arrive(Page("/dashboard", "Dashboard", AuthOnly))
  {
    LoginMatches();
    DashboardMatches();
  }

  /** From either guard target, two more steps always reach a page. */
  lemma TargetsSettle(authenticated: bool)
    ensures Navigate("/login", authenticated, 2)
            == Some(if authenticated then Page("/dashboard", "Dashboard", AuthOnly) else Page("/login", "Login", GuestOnly))
    ensures Navigate("/dashboard", authenticated, 2)
            == Some(if authenticated then Page("/dashboard", "Dashboard", AuthOnly) else Page("/login", "Login", GuestOnly))
  {
    LoginMatches();
    DashboardMatches();
    if authenticated {
      assert NextStep("/dashboard", true) == Arrive(Page("/dashboard", "Dashboard", AuthOnly));
      assert NextStep("/login", true) == GoTo("/dashboard");
      assert Navigate("/login", true, 2) == Navigate("/dashboard", true, 1);
    } else {
      assert NextStep("/login", false) == Arrive(Page("/login", "Login", GuestOnly));
      assert NextStep("/dashboard", false) == GoTo("/login");
      assert Navigate("/dashboard", false, 2) == Navigate("/login", false, 1);
    }
  }

  /**
   * The shape every record of the table has: `/` redirects to the dashboard,
   * the catch-all to the login page, and a page is either protected or the
   * guest-only login page.
   */
  predicate WellShaped(r: Route) {
    match r
    case RedirectRoute(_, target) => target == "/dashboard"
    case CatchAll(_, target) => target == "/login"
    case Page(p, _, meta) => meta == AuthOnly || (meta == GuestOnly && p == "/login")
  }

  /** Every record of the table is well shaped. */
  lemma TableIsWellShaped(r: Route)
    requires r in Routes
    ensures WellShaped(r)
  {
  }

  /**
   * The first step of any navigation: it arrives at the matched page (a
   * protected one when authenticated, the login page when not) or goes on to
   * one of the two guard targets.
   */
  lemma FirstStep(path: string, authenticated: bool)
    ensures NextStep(path, authenticated).Arrive? ==> NextStep(path, authenticated).page == Match(path)
    ensures NextStep(path, authenticated).Arrive? && authenticated ==> Match(path).meta.requiresAuth
    ensures NextStep(path, authenticated).Arrive? && !authenticated ==> Match(path).path == "/login"
    ensures authenticated && Match(path).Page? && Match(path).meta.requiresAuth ==> NextStep(path, authenticated).Arrive?
    ensures NextStep(path, authenticated).GoTo?
            ==> NextStep(path, authenticated).path == "/dashboard" || NextStep(path, authenticated).path == "/login"
  {
    TableIsWellShaped(Match(path));
  }

  /** Every navigation reaches a page within three steps, so no redirect loops. */
  lemma NoRedirectLoop(path: string, authenticated: bool)
    ensures Navigate(path, authenticated, 3).Some?
    ensures Navigate(path, authenticated, 3).value.path == (if authenticated then
              (if Match(path).Page? && Match(path).meta.requiresAuth then Match(path).path else "/dashboard")
            else "/login")
  {
    TargetsSettle(authenticated);
    FirstStep(path, authenticated);
    var first := NextStep(path, authenticated);
    assert Navigate(path, authenticated, 3) == (match first
      case Arrive(page) => Some(page)
      case GoTo(next) => Navigate(next, authenticated, 2));
  }

  /** `/` goes to the dashboard and an unknown path to the login page. */
  lemma StaticRedirects(path: string)
    requires forall i :: 0 <= i < 7 ==> !Matches(Routes[i], path)
    ensures NextStep("/", true) == GoTo("/dashboard")
    ensures NextStep("/", false) == GoTo("/dashboard")
    ensures NextStep(path, true) == GoTo("/login")
    ensures NextStep(path, false) == GoTo("/login")
  {
    CanonicalFixesCanonical("/");
    MatchFirst(Routes, "/", 0);
    MatchFirst(Routes, path, 7);
  }

  /** A guest counts as authenticated: every protected page is open and the login page is not. */
  lemma GuestsPassTheGuard(s: Auth.Session, page: Route)
    requires s.isGuest
    requires page in Routes && page.Page?
    ensures page.meta.requiresAuth ==> Guard(page.meta, Auth.IsAuthenticated(s)) == Proceed
    ensures Navigate("/login", Auth.IsAuthenticated(s), 3) == Some(Page("/dashboard", "Dashboard", AuthOnly))
  {
    assert Auth.IsAuthenticated(s);
    TableIsWellShaped(page);
    LoginLeadsToDashboard();
  }

  /** An authenticated visit to `/login` ends on the dashboard. */
  lemma LoginLeadsToDashboard()
    ensures Navigate("/login", true, 3) == Some(Page("/dashboard", "Dashboard", AuthOnly))
  {
    TargetsSettle(true);
    LoginMatches();
    assert NextStep("/login", true) == GoTo("/dashboard");
    assert Navigate("/login", true, 3) == Navigate("/dashboard", true, 2);
  }
}
