/** The `auth` route middleware (app/middleware/auth.ts): a decision, made from the target
    route and the session's authenticated flag, to let the navigation through or redirect it. */
module RouteGuard {

  const LoginPath := "/login"
  const HomePath := "/"
  const RedirectParam := "redirect"

  /** The routes reachable without a session. */
  const PublicRoutes: seq<string> := [LoginPath]

  /** A navigation target: its bare path and its path with query and hash. */
  datatype Route = Route(path: string, fullPath: string)

  /** Where a redirect goes: a path and its query parameters. */
  datatype Location = Location(path: string, query: map<string, string>)

  datatype Decision = Allow | Redirect(target: Location)

  predicate IsPublic(path: string)
    ensures IsPublic(path) <==> path == LoginPath
  {
    path in PublicRoutes
  }

  /** The middleware: an authenticated user is sent from the login screen to the home page, an
      unauthenticated user is sent from any other route to the login screen with the intended
      destination in the `redirect` query parameter, and every other navigation goes through. */
  function Guard(to: Route, isAuthenticated: bool): (d: Decision)
    ensures d.Allow? <==> (to.path == LoginPath <==> !isAuthenticated)
    ensures to.path == LoginPath && isAuthenticated ==> d == Redirect(Location(HomePath, map[]))
    ensures to.path != LoginPath && !isAuthenticated ==>
      d == Redirect(Location(LoginPath, map[RedirectParam := to.fullPath]))
  {
    if IsPublic(to.path) then
      if isAuthenticated then Redirect(Location(HomePath, map[])) else Allow
    else if !isAuthenticated then
      Redirect(Location(LoginPath, map[RedirectParam := to.fullPath]))
    else
      Allow
  }

  /** A redirect never points back at the path it came from, and following it under the same
      session state is let through, whatever the target's full path. */
  lemma RedirectIsStable(to: Route, isAuthenticated: bool, fullPath: string)
    requires Guard(to, isAuthenticated).Redirect?
    ensures Guard(to, isAuthenticated).target.path != to.path
    ensures Guard(Route(Guard(to, isAuthenticated).target.path, fullPath), isAuthenticated) == Allow
  {
  }

  /** Whether a route is the login screen depends on its path alone: a query string in the full
      path does not change the decision. */
  lemma LoginDecisionIgnoresFullPath(fullPath1: string, fullPath2: string, isAuthenticated: bool)
    ensures Guard(Route(LoginPath, fullPath1), isAuthenticated) == Guard(Route(LoginPath, fullPath2), isAuthenticated)
  {
  }
}
