/** The route guard (components/RouteGuard.tsx): on each render it may
    redirect, with history replacement, and it always renders its children. */
module RouteGuard {
  import opened Common

  /** A call `navigate(to, { replace })`. */
  datatype Navigation = Navigation(to: string, replace: bool)

  /** What one render of the guard does. */
  datatype GuardOutput = GuardOutput(redirect: Option<Navigation>, rendersChildren: bool)

  /** The redirect the guard's effect performs for a path and session state:
      an unauthenticated visitor of a guarded path goes to '/login', a signed-in
      user on '/login' goes to '/dashboard', and nobody else is moved. */
  function Redirect(path: string, isAuthenticated: bool): (n: Option<Navigation>)
    ensures n == Some(Navigation("/login", true)) <==> path !in PublicPaths && !isAuthenticated
    ensures n == Some(Navigation("/dashboard", true)) <==> isAuthenticated && path == "/login"
    ensures n.None? <==>
      (isAuthenticated && path != "/login") || (!isAuthenticated && path in PublicPaths)
  {
    var isPublicPage := path in PublicPaths;
    if !isPublicPage && !isAuthenticated then Some(Navigation("/login", true))
    else if isPublicPage && isAuthenticated && path == "/login" then Some(Navigation("/dashboard", true))
    else None
  }

  /** One render: the redirect of the effect, and the children whatever it is. */
  function Guard(path: string, isAuthenticated: bool): (r: GuardOutput)
    ensures r.rendersChildren
    ensures r.redirect == Redirect(path, isAuthenticated)
  {
    GuardOutput(Redirect(path, isAuthenticated), true)
  }

  /** Following a redirect never leads to a second one while the session
      state stays the same. */
  lemma RedirectSettles(path: string, isAuthenticated: bool)
    requires Redirect(path, isAuthenticated).Some?
    ensures Redirect(Redirect(path, isAuthenticated).value.to, isAuthenticated).None?
  {
    assert PublicPaths[0] == "/login";
  }
}
