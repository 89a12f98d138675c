/** The request gate of src/middleware.ts: public routes and static files pass without a
    session check; any other path needs an authenticated session or is redirected to the
    login page. */
module Middleware {
  import opened Util

  const PUBLIC_ROUTES: seq<string> := ["/login", "/api/auth/login"]
  const LOGIN := "/login"

  /** `NextResponse.next()` or `NextResponse.redirect(url)`. */
  datatype Action = Next | Redirect(location: string)

  /** The action, and whether the session had to be read to decide it. */
  datatype Decision = Decision(action: Action, readsSession: bool)

  /** `publicRoutes.some((route) => pathname.startsWith(route))` */
  predicate IsPublic(pathname: string) {
    exists i :: 0 <= i < |PUBLIC_ROUTES| && StartsWith(pathname, PUBLIC_ROUTES[i])
  }

  /** `pathname.startsWith("/_next") || pathname.includes(".")` */
  predicate IsStatic(pathname: string) {
    StartsWith(pathname, "/_next") || Includes(pathname, ".")
  }

  /** `middleware(request)`; `authenticated` is the session's `isAuthenticated`, read only
      when the path is neither public nor static. */
  function Decide(pathname: string, authenticated: bool): (d: Decision)
    ensures d.readsSession <==> !IsPublic(pathname) && !IsStatic(pathname)
    ensures d.action.Redirect? <==> !IsPublic(pathname) && !IsStatic(pathname) && !authenticated
    ensures d.action.Redirect? ==> d.action.location == LOGIN
  {
    if IsPublic(pathname) then Decision(Next, false)
    else if IsStatic(pathname) then Decision(Next, false)
    else if !authenticated then Decision(Redirect(LOGIN), true)
    else Decision(Next, true)
  }

  /** The login page and everything under it pass for everyone, so a redirect never
      loops; a path with a dot passes whatever the session says. */
  lemma LoginNeverRedirects(suffix: string, authenticated: bool)
    ensures Decide(LOGIN + suffix, authenticated) == Decision(Next, false)
    ensures Decide("/api/auth/login" + suffix, authenticated) == Decision(Next, false)
  {
    assert StartsWith(LOGIN + suffix, PUBLIC_ROUTES[0]) by {
      assert (LOGIN + suffix)[..|LOGIN|] == LOGIN;
    }
    assert StartsWith("/api/auth/login" + suffix, PUBLIC_ROUTES[1]) by {
      assert ("/api/auth/login" + suffix)[..|"/api/auth/login"|] == "/api/auth/login";
    }
  }

  /** A file-like path (one containing a dot) is served without a session check. */
  lemma DottedPathsPass(pathname: string, authenticated: bool)
    requires '.' in pathname
    ensures Decide(pathname, authenticated).action == Next
    ensures !Decide(pathname, authenticated).readsSession
  {
    IncludesChar(pathname, '.');
  }
}
