/** The request proxy that decides, from the request path and the `user_role`
    cookie alone, whether a page request passes through or is redirected
    (proxy.ts). */
module Proxy {
  import opened Common

  /** What a public route does for a visitor who already has a role. */
  datatype WhenAuthenticated = RedirectAway | GoOn

  datatype PublicRoute = PublicRoute(path: string, whenAuthenticated: WhenAuthenticated)

  /** The proxy's answer: let the request through, or redirect it to another
      path of the same origin, possibly deleting the `user_role` cookie. */
  datatype Response = Next | Redirect(pathname: string, deletesRoleCookie: bool)

  /** Routes reachable without logging in; matched by exact path equality. */
  const PublicRoutes: seq<PublicRoute> :=
    [PublicRoute("/", RedirectAway), PublicRoute("/auth/callback", GoOn)]

  const RedirectWhenNotAuthenticatedRoute: string := "/"

  /** Paths under this plain string prefix are reserved for the `admin` role. */
  const AdminPrefix: string := "/admin"

  /** Where the fixed paths of the application stand with respect to the admin prefix. */
  lemma AdminPrefixFacts()
    ensures !(AdminPrefix <= "/") && !(AdminPrefix <= "/auth/callback") && !(AdminPrefix <= "/dashboard")
    ensures AdminPrefix <= "/admin/dashboard"
  {
    assert "/auth/callback"[2] != AdminPrefix[2];
    assert "/dashboard"[1] != AdminPrefix[1];
    assert "/admin/dashboard"[..|AdminPrefix|] == AdminPrefix;
  }

  /** The first route whose path equals `path` (`Array.prototype.find`). */
  function FindRoute(routes: seq<PublicRoute>, path: string): (r: Option<PublicRoute>)
    ensures r.Some? ==> r.value in routes && r.value.path == path
    ensures r.None? ==> forall route :: route in routes ==> route.path != path
  {
    if routes == [] then None
    else if routes[0].path == path then Some(routes[0])
    else FindRoute(routes[1..], path)
  }

  /** The access policy the proxy enforces, stated independently of its
      control flow: a visitor without a role may see only the public pages; a
      visitor with a role may see every page except the login page `/`, and
      pages under `/admin` only with the `admin` role. */
  predicate MayAccess(path: string, userRole: Option<string>)
  {
    if !Truthy(userRole) then path == "/" || path == "/auth/callback"
    else path != "/" && (userRole.value == "admin" || !(AdminPrefix <= path))
  }

  /** The decision for a request to `path` carrying the `user_role` cookie
      `userRole` (`None` when the cookie is absent). */
  function Proxy(path: string, userRole: Option<string>): (r: Response)
    ensures r == Next <==> MayAccess(path, userRole)
    ensures !Truthy(userRole) && path != "/" && path != "/auth/callback" ==> r == Redirect("/", true)
    ensures !Truthy(userRole) && (path == "/" || path == "/auth/callback") ==> r == Next
    ensures Truthy(userRole) && path == "/" ==>
              r == Redirect(if userRole.value == "admin" then "/admin/dashboard" else "/dashboard", false)
    ensures Truthy(userRole) && path == "/auth/callback" ==> r == Next
    ensures Truthy(userRole) && AdminPrefix <= path && userRole.value != "admin" ==> r == Redirect("/dashboard", false)
    ensures userRole == Some("admin") && AdminPrefix <= path ==> r == Next
    ensures r.Redirect? && r.deletesRoleCookie ==> !Truthy(userRole)
  {
    AdminPrefixFacts();
    var publicRoute := FindRoute(PublicRoutes, path);
    if !Truthy(userRole) && publicRoute.None? then
      Redirect(RedirectWhenNotAuthenticatedRoute, true)
    else if Truthy(userRole) then
      if publicRoute.Some? && publicRoute.value.whenAuthenticated == RedirectAway then
        Redirect(if userRole.value == "admin" then "/admin/dashboard" else "/dashboard", false)
      else if AdminPrefix <= path && userRole.value != "admin" then
        Redirect("/dashboard", false)
      else
        Next
    else
      Next
  }

  /** Public-route matching is exact: a path below `/auth/callback` is private. */
  lemma PublicRoutesMatchExactly(path: string)
    ensures FindRoute(PublicRoutes, path).Some? <==> path == "/" || path == "/auth/callback"
    ensures FindRoute(PublicRoutes, "/auth/callback/x").None?
  {
  }

  /** An empty `user_role` cookie is treated exactly like a missing one. */
  lemma EmptyRoleCookieIsAbsent(path: string)
    ensures Proxy(path, Some("")) == Proxy(path, None)
  {
  }

  /** The cookie the browser holds after following response `r`. */
  function CookieAfter(userRole: Option<string>, r: Response): Option<string>
  {
    if r.Redirect? && r.deletesRoleCookie then None else userRole
  }

  /** No redirect loop: following any redirect, with the cookie that redirect
      leaves behind, reaches a page the proxy lets through. */
  lemma NoRedirectLoop(path: string, userRole: Option<string>)
    ensures var r := Proxy(path, userRole);
            r.Redirect? ==> Proxy(r.pathname, CookieAfter(userRole, r)) == Next
  {
    AdminPrefixFacts();
  }
}
