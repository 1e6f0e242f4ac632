/**
 * The route gate of apps/frontend/src/middleware.ts: a decision from
 * "is there a `token` cookie" and the exact request path.
 */
module Middleware {
  import opened Wrappers

  datatype WhenAuthenticated = RedirectHome | Proceed

  datatype PublicRoute = PublicRoute(path: string, whenAuthenticated: WhenAuthenticated)

  /** The public routes, in their declared order ('products' has no leading slash in the code). */
  const PublicRoutes: seq<PublicRoute> := [
    PublicRoute("/login", RedirectHome),
    PublicRoute("/register", RedirectHome),
    PublicRoute("products", Proceed)
  ]

  const LoginRoute: string := "/login"
  const HomeRoute: string := "/"

  /** `NextResponse.next()`, or a redirect to a clone of the URL with this pathname. */
  datatype Response = Next | Redirect(pathname: string)

  /** `routes.find(route => route.path === path)`: the first route with exactly that path. */
  function FindRoute(routes: seq<PublicRoute>, path: string): (r: Option<PublicRoute>)
    ensures r.Some? ==> r.value in routes && r.value.path == path
    ensures r.None? <==> forall route :: route in routes ==> route.path != path
  {
    if |routes| == 0 then None
    else if routes[0].path == path then Some(routes[0])
    else FindRoute(routes[1..], path)
  }

  predicate IsPublic(path: string) {
    exists route :: route in PublicRoutes && route.path == path
  }

  /** The middleware's decision. */
  function Decide(hasToken: bool, path: string): (d: Response)
    ensures !hasToken && IsPublic(path) ==> d == Next
    ensures !hasToken && !IsPublic(path) ==> d == Redirect(LoginRoute)
    ensures hasToken ==> (d == Redirect(HomeRoute) <==> path == "/login" || path == "/register")
    ensures hasToken && d != Redirect(HomeRoute) ==> d == Next
    ensures d.Redirect? ==> d.pathname == LoginRoute || d.pathname == HomeRoute
  {
    var publicRoute := FindRoute(PublicRoutes, path);
    if !hasToken && publicRoute.Some? then Next
    else if !hasToken && publicRoute.None? then Redirect(LoginRoute)
    else if hasToken && publicRoute.Some? && publicRoute.value.whenAuthenticated == RedirectHome then Redirect(HomeRoute)
    else Next
  }

  /** A redirect never leads to another redirect with the same cookie: `/login` is public, `/` is not a public route. */
  lemma RedirectTargetsSettle(hasToken: bool, path: string)
    ensures Decide(hasToken, path).Redirect? ==> Decide(hasToken, Decide(hasToken, path).pathname) == Next
  {
    if Decide(hasToken, path).Redirect? && !hasToken {
      assert PublicRoutes[0].path == LoginRoute;
    }
  }

  /**
   * The route marked 'next' is declared without a leading slash, which no
   * request pathname lacks: `/products` is private and needs the cookie,
   * and only the literal path `products` would continue without it.
   */
  lemma ProceedRouteContinues()
    ensures Decide(false, "/products") == Redirect(LoginRoute)
    ensures Decide(true, "/products") == Next
    ensures Decide(true, "products") == Next
    ensures Decide(false, "products") == Next
  {
    assert PublicRoutes[2].path == "products";
    assert "/products"[1] == 'p' && PublicRoutes[0].path[1] == 'l' && PublicRoutes[1].path[1] == 'r';
    assert "/products"[0] != PublicRoutes[2].path[0];
    assert FindRoute(PublicRoutes, "/products").None?;
  }
}
