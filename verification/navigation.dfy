/**
 * The navigation bar: a fixed ordered route table, the position of the
 * current path in it, and the Back / Forward / auth controls derived from
 * that position. Navigation itself belongs to the router; here a control
 * yields the path it would hand to the router, or None when it does nothing.
 */
module Navigation {
  import opened Wrappers

  datatype Route = Route(path: string, name: string)

  /** The route table, in the order that defines back/forward adjacency. */
  const Routes: seq<Route> := [
    Route("/", "Home"),
    Route("/farmer-input", "Farmer Input"),
    Route("/proofs", "My Proofs"),
    Route("/dashboard", "Dashboard"),
    Route("/login", "Login"),
    Route("/register", "Register")
  ]

  predicate Listed(routes: seq<Route>, path: string)
  {
    exists k :: 0 <= k < |routes| && routes[k].path == path
  }

  predicate DistinctPaths(routes: seq<Route>)
  {
    forall i, j :: 0 <= i < j < |routes| ==> routes[i].path != routes[j].path
  }

  /** `routes.findIndex(route => route.path === path)`: the first matching position, or -1. */
  function FindIndex(routes: seq<Route>, path: string): (i: int)
    ensures -1 <= i < |routes|
    ensures i >= 0 ==> routes[i].path == path
    ensures i >= 0 ==> forall j :: 0 <= j < i ==> routes[j].path != path
    ensures i == -1 <==> !Listed(routes, path)
  {
    if |routes| == 0 then -1
    else if routes[0].path == path then 0
    else
      var k := FindIndex(routes[1..], path);
      if k == -1 then -1 else k + 1
  }

  /** `canGoBack`: the current path is listed, and not only as the first route. */
  predicate CanGoBack(routes: seq<Route>, path: string): (b: bool)
    ensures b <==> Listed(routes, path) && path != routes[0].path
  {
    FindIndex(routes, path) > 0
  }

  /**
   * `canGoForward`, as written: an unlisted path (index -1) also passes this
   * test whenever the table is not empty.
   */
  predicate CanGoForward(routes: seq<Route>, path: string): (b: bool)
    ensures b ==> |routes| > 0
    ensures !Listed(routes, path) ==> (b <==> |routes| > 0)
    ensures DistinctPaths(routes) ==> (b <==> |routes| > 0 && path != routes[|routes| - 1].path)
  {
    FindIndex(routes, path) < |routes| - 1
  }

  /** The target of the Back button, or None when it does nothing. */
  function GoBack(routes: seq<Route>, path: string): (target: Option<string>)
    ensures target.Some? <==> CanGoBack(routes, path)
    ensures target.Some? ==> Listed(routes, path) && path != routes[0].path
    ensures target.Some? ==> 1 <= FindIndex(routes, path) && target.value == routes[FindIndex(routes, path) - 1].path
  {
    var i := FindIndex(routes, path);
    if i > 0 then Some(routes[i - 1].path) else None
  }

  /** The target of the Forward button, or None when it does nothing. */
  function GoForward(routes: seq<Route>, path: string): (target: Option<string>)
    ensures target.Some? <==> CanGoForward(routes, path)
    ensures target.Some? ==> Listed(routes, target.value)
    ensures target.Some? && !Listed(routes, path) ==> target.value == routes[0].path
    ensures target.Some? && Listed(routes, path) ==>
      FindIndex(routes, path) + 1 < |routes| && target.value == routes[FindIndex(routes, path) + 1].path
  {
    var i := FindIndex(routes, path);
    if i < |routes| - 1 then Some(routes[i + 1].path) else None
  }

  /** In a table with distinct paths, a listed path is found at its own position. */
  lemma FindIndexOfDistinct(routes: seq<Route>, k: nat)
    requires DistinctPaths(routes)
    requires k < |routes|
    ensures FindIndex(routes, routes[k].path) == k
  {
  }

  /** Going back and then forward returns to the same path. */
  lemma BackThenForward(routes: seq<Route>, path: string)
    requires DistinctPaths(routes)
    requires CanGoBack(routes, path)
    ensures GoBack(routes, path).Some?
    ensures GoForward(routes, GoBack(routes, path).value) == Some(path)
  {
  }

  /** Going forward from a listed path and then back returns to it. */
  lemma ForwardThenBack(routes: seq<Route>, path: string)
    requires DistinctPaths(routes)
    requires Listed(routes, path) && CanGoForward(routes, path)
    ensures GoForward(routes, path).Some?
    ensures GoBack(routes, GoForward(routes, path).value) == Some(path)
  {
  }

  lemma RoutesDistinct()
    ensures DistinctPaths(Routes)
  {
  }

  /** Back is enabled on every listed path except "/", and never on an unlisted one. */
  lemma CanGoBackOnRoutes(path: string)
    ensures CanGoBack(Routes, path) <==> Listed(Routes, path) && path != "/"
  {
  }

  /** Forward is disabled only on "/register"; an unlisted path leaves it enabled. */
  lemma CanGoForwardOnRoutes(path: string)
    ensures CanGoForward(Routes, path) <==> path != "/register"
  {
  }

  /** On an unlisted path Back does nothing and Forward leads to "/". */
  lemma UnlistedPath(path: string)
    requires !Listed(Routes, path)
    ensures GoBack(Routes, path) == None
    ensures GoForward(Routes, path) == Some("/")
  {
  }

  /** On an unlisted path, the Back button cannot undo a Forward press. */
  lemma UnlistedForwardHasNoReturn(path: string)
    requires !Listed(Routes, path)
    ensures GoBack(Routes, GoForward(Routes, path).value) == None
  {
  }

  /** The auth controls of the bar and what each does. */
  datatype Control = DashboardButton | LogoutButton | LoginButton | RegisterButton

  datatype Action = Navigate(path: string) | SignOut

  function ActionOf(c: Control): (a: Action)
    ensures a == SignOut <==> c == LogoutButton
  {
    match c
    case DashboardButton => Navigate("/dashboard")
    case LogoutButton => SignOut
    case LoginButton => Navigate("/login")
    case RegisterButton => Navigate("/register")
  }

  /** The pair of auth controls offered: chosen by whether a user is signed in. */
  function AuthControls(user: bool): (cs: seq<Control>)
    ensures |cs| == 2 && cs[0] != cs[1]
    ensures (LogoutButton in cs) <==> user
    ensures (DashboardButton in cs) <==> user
    ensures (LoginButton in cs) <==> !user
    ensures (RegisterButton in cs) <==> !user
  {
    if user then [DashboardButton, LogoutButton] else [LoginButton, RegisterButton]
  }

  /** Exactly one of the two pairs is offered, and only a signed-in user can sign out. */
  lemma AuthControlsExclusive(user: bool, c: Control)
    requires c in AuthControls(user)
    ensures ActionOf(c) == SignOut ==> user
    ensures ActionOf(c).Navigate? ==> Listed(Routes, ActionOf(c).path)
    ensures c !in AuthControls(!user)
  {
    assert Routes[3].path == "/dashboard" && Routes[4].path == "/login" && Routes[5].path == "/register";
  }
}
