/**
 * The routing layer of the admin console (src/App.js): the token check, the
 * `PrivateRoute` guard and the static route table, as one total function from
 * a path and the stored token to what the router shows.
 *
 * The stored token is the result of `localStorage.getItem("adminToken")`,
 * passed in as an `Option<string>` (None stands for `null`).
 */
module Routing {
  import opened Wrappers

  /** The views the table can show; their contents are not part of this model. */
  datatype View = AdminLoginView | AdminDashboardView | OrdersView | VendorsView | CreditStatusView

  /** The `element` of a route: a plain view, a view wrapped in `PrivateRoute`, or a `Navigate`. */
  datatype Element = Page(view: View) | Private(child: View) | NavigateTo(target: string)

  /** A route's `path`: an exact path, or the catch-all `*`. */
  datatype RoutePath = Exact(path: string) | Splat

  datatype Route = Route(path: RoutePath, element: Element)

  /** What the router shows for a location. */
  datatype Outcome = Show(view: View) | Redirect(target: string) | NoMatch

  /** Where `PrivateRoute` sends an unauthenticated visitor. */
  const LoginRedirect: string := "/adminlogin"

  /** The paths the table names explicitly. */
  const RoutedPaths: set<string> := {"/", "/admin", "/admin/orders", "/admin/vendors", "/admin/status"}

  /** The route table declared inside `App`, in declaration order. */
  const AppRoutes: seq<Route> := [
    Route(Exact("/"), Page(AdminLoginView)),
    Route(Exact("/admin"), Private(AdminDashboardView)),
    Route(Exact("/admin/orders"), Page(OrdersView)),
    Route(Exact("/admin/vendors"), Page(VendorsView)),
    Route(Exact("/admin/status"), Page(CreditStatusView)),
    Route(Splat, NavigateTo("/"))
  ]

  /**
   * `isAdminAuthenticated`: the stored value, converted to a boolean by
   * JavaScript truthiness. `null` and the empty string are falsy, every other
   * string is truthy.
   */
  function IsAdminAuthenticated(stored: Option<string>): (r: bool)
    ensures r <==> stored.Some? && |stored.value| > 0
  {
    match stored
    case None => false
    case Some(s) => s != ""
  }

  /** `PrivateRoute`: the child when authenticated, otherwise a redirect to the login path. */
  function PrivateRoute(child: View, stored: Option<string>): (r: Outcome)
    ensures r.Show? <==> stored.Some? && stored.value != ""
    ensures r.Show? ==> r.view == child
    ensures !r.Show? ==> r == Redirect("/adminlogin")
  {
    if IsAdminAuthenticated(stored) then Show(child) else Redirect(LoginRedirect)
  }

  /** What rendering one route element produces. */
  function Render(e: Element, stored: Option<string>): Outcome
  {
    match e
    case Page(v) => Show(v)
    case Private(v) => PrivateRoute(v, stored)
    case NavigateTo(t) => Redirect(t)
  }

  /** The element of the first route whose path is exactly `path`, if any. */
  function FindExact(table: seq<Route>, path: string): (r: Option<Element>)
    ensures r.None? <==> forall i :: 0 <= i < |table| ==> table[i].path != Exact(path)
    ensures r.Some? ==> exists i :: 0 <= i < |table| && table[i] == Route(Exact(path), r.value) &&
                                    forall j :: 0 <= j < i ==> table[j].path != Exact(path)
  {
    if table == [] then None
    else if table[0].path == Exact(path) then Some(table[0].element)
    else
      var r := FindExact(table[1..], path);
      assert r.Some? ==> exists i :: 0 <= i < |table[1..]| && table[1..][i] == Route(Exact(path), r.value) &&
                                     forall j :: 0 <= j < i ==> table[1..][j].path != Exact(path);
      r
  }

  /** The element of the first catch-all route, if any. */
  function FindSplat(table: seq<Route>): (r: Option<Element>)
    ensures r.None? <==> forall i :: 0 <= i < |table| ==> table[i].path != Splat
    ensures r.Some? ==> exists i :: 0 <= i < |table| && table[i] == Route(Splat, r.value) &&
                                    forall j :: 0 <= j < i ==> table[j].path != Splat
  {
    if table == [] then None
    else if table[0].path == Splat then Some(table[0].element)
    else FindSplat(table[1..])
  }

  /**
   * Route selection: a route whose path matches exactly outranks the
   * catch-all, whatever their order in the table; with neither, nothing matches.
   */
  function Match(table: seq<Route>, path: string): Option<Element>
  {
    match FindExact(table, path)
    case Some(e) => Some(e)
    case None => FindSplat(table)
  }

  /** What the app shows at `path` for the given stored token. */
  function Resolve(path: string, stored: Option<string>): Outcome
  {
    match Match(AppRoutes, path)
    case Some(e) => Render(e, stored)
    case None => NoMatch
  }

  /** Follow at most `hops` redirects from `path`, as the router does on each `Navigate`. */
  function Navigate(path: string, stored: Option<string>, hops: nat): Outcome
    decreases hops
  {
    var o := Resolve(path, stored);
    if o.Redirect? && hops > 0 then Navigate(o.target, stored, hops - 1) else o
  }

  /** The login view is public: `/` shows it with or without a token. */
  lemma ResolveRoot(stored: Option<string>)
    ensures Resolve("/", stored) == Show(AdminLoginView)
  {
  }

  /** `/admin` is the one guarded route: the dashboard with a non-empty token, the login redirect otherwise. */
  lemma ResolveAdmin(stored: Option<string>)
    ensures stored.Some? && stored.value != "" ==> Resolve("/admin", stored) == Show(AdminDashboardView)
    ensures stored.None? || stored.value == "" ==> Resolve("/admin", stored) == Redirect("/adminlogin")
  {
  }

  /** The orders, vendors and credit-status pages are shown without any token check. */
  lemma ResolveUnguarded(stored: Option<string>)
    ensures Resolve("/admin/orders", stored) == Show(OrdersView)
    ensures Resolve("/admin/vendors", stored) == Show(VendorsView)
    ensures Resolve("/admin/status", stored) == Show(CreditStatusView)
  {
    assert Match(AppRoutes, "/admin/orders") == Some(Page(OrdersView));
    assert Match(AppRoutes, "/admin/vendors") == Some(Page(VendorsView));
    assert Match(AppRoutes, "/admin/status") == Some(Page(CreditStatusView));
  }

  /** A path is sent back to `/` exactly when the table does not name it. */
  lemma ResolveFallback(path: string, stored: Option<string>)
    ensures Resolve(path, stored) == Redirect("/") <==> path !in RoutedPaths
  {
  }

  /** The guard's redirect target has no route of its own and falls through to the catch-all. */
  lemma LoginRedirectFallsThrough(stored: Option<string>)
    ensures LoginRedirect !in RoutedPaths
    ensures Resolve(LoginRedirect, stored) == Redirect("/")
  {
  }

  /** Every path renders something: the catch-all leaves no location unmatched. */
  lemma ResolveTotal(path: string, stored: Option<string>)
    ensures Resolve(path, stored) != NoMatch
  {
  }

  /** The token matters for `/admin` only. */
  lemma OnlyAdminGuarded(path: string, stored1: Option<string>, stored2: Option<string>)
    ensures Resolve(path, stored1) != Resolve(path, stored2) ==> path == "/admin"
  {
  }

  /** Following redirects reaches a view within two hops from any path. */
  lemma NavigateSettles(path: string, stored: Option<string>)
    ensures Navigate(path, stored, 2).Show?
  {
    ResolveRoot(stored);
    ResolveFallback(path, stored);
    if path == "/admin" {
      ResolveAdmin(stored);
      LoginRedirectFallsThrough(stored);
    } else if path in RoutedPaths {
      ResolveUnguarded(stored);
    }
  }

  /** An unauthenticated visit to `/admin` goes to `/adminlogin`, then `/`, and ends on the login view. */
  lemma UnauthenticatedAdminEndsOnLogin(stored: Option<string>)
    requires !IsAdminAuthenticated(stored)
    ensures Navigate("/admin", stored, 2) == Show(AdminLoginView)
  {
    ResolveAdmin(stored);
    LoginRedirectFallsThrough(stored);
    ResolveRoot(stored);
  }
}
