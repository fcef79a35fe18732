/**
 * The routing of `src/App.jsx`: an `authenticated` flag, read from the session
 * gate once on mount and set by the login page's callback, decides which
 * route table is in force.
 */
module App {
  import opened Common
  import Auth

  /** The five pages of the protected shell. */
  datatype Page = DashboardPage | OrdersPage | ServicesPage | UsersPage | PaymentsPage

  /** What is on screen: the login page, or one page inside the protected layout. */
  datatype View = LoginView | Protected(page: Page)

  /** A route either renders a view or redirects (`<Navigate replace>`) to a path. */
  datatype Routing = Render(view: View) | Redirect(to: string)

  const LoginPath: string := "/login"
  const DashboardPath: string := "/dashboard"

  /** The explicit routes of `ProtectedLayout`, in declaration order. */
  const ProtectedRoutes: seq<(string, Page)> := [
    ("/dashboard", DashboardPage),
    ("/orders", OrdersPage),
    ("/services", ServicesPage),
    ("/users", UsersPage),
    ("/payments", PaymentsPage)
  ]

  /** ASCII upper-case letters fold to lower case; everything else is kept. */
  function LowerAscii(c: char): char {
    if 'A' <= c <= 'Z' then (c as int + 32) as char else c
  }

  /**
   * The path as the router compares it: route matching ignores ASCII case,
   * and a path that ends in slashes matches the route without them.
   */
  function NormalizePath(path: string): (n: string)
    ensures |n| <= |path|
    ensures forall i :: 0 <= i < |n| ==> n[i] == LowerAscii(path[i])
    ensures forall i :: |n| <= i < |path| ==> path[i] == '/'
    ensures n == [] || n[|n| - 1] != '/'
    decreases |path|
  {
    if path != [] && path[|path| - 1] == '/' then NormalizePath(path[..|path| - 1])
    else seq(|path|, i requires 0 <= i < |path| => LowerAscii(path[i]))
  }

  /** A path that normalization leaves as it is. */
  predicate Normalized(path: string) {
    (forall i :: 0 <= i < |path| ==> !('A' <= path[i] <= 'Z')) && (path == [] || path[|path| - 1] != '/')
  }

  /** Normalization gives a normalized path, and a normalized path is its own normal form. */
  lemma NormalizeFixes(path: string)
    ensures Normalized(NormalizePath(path))
    ensures Normalized(path) ==> NormalizePath(path) == path
  {
    var n := NormalizePath(path);
    if Normalized(path) {
      assert |n| == |path|;
    }
  }

  /** Normalizing twice is normalizing once. */
  lemma NormalizeIdempotent(path: string)
    ensures NormalizePath(NormalizePath(path)) == NormalizePath(path)
  {
    NormalizeFixes(path);
    NormalizeFixes(NormalizePath(path));
  }

  /** The first route of `table` whose path is `path`, as `<Routes>` picks it. */
  function Lookup(table: seq<(string, Page)>, path: string): (r: Option<Page>)
    ensures r.Some? ==> exists i :: 0 <= i < |table| && table[i] == (path, r.value)
                                    && forall j :: 0 <= j < i ==> table[j].0 != path
    ensures r.None? <==> forall i :: 0 <= i < |table| ==> table[i].0 != path
    decreases |table|
  {
    if table == [] then None
    else if table[0].0 == path then Some(table[0].1)
    else
      var r := Lookup(table[1..], path);
      assert forall i :: 1 <= i < |table| ==> table[i] == table[1..][i - 1];
      if r.Some? then
        var k :| 0 <= k < |table[1..]| && table[1..][k] == (path, r.value)
                 && forall j :: 0 <= j < k ==> table[1..][j].0 != path;
        assert table[k + 1] == (path, r.value) && forall j :: 0 <= j < k + 1 ==> table[j].0 != path;
        r
      else r
  }

  /** The routes inside `ProtectedLayout`; the catch-all sends to the dashboard. */
  function ProtectedRoute(path: string): (r: Routing)
    ensures r.Render? ==> r.view.Protected?
    ensures r.Redirect? ==> r.to == DashboardPath
    ensures r.Render? <==> exists i :: 0 <= i < |ProtectedRoutes| && ProtectedRoutes[i].0 == NormalizePath(path)
  {
    match Lookup(ProtectedRoutes, NormalizePath(path))
    case Some(page) => Render(Protected(page))
    case None => Redirect(DashboardPath)
  }

  /** The top-level `<Routes>`, chosen by the `authenticated` flag. */
  function SelectRoute(authenticated: bool, path: string): (r: Routing)
    ensures !authenticated ==> (r == Render(LoginView) <==> NormalizePath(path) == LoginPath)
    ensures !authenticated && NormalizePath(path) != LoginPath ==> r == Redirect(LoginPath)
    ensures authenticated ==> r != Render(LoginView)
    ensures authenticated && NormalizePath(path) == LoginPath ==> r == Redirect(DashboardPath)
  {
    if authenticated then ProtectedRoute(path)
    else if NormalizePath(path) == LoginPath then Render(LoginView)
    else Redirect(LoginPath)
  }

  /** Two paths with the same normal form are routed alike. */
  lemma RoutingIgnoresNormalization(authenticated: bool, path: string)
    ensures SelectRoute(authenticated, NormalizePath(path)) == SelectRoute(authenticated, path)
  {
    NormalizeIdempotent(path);
  }

  /** The route paths and redirect targets are written in normal form. */
  lemma RoutePathsNormalized()
    ensures NormalizePath(LoginPath) == LoginPath
    ensures NormalizePath(DashboardPath) == DashboardPath
    ensures forall i :: 0 <= i < |ProtectedRoutes| ==> NormalizePath(ProtectedRoutes[i].0) == ProtectedRoutes[i].0
  {
    forall i | 0 <= i < |ProtectedRoutes|
      ensures NormalizePath(ProtectedRoutes[i].0) == ProtectedRoutes[i].0
    {
      WrittenNormalized(ProtectedRoutes[i].0);
    }
    WrittenNormalized(LoginPath);
  }

  /** A route path as written: a slash, then lower-case letters. */
  lemma WrittenNormalized(path: string)
    requires path in [LoginPath, DashboardPath, "/orders", "/services", "/users", "/payments"]
    ensures NormalizePath(path) == path
  {
    assert Normalized(path);
    NormalizeFixes(path);
  }

  /** No path appears twice in a route table. */
  ghost predicate PathsDistinct(table: seq<(string, Page)>) {
    forall a, b :: 0 <= a < b < |table| ==> table[a].0 != table[b].0
  }

  /** In a table without repeated paths, each route's own path finds its page. */
  lemma LookupFindsRoute(table: seq<(string, Page)>, i: int)
    requires PathsDistinct(table) && 0 <= i < |table|
    ensures Lookup(table, table[i].0) == Some(table[i].1)
  {
    var r := Lookup(table, table[i].0);
    var k :| 0 <= k < |table| && table[k] == (table[i].0, r.value)
             && forall j :: 0 <= j < k ==> table[j].0 != table[i].0;
    assert k == i;
  }

  /** The protected table lists each path once. */
  lemma ProtectedPathsDistinct()
    ensures PathsDistinct(ProtectedRoutes)
  {
    var lengths := [10, 7, 9, 6, 9];
    assert forall a :: 0 <= a < |ProtectedRoutes| ==> |ProtectedRoutes[a].0| == lengths[a];
    assert ProtectedRoutes[2].0[1] != ProtectedRoutes[4].0[1];
  }

  /** Each protected path, as written in the table, renders its own page. */
  lemma ProtectedPagesRendered()
    ensures forall i :: 0 <= i < |ProtectedRoutes| ==>
              SelectRoute(true, ProtectedRoutes[i].0) == Render(Protected(ProtectedRoutes[i].1))
  {
    RoutePathsNormalized();
    ProtectedPathsDistinct();
    forall i | 0 <= i < |ProtectedRoutes|
      ensures SelectRoute(true, ProtectedRoutes[i].0) == Render(Protected(ProtectedRoutes[i].1))
    {
      LookupFindsRoute(ProtectedRoutes, i);
    }
  }

  /** No page appears twice in a route table. */
  ghost predicate PagesDistinct(table: seq<(string, Page)>) {
    forall a, b :: 0 <= a < b < |table| ==> table[a].1 != table[b].1
  }

  /** A path found past the first route never yields the first route's page. */
  lemma TailAvoidsHeadPage(table: seq<(string, Page)>, path: string)
    requires |table| > 0 && PagesDistinct(table)
    ensures Lookup(table[1..], path) != Some(table[0].1)
  {
    var r := Lookup(table[1..], path);
    if r.Some? {
      var i :| 0 <= i < |table[1..]| && table[1..][i] == (path, r.value);
      assert table[i + 1] == table[1..][i];
    }
  }

  /** In a table without repeated pages, two paths that find the same page are equal. */
  lemma {:induction false} LookupInjective(table: seq<(string, Page)>, p: string, q: string)
    requires PagesDistinct(table)
    requires Lookup(table, p).Some? && Lookup(table, p) == Lookup(table, q)
    ensures p == q
    decreases |table|
  {
    if table[0].0 != p && table[0].0 != q {
      assert PagesDistinct(table[1..]) by {
        forall a, b | 0 <= a < b < |table[1..]|
          ensures table[1..][a].1 != table[1..][b].1
        {
          assert table[1..][a] == table[a + 1] && table[1..][b] == table[b + 1];
        }
      }
      LookupInjective(table[1..], p, q);
    } else {
      TailAvoidsHeadPage(table, p);
      TailAvoidsHeadPage(table, q);
    }
  }

  /** The protected table lists each page once. */
  lemma ProtectedPagesDistinct()
    ensures PagesDistinct(ProtectedRoutes)
  {
    var pages := [DashboardPage, OrdersPage, ServicesPage, UsersPage, PaymentsPage];
    assert forall a :: 0 <= a < |ProtectedRoutes| ==> ProtectedRoutes[a].1 == pages[a];
  }

  /** Two paths that render the same protected page have the same normal form. */
  lemma ProtectedRoutesOneToOne(p: string, q: string)
    requires SelectRoute(true, p).Render? && SelectRoute(true, q).Render?
    requires SelectRoute(true, p) == SelectRoute(true, q)
    ensures NormalizePath(p) == NormalizePath(q)
  {
    ProtectedPagesDistinct();
    LookupInjective(ProtectedRoutes, NormalizePath(p), NormalizePath(q));
  }

  /** Every redirect lands on a path that renders: no redirect chains or loops. */
  lemma RedirectSettles(authenticated: bool, path: string)
    requires SelectRoute(authenticated, path).Redirect?
    ensures SelectRoute(authenticated, SelectRoute(authenticated, path).to).Render?
  {
    RoutePathsNormalized();
    if authenticated {
      assert ProtectedRoutes[0].0 == DashboardPath;
    }
  }

  /**
   * The `App` component's state. Once mounted, `MountEffect` (which requires
   * `!mounted`) cannot run again and `OnLogin` only sets the flag, so after a
   * login the flag stays true for the life of the page.
   */
  class AppState {
    /** `useState(false)`. */
    var authenticated: bool
    /** Whether the mount effect has run (its dependency list is empty: once). */
    var mounted: bool

    constructor ()
      ensures !authenticated && !mounted
    {
      authenticated := false;
      mounted := false;
    }

    /** The mount effect: `setAuthenticated(isAuthenticated())`. */
    method MountEffect(storage: Auth.LocalStorage)
      requires !mounted
      modifies this
      ensures mounted
      ensures authenticated == Auth.Authenticated(storage.items)
    {
      authenticated := Auth.IsAuthenticated(storage);
      mounted := true;
    }

    /** The `onLogin` callback handed to the login page: `setAuthenticated(true)`. */
    method OnLogin()
      requires mounted
      modifies this`authenticated
      ensures authenticated
    {
      authenticated := true;
    }
  }
}
