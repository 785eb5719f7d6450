/** The application shell: the `user`, `loading` and `menuOpen` state, its
    handlers, and which view each path resolves to. */
module Shell {
  import opened Session

  datatype Page = LoginPage | DashboardPage | InventoryPage | SalesPage | PurchasePage | ReportsPage

  /** What a route renders: the loading placeholder, a redirect, or a page. */
  datatype View = Loading | Redirect(to: string) | Render(page: Page)

  /** `ProtectedRoute`: the placeholder while loading, the login redirect
      without a user, the page otherwise. */
  function Protected(loading: bool, user: Option<User>, page: Page): (v: View)
    ensures loading ==> v == Loading
    ensures !loading ==> (v == Redirect("/login") <==> user.None?)
    ensures !loading && user.Some? ==> v == Render(page)
  {
    if loading then Loading
    else if user.None? then Redirect("/login")
    else Render(page)
  }

  /** The route table. */
  function Resolve(path: string, loading: bool, user: Option<User>): View
  {
    if path == "/login" then (if user.Some? then Redirect("/dashboard") else Render(LoginPage))
    else if path == "/dashboard" then Protected(loading, user, DashboardPage)
    else if path == "/inventory" then Protected(loading, user, InventoryPage)
    else if path == "/sales" then Protected(loading, user, SalesPage)
    else if path == "/purchase" then Protected(loading, user, PurchasePage)
    else if path == "/reports" then Protected(loading, user, ReportsPage)
    else Redirect("/login")
  }

  /** The protected routes and the page each one wraps. */
  const ProtectedPages: map<string, Page> := map[
    "/dashboard" := DashboardPage, "/inventory" := InventoryPage, "/sales" := SalesPage,
    "/purchase" := PurchasePage, "/reports" := ReportsPage]

  predicate IsProtectedPath(path: string)
  {
    path in ProtectedPages
  }

  /** The login route sends a logged-in user to the dashboard and shows the
      form otherwise; each protected path guards its own page; "/" and every
      unknown path go to the login route. */
  lemma RouteTable(path: string, loading: bool, user: Option<User>)
    ensures path == "/login" ==>
              Resolve(path, loading, user) == (if user.Some? then Redirect("/dashboard") else Render(LoginPage))
    ensures path != "/login" && !IsProtectedPath(path) ==> Resolve(path, loading, user) == Redirect("/login")
    ensures IsProtectedPath(path) ==>
              Resolve(path, loading, user) == Protected(loading, user, ProtectedPages[path])
    ensures IsProtectedPath(path) && loading ==> Resolve(path, loading, user) == Loading
    ensures IsProtectedPath(path) && !loading ==>
              (Resolve(path, loading, user) == Redirect("/login") <==> user.None?)
    ensures IsProtectedPath(path) && !loading && user.Some? ==>
              Resolve(path, loading, user) == Render(ProtectedPages[path])
  {
  }

  /** The view reached from `path` after following at most `hops` redirects. */
  function Settle(path: string, loading: bool, user: Option<User>, hops: nat): View
    decreases hops
  {
    var v := Resolve(path, loading, user);
    if v.Redirect? && hops > 0 then Settle(v.to, loading, user, hops - 1) else v
  }

  /** Once loading is over, every path settles on a page within two
      redirects: the login form exactly when there is no user, and never the
      login form for a logged-in user. A logged-in user on a protected path
      gets that path's own page, and on any other path the dashboard. */
  lemma {:induction false} EveryPathSettles(path: string, user: Option<User>)
    ensures Settle(path, false, user, 2).Render?
    ensures Settle(path, false, user, 2) == Render(LoginPage) <==> user.None?
    ensures user.Some? && IsProtectedPath(path) ==>
              Settle(path, false, user, 2) == Render(ProtectedPages[path])
    ensures user.Some? && !IsProtectedPath(path) ==>
              Settle(path, false, user, 2) == Render(DashboardPage)
  {
    var v := Resolve(path, false, user);
    if v.Redirect? {
      var w := Resolve(v.to, false, user);
      assert v.to in {"/login", "/dashboard"};
      if w.Redirect? {
        assert w.to == "/dashboard";
      }
    }
  }

  /** The sidebar and the menu toggle are rendered only with a user. */
  predicate ShowsChrome(user: Option<User>)
  {
    user.Some?
  }

  /** The sidebar is shown exactly when the login route would send the
      visitor on to the dashboard. */
  lemma ChromeIffLoginRedirects(loading: bool, user: Option<User>)
    ensures ShowsChrome(user) <==> Resolve("/login", loading, user) == Redirect("/dashboard")
    ensures !ShowsChrome(user) <==> Resolve("/login", loading, user) == Render(LoginPage)
  {
  }

  class App {
    var user: Option<User>
    var loading: bool
    var menuOpen: bool

    /** The initial state: no user, loading, menu closed. */
    constructor ()
      ensures user == None && loading && !menuOpen
    {
      user := None;
      loading := true;
      menuOpen := false;
    }

    /** The mount effect: restore the user from the storage slot if one is
        stored, then stop loading. */
    method Mount(browser: Browser)
      modifies this
      ensures user == (if browser.slot.Some? then browser.slot else old(user))
      ensures !loading && menuOpen == old(menuOpen)
    {
      if browser.slot.Some? {
        user := browser.slot;
      }
      loading := false;
    }

    method HandleLogin(u: User)
      modifies this
      ensures user == Some(u)
      ensures loading == old(loading) && menuOpen == old(menuOpen)
    {
      user := Some(u);
    }

    method HandleLogout()
      modifies this
      ensures user == None
      ensures loading == old(loading) && menuOpen == old(menuOpen)
    {
      user := None;
    }

    /** Flips the menu; two toggles restore it. */
    method ToggleMenu()
      modifies this
      ensures menuOpen == !old(menuOpen)
      ensures user == old(user) && loading == old(loading)
    {
      menuOpen := !menuOpen;
    }
  }
}
