/** The application's route table and how a location resolves to a screen:
    a spinner while the session is being restored, otherwise the page of
    the matching route behind its guard, and the dashboard for every
    location no route matches. */
module AppRouter {
  import opened Values
  import opened Domain
  import opened Navigation
  import RouteGuards

  datatype Page =
    | LoginPage | ForgotPasswordPage | ChangePasswordPage
    | DashboardPage | DashboardUserPage | UsersPage | CategoriesPage
    | StoragesPage | StorageDetailPage | ArticlesPage | ArticlesUserPage
    | UnauthorizedPage

  /** The guard wrapped around a route's page. */
  datatype Guard =
    | PublicOnly
    | Protected(allowedRoles: seq<string>, noLayout: bool)
    | Open

  datatype Route = Route(guard: Guard, page: Page)

  /** What the router renders for a location. */
  datatype Screen = Spinner | Render(page: Page, withLayout: bool) | Redirect(to: Path)

  /** The route table. Every route is a literal path except the storage
      detail, whose second segment is the storage id. No two routes match
      the same location, so the router's choice is the only match. */
  function Lookup(path: Path): Option<Route>
  {
    if path == Login then Some(Route(PublicOnly, LoginPage))
    else if path == ForgotPassword then Some(Route(PublicOnly, ForgotPasswordPage))
    else if path == ChangePassword then Some(Route(Protected([], true), ChangePasswordPage))
    else if path == Dashboard then Some(Route(Protected(["ADMIN"], false), DashboardPage))
    else if path == DashboardUser then Some(Route(Protected(["USER"], false), DashboardUserPage))
    else if path == Users then Some(Route(Protected(["ADMIN"], false), UsersPage))
    else if path == Categories then Some(Route(Protected(["ADMIN"], false), CategoriesPage))
    else if path == Storages then Some(Route(Protected(["ADMIN", "USER"], false), StoragesPage))
    else if |path| == 2 && path[0] == "storages" && path[1] != "" then
      Some(Route(Protected(["ADMIN", "USER"], false), StorageDetailPage))
    else if path == Articles then Some(Route(Protected(["ADMIN", "USER"], false), ArticlesPage))
    else if path == ArticlesUser then Some(Route(Protected(["USER"], false), ArticlesUserPage))
    else if path == Unauthorized then Some(Route(Open, UnauthorizedPage))
    else None
  }

  /** A guard's decision about a page, as a screen. */
  function Screened(page: Page, d: RouteGuards.Decision): Screen
  {
    match d
    case Show(layout) => Render(page, layout)
    case Redirect(to) => Redirect(to)
  }

  /** One rendering of the router for `path`. */
  function Resolve(loading: bool, path: Path, isAuthenticated: bool, user: Option<SessionUser>): Screen
  {
    if loading then Spinner
    else
      match Lookup(path)
      case None => Redirect(Dashboard)
      case Some(Route(Open, page)) => Render(page, false)
      case Some(Route(PublicOnly, page)) => Screened(page, RouteGuards.PublicRoute(isAuthenticated, user))
      case Some(Route(Protected(roles, noLayout), page)) =>
        Screened(page, RouteGuards.ProtectedRoute(isAuthenticated, user, roles, noLayout))
  }

  /** Rendering `path` and following at most `fuel` redirects, the session
      being unchanged in between. */
  function Settle(fuel: nat, path: Path, isAuthenticated: bool, user: Option<SessionUser>): Screen
  {
    match Resolve(false, path, isAuthenticated, user)
    case Redirect(to) => if fuel == 0 then Redirect(to) else Settle(fuel - 1, to, isAuthenticated, user)
    case s => s
  }

  /** Each page is reached through exactly one location, apart from the
      storage detail, which takes any non-empty id. */
  lemma PagesHaveOneRoute(p: Path, q: Path)
    requires Lookup(p).Some? && Lookup(q).Some? && Lookup(p).value.page == Lookup(q).value.page
    requires Lookup(p).value.page != StorageDetailPage
    ensures p == q
  {
  }

  /** While the session is being restored nothing but the spinner renders. */
  lemma LoadingShowsSpinner(path: Path, isAuthenticated: bool, user: Option<SessionUser>)
    ensures Resolve(true, path, isAuthenticated, user) == Spinner
  {
  }

  /** The router only ever redirects to the login page, the password change
      page, one of the two dashboards or the unauthorized page. */
  lemma RedirectTargets(loading: bool, path: Path, isAuthenticated: bool, user: Option<SessionUser>)
    ensures var r := Resolve(loading, path, isAuthenticated, user);
      r.Redirect? ==> r.to in {Login, ChangePassword, Dashboard, DashboardUser, Unauthorized}
  {
    var found := Lookup(path);
    if found.Some? && found.value.guard.Protected? {
      RouteGuards.RedirectTargets(isAuthenticated, user, found.value.guard.allowedRoles, found.value.guard.noLayout);
    } else if found.Some? {
      RouteGuards.RedirectTargets(isAuthenticated, user, [], false);
    }
  }

  /** An anonymous visitor asking for any protected page is sent to the
      login page. */
  lemma AnonymousSentToLogin(path: Path, user: Option<SessionUser>)
    requires Lookup(path).Some? && Lookup(path).value.guard.Protected?
    ensures Resolve(false, path, false, user) == Redirect(Login)
  {
  }

  /** A session whose role is USER asking for an administrators' page is
      sent to the unauthorized page. */
  lemma UserKeptOffAdminPages(path: Path, u: SessionUser)
    requires path in {Dashboard, Users, Categories}
    requires u.role == Some("USER")
    ensures Resolve(false, path, true, Some(u)) == Redirect(Unauthorized)
  {
  }

  /** A session whose role is ADMIN asking for a page of the USER role is
      sent to the unauthorized page. */
  lemma AdminKeptOffUserPages(path: Path, u: SessionUser)
    requires path in {DashboardUser, ArticlesUser}
    requires u.role == Some("ADMIN")
    ensures Resolve(false, path, true, Some(u)) == Redirect(Unauthorized)
  {
  }

  /** The pages both roles share render inside the layout for either role. */
  lemma SharedPagesForBothRoles(path: Path, u: SessionUser)
    requires path in {Storages, Articles}
    requires u.role in {Some("ADMIN"), Some("USER")}
    ensures Resolve(false, path, true, Some(u)) == Render(Lookup(path).value.page, true)
  {
  }

  /** A user with a temporary password who opens the login page lands on
      the password change page, rendered without the layout. */
  lemma TemporaryPasswordReachesChangePassword(u: SessionUser, fuel: nat)
    requires u.tp && fuel >= 1
    ensures Resolve(false, Login, true, Some(u)) == Redirect(ChangePassword)
    ensures Settle(fuel, Login, true, Some(u)) == Render(ChangePasswordPage, false)
  {
  }

  /** With an authenticated session that has no user (an expired token kept
      at start-up), the router selects the password change page; the page
      then fails while rendering, since it reads the user's id. */
  lemma ChangePasswordWithoutUser()
    ensures Resolve(false, ChangePassword, true, None) == Render(ChangePasswordPage, false)
  {
  }

  /** Every location the router redirects to renders after at most one more
      redirect, whatever the session. */
  lemma TargetSettles(target: Path, fuel: nat, isAuthenticated: bool, user: Option<SessionUser>)
    requires target in {Login, ChangePassword, Dashboard, DashboardUser, Unauthorized} && fuel >= 1
    ensures Settle(fuel, target, isAuthenticated, user).Render?
  {
    var r := Resolve(false, target, isAuthenticated, user);
    if r.Redirect? {
      RedirectTargets(false, target, isAuthenticated, user);
    }
  }

  /** The routes cannot send the browser round in circles: from any
      location, at most two redirects reach a rendered page. */
  lemma EveryLocationSettles(path: Path, fuel: nat, isAuthenticated: bool, user: Option<SessionUser>)
    requires fuel >= 2
    ensures Settle(fuel, path, isAuthenticated, user).Render?
  {
    var r := Resolve(false, path, isAuthenticated, user);
    RedirectTargets(false, path, isAuthenticated, user);
    if r.Redirect? {
      TargetSettles(r.to, fuel - 1, isAuthenticated, user);
    }
  }
}
