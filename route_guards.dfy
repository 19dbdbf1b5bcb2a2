/** The two route guards: one for pages that need a session (optionally
    restricted to some roles), one for pages only an anonymous visitor
    should see. */
module RouteGuards {
  import opened Values
  import opened Domain
  import opened Navigation

  /** What a guard renders: its page (inside the common layout or not), or
      a replacing redirect. */
  datatype Decision = Show(withLayout: bool) | Redirect(to: Path)

  /** Role membership as the guard tests it: a missing user or a missing
      role is never in the list. */
  predicate HasRole(user: Option<SessionUser>, allowedRoles: seq<string>)
  {
    user.Some? && user.value.role.Some? && user.value.role.value in allowedRoles
  }

  /** The guard of protected pages. An empty role list admits every
      authenticated session, even one without a user. */
  function ProtectedRoute(isAuthenticated: bool, user: Option<SessionUser>, allowedRoles: seq<string>, noLayout: bool): (d: Decision)
    ensures !isAuthenticated ==> d == Redirect(Login)
    ensures isAuthenticated && |allowedRoles| > 0 && !HasRole(user, allowedRoles) ==> d == Redirect(Unauthorized)
    ensures d.Show? <==> isAuthenticated && (allowedRoles == [] || HasRole(user, allowedRoles))
    ensures d.Show? ==> d.withLayout == !noLayout
  {
    if !isAuthenticated then Redirect(Login)
    else if |allowedRoles| > 0 && !HasRole(user, allowedRoles) then Redirect(Unauthorized)
    else Show(!noLayout)
  }

  /** The guard of public pages. A session with a user is sent away: to the
      password change when its password is temporary, otherwise to the
      dashboard of its role, otherwise to the unauthorized page. */
  function PublicRoute(isAuthenticated: bool, user: Option<SessionUser>): (d: Decision)
    ensures d.Show? <==> !isAuthenticated || user.None?
    ensures d.Show? ==> !d.withLayout
    ensures d.Redirect? && user.value.tp ==> d.to == ChangePassword
    ensures d.Redirect? && !user.value.tp && user.value.role == Some("ADMIN") ==> d.to == Dashboard
    ensures d.Redirect? && !user.value.tp && user.value.role == Some("USER") ==> d.to == DashboardUser
    ensures d.Redirect? && !user.value.tp && user.value.role !in {Some("ADMIN"), Some("USER")} ==> d.to == Unauthorized
  {
    if isAuthenticated && user.Some? then
      if user.value.tp then Redirect(ChangePassword)
      else if user.value.role == Some("ADMIN") then Redirect(Dashboard)
      else if user.value.role == Some("USER") then Redirect(DashboardUser)
      else Redirect(Unauthorized)
    else Show(false)
  }

  /** The protected guard never looks at the temporary-password flag: a user
      who still has to change the password reaches every page the role
      allows. */
  lemma ProtectedIgnoresTemporaryPassword(isAuthenticated: bool, u: SessionUser, allowedRoles: seq<string>, noLayout: bool)
    ensures ProtectedRoute(isAuthenticated, Some(u.(tp := true)), allowedRoles, noLayout)
         == ProtectedRoute(isAuthenticated, Some(u.(tp := false)), allowedRoles, noLayout)
  {
  }

  /** The two guards split the sessions: a session with a user that the
      public guard shows is not authenticated, and then the protected guard
      sends it to the login page. */
  lemma GuardsAreComplementary(isAuthenticated: bool, u: SessionUser, allowedRoles: seq<string>, noLayout: bool)
    ensures PublicRoute(isAuthenticated, Some(u)).Show? <==> ProtectedRoute(isAuthenticated, Some(u), allowedRoles, noLayout) == Redirect(Login)
  {
  }

  /** The public guard never redirects to the login page, and the protected
      guard only redirects to the login page or the unauthorized page. */
  lemma RedirectTargets(isAuthenticated: bool, user: Option<SessionUser>, allowedRoles: seq<string>, noLayout: bool)
    ensures var d := PublicRoute(isAuthenticated, user);
      d.Redirect? ==> d.to in {ChangePassword, Dashboard, DashboardUser, Unauthorized} && d.to != Login
    ensures var d := ProtectedRoute(isAuthenticated, user, allowedRoles, noLayout);
      d.Redirect? ==> d.to in {Login, Unauthorized}
  {
  }
}
