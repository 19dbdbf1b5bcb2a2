/** The login page: its form schema, and the submit handler that asks for
    confirmation, logs in and then routes by the user found in durable
    storage. */
module LoginPage {
  import opened Values
  import opened Domain
  import opened Navigation
  import opened AuthContext
  import RouteGuards
  import AppRouter
  import ApiClient

  datatype Credentials = Credentials(username: string, password: string)

  const UsernameRequired: string := "El correo electrónico es requerido"
  const PasswordRequired: string := "La contraseña es requerida"

  /** The form's validation: both fields are required (an empty string is
      missing; blanks are not). The result maps each failing field to its
      message. */
  function LoginSchemaErrors(v: Credentials): (errors: map<string, string>)
    ensures "username" in errors <==> v.username == ""
    ensures "password" in errors <==> v.password == ""
    ensures "username" in errors ==> errors["username"] == UsernameRequired
    ensures "password" in errors ==> errors["password"] == PasswordRequired
    ensures errors.Keys <= {"username", "password"}
  {
    (if v.username == "" then map["username" := UsernameRequired] else map[])
    + (if v.password == "" then map["password" := PasswordRequired] else map[])
  }

  /** Where the page goes once the login call has returned. */
  datatype PostLogin = NoNavigation | GoTo(to: Path) | GoToChangePassword(id: Option<nat>)

  /** The navigation decided from the user read back from durable storage.
      A stored user whose `tp` is false is sent to change the password; a
      stored user with a role goes to its dashboard (or to the unauthorized
      page for an unknown role); otherwise the page stays. */
  function PostLoginTarget(stored: Option<SessionUser>): PostLogin
  {
    if stored.Some? && !stored.value.tp then GoToChangePassword(stored.value.id)
    else if stored.Some? && Present(stored.value.role) then
      if stored.value.role.value == "ADMIN" then GoTo(Dashboard)
      else if stored.value.role.value == "USER" then GoTo(DashboardUser)
      else GoTo(Unauthorized)
    else NoNavigation
  }

  /** The page's check of the temporary password is the opposite of the
      public guard's: the page sends to the password change exactly the
      users the guard sends to their dashboard. */
  lemma TemporaryPasswordCheckInverted(u: SessionUser)
    ensures PostLoginTarget(Some(u)).GoToChangePassword? <==> !u.tp
    ensures RouteGuards.PublicRoute(true, Some(u)) == RouteGuards.Redirect(ChangePassword) <==> u.tp
  {
  }

  /** A fresh login whose user has a temporary password is routed by role,
      not to the password change. */
  lemma TemporaryPasswordLoginGoesToDashboard(s: SessionState, newToken: string, decode: Decoder)
    requires decode(newToken).Some? && Truthy(decode(newToken).value.temporalPassword)
    requires decode(newToken).value.role == Some("ADMIN")
    ensures PostLoginTarget(AfterLogin(s, Ok(newToken), decode).stored.user) == GoTo(Dashboard)
  {
  }

  /** A login the backend rejects with anything but 401 or 403 still
      navigates with whatever user an earlier session left in durable
      storage. */
  lemma RejectedLoginUsesStaleUser(s: SessionState, e: ApiError, decode: Decoder)
    ensures !ApiClient.IsAuthFailure(e) ==> PostLoginTarget(AfterLogin(s, Failed(e), decode).stored.user) == PostLoginTarget(s.stored.user)
  {
  }

  /** A login rejected with 401 or 403 empties durable storage before the
      page reads it, so the page itself does not navigate; the forced
      logout sends the browser to the login page, which is shown. */
  lemma UnauthorizedLoginLandsOnLogin(s: SessionState, e: ApiError, decode: Decoder)
    requires ApiClient.IsAuthFailure(e)
    ensures var r := AfterLogin(s, Failed(e), decode);
      && r == LoggedOut(s)
      && PostLoginTarget(r.stored.user) == NoNavigation
      && ReloadAfter(Reply<string>.Failed(e)) == Some(Login)
      && AppRouter.Resolve(false, Login, Authenticated(r), r.user) == AppRouter.Render(AppRouter.LoginPage, false)
  {
  }

  /** With nothing in durable storage, a rejected login leaves the page
      where it is. */
  lemma RejectedFirstLoginStays(s: SessionState, e: ApiError, decode: Decoder)
    requires s.stored.user.None?
    ensures PostLoginTarget(AfterLogin(s, Failed(e), decode).stored.user) == NoNavigation
  {
  }

  /** A successful login navigates, whatever the claims. */
  lemma SuccessfulLoginNavigates(s: SessionState, newToken: string, decode: Decoder)
    requires decode(newToken).Some?
    requires Present(decode(newToken).value.role) || !Truthy(decode(newToken).value.temporalPassword)
    ensures PostLoginTarget(AfterLogin(s, Ok(newToken), decode).stored.user) != NoNavigation
  {
  }

  /** The page's own state. */
  class LoginForm {
    var isLoading: bool

    constructor ()
      ensures !isLoading
    {
      isLoading := false;
    }

    /** `handleSubmit`: the confirmation answer and the backend's reply are
        parameters. `next` is the page's own navigation, `reload` the one a
        forced logout starts. The busy flag is left on when the page leaves
        for the password change, and cleared on every other path. */
    method HandleSubmit(auth: AuthProvider, confirmed: bool, reply: Reply<string>, decode: Decoder)
      returns (next: PostLogin, reload: Option<Path>)
      modifies this, auth
      ensures !confirmed ==> auth.State() == old(auth.State()) && next == NoNavigation && reload == None
      ensures confirmed ==> auth.State() == AfterLogin(old(auth.State()), reply, decode)
      ensures confirmed ==> next == PostLoginTarget(auth.stored.user) && reload == ReloadAfter(reply)
      ensures isLoading <==> next.GoToChangePassword?
    {
      isLoading := true;
      next, reload := NoNavigation, None;
      if confirmed {
        var response;
        response, reload := auth.Login(reply, decode);
        var storedUser := auth.stored.user;
        next := PostLoginTarget(storedUser);
        if next.GoToChangePassword? {
          return;
        }
      }
      isLoading := false;
    }

    /** A press of the submit button: ignored while busy; otherwise the
        schema runs first and the handler only on valid values. */
    method Submit(values: Credentials, auth: AuthProvider, confirmed: bool, reply: Reply<string>, decode: Decoder)
      returns (errors: map<string, string>, next: PostLogin, reload: Option<Path>)
      modifies this, auth
      ensures errors == (if old(isLoading) then map[] else LoginSchemaErrors(values))
      ensures old(isLoading) || errors != map[] ==>
                auth.State() == old(auth.State()) && next == NoNavigation && reload == None && isLoading == old(isLoading)
      ensures !old(isLoading) && errors == map[] && confirmed ==>
                && auth.State() == AfterLogin(old(auth.State()), reply, decode)
                && next == PostLoginTarget(auth.stored.user) && reload == ReloadAfter(reply)
      ensures !old(isLoading) && errors == map[] && !confirmed ==>
                auth.State() == old(auth.State()) && next == NoNavigation && reload == None && !isLoading
      ensures !old(isLoading) && errors == map[] ==> (isLoading <==> next.GoToChangePassword?)
    {
      errors := map[];
      next, reload := NoNavigation, None;
      if isLoading {
        return;
      }
      errors := LoginSchemaErrors(values);
      if errors == map[] {
        next, reload := HandleSubmit(auth, confirmed, reply, decode);
      }
    }
  }
}
