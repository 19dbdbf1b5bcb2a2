/** The password change page: its form schema, and the submit handler
    that changes the password of the logged-in user and, on success, ends
    the session so that the user logs in again. */
module ChangePasswordPage {
  import opened Values
  import opened Domain
  import opened Navigation
  import opened AuthContext
  import AppRouter
  import ApiClient

  datatype PasswordValues = PasswordValues(currentPassword: string, password: string, confirmPassword: string)

  const Required: string := "Requerido"
  const TooShort: string := "La contraseña debe tener al menos 6 caracteres"
  const Mismatch: string := "Las contraseñas deben coincidir"

  const PasswordFields: set<string> := {"currentPassword", "password", "confirmPassword"}

  /** The rule of one field. An empty field is missing; a confirmation is
      compared with the new password as entered. */
  function PasswordRule(v: PasswordValues, field: string): Option<string>
  {
    if field == "currentPassword" then
      if v.currentPassword == "" then Some(Required) else None
    else if field == "password" then
      if v.password == "" then Some(Required)
      else if |v.password| < 6 then Some(TooShort)
      else None
    else if field == "confirmPassword" then
      if v.confirmPassword == "" then Some(Required)
      else if v.confirmPassword != v.password then Some(Mismatch)
      else None
    else None
  }

  /** The form's validation: the current password is required, the new one
      has at least 6 characters, and the confirmation repeats it. */
  function ChangePasswordSchemaErrors(v: PasswordValues): (errors: map<string, string>)
    ensures errors.Keys <= PasswordFields
    ensures "currentPassword" in errors <==> v.currentPassword == ""
    ensures "password" in errors <==> |v.password| < 6
    ensures "confirmPassword" in errors <==> v.confirmPassword == "" || v.confirmPassword != v.password
    ensures "password" in errors ==> errors["password"] == (if v.password == "" then Required else TooShort)
    ensures "confirmPassword" in errors ==> errors["confirmPassword"] == (if v.confirmPassword == "" then Required else Mismatch)
    ensures "currentPassword" in errors ==> errors["currentPassword"] == Required
  {
    map f | f in PasswordFields && PasswordRule(v, f).Some? :: PasswordRule(v, f).value
  }

  /** The schema accepts exactly a non-empty current password and a new
      password of at least 6 characters typed twice alike. */
  lemma SchemaAcceptsExactly(v: PasswordValues)
    ensures ChangePasswordSchemaErrors(v) == map[] <==>
      v.currentPassword != "" && |v.password| >= 6 && v.confirmPassword == v.password
  {
    var e := ChangePasswordSchemaErrors(v);
    if v.currentPassword != "" && |v.password| >= 6 && v.confirmPassword == v.password {
      assert e.Keys == {};
    }
  }

  /** The session after a submission: unchanged when the form refuses the
      values; ended after an accepted change; after a failure, as the
      response interceptor leaves it (ended on 401 or 403). */
  function AfterSubmit(s: SessionState, v: PasswordValues, reply: Reply<Option<string>>): SessionState
  {
    if ChangePasswordSchemaErrors(v) != map[] then s
    else if reply.Ok? then LoggedOut(s)
    else AfterReply(s, reply)
  }

  /** After an accepted change nobody is logged in, so the login page the
      handler navigates to is shown rather than redirected. */
  lemma AcceptedChangeShowsLogin(s: SessionState, v: PasswordValues, reply: Reply<Option<string>>)
    requires ChangePasswordSchemaErrors(v) == map[] && reply.Ok?
    ensures var r := AfterSubmit(s, v, reply);
      && !Authenticated(r) && r.user.None? && r.stored == Stored(None, None)
      && AppRouter.Resolve(false, Login, Authenticated(r), r.user) == AppRouter.Render(AppRouter.LoginPage, false)
  {
  }

  /** A change that fails with anything but 401 or 403 keeps a user with
      a temporary password where they were: still logged in, and still
      sent back to this page. */
  lemma FailedChangeKeepsTemporarySession(s: SessionState, v: PasswordValues, e: ApiError)
    requires Authenticated(s) && s.user.Some? && s.user.value.tp
    ensures !ApiClient.IsAuthFailure(e) ==> AfterSubmit(s, v, Failed(e)) == s
    ensures !ApiClient.IsAuthFailure(e) ==>
      AppRouter.Resolve(false, Login, Authenticated(AfterSubmit(s, v, Failed(e))), AfterSubmit(s, v, Failed(e)).user)
        == AppRouter.Redirect(ChangePassword)
  {
  }

  /** A change the backend refuses with 401 or 403 ends the session through
      the forced logout, and the login page it reloads is shown. */
  lemma UnauthorizedChangeEndsSession(s: SessionState, v: PasswordValues, e: ApiError)
    requires ChangePasswordSchemaErrors(v) == map[] && ApiClient.IsAuthFailure(e)
    ensures var r := AfterSubmit(s, v, Failed(e));
      && r == LoggedOut(s) && !Authenticated(r) && r.stored == Stored(None, None)
      && AppRouter.Resolve(false, Login, Authenticated(r), r.user) == AppRouter.Render(AppRouter.LoginPage, false)
  {
  }

  /** `handleSubmit`, reached only once the schema accepts the values. It
      changes the password of the session's user; on success it ends the
      session and navigates to the login page; on failure it alerts the
      result's error, and a 401 or 403 has already ended the session and
      sent the browser to the login page. The page reads the user's id when
      it renders, so a session without a user never gets this far. */
  method HandleSubmit(auth: AuthProvider, values: PasswordValues, reply: Reply<Option<string>>)
    returns (errors: map<string, string>, call: Option<PasswordChange>, target: Option<Path>, alert: Option<string>)
    requires auth.user.Some?
    modifies auth
    ensures errors == ChangePasswordSchemaErrors(values)
    ensures errors != map[] ==> call.None?
    ensures errors == map[] ==>
      call == Some(PasswordChange(old(auth.user).value.id, values.currentPassword, values.password))
    ensures auth.State() == AfterSubmit(old(auth.State()), values, reply)
    ensures errors != map[] ==> target.None? && alert.None?
    ensures errors == map[] && reply.Ok? ==> target == Some(Login) && alert.None?
    ensures errors == map[] && reply.Failed? ==>
      target == ReloadAfter(reply) && alert == Some("Error al cambiar la contraseña")
  {
    errors := ChangePasswordSchemaErrors(values);
    if errors != map[] {
      return errors, None, None, None;
    }
    var request, result, reload := auth.ChangePassword(auth.user.value.id, values.currentPassword, values.password, reply);
    call := Some(request);
    if result.success {
      auth.Logout();
      target, alert := Some(Login), None;
    } else {
      target, alert := reload, result.error;
    }
  }
}
