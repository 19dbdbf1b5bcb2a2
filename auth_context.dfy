/** The session store: the bearer token, the logged-in identity and the
    start-up `loading` flag, with their two durable-storage entries. The
    transitions are specified as functions on a snapshot of the state
    (`SessionState`); the class `AuthProvider` performs them step by step
    and is proved to agree with them. */
module AuthContext {
  import opened Values
  import opened Domain
  import opened ApiClient
  import Navigation

  /** The claims of a token that the front end reads. `exp` is in seconds. */
  datatype Claims = Claims(
    id: Option<nat>,
    username: Option<string>,
    email: Option<string>,
    role: Option<string>,
    temporalPassword: JsValue,
    exp: Option<int>)

  /** Token decoding, a library call: `None` when decoding throws. */
  type Decoder = string -> Option<Claims>

  const AuthenticationFailure: string := "Error de autenticación"
  const ChangePasswordFailure: string := "Error al cambiar la contraseña"
  const ForgotPasswordFailure: string := "Error al enviar email"

  /** Expiry check used at start-up. An undecodable token, a missing `exp`
      and `exp == 0` all count as expired; otherwise the token is expired
      from the millisecond `exp * 1000` on. */
  function IsTokenExpired(token: string, nowMs: int, decode: Decoder): (expired: bool)
    ensures decode(token).None? ==> expired
    ensures decode(token).Some? && decode(token).value.exp in {None, Some(0)} ==> expired
    ensures decode(token).Some? && decode(token).value.exp.Some? && decode(token).value.exp.value != 0 ==>
              (expired <==> nowMs >= decode(token).value.exp.value * 1000)
  {
    match decode(token)
    case None => true
    case Some(claims) =>
      if claims.exp.None? || claims.exp.value == 0 then true
      else nowMs >= claims.exp.value * 1000
  }

  /** Once expired, a token stays expired as the clock advances. */
  lemma ExpiryIsPermanent(token: string, t1: int, t2: int, decode: Decoder)
    requires t1 <= t2 && IsTokenExpired(token, t1, decode)
    ensures IsTokenExpired(token, t2, decode)
  {
  }

  /** The identity built from decoded claims; `tp` is the truthiness of the
      `temporal_password` claim. */
  function UserFromClaims(c: Claims): SessionUser
  {
    SessionUser(c.id, c.username, c.email, c.role, Truthy(c.temporalPassword))
  }

  /** The two durable-storage entries, "token" and "user". */
  datatype Stored = Stored(token: Option<string>, user: Option<SessionUser>)

  /** A snapshot of the session state. */
  datatype SessionState = SessionState(
    token: Option<string>,
    user: Option<SessionUser>,
    loading: bool,
    stored: Stored)

  /** `isAuthenticated` is the truthiness of the in-memory token alone. */
  predicate Authenticated(s: SessionState)
  {
    Present(s.token)
  }

  /** The state when the provider is created: the token is read from durable
      storage right away, the user is not, and `loading` is on. */
  function Initial(persisted: Stored): SessionState
  {
    SessionState(persisted.token, None, true, persisted)
  }

  /** Start-up restoration. A truthy stored token that has not expired is
      installed with the stored user, or with the user decoded from it when
      no user is stored. In every other case the state is left as it was
      (in particular an expired token read at creation stays in memory and
      durable storage is not cleared). `loading` ends false on every path. */
  function Restored(s: SessionState, nowMs: int, decode: Decoder): SessionState
  {
    var t := s.stored.token;
    if Present(t) && !IsTokenExpired(t.value, nowMs, decode) then
      var u := if s.stored.user.Some? then s.stored.user else Some(UserFromClaims(decode(t.value).value));
      s.(token := t, user := u, loading := false)
    else
      s.(loading := false)
  }

  /** The session once a backend call has answered. The response
      interceptor forces a logout on a 401 or 403 failure, before the
      caller sees the error; any other reply leaves the session alone. */
  function AfterReply<T>(s: SessionState, reply: Reply<T>): SessionState
  {
    if reply.Failed? && IsAuthFailure(reply.error) then LoggedOut(s) else s
  }

  /** The full-page navigation a reply starts: the forced logout's listener
      sends the browser to the login page. */
  function ReloadAfter<T>(reply: Reply<T>): Option<Navigation.Path>
  {
    if reply.Failed? && IsAuthFailure(reply.error) then Some(Navigation.Login) else None
  }

  /** The password change request sent to the backend. */
  datatype PasswordChange = PasswordChange(userId: Option<nat>, currentPassword: string, newPassword: string)

  /** The result object of the session operations. */
  datatype AuthResult = AuthResult(success: bool, message: Option<string>, error: Option<string>)

  /** The state after `login` with the backend's reply. The token is set as
      soon as the backend answers; the user and durable storage only once
      the token has been decoded. A rejection with 401 or 403 is turned
      into a logout by the response interceptor. */
  function AfterLogin(s: SessionState, reply: Reply<string>, decode: Decoder): SessionState
  {
    match reply
    case Failed(_) => AfterReply(s, reply)
    case Ok(newToken) =>
      match decode(newToken)
      case None => s.(token := Some(newToken))
      case Some(claims) =>
        var u := UserFromClaims(claims);
        s.(token := Some(newToken), user := Some(u), stored := Stored(Some(newToken), Some(u)))
  }

  /** What `login` returns. A decoding failure is an error without a
      response, so it reports the generic message. */
  function LoginResult(reply: Reply<string>, decode: Decoder): AuthResult
  {
    match reply
    case Failed(e) => AuthResult(false, None, Some(OrElse(ResponseMessage(e), AuthenticationFailure)))
    case Ok(newToken) =>
      if decode(newToken).Some? then AuthResult(true, None, None)
      else AuthResult(false, None, Some(AuthenticationFailure))
  }

  /** The state after `logout`: no token, no user, both entries removed. */
  function LoggedOut(s: SessionState): SessionState
  {
    s.(token := None, user := None, stored := Stored(None, None))
  }

  /** Restoration with a live stored token installs it, with the stored user
      when there is one and the decoded one otherwise, and leaves durable
      storage as it was. */
  lemma RestoreWithLiveToken(s: SessionState, nowMs: int, decode: Decoder)
    requires Present(s.stored.token) && !IsTokenExpired(s.stored.token.value, nowMs, decode)
    ensures decode(s.stored.token.value).Some?
    ensures var r := Restored(s, nowMs, decode);
      && r.token == s.stored.token && Authenticated(r) && !r.loading && r.stored == s.stored
      && (s.stored.user.Some? ==> r.user == s.stored.user)
      && (s.stored.user.None? ==> r.user == Some(UserFromClaims(decode(s.stored.token.value).value)))
  {
  }

  /** Restoration always ends the loading phase and never touches durable
      storage. */
  lemma RestoreEndsLoading(s: SessionState, nowMs: int, decode: Decoder)
    ensures !Restored(s, nowMs, decode).loading
    ensures Restored(s, nowMs, decode).stored == s.stored
  {
  }

  /** An expired stored token is not cleared: right after start-up the
      session counts as authenticated while it has no user, and durable
      storage still holds the token. */
  lemma ExpiredTokenStaysAuthenticated(persisted: Stored, nowMs: int, decode: Decoder)
    requires Present(persisted.token) && IsTokenExpired(persisted.token.value, nowMs, decode)
    ensures var r := Restored(Initial(persisted), nowMs, decode);
      Authenticated(r) && r.user.None? && r.token == persisted.token && r.stored == persisted && !r.loading
  {
  }

  /** Logging out twice is logging out once, and afterwards nothing is left
      in memory or in durable storage. */
  lemma LogoutIdempotent(s: SessionState)
    ensures LoggedOut(LoggedOut(s)) == LoggedOut(s)
    ensures !Authenticated(LoggedOut(s)) && LoggedOut(s).user.None?
    ensures LoggedOut(s).stored == Stored(None, None)
    ensures LoggedOut(s).loading == s.loading
  {
  }

  /** A successful login sets the token, the user and both durable entries;
      the user's `tp` is the truthiness of `temporal_password`. */
  lemma LoginSuccess(s: SessionState, newToken: string, decode: Decoder)
    requires decode(newToken).Some?
    ensures var c := decode(newToken).value;
      var r := AfterLogin(s, Ok(newToken), decode);
      && LoginResult(Ok(newToken), decode).success
      && r.token == Some(newToken)
      && r.user == Some(UserFromClaims(c))
      && r.user.value.tp == Truthy(c.temporalPassword)
      && r.user.value.role == c.role
      && r.stored == Stored(Some(newToken), Some(UserFromClaims(c)))
      && r.loading == s.loading
  {
  }

  /** A login the backend rejects reports the backend's message, or the
      generic one; either way the message is not empty. A 401 or 403 ends
      whatever session there was; any other rejection changes nothing. */
  lemma LoginRejected(s: SessionState, e: ApiError, decode: Decoder)
    ensures !IsAuthFailure(e) ==> AfterLogin(s, Failed(e), decode) == s
    ensures IsAuthFailure(e) ==> AfterLogin(s, Failed(e), decode) == LoggedOut(s)
    ensures IsAuthFailure(e) ==> !Authenticated(AfterLogin(s, Failed(e), decode))
    ensures var r := LoginResult(Failed(e), decode);
      && !r.success && r.error.Some? && r.error.value != ""
      && (Present(ResponseMessage(e)) ==> r.error == ResponseMessage(e))
      && (!Present(ResponseMessage(e)) ==> r.error == Some("Error de autenticación"))
  {
  }

  /** When the backend answers with a token that cannot be decoded, the
      in-memory token is already replaced but the user and durable storage
      are not, and the login reports failure. */
  lemma LoginDecodeFailure(s: SessionState, newToken: string, decode: Decoder)
    requires decode(newToken).None?
    ensures var r := AfterLogin(s, Ok(newToken), decode);
      r.token == Some(newToken) && r.user == s.user && r.stored == s.stored
    ensures LoginResult(Ok(newToken), decode) == AuthResult(false, None, Some("Error de autenticación"))
  {
  }

  /** Durable storage round trip: after a successful login, a restart and a
      restoration before the token expires give back the same token and
      the same user. */
  lemma LoginSurvivesRestart(s: SessionState, newToken: string, nowMs: int, decode: Decoder)
    requires decode(newToken).Some? && newToken != ""
    requires !IsTokenExpired(newToken, nowMs, decode)
    ensures var l := AfterLogin(s, Ok(newToken), decode);
      var r := Restored(Initial(l.stored), nowMs, decode);
      r.token == l.token && r.user == l.user && Authenticated(r)
  {
  }

  /** After a logout, a restart restores nobody. */
  lemma LogoutSurvivesRestart(s: SessionState, nowMs: int, decode: Decoder)
    ensures var r := Restored(Initial(LoggedOut(s).stored), nowMs, decode);
      !Authenticated(r) && r.user.None?
  {
  }

  /** The session provider, whose fields the operations update in place. */
  class AuthProvider {
    var user: Option<SessionUser>
    var token: Option<string>
    var loading: bool
    /** The browser's durable storage entries "token" and "user". */
    var stored: Stored

    function State(): SessionState
      reads this
    {
      SessionState(token, user, loading, stored)
    }

    /** `isAuthenticated`. */
    predicate IsAuthenticated()
      reads this
    {
      Present(token)
    }

    constructor (persisted: Stored)
      ensures State() == Initial(persisted)
    {
      user := None;
      token := persisted.token;
      loading := true;
      stored := persisted;
    }

    /** `initAuth`, run once at start-up with the clock reading `nowMs`. */
    method InitAuth(nowMs: int, decode: Decoder)
      modifies this
      ensures State() == Restored(old(State()), nowMs, decode)
    {
      var storedToken := stored.token;
      var storedUser := stored.user;
      if Present(storedToken) && !IsTokenExpired(storedToken.value, nowMs, decode) {
        token := storedToken;
        if storedUser.Some? {
          user := storedUser;
        } else {
          // The expiry check has just decoded this very token, so decoding
          // it again succeeds: the clean-up for a failed decode is dead code.
          var claims := decode(storedToken.value).value;
          user := Some(UserFromClaims(claims));
        }
      }
      loading := false;
    }

    /** `login`, with the backend's reply to the credentials. `reload` is
        the full-page navigation a forced logout starts. */
    method Login(reply: Reply<string>, decode: Decoder) returns (result: AuthResult, reload: Option<Navigation.Path>)
      modifies this
      ensures State() == AfterLogin(old(State()), reply, decode)
      ensures result == LoginResult(reply, decode)
      ensures reload == ReloadAfter(reply)
    {
      reload := None;
      match reply {
        case Failed(e) =>
          var rejection;
          rejection, reload := DeliverFailure(this, e);
          result := AuthResult(false, None, Some(OrElse(ResponseMessage(rejection), AuthenticationFailure)));
        case Ok(newToken) =>
          token := Some(newToken);
          var decoded := decode(newToken);
          if decoded.None? {
            result := AuthResult(false, None, Some(AuthenticationFailure));
            return;
          }
          var userData := UserFromClaims(decoded.value);
          user := Some(userData);
          stored := stored.(token := Some(newToken));
          stored := stored.(user := Some(userData));
          result := AuthResult(true, None, None);
      }
    }

    /** `logout`. */
    method Logout()
      modifies this
      ensures State() == LoggedOut(old(State()))
    {
      token := None;
      user := None;
      stored := stored.(token := None);
      stored := stored.(user := None);
    }

    /** `changePassword`, with the backend's reply (its `data.message` on
        success). It reads the message of a failure from `error.data`, which
        a failed HTTP call does not have, so a failure always reports the
        generic message. A 401 or 403 forces a logout on the way. */
    method ChangePassword(userId: Option<nat>, currentPassword: string, newPassword: string, reply: Reply<Option<string>>)
      returns (request: PasswordChange, result: AuthResult, reload: Option<Navigation.Path>)
      modifies this
      ensures request == PasswordChange(userId, currentPassword, newPassword)
      ensures State() == AfterReply(old(State()), reply)
      ensures reload == ReloadAfter(reply)
      ensures result.success <==> reply.Ok?
      ensures reply.Ok? ==> result == AuthResult(true, reply.value, None)
      ensures reply.Failed? ==> result == AuthResult(false, None, Some("Error al cambiar la contraseña"))
    {
      request := PasswordChange(userId, currentPassword, newPassword);
      match reply {
        case Ok(message) =>
          result, reload := AuthResult(true, message, None), None;
        case Failed(e) =>
          var rejection;
          rejection, reload := DeliverFailure(this, e);
          result := AuthResult(false, None, Some(ChangePasswordFailure));
      }
    }

    /** `forgotPassword`, with the backend's reply. A 401 or 403 forces a
        logout on the way. */
    method ForgotPassword(email: string, reply: Reply<()>) returns (result: AuthResult, reload: Option<Navigation.Path>)
      modifies this
      ensures State() == AfterReply(old(State()), reply)
      ensures reload == ReloadAfter(reply)
      ensures result.success <==> reply.Ok?
      ensures reply.Ok? ==> result == AuthResult(true, None, None)
      ensures reply.Failed? && Present(ResponseMessage(reply.error)) ==>
                result == AuthResult(false, None, ResponseMessage(reply.error))
      ensures reply.Failed? && !Present(ResponseMessage(reply.error)) ==>
                result == AuthResult(false, None, Some("Error al enviar email"))
    {
      match reply {
        case Ok(_) =>
          result, reload := AuthResult(true, None, None), None;
        case Failed(e) =>
          var rejection;
          rejection, reload := DeliverFailure(this, e);
          result := AuthResult(false, None, Some(OrElse(ResponseMessage(rejection), ForgotPasswordFailure)));
      }
    }

    /** The listener of the force-logout event: log out, then go to the login
        page. */
    method HandleForceLogout() returns (location: Navigation.Path)
      modifies this
      ensures State() == LoggedOut(old(State()))
      ensures location == Navigation.Login
    {
      Logout();
      location := Navigation.Login;
    }
  }

  /** A failed backend call as the whole application sees it: the response
      interceptor signals a forced logout on 401 and 403, the provider's
      listener runs it, and the caller still receives the original error. */
  method DeliverFailure(auth: AuthProvider, error: ApiError) returns (rejection: ApiError, location: Option<Navigation.Path>)
    modifies auth
    ensures rejection == error
    ensures auth.State() == AfterReply(old(auth.State()), Reply<()>.Failed(error))
    ensures location == ReloadAfter(Reply<()>.Failed(error))
    ensures IsAuthFailure(error) ==> !auth.IsAuthenticated() && auth.user.None?
  {
    var forceLogout, alert;
    forceLogout, alert, rejection := OnResponseError(error);
    if forceLogout {
      var target := auth.HandleForceLogout();
      location := Some(target);
    } else {
      location := None;
    }
  }
}
