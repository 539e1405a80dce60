/** AuthLINC, the identity gateway: registration, login, logout, token
    checking, password change and the listing of a user's sessions, over the
    shared store.

    Each handler is a pure function from the store before the request to the
    store after it and the reply; the `AuthLincAgent` methods perform the
    same steps on the `Database` and are proved to agree with those
    functions. Password hashing and verification, token encoding and
    decoding, the clock and the client's address are inputs. */
module AuthLinc {
  import opened Common
  import opened Store
  import opened BaseAgent
  import opened Auth

  // ---------------------------------------------------------------------
  // Requests and replies.

  datatype LoginRequest = LoginRequest(username: string, password: string, agentName: string)

  /** A login body that names no agent logs in to AuthLINC itself. */
  function DefaultLogin(username: string, password: string): LoginRequest
  {
    LoginRequest(username, password, "authlinc")
  }

  datatype Registration = Registration(
    username: string,
    email: string,
    password: string,
    fullName: string,
    arabicName: Option<string>,
    role: string,
    preferredLanguage: string,
    phone: Option<string>,
    saudiId: Option<string>)

  /** A registration body with only the required fields: a patient who reads English. */
  function DefaultRegistration(username: string, email: string, password: string, fullName: string): Registration
  {
    Registration(username, email, password, fullName, None, "patient", "en", None, None)
  }

  /** Where a request came from: the client's host, when known, and its
      `User-Agent` header, when sent. */
  datatype Client = Client(host: Option<string>, userAgent: Option<string>)

  /** The recorded address: the client's host, or "test" when there is none. */
  function IpAddress(c: Client): (ip: string)
    ensures c.host.Some? ==> ip == c.host.value
    ensures c.host.None? ==> ip == "test"
  {
    match c.host
    case Some(h) => h
    case None => "test"
  }

  /** `UserResponse`: the public columns of a user. Its `full_name` is a
      required string, although the column is nullable. */
  datatype UserView = UserView(
    id: nat,
    username: string,
    email: string,
    fullName: string,
    arabicName: Option<string>,
    role: string,
    preferredLanguage: string,
    isActive: bool,
    isVerified: bool,
    lastLogin: Option<int>)

  /** Building a `UserResponse` from a row: validation refuses a row whose
      `full_name` is NULL. */
  function ViewOf(u: User): (v: Option<UserView>)
    ensures v.Some? <==> u.fullName.Some?
  {
    match u.fullName
    case None => None
    case Some(name) =>
      Some(UserView(u.id, u.username, u.email, name, u.arabicName, u.role, u.preferredLanguage,
                    u.isActive, u.isVerified, u.lastLogin))
  }

  datatype TokenResponse = TokenResponse(
    accessToken: string,
    tokenType: string,
    expiresIn: int,
    user: UserView,
    permissions: seq<string>)

  /** What a handler leaves behind: the store and the reply. */
  datatype Handled<T> = Handled(state: Tables, reply: Result<T, HttpError>)

  const AgentName: string := "authlinc"

  /** A pending write of one handler step, committed as its own unit of work. */
  function Step(t: Tables, after: Tables): SessionResult
  {
    RunSession(t, Ok(after))
  }

  /** `db.add(event); db.commit()`. */
  function LogEvent(t: Tables, e: SystemEvent): (r: SessionResult)
    ensures Consistent(t) ==> r.outcome.Committed? && r.state == t.(events := t.events + [e])
  {
    Step(t, t.(events := t.events + [e]))
  }

  // ---------------------------------------------------------------------
  // Registration.

  /** Some user already holds the username or the email. */
  predicate NameOrEmailTaken(users: seq<User>, username: string, email: string)
  {
    exists j :: 0 <= j < |users| && (users[j].username == username || users[j].email == email)
  }

  /** The user row a registration adds: active, unverified, never logged in. */
  function NewUser(users: seq<User>, req: Registration, hashed: string): (u: User)
    ensures u.username == req.username && u.email == req.email && u.role == req.role
    ensures u.isActive && !u.isVerified && u.lastLogin.None? && u.passwordHash == hashed
    ensures forall j :: 0 <= j < |users| ==> users[j].id != u.id
  {
    User(NextUserId(users), req.username, req.email, Some(req.fullName), req.arabicName, req.role,
         req.preferredLanguage, req.saudiId, req.phone, true, false, hashed, None)
  }

  function RegisteredEvent(u: User, ip: string): SystemEvent
  {
    SystemEvent("auth.user_registered", Some(AgentName), Some(u.id), "New user registration: " + u.username,
                Object(map["role" := Str(u.role), "ip_address" := Str(ip)]), "info")
  }

  const AlreadyRegistered: HttpError := HttpError(400, "Username or email already registered")
  const RegistrationFailed: HttpError := HttpError(500, "Registration service error")

  /** `POST /auth/register`. */
  function RegisterSteps(t: Tables, req: Registration, hashed: string, ip: string): (r: Handled<UserView>)
    ensures NameOrEmailTaken(t.users, req.username, req.email) ==> r == Handled(t, Err(AlreadyRegistered))
    ensures r.reply.Err? ==> r.reply.error in {AlreadyRegistered, RegistrationFailed}
  {
    if NameOrEmailTaken(t.users, req.username, req.email) then Handled(t, Err(AlreadyRegistered))
    else
      var u := NewUser(t.users, req, hashed);
      var added := Step(t, t.(users := t.users + [u]));
      if added.outcome.RolledBack? then Handled(added.state, Err(RegistrationFailed))
      else
        var logged := LogEvent(added.state, RegisteredEvent(u, ip));
        if logged.outcome.RolledBack? then Handled(logged.state, Err(RegistrationFailed))
        else Handled(logged.state, Ok(ViewOf(u).value))
  }

  /** A fresh username and email are refused only when the national id is
      already taken; otherwise exactly one user and one event are added and
      the reply describes the new user. */
  lemma RegisterAddsOneUser(t: Tables, req: Registration, hashed: string, ip: string)
    requires Consistent(t)
    requires !NameOrEmailTaken(t.users, req.username, req.email)
    ensures var u := NewUser(t.users, req, hashed);
      var r := RegisterSteps(t, req, hashed, ip);
      (r.reply.Ok? <==> (req.saudiId.None? || forall j :: 0 <= j < |t.users| ==> t.users[j].saudiId != req.saudiId))
      && (r.reply.Ok? ==> (Some(r.reply.value) == ViewOf(u)
            && r.state == t.(users := t.users + [u], events := t.events + [RegisteredEvent(u, ip)])))
      && (r.reply.Err? ==> r == Handled(t, Err(RegistrationFailed)))
  {
    var u := NewUser(t.users, req, hashed);
    var users' := t.users + [u];
    if req.saudiId.None? || forall j :: 0 <= j < |t.users| ==> t.users[j].saudiId != req.saudiId {
      forall i, j | 0 <= i < j < |users'|
        ensures users'[i].id != users'[j].id && users'[i].username != users'[j].username
          && users'[i].email != users'[j].email
          && (users'[i].saudiId.Some? ==> users'[i].saudiId != users'[j].saudiId)
      {
        if j == |t.users| {
          assert users'[i] == t.users[i];
          assert !(t.users[i].username == req.username || t.users[i].email == req.email);
        }
      }
      assert Consistent(t.(users := users'));
    } else {
      var k :| 0 <= k < |t.users| && t.users[k].saudiId == req.saudiId;
      assert users'[k].saudiId == users'[|t.users|].saudiId;
      assert !UsersConsistent(users');
    }
  }

  // ---------------------------------------------------------------------
  // Login.

  const BadCredentials: HttpError := HttpError(401, "Invalid username or password")
  const AccountDisabled: HttpError := HttpError(400, "Account is disabled")
  const AuthenticationFailed: HttpError := HttpError(500, "Authentication service error")

  function LoginFailedEvent(req: LoginRequest, c: Client): SystemEvent
  {
    SystemEvent("auth.login_failed", Some(AgentName), None, "Failed login attempt for " + req.username,
                Object(map["username" := Str(req.username), "ip_address" := Str(IpAddress(c)),
                           "user_agent" := match c.userAgent case Some(a) => Str(a) case None => Null]),
                "warning")
  }

  function LoginSucceededEvent(u: User, req: LoginRequest, c: Client): SystemEvent
  {
    SystemEvent("auth.login_success", Some(AgentName), Some(u.id), "Successful login for " + u.username,
                Object(map["agent_name" := Str(req.agentName), "ip_address" := Str(IpAddress(c))]), "info")
  }

  /** The claims of the access token a login hands out: 30 minutes. */
  function LoginClaims(u: User, now: int): map<string, Value>
  {
    AccessClaims(map["sub" := Str(u.username), "user_id" := Int(u.id)], now, Some(AccessTokenExpireSeconds))
  }

  /** `POST /auth/login`. */
  function LoginSteps(t: Tables, req: LoginRequest, c: Client, verify: (string, string) -> bool,
                      encode: map<string, Value> -> string, now: int): (r: Handled<TokenResponse>)
    ensures AuthenticateUser(t.users, req.username, req.password, verify).Some?
      && !AuthenticateUser(t.users, req.username, req.password, verify).value.isActive
      ==> r == Handled(t, Err(AccountDisabled))
    ensures r.reply.Err? ==> r.reply.error in {BadCredentials, AccountDisabled, AuthenticationFailed}
  {
    match AuthenticateUser(t.users, req.username, req.password, verify)
    case None =>
      var logged := LogEvent(t, LoginFailedEvent(req, c));
      Handled(logged.state, Err(if logged.outcome.Committed? then BadCredentials else AuthenticationFailed))
    case Some(u) =>
      if !u.isActive then Handled(t, Err(AccountDisabled))
      else
        var access := encode(LoginClaims(u, now));
        var session := NewSession(t.sessions, u, req.agentName, encode(SessionClaims(u, req.agentName, now)), now);
        var withSession := Step(t, t.(sessions := t.sessions + [session]));
        if withSession.outcome.RolledBack? then Handled(withSession.state, Err(AuthenticationFailed))
        else
          var i := FindUserByName(t.users, u.username).value;
          var u' := u.(lastLogin := Some(now));
          var stamped := Step(withSession.state, withSession.state.(users := withSession.state.users[i := u']));
          if stamped.outcome.RolledBack? then Handled(stamped.state, Err(AuthenticationFailed))
          else
            var logged := LogEvent(stamped.state, LoginSucceededEvent(u, req, c));
            if logged.outcome.RolledBack? then Handled(logged.state, Err(AuthenticationFailed))
            else match ViewOf(u')
              case None => Handled(logged.state, Err(AuthenticationFailed))
              case Some(view) => Handled(logged.state, Ok(TokenResponse(access, "bearer", 1800, view, UserPermissions(u.role))))
  }

  /** Bad credentials are refused with 401 and leave a warning event, and
      this check comes first: a disabled account with a wrong password also
      gets 401, not 400. */
  lemma LoginRejectsBadCredentials(t: Tables, req: LoginRequest, c: Client, verify: (string, string) -> bool,
                                   encode: map<string, Value> -> string, now: int)
    requires Consistent(t)
    requires AuthenticateUser(t.users, req.username, req.password, verify).None?
    ensures LoginSteps(t, req, c, verify, encode, now)
      == Handled(t.(events := t.events + [LoginFailedEvent(req, c)]), Err(BadCredentials))
    ensures LoginFailedEvent(req, c).severity == "warning"
  {
  }

  /** A login for an active user with the right password. When the new
      session's token is unused, one session row is added, the user's
      `last_login` is now and a success event is logged; the reply carries
      the role's permissions and a 30-minute bearer token, unless the user
      has no full name, in which case building the response fails with 500
      after all three writes are committed. A token already in use fails
      with 500 and changes nothing. */
  lemma LoginOpensOneSession(t: Tables, req: LoginRequest, c: Client, verify: (string, string) -> bool,
                             encode: map<string, Value> -> string, now: int)
    requires Consistent(t)
    requires AuthenticateUser(t.users, req.username, req.password, verify).Some?
    requires AuthenticateUser(t.users, req.username, req.password, verify).value.isActive
    ensures var u := AuthenticateUser(t.users, req.username, req.password, verify).value;
      var i := FindUserByName(t.users, req.username).value;
      var token := encode(SessionClaims(u, req.agentName, now));
      var r := LoginSteps(t, req, c, verify, encode, now);
      var unused := forall j :: 0 <= j < |t.sessions| ==> t.sessions[j].token != token;
      (r.reply.Ok? <==> unused && u.fullName.Some?)
      && (!unused ==> r == Handled(t, Err(AuthenticationFailed)))
      && (unused && u.fullName.None? ==> r.reply == Err(AuthenticationFailed))
      && (unused ==>
            r.state == t.(sessions := t.sessions + [NewSession(t.sessions, u, req.agentName, token, now)],
                          users := t.users[i := u.(lastLogin := Some(now))],
                          events := t.events + [LoginSucceededEvent(u, req, c)]))
      && (r.reply.Ok? ==>
            Some(r.reply.value.user) == ViewOf(u.(lastLogin := Some(now)))
            && r.reply.value == TokenResponse(encode(LoginClaims(u, now)), "bearer", AccessTokenExpireSeconds,
                                              r.reply.value.user, UserPermissions(u.role)))
  {
    var u := AuthenticateUser(t.users, req.username, req.password, verify).value;
    var i := FindUserByName(t.users, req.username).value;
    var token := encode(SessionClaims(u, req.agentName, now));
    var s := NewSession(t.sessions, u, req.agentName, token, now);
    var sessions' := t.sessions + [s];
    if forall j :: 0 <= j < |t.sessions| ==> t.sessions[j].token != token {
      assert SessionsConsistent(sessions') by {
        forall a, b | 0 <= a < b < |sessions'|
          ensures sessions'[a].id != sessions'[b].id && sessions'[a].token != sessions'[b].token
        {
          if b == |t.sessions| {
            assert sessions'[a] == t.sessions[a];
          }
        }
      }
      var withSession := t.(sessions := sessions');
      var users' := withSession.users[i := u.(lastLogin := Some(now))];
      assert UsersConsistent(users') by {
        forall a, b | 0 <= a < b < |users'|
          ensures users'[a].id != users'[b].id && users'[a].username != users'[b].username
            && users'[a].email != users'[b].email
            && (users'[a].saudiId.Some? ==> users'[a].saudiId != users'[b].saudiId)
        {
          assert users'[a].id == t.users[a].id && users'[b].id == t.users[b].id;
          assert users'[a].username == t.users[a].username && users'[b].username == t.users[b].username;
          assert users'[a].email == t.users[a].email && users'[b].email == t.users[b].email;
          assert users'[a].saudiId == t.users[a].saudiId && users'[b].saudiId == t.users[b].saudiId;
        }
      }
    } else {
      var k :| 0 <= k < |t.sessions| && t.sessions[k].token == token;
      assert sessions'[k].token == sessions'[|t.sessions|].token;
      assert !SessionsConsistent(sessions');
    }
  }

  /** Session tokens are signed over the user, the agent and the instant:
      a second login by the same user to the same agent within the same
      instant signs the same token, which the unique token column refuses,
      so it fails with 500. */
  lemma SecondLoginSameInstantFails(t: Tables, req: LoginRequest, c: Client, verify: (string, string) -> bool,
                                    encode: map<string, Value> -> string, now: int)
    requires Consistent(t)
    requires LoginSteps(t, req, c, verify, encode, now).reply.Ok?
    ensures var t' := LoginSteps(t, req, c, verify, encode, now).state;
      LoginSteps(t', req, c, verify, encode, now) == Handled(t', Err(AuthenticationFailed))
  {
    var u := AuthenticateUser(t.users, req.username, req.password, verify).value;
    LoginOpensOneSession(t, req, c, verify, encode, now);
    var t' := LoginSteps(t, req, c, verify, encode, now).state;
    var i := FindUserByName(t.users, req.username).value;
    var u' := u.(lastLogin := Some(now));
    assert t'.users == t.users[i := u'];
    assert FindUserByName(t'.users, req.username) == Some(i) by {
      UserLookupAfterUpdate(t.users, i, u');
    }
    assert AuthenticateUser(t'.users, req.username, req.password, verify) == Some(u');
    RunSessionKeepsConsistent(t, Ok(t'));
    LoginOpensOneSession(t', req, c, verify, encode, now);
    assert SessionClaims(u', req.agentName, now) == SessionClaims(u, req.agentName, now);
    var token := encode(SessionClaims(u, req.agentName, now));
    assert t'.sessions[|t.sessions|].token == token;
  }

  /** Replacing a user's row by one with the same username keeps every
      username lookup. */
  lemma UserLookupAfterUpdate(users: seq<User>, i: nat, u: User)
    requires i < |users| && u.username == users[i].username
    ensures forall name :: FindUserByName(users[i := u], name) == FindUserByName(users, name)
  {
    forall name
      ensures FindUserByName(users[i := u], name) == FindUserByName(users, name)
    {
      SameNamesSameLookup(users, users[i := u], name);
    }
  }

  lemma {:induction false} SameNamesSameLookup(a: seq<User>, b: seq<User>, name: string)
    requires |a| == |b| && forall j :: 0 <= j < |a| ==> a[j].username == b[j].username
    ensures FindUserByName(a, name) == FindUserByName(b, name)
  {
    if |a| > 0 {
      SameNamesSameLookup(a[1..], b[1..], name);
    }
  }

  /** The token a login returns is not the session token it stores (the
      claims differ in `agent` and in lifetime), so with an encoder that
      signs different claims differently, presenting that token to logout
      finds no session. */
  lemma AccessTokenIsNotSessionToken(u: User, agentName: string, encode: map<string, Value> -> string, now: int)
    requires forall a, b :: encode(a) == encode(b) ==> a == b
    ensures encode(LoginClaims(u, now)) != encode(SessionClaims(u, agentName, now))
  {
    assert "agent" !in LoginClaims(u, now);
    assert "agent" in SessionClaims(u, agentName, now);
  }

  // ---------------------------------------------------------------------
  // Logout.

  const LogoutFailed: HttpError := HttpError(500, "Logout service error")

  /** `POST /auth/logout`: invalidate the presented token's session. An
      unknown token raises 400 inside the handler's guard, which turns every
      error into 500. */
  function LogoutSteps(t: Tables, token: string): (r: Handled<string>)
    ensures r.reply.Ok? <==> FindSessionByToken(t.sessions, token).Some?
    ensures r.reply.Ok? ==> r.reply.value == "Successfully logged out"
    ensures r.reply.Err? ==> r == Handled(t, Err(LogoutFailed))
    ensures r.state == t.(sessions := Invalidated(t.sessions, token))
  {
    match FindSessionByToken(t.sessions, token)
    case None => Handled(t, Err(LogoutFailed))
    case Some(_) => Handled(t.(sessions := Invalidated(t.sessions, token)), Ok("Successfully logged out"))
  }

  /** After logout the token opens no session; a second logout with it still
      succeeds, because invalidation looks the token up whether or not its
      session is active, and changes nothing. */
  lemma LogoutEndsSession(t: Tables, token: string, now: int)
    requires Consistent(t)
    requires LogoutSteps(t, token).reply.Ok?
    ensures ValidSession(LogoutSteps(t, token).state.sessions, token, now).None?
    ensures LogoutSteps(LogoutSteps(t, token).state, token).reply.Ok?
    ensures LogoutSteps(LogoutSteps(t, token).state, token).state == LogoutSteps(t, token).state
  {
    InvalidatedTokenIsDead(t.sessions, token, now);
    InvalidateIdempotent(t.sessions, token);
  }

  // ---------------------------------------------------------------------
  // Token verification, profile and permissions.

  datatype VerifyReply = NotValid | Valid(userId: nat, username: string, role: string, permissions: seq<string>)

  /** `POST /auth/verify-token`: never an error; valid only for a decodable
      token of an existing, active user. */
  function VerifyTokenReply(users: seq<User>, decoded: Decoded): (r: VerifyReply)
    ensures r.Valid? <==> (VerifyToken(decoded).Ok? && FindUserByName(users, VerifyToken(decoded).value).Some?
                           && users[FindUserByName(users, VerifyToken(decoded).value).value].isActive)
    ensures r.Valid? ==> (var u := users[FindUserByName(users, VerifyToken(decoded).value).value];
      r == Valid(u.id, u.username, u.role, UserPermissions(u.role)))
  {
    match VerifyToken(decoded)
    case Err(_) => NotValid
    case Ok(username) =>
      match FindUserByName(users, username)
      case None => NotValid
      case Some(i) =>
        if users[i].isActive then Valid(users[i].id, users[i].username, users[i].role, UserPermissions(users[i].role))
        else NotValid
  }

  /** What the server answers when a handler raises something other than an
      HTTP error. */
  const InternalServerError: HttpError := HttpError(500, "Internal Server Error")

  /** `GET /auth/me`: the caller's public columns; a caller without a full
      name makes the response model raise, which the server answers with 500. */
  function MeReply(users: seq<User>, decoded: Decoded): (r: Result<UserView, HttpError>)
    ensures r.Ok? <==> CurrentUser(users, decoded).Ok? && users[CurrentUser(users, decoded).value].fullName.Some?
    ensures r.Ok? ==> Some(r.value) == ViewOf(users[CurrentUser(users, decoded).value])
    ensures CurrentUser(users, decoded).Err? ==> r == Err(CurrentUser(users, decoded).error)
    ensures CurrentUser(users, decoded).Ok? && users[CurrentUser(users, decoded).value].fullName.None?
      ==> r == Err(InternalServerError)
  {
    match CurrentUser(users, decoded)
    case Err(e) => Err(e)
    case Ok(i) =>
      match ViewOf(users[i])
      case None => Err(InternalServerError)
      case Some(view) => Ok(view)
  }

  /** `GET /auth/permissions`: the caller's role's permissions. */
  function PermissionsReply(users: seq<User>, decoded: Decoded): (r: Result<seq<string>, HttpError>)
    ensures r.Ok? <==> CurrentUser(users, decoded).Ok?
    ensures r.Ok? ==> r.value == UserPermissions(users[CurrentUser(users, decoded).value].role)
    ensures r.Err? ==> r.error == CurrentUser(users, decoded).error
  {
    match CurrentUser(users, decoded)
    case Err(e) => Err(e)
    case Ok(i) => Ok(UserPermissions(users[i].role))
  }

  // ---------------------------------------------------------------------
  // Password change.

  const WrongPassword: HttpError := HttpError(400, "Current password is incorrect")
  const PasswordChangeFailed: HttpError := HttpError(500, "Password change service error")

  function PasswordChangedEvent(u: User): SystemEvent
  {
    SystemEvent("auth.password_changed", Some(AgentName), Some(u.id), "Password changed for " + u.username, Null, "info")
  }

  /** `POST /auth/change-password`. */
  function ChangePasswordSteps(t: Tables, decoded: Decoded, current: string, newHash: string,
                               verify: (string, string) -> bool): (r: Handled<string>)
    ensures CurrentUser(t.users, decoded).Err? ==> r == Handled(t, Err(CurrentUser(t.users, decoded).error))
  {
    match CurrentUser(t.users, decoded)
    case Err(e) => Handled(t, Err(e))
    case Ok(i) =>
      var u := t.users[i];
      if AuthenticateUser(t.users, u.username, current, verify).None? then Handled(t, Err(WrongPassword))
      else
        var changed := Step(t, t.(users := t.users[i := u.(passwordHash := newHash)]));
        if changed.outcome.RolledBack? then Handled(changed.state, Err(PasswordChangeFailed))
        else
          var logged := LogEvent(changed.state, PasswordChangedEvent(u));
          if logged.outcome.RolledBack? then Handled(logged.state, Err(PasswordChangeFailed))
          else Handled(logged.state, Ok("Password changed successfully"))
  }

  /** A wrong current password is refused with 400 and changes nothing; a
      right one replaces exactly the caller's hash and logs one event. */
  lemma ChangePasswordEffect(t: Tables, decoded: Decoded, current: string, newHash: string,
                             verify: (string, string) -> bool)
    requires Consistent(t)
    requires CurrentUser(t.users, decoded).Ok?
    ensures var i := CurrentUser(t.users, decoded).value;
      var r := ChangePasswordSteps(t, decoded, current, newHash, verify);
      (!verify(current, t.users[i].passwordHash) ==> r == Handled(t, Err(WrongPassword)))
      && (verify(current, t.users[i].passwordHash) ==>
            r == Handled(t.(users := t.users[i := t.users[i].(passwordHash := newHash)],
                            events := t.events + [PasswordChangedEvent(t.users[i])]),
                         Ok("Password changed successfully")))
  {
    var i := CurrentUser(t.users, decoded).value;
    var users' := t.users[i := t.users[i].(passwordHash := newHash)];
    assert UsersConsistent(users') by {
      forall a, b | 0 <= a < b < |users'|
        ensures users'[a].id != users'[b].id && users'[a].username != users'[b].username
          && users'[a].email != users'[b].email
          && (users'[a].saudiId.Some? ==> users'[a].saudiId != users'[b].saudiId)
      {
        assert users'[a].id == t.users[a].id && users'[b].id == t.users[b].id;
        assert users'[a].username == t.users[a].username && users'[b].username == t.users[b].username;
        assert users'[a].email == t.users[a].email && users'[b].email == t.users[b].email;
        assert users'[a].saudiId == t.users[a].saudiId && users'[b].saudiId == t.users[b].saudiId;
      }
    }
  }

  // ---------------------------------------------------------------------
  // Session listing.

  /** One entry of `/auth/sessions`. */
  datatype SessionView = SessionView(id: nat, agentName: Option<string>, expiresAt: int)

  predicate Listed(s: UserSession, userId: nat, now: int)
  {
    s.userId == userId && s.isActive && s.expiresAt > now
  }

  /** The caller's active, unexpired sessions, in table order. */
  function SessionsOf(sessions: seq<UserSession>, userId: nat, now: int): (r: seq<SessionView>)
    ensures |r| <= |sessions|
    ensures forall k :: 0 <= k < |r| ==>
      exists j :: 0 <= j < |sessions| && Listed(sessions[j], userId, now)
                  && r[k] == SessionView(sessions[j].id, sessions[j].agentName, sessions[j].expiresAt)
    ensures forall j :: 0 <= j < |sessions| && Listed(sessions[j], userId, now) ==>
      SessionView(sessions[j].id, sessions[j].agentName, sessions[j].expiresAt) in r
  {
    if |sessions| == 0 then []
    else
      var rest := SessionsOf(sessions[1..], userId, now);
      assert forall j :: 1 <= j < |sessions| ==> sessions[j] == sessions[1..][j - 1];
      var s := sessions[0];
      if Listed(s, userId, now) then [SessionView(s.id, s.agentName, s.expiresAt)] + rest else rest
  }

  /** `GET /auth/sessions`. */
  function UserSessionsReply(t: Tables, decoded: Decoded, now: int): (r: Result<seq<SessionView>, HttpError>)
    ensures r.Ok? <==> CurrentUser(t.users, decoded).Ok?
    ensures r.Ok? ==> r.value == SessionsOf(t.sessions, t.users[CurrentUser(t.users, decoded).value].id, now)
    ensures r.Err? ==> r.error == CurrentUser(t.users, decoded).error
  {
    match CurrentUser(t.users, decoded)
    case Err(e) => Err(e)
    case Ok(i) => Ok(SessionsOf(t.sessions, t.users[i].id, now))
  }

  /** A session that login opened is listed for its user until it expires
      or is logged out. */
  lemma OpenedSessionIsListed(sessions: seq<UserSession>, u: User, agentName: string, token: string, openedAt: int, now: int)
    requires now < openedAt + SessionSeconds
    ensures var s := NewSession(sessions, u, agentName, token, openedAt);
      SessionView(s.id, s.agentName, s.expiresAt) in SessionsOf(sessions + [s], u.id, now)
  {
    var s := NewSession(sessions, u, agentName, token, openedAt);
    assert (sessions + [s])[|sessions|] == s;
  }

  // ---------------------------------------------------------------------
  // The agent.

  class AuthLincAgent {
    const agent: LincAgent
    const db: Database

    constructor (startTime: int, db: Database)
      ensures agent.config == AuthLincConfig && agent.db == db && this.db == db
    {
      agent := new LincAgent(AuthLincConfig, startTime, db);
      this.db := db;
    }

    method Register(req: Registration, hash: string -> string, c: Client) returns (reply: Result<UserView, HttpError>)
      modifies db
      ensures var r := RegisterSteps(old(db.Snapshot()), req, hash(req.password), IpAddress(c));
        db.Snapshot() == r.state && reply == r.reply
    {
      var t := db.Snapshot();
      if NameOrEmailTaken(t.users, req.username, req.email) {
        return Err(AlreadyRegistered);
      }
      var u := NewUser(t.users, req, hash(req.password));
      var outcome := db.Run(Ok(t.(users := t.users + [u])));
      if outcome.RolledBack? {
        return Err(RegistrationFailed);
      }
      var t1 := db.Snapshot();
      outcome := db.Run(Ok(t1.(events := t1.events + [RegisteredEvent(u, IpAddress(c))])));
      if outcome.RolledBack? {
        return Err(RegistrationFailed);
      }
      reply := Ok(ViewOf(u).value);
    }

    method Login(req: LoginRequest, c: Client, verify: (string, string) -> bool,
                 encode: map<string, Value> -> string, now: int) returns (reply: Result<TokenResponse, HttpError>)
      modifies db
      ensures var r := LoginSteps(old(db.Snapshot()), req, c, verify, encode, now);
        db.Snapshot() == r.state && reply == r.reply
    {
      var t := db.Snapshot();
      var found := AuthenticateUser(t.users, req.username, req.password, verify);
      if found.None? {
        var outcome := db.Run(Ok(t.(events := t.events + [LoginFailedEvent(req, c)])));
        reply := Err(if outcome.Committed? then BadCredentials else AuthenticationFailed);
        return;
      }
      var u := found.value;
      if !u.isActive {
        return Err(AccountDisabled);
      }
      var access := encode(LoginClaims(u, now));
      var session := NewSession(t.sessions, u, req.agentName, encode(SessionClaims(u, req.agentName, now)), now);
      var outcome := db.Run(Ok(t.(sessions := t.sessions + [session])));
      if outcome.RolledBack? {
        return Err(AuthenticationFailed);
      }
      var i := FindUserByName(t.users, u.username).value;
      var u' := u.(lastLogin := Some(now));
      var t1 := db.Snapshot();
      outcome := db.Run(Ok(t1.(users := t1.users[i := u'])));
      if outcome.RolledBack? {
        return Err(AuthenticationFailed);
      }
      var t2 := db.Snapshot();
      outcome := db.Run(Ok(t2.(events := t2.events + [LoginSucceededEvent(u, req, c)])));
      if outcome.RolledBack? {
        return Err(AuthenticationFailed);
      }
      var view := ViewOf(u');
      if view.None? {
        return Err(AuthenticationFailed);
      }
      reply := Ok(TokenResponse(access, "bearer", 1800, view.value, UserPermissions(u.role)));
    }

    method Logout(token: string) returns (reply: Result<string, HttpError>)
      requires Consistent(db.Snapshot())
      modifies db
      ensures var r := LogoutSteps(old(db.Snapshot()), token);
        db.Snapshot() == r.state && reply == r.reply
      ensures Consistent(db.Snapshot())
    {
      var found := InvalidateSession(db, token);
      if found {
        reply := Ok("Successfully logged out");
      } else {
        reply := Err(LogoutFailed);
      }
    }

    method VerifyTokenEndpoint(decoded: Decoded) returns (reply: VerifyReply)
      ensures reply == VerifyTokenReply(db.users, decoded)
    {
      reply := VerifyTokenReply(db.users, decoded);
    }

    method ChangePassword(decoded: Decoded, current: string, newPassword: string,
                          verify: (string, string) -> bool, hash: string -> string)
      returns (reply: Result<string, HttpError>)
      modifies db
      ensures var r := ChangePasswordSteps(old(db.Snapshot()), decoded, current, hash(newPassword), verify);
        db.Snapshot() == r.state && reply == r.reply
    {
      var t := db.Snapshot();
      var caller := CurrentUser(t.users, decoded);
      if caller.Err? {
        return Err(caller.error);
      }
      var i := caller.value;
      var u := t.users[i];
      if AuthenticateUser(t.users, u.username, current, verify).None? {
        return Err(WrongPassword);
      }
      var outcome := db.Run(Ok(t.(users := t.users[i := u.(passwordHash := hash(newPassword))])));
      if outcome.RolledBack? {
        return Err(PasswordChangeFailed);
      }
      var t1 := db.Snapshot();
      outcome := db.Run(Ok(t1.(events := t1.events + [PasswordChangedEvent(u)])));
      if outcome.RolledBack? {
        return Err(PasswordChangeFailed);
      }
      reply := Ok("Password changed successfully");
    }

    method GetUserSessions(decoded: Decoded, now: int) returns (reply: Result<seq<SessionView>, HttpError>)
      ensures reply == UserSessionsReply(db.Snapshot(), decoded, now)
    {
      reply := UserSessionsReply(db.Snapshot(), decoded, now);
    }
  }
}
