/** Authentication and authorisation shared by all agents: the role to
    permission table, role checkers, password authentication, access-token
    claims and their checking, and the lifecycle of login sessions.

    Signing and verifying tokens and hashing passwords are library calls:
    token decoding is an outcome passed in, password verification and token
    encoding are function parameters. */
module Auth {
  import opened Common
  import opened Store

  // ---------------------------------------------------------------------
  // Permissions.

  const AdminPermissions: seq<string> := ["manage_users", "manage_agents", "view_all_data", "system_config", "audit_logs"]
  const DoctorPermissions: seq<string> := ["patient_records", "prescriptions", "diagnoses", "fhir_access", "clinical_documentation"]
  const NursePermissions: seq<string> := ["patient_care", "medication_admin", "shift_reports", "care_plans", "vital_signs"]
  const PatientPermissions: seq<string> := ["own_records", "appointments", "health_tracking", "education_content", "communication"]
  const BusinessPermissions: seq<string> := ["analytics", "reports", "billing", "business_intelligence"]

  /** `ROLE_PERMISSIONS`: what each of the five roles may do. */
  const RolePermissions: map<string, seq<string>> := map[
    "admin" := AdminPermissions,
    "doctor" := DoctorPermissions,
    "nurse" := NursePermissions,
    "patient" := PatientPermissions,
    "business" := BusinessPermissions
  ]

  /** `get_user_permissions`: the role's list, or none for an unknown role. */
  function UserPermissions(role: string): (r: seq<string>)
    ensures role !in RolePermissions ==> r == []
    ensures role in RolePermissions ==> r == RolePermissions[role]
    ensures |r| <= 5
  {
    if role in RolePermissions then RolePermissions[role] else []
  }

  function CheckPermission(user: User, permission: string): bool
  {
    permission in UserPermissions(user.role)
  }

  /** `permission_required(p)`: the user when the role grants `p`, 403 otherwise. */
  function PermissionRequired(permission: string, user: User): (r: Result<User, HttpError>)
    ensures r.Ok? <==> permission in UserPermissions(user.role)
    ensures r.Ok? ==> r.value == user
    ensures r.Err? ==> r.error == HttpError(403, "Permission '" + permission + "' required")
  {
    if CheckPermission(user, permission) then Ok(user)
    else Err(HttpError(403, "Permission '" + permission + "' required"))
  }

  /** Roles share no permission: each permission belongs to one role at most. */
  lemma PermissionsBelongToOneRole(r1: string, r2: string, p: string)
    requires p in UserPermissions(r1) && p in UserPermissions(r2)
    ensures r1 == r2
  {
    ShapeNamesRole(r1, p);
    ShapeNamesRole(r2, p);
  }

  /** A short fingerprint of a permission name (length and fifth letter),
      distinct across the table. */
  function ShapeOf(p: string): int
  {
    if |p| > 4 then |p| * 100 + (p[4] as int) % 100 else 0
  }

  /** The role whose permissions have the given fingerprint. */
  function RoleOfShape(shape: int): string
  {
    if shape in {1203, 1303, 1395, 1301, 1016} then "admin"
    else if shape in {1501, 1399, 910, 1195, 2205} then "doctor"
    else if shape in {1201, 1699, 1316, 1095, 1108} then "nurse"
    else if shape in {1114, 1205, 1516, 1797, 1317} then "patient"
    else if shape in {921, 714, 705, 2110} then "business"
    else ""
  }

  lemma ShapeNamesRole(role: string, p: string)
    requires p in UserPermissions(role)
    ensures RoleOfShape(ShapeOf(p)) == role
  {
    if role == "admin" {
      AdminShapes();
    } else if role == "doctor" {
      DoctorShapes();
    } else if role == "nurse" {
      NurseShapes();
    } else if role == "patient" {
      PatientShapes();
    } else {
      BusinessShapes();
    }
  }

  lemma AdminShapes()
    ensures forall q :: q in AdminPermissions ==> RoleOfShape(ShapeOf(q)) == "admin"
  {
  }

  lemma DoctorShapes()
    ensures forall q :: q in DoctorPermissions ==> RoleOfShape(ShapeOf(q)) == "doctor"
  {
  }

  lemma NurseShapes()
    ensures forall q :: q in NursePermissions ==> RoleOfShape(ShapeOf(q)) == "nurse"
  {
  }

  lemma PatientShapes()
    ensures forall q :: q in PatientPermissions ==> RoleOfShape(ShapeOf(q)) == "patient"
  {
  }

  lemma BusinessShapes()
    ensures forall q :: q in BusinessPermissions ==> RoleOfShape(ShapeOf(q)) == "business"
  {
  }

  /** Permissions are not inherited: the administrator holds none of the
      clinical permissions. */
  lemma AdminLacksClinicalPermissions(p: string)
    requires p in UserPermissions("doctor") || p in UserPermissions("nurse")
    ensures p !in UserPermissions("admin")
  {
    if p in UserPermissions("admin") {
      if p in UserPermissions("doctor") {
        PermissionsBelongToOneRole("admin", "doctor", p);
      } else {
        PermissionsBelongToOneRole("admin", "nurse", p);
      }
    }
  }

  // ---------------------------------------------------------------------
  // Role checkers.

  datatype RoleChecker = RoleChecker(requiredRoles: seq<string>)

  const RequireAdmin: RoleChecker := RoleChecker(["admin"])
  const RequireDoctor: RoleChecker := RoleChecker(["doctor", "admin"])
  const RequireNurse: RoleChecker := RoleChecker(["nurse", "doctor", "admin"])
  const RequireHealthcare: RoleChecker := RoleChecker(["patient", "nurse", "doctor", "admin"])

  /** A checker admits a user whose role is in its list and refuses others with 403. */
  function Admit(checker: RoleChecker, user: User): (r: Result<bool, HttpError>)
    ensures r.Ok? <==> user.role in checker.requiredRoles
    ensures r.Ok? ==> r.value
    ensures r.Err? ==> r.error == HttpError(403, "Not enough permissions")
  {
    if user.role in checker.requiredRoles then Ok(true) else Err(HttpError(403, "Not enough permissions"))
  }

  /** The four checkers are nested: admin within doctor within nurse within
      healthcare. */
  lemma RoleCheckersNested(user: User)
    ensures Admit(RequireAdmin, user).Ok? ==> Admit(RequireDoctor, user).Ok?
    ensures Admit(RequireDoctor, user).Ok? ==> Admit(RequireNurse, user).Ok?
    ensures Admit(RequireNurse, user).Ok? ==> Admit(RequireHealthcare, user).Ok?
    ensures Admit(RequireHealthcare, user).Ok? <==> user.role in {"patient", "nurse", "doctor", "admin"}
  {
  }

  // ---------------------------------------------------------------------
  // Tokens.

  const AccessTokenExpireSeconds: int := 30 * 60
  const SessionSeconds: int := 24 * 60 * 60

  /** The claims `create_access_token` signs: a copy of the input with the
      expiry time (the `exp` claim of section 4.1.4 of RFC 7519) set to now
      plus the given lifetime, or plus 30 minutes when none, or a zero one,
      is given. */
  function AccessClaims(data: map<string, Value>, now: int, expiresDelta: Option<int>): (c: map<string, Value>)
    ensures c.Keys == data.Keys + {"exp"}
    ensures forall k :: k in data && k != "exp" ==> c[k] == data[k]
    ensures expiresDelta.None? || expiresDelta == Some(0) ==> c["exp"] == Int(now + AccessTokenExpireSeconds)
    ensures expiresDelta.Some? && expiresDelta.value != 0 ==> c["exp"] == Int(now + expiresDelta.value)
  {
    var expire := match expiresDelta
      case Some(d) => if d != 0 then now + d else now + AccessTokenExpireSeconds
      case None => now + AccessTokenExpireSeconds;
    data["exp" := Int(expire)]
  }

  /** What decoding a presented token yields: its claims, or a failure
      (bad signature, malformed, expired, or a claim of the wrong type). */
  datatype Decoded = Claims(claims: map<string, Value>) | InvalidToken

  const CredentialsError: HttpError := HttpError(401, "Could not validate credentials")

  /** `verify_token`: the subject of a token that decodes, 401 otherwise. */
  function VerifyToken(decoded: Decoded): (r: Result<string, HttpError>)
    ensures r.Ok? <==> decoded.Claims? && "sub" in decoded.claims && decoded.claims["sub"].Str?
    ensures r.Ok? ==> r.value == decoded.claims["sub"].s
    ensures r.Err? ==> r.error == CredentialsError
  {
    match decoded
    case InvalidToken => Err(CredentialsError)
    case Claims(claims) =>
      if "sub" in claims && claims["sub"].Str? then Ok(claims["sub"].s) else Err(CredentialsError)
  }

  /** `get_current_user`: the row of the token's subject; a token that does
      not verify, or names no user, is refused with 401. */
  function CurrentUser(users: seq<User>, decoded: Decoded): (r: Result<nat, HttpError>)
    ensures r.Ok? ==> (r.value < |users| && VerifyToken(decoded) == Ok(users[r.value].username)
      && FindUserByName(users, users[r.value].username) == Some(r.value))
    ensures VerifyToken(decoded).Err? ==> r == Err(CredentialsError)
    ensures VerifyToken(decoded).Ok? && FindUserByName(users, VerifyToken(decoded).value).None?
      ==> r == Err(HttpError(401, "User not found"))
    ensures VerifyToken(decoded).Ok? && FindUserByName(users, VerifyToken(decoded).value).Some?
      ==> r == Ok(FindUserByName(users, VerifyToken(decoded).value).value)
  {
    match VerifyToken(decoded)
    case Err(e) => Err(e)
    case Ok(username) =>
      match FindUserByName(users, username)
      case None => Err(HttpError(401, "User not found"))
      case Some(i) => Ok(i)
  }

  /** `get_current_active_user`: the current user, refused with 400 when inactive. */
  function CurrentActiveUser(users: seq<User>, decoded: Decoded): (r: Result<nat, HttpError>)
    ensures r.Ok? <==> CurrentUser(users, decoded).Ok? && users[CurrentUser(users, decoded).value].isActive
    ensures r.Ok? || CurrentUser(users, decoded).Err? ==> r == CurrentUser(users, decoded)
    ensures CurrentUser(users, decoded).Ok? && !users[CurrentUser(users, decoded).value].isActive
      ==> r == Err(HttpError(400, "Inactive user"))
  {
    match CurrentUser(users, decoded)
    case Err(e) => Err(e)
    case Ok(i) => if users[i].isActive then Ok(i) else Err(HttpError(400, "Inactive user"))
  }

  /** `authenticate_user`: the named user when the password verifies against
      the stored hash, nothing otherwise. */
  function AuthenticateUser(users: seq<User>, username: string, password: string,
                            verify: (string, string) -> bool): (r: Option<User>)
    ensures r.Some? <==> FindUserByName(users, username).Some?
                         && verify(password, users[FindUserByName(users, username).value].passwordHash)
    ensures r.Some? ==> r.value == users[FindUserByName(users, username).value] && r.value.username == username
  {
    match FindUserByName(users, username)
    case None => None
    case Some(i) => if verify(password, users[i].passwordHash) then Some(users[i]) else None
  }

  // ---------------------------------------------------------------------
  // Sessions.

  /** The claims of a session token; it lives 24 hours. */
  function SessionClaims(user: User, agentName: string, now: int): map<string, Value>
  {
    AccessClaims(map["sub" := Str(user.username), "user_id" := Int(user.id), "agent" := Str(agentName)],
                 now, Some(SessionSeconds))
  }

  /** The session row `create_user_session` adds. */
  function NewSession(sessions: seq<UserSession>, user: User, agentName: string, token: string, now: int): (s: UserSession)
    ensures s.userId == user.id && s.token == token && s.isActive && s.expiresAt == now + SessionSeconds
    ensures forall j :: 0 <= j < |sessions| ==> sessions[j].id != s.id
  {
    UserSession(NextSessionId(sessions), user.id, token, Some(agentName), true, now + SessionSeconds)
  }

  /** The session row and its token expire together. */
  lemma SessionTokenExpiresWithSession(sessions: seq<UserSession>, user: User, agentName: string,
                                       encode: map<string, Value> -> string, now: int)
    ensures var claims := SessionClaims(user, agentName, now);
      claims["exp"] == Int(NewSession(sessions, user, agentName, encode(claims), now).expiresAt)
      && claims["sub"] == Str(user.username)
  {
  }

  /** The first session with the token. */
  function FindSessionByToken(sessions: seq<UserSession>, token: string): (r: Option<nat>)
    ensures r.Some? ==> (r.value < |sessions| && sessions[r.value].token == token
      && forall j :: 0 <= j < r.value ==> sessions[j].token != token)
    ensures r.None? ==> forall j :: 0 <= j < |sessions| ==> sessions[j].token != token
  {
    if |sessions| == 0 then None
    else if sessions[0].token == token then Some(0)
    else match FindSessionByToken(sessions[1..], token)
      case None => None
      case Some(k) => Some(k + 1)
  }

  predicate SessionValid(s: UserSession, token: string, now: int)
  {
    s.token == token && s.isActive && s.expiresAt > now
  }

  /** `get_session_by_token`: the first session with the token that is
      active and not yet expired. */
  function ValidSession(sessions: seq<UserSession>, token: string, now: int): (r: Option<nat>)
    ensures r.Some? ==> (r.value < |sessions| && SessionValid(sessions[r.value], token, now)
      && forall j :: 0 <= j < r.value ==> !SessionValid(sessions[j], token, now))
    ensures r.None? ==> forall j :: 0 <= j < |sessions| ==> !SessionValid(sessions[j], token, now)
  {
    if |sessions| == 0 then None
    else if SessionValid(sessions[0], token, now) then Some(0)
    else match ValidSession(sessions[1..], token, now)
      case None => None
      case Some(k) => Some(k + 1)
  }

  /** The sessions after `invalidate_session`: the first one with the token
      is made inactive. */
  function Invalidated(sessions: seq<UserSession>, token: string): (r: seq<UserSession>)
    ensures |r| == |sessions|
    ensures forall j :: 0 <= j < |sessions| ==>
      r[j] == (if FindSessionByToken(sessions, token) == Some(j) then sessions[j].(isActive := false) else sessions[j])
  {
    match FindSessionByToken(sessions, token)
    case None => sessions
    case Some(i) => sessions[i := sessions[i].(isActive := false)]
  }

  /** Invalidating twice is invalidating once. */
  lemma InvalidateIdempotent(sessions: seq<UserSession>, token: string)
    ensures Invalidated(Invalidated(sessions, token), token) == Invalidated(sessions, token)
  {
    var once := Invalidated(sessions, token);
    assert forall j :: 0 <= j < |once| ==> once[j].token == sessions[j].token;
    assert FindSessionByToken(once, token) == FindSessionByToken(sessions, token) by {
      SameTokensSameLookup(sessions, once, token);
    }
  }

  lemma {:induction false} SameTokensSameLookup(a: seq<UserSession>, b: seq<UserSession>, token: string)
    requires |a| == |b| && forall j :: 0 <= j < |a| ==> a[j].token == b[j].token
    ensures FindSessionByToken(a, token) == FindSessionByToken(b, token)
  {
    if |a| > 0 {
      SameTokensSameLookup(a[1..], b[1..], token);
    }
  }

  /** With tokens unique, an invalidated token no longer opens a session. */
  lemma InvalidatedTokenIsDead(sessions: seq<UserSession>, token: string, now: int)
    requires SessionsConsistent(sessions)
    ensures ValidSession(Invalidated(sessions, token), token, now).None?
  {
    var r := Invalidated(sessions, token);
    forall j | 0 <= j < |r|
      ensures !SessionValid(r[j], token, now)
    {
      assert r[j].token == sessions[j].token;
    }
  }

  /** Invalidation touches only the status of one session and cannot break
      the table's constraints. */
  lemma InvalidateKeepsConsistent(t: Tables, token: string)
    requires Consistent(t)
    ensures Consistent(t.(sessions := Invalidated(t.sessions, token)))
  {
    var r := Invalidated(t.sessions, token);
    assert forall j :: 0 <= j < |r| ==> r[j].id == t.sessions[j].id && r[j].token == t.sessions[j].token;
  }

  /** `invalidate_session`: true exactly when a session has the token; that
      session becomes inactive and no other row changes. */
  method InvalidateSession(db: Database, token: string) returns (found: bool)
    requires Consistent(db.Snapshot())
    modifies db
    ensures found <==> FindSessionByToken(old(db.sessions), token).Some?
    ensures db.Snapshot() == old(db.Snapshot()).(sessions := Invalidated(old(db.sessions), token))
    ensures Consistent(db.Snapshot())
  {
    var t := db.Snapshot();
    InvalidateKeepsConsistent(t, token);
    match FindSessionByToken(t.sessions, token) {
      case None =>
        found := false;
      case Some(i) =>
        var _ := db.Run(Ok(t.(sessions := Invalidated(t.sessions, token))));
        found := true;
    }
  }

  /** `create_user_session`: sign a 24-hour token for the user and add its
      session row. */
  method CreateUserSession(db: Database, user: User, agentName: string, encode: map<string, Value> -> string, now: int)
    returns (outcome: Outcome, session: UserSession)
    modifies db
    ensures session == NewSession(old(db.sessions), user, agentName, encode(SessionClaims(user, agentName, now)), now)
    ensures var after := old(db.Snapshot()).(sessions := old(db.sessions) + [session]);
      db.Snapshot() == RunSession(old(db.Snapshot()), Ok(after)).state
      && outcome == RunSession(old(db.Snapshot()), Ok(after)).outcome
  {
    var token := encode(SessionClaims(user, agentName, now));
    session := NewSession(db.sessions, user, agentName, token, now);
    var t := db.Snapshot();
    outcome := db.Run(Ok(t.(sessions := t.sessions + [session])));
  }
}
