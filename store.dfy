/** The shared relational store: the rows of the agents, users, sessions,
    inter-agent messages and system events tables, the constraints the
    database enforces at commit time, and the commit-or-roll-back unit of
    work every agent runs its writes in. */
module Store {
  import opened Common

  // ---------------------------------------------------------------------
  // Rows.

  /** A row of the agents table. Every column but the name may hold SQL
      NULL (`Null`); values are stored as given. */
  datatype AgentRecord = AgentRecord(
    name: Value,
    agentType: Value,
    status: Value,
    version: Value,
    subdomain: Value,
    port: Value,
    description: Value,
    capabilities: Value,
    dependencies: Value,
    healthCheckUrl: Value,
    lastHeartbeat: Value)

  /** Column names of the agents table that the model tracks. */
  const AgentColumns: set<string> := {
    "name", "type", "status", "version", "subdomain", "port", "description",
    "capabilities", "dependencies", "health_check_url", "last_heartbeat"
  }

  /** Further attributes of an agent object that its constructor accepts as
      keywords: the surrogate key, the audit timestamps, the messages
      relationship, and the declarative base's `metadata` and `registry`. */
  const OtherAgentAttributes: set<string> := {"id", "created_at", "updated_at", "messages", "metadata", "registry"}

  /** A fresh agent object: the column defaults (status "offline", version
      "1.0.0", heartbeat now) and NULL elsewhere. */
  function NewAgent(name: Value, now: int): (a: AgentRecord)
    ensures a.name == name && a.agentType == Null
    ensures a.status == Str("offline") && a.version == Str("1.0.0") && a.lastHeartbeat == Int(now)
  {
    AgentRecord(name, Null, Str("offline"), Str("1.0.0"), Null, Null, Null, Null, Null, Null, Int(now))
  }

  /** The value of a named column. */
  function Column(a: AgentRecord, key: string): Value
    requires key in AgentColumns
  {
    match key
    case "name" => a.name
    case "type" => a.agentType
    case "status" => a.status
    case "version" => a.version
    case "subdomain" => a.subdomain
    case "port" => a.port
    case "description" => a.description
    case "capabilities" => a.capabilities
    case "dependencies" => a.dependencies
    case "health_check_url" => a.healthCheckUrl
    case _ => a.lastHeartbeat
  }

  /** `setattr(agent, key, v)` on a column: that column changes, no other. */
  function SetColumn(a: AgentRecord, key: string, v: Value): (r: AgentRecord)
    requires key in AgentColumns
    ensures forall k :: k in AgentColumns ==> Column(r, k) == (if k == key then v else Column(a, k))
  {
    match key
    case "name" => a.(name := v)
    case "type" => a.(agentType := v)
    case "status" => a.(status := v)
    case "version" => a.(version := v)
    case "subdomain" => a.(subdomain := v)
    case "port" => a.(port := v)
    case "description" => a.(description := v)
    case "capabilities" => a.(capabilities := v)
    case "dependencies" => a.(dependencies := v)
    case "health_check_url" => a.(healthCheckUrl := v)
    case _ => a.(lastHeartbeat := v)
  }

  datatype User = User(
    id: nat,
    username: string,
    email: string,
    fullName: Option<string>,
    arabicName: Option<string>,
    role: string,
    preferredLanguage: string,
    saudiId: Option<string>,
    phone: Option<string>,
    isActive: bool,
    isVerified: bool,
    passwordHash: string,
    lastLogin: Option<int>)

  datatype UserSession = UserSession(
    id: nat,
    userId: nat,
    token: string,
    agentName: Option<string>,
    isActive: bool,
    expiresAt: int)

  /** Delivery state of an inter-agent message. */
  datatype MessageStatus = Pending | Delivered | Failed

  datatype InterAgentMessage = InterAgentMessage(
    id: nat,
    fromAgent: string,
    toAgent: string,
    messageType: string,
    payload: map<string, Value>,
    priority: string,
    status: MessageStatus,
    correlationId: Option<string>)

  datatype SystemEvent = SystemEvent(
    eventType: string,
    agentName: Option<string>,
    userId: Option<nat>,
    description: string,
    metadata: Value,
    severity: string)

  /** The contents of every table. */
  datatype Tables = Tables(
    agents: seq<AgentRecord>,
    users: seq<User>,
    sessions: seq<UserSession>,
    messages: seq<InterAgentMessage>,
    events: seq<SystemEvent>)

  // ---------------------------------------------------------------------
  // Queries.

  /** `query(Agent).filter(Agent.name == name).first()`: the first row with that name. */
  function FindAgent(agents: seq<AgentRecord>, name: string): (r: Option<nat>)
    ensures r.Some? ==> (r.value < |agents| && agents[r.value].name == Str(name)
      && forall j :: 0 <= j < r.value ==> agents[j].name != Str(name))
    ensures r.None? ==> forall j :: 0 <= j < |agents| ==> agents[j].name != Str(name)
  {
    if |agents| == 0 then None
    else if agents[0].name == Str(name) then Some(0)
    else match FindAgent(agents[1..], name)
      case None => None
      case Some(k) => Some(k + 1)
  }

  function FindUserByName(users: seq<User>, username: string): (r: Option<nat>)
    ensures r.Some? ==> (r.value < |users| && users[r.value].username == username
      && forall j :: 0 <= j < r.value ==> users[j].username != username)
    ensures r.None? ==> forall j :: 0 <= j < |users| ==> users[j].username != username
  {
    if |users| == 0 then None
    else if users[0].username == username then Some(0)
    else match FindUserByName(users[1..], username)
      case None => None
      case Some(k) => Some(k + 1)
  }

  /** First message carrying the given correlation id. */
  function FindMessage(messages: seq<InterAgentMessage>, correlationId: string): (r: Option<nat>)
    ensures r.Some? ==> (r.value < |messages| && messages[r.value].correlationId == Some(correlationId)
      && forall j :: 0 <= j < r.value ==> messages[j].correlationId != Some(correlationId))
    ensures r.None? ==> forall j :: 0 <= j < |messages| ==> messages[j].correlationId != Some(correlationId)
  {
    if |messages| == 0 then None
    else if messages[0].correlationId == Some(correlationId) then Some(0)
    else match FindMessage(messages[1..], correlationId)
      case None => None
      case Some(k) => Some(k + 1)
  }

  /** Next value of an autoincrement key: one more than the largest in use. */
  function NextUserId(users: seq<User>): (id: nat)
    ensures id > 0
    ensures forall j :: 0 <= j < |users| ==> users[j].id < id
  {
    if |users| == 0 then 1
    else
      var rest := NextUserId(users[1..]);
      assert forall j :: 1 <= j < |users| ==> users[j] == users[1..][j - 1];
      if users[0].id + 1 > rest then users[0].id + 1 else rest
  }

  function NextSessionId(sessions: seq<UserSession>): (id: nat)
    ensures id > 0
    ensures forall j :: 0 <= j < |sessions| ==> sessions[j].id < id
  {
    if |sessions| == 0 then 1
    else
      var rest := NextSessionId(sessions[1..]);
      assert forall j :: 1 <= j < |sessions| ==> sessions[j] == sessions[1..][j - 1];
      if sessions[0].id + 1 > rest then sessions[0].id + 1 else rest
  }

  // ---------------------------------------------------------------------
  // Constraints checked at commit: NOT NULL and UNIQUE columns.

  predicate AgentsConsistent(agents: seq<AgentRecord>)
  {
    (forall i :: 0 <= i < |agents| ==> agents[i].name != Null && agents[i].agentType != Null)
    && (forall i, j :: 0 <= i < j < |agents| ==>
          agents[i].name != agents[j].name
          && (agents[i].subdomain != Null ==> agents[i].subdomain != agents[j].subdomain)
          && (agents[i].port != Null ==> agents[i].port != agents[j].port))
  }

  predicate UsersConsistent(users: seq<User>)
  {
    forall i, j :: 0 <= i < j < |users| ==>
      users[i].id != users[j].id
      && users[i].username != users[j].username
      && users[i].email != users[j].email
      && (users[i].saudiId.Some? ==> users[i].saudiId != users[j].saudiId)
  }

  predicate SessionsConsistent(sessions: seq<UserSession>)
  {
    forall i, j :: 0 <= i < j < |sessions| ==>
      sessions[i].id != sessions[j].id && sessions[i].token != sessions[j].token
  }

  predicate Consistent(t: Tables)
  {
    AgentsConsistent(t.agents) && UsersConsistent(t.users) && SessionsConsistent(t.sessions)
  }

  // ---------------------------------------------------------------------
  // Unit of work.

  datatype Outcome = Committed | RolledBack(error: string)

  datatype SessionResult = SessionResult(state: Tables, outcome: Outcome)

  const IntegrityViolation: string := "integrity constraint violated"

  /** `db.commit()`: the pending changes become the new state when they
      satisfy the constraints; otherwise the commit raises and nothing changes. */
  function Commit(before: Tables, after: Tables): (r: SessionResult)
    ensures r.outcome.Committed? <==> Consistent(after)
    ensures r.outcome.Committed? ==> r.state == after
    ensures r.outcome.RolledBack? ==> r.state == before && r.outcome.error == IntegrityViolation
  {
    if Consistent(after) then SessionResult(after, Committed) else SessionResult(before, RolledBack(IntegrityViolation))
  }

  /** `with get_db_session() as db: body`. The body's writes are committed
      when it completes; when it raises, they are rolled back and the error
      is raised again. */
  function RunSession(before: Tables, body: Result<Tables, string>): (r: SessionResult)
    ensures r.outcome.Committed? <==> body.Ok? && Consistent(body.value)
    ensures r.outcome.Committed? ==> r.state == body.value
    ensures r.outcome.RolledBack? ==> r.state == before
    ensures body.Err? ==> r.outcome == RolledBack(body.error)
  {
    match body
    case Err(e) => SessionResult(before, RolledBack(e))
    case Ok(after) => Commit(before, after)
  }

  /** A unit of work never leaves the store violating its constraints. */
  lemma RunSessionKeepsConsistent(before: Tables, body: Result<Tables, string>)
    requires Consistent(before)
    ensures Consistent(RunSession(before, body).state)
  {
  }

  /** The connection to the database: one field per table. */
  class Database {
    var agents: seq<AgentRecord>
    var users: seq<User>
    var sessions: seq<UserSession>
    var messages: seq<InterAgentMessage>
    var events: seq<SystemEvent>

    /** An empty, freshly created schema. */
    constructor ()
      ensures Snapshot() == Tables([], [], [], [], [])
    {
      agents, users, sessions, messages, events := [], [], [], [], [];
    }

    function Snapshot(): Tables
      reads this
    {
      Tables(agents, users, sessions, messages, events)
    }

    /** Runs a unit of work whose body produced `body`, and reports how it ended. */
    method Run(body: Result<Tables, string>) returns (outcome: Outcome)
      modifies this
      ensures Snapshot() == RunSession(old(Snapshot()), body).state
      ensures outcome == RunSession(old(Snapshot()), body).outcome
    {
      var r := RunSession(Snapshot(), body);
      agents, users, sessions, messages, events := r.state.agents, r.state.users, r.state.sessions, r.state.messages, r.state.events;
      outcome := r.outcome;
    }
  }
}
