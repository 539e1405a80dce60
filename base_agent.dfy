/** Behaviour every LINC agent inherits: registering itself in the agents
    table, keeping its status and heartbeat current, recording and sending
    direct messages to other agents, and answering `/health`. */
module BaseAgent {
  import opened Common
  import opened Store

  /** The arguments an agent passes to the base constructor. */
  datatype AgentConfig = AgentConfig(
    name: string,
    version: string,
    description: string,
    port: int,
    dependencies: seq<string>)

  const MasterLincConfig: AgentConfig :=
    AgentConfig("masterlinc", "1.0.0", "Central orchestration hub governing all LINC agents", 8000, [])

  const AuthLincConfig: AgentConfig :=
    AgentConfig("authlinc", "1.0.0", "Identity & Security Gateway for unified authentication", 8001, ["masterlinc"])

  const DoctorLincConfig: AgentConfig :=
    AgentConfig("doctorlinc", "1.0.0", "Physician assistant for clinical decision support and documentation",
                8010, ["authlinc", "oidlinc"])

  /** `f"http://localhost:{port}/health"`. */
  function HealthUrl(port: int): string
  {
    "http://localhost:" + IntString(port) + "/health"
  }

  // ---------------------------------------------------------------------
  // Agent registry.

  /** `_register_agent`: refresh the agent's own row, or create it. */
  function Register(agents: seq<AgentRecord>, cfg: AgentConfig, now: int): seq<AgentRecord>
  {
    match FindAgent(agents, cfg.name)
    case Some(i) =>
      agents[i := agents[i].(
        status := Str("online"),
        version := Str(cfg.version),
        description := Str(cfg.description),
        port := Int(cfg.port),
        lastHeartbeat := Int(now),
        healthCheckUrl := Str(HealthUrl(cfg.port)))]
    case None =>
      agents + [NewAgent(Str(cfg.name), now).(
        agentType := Str("custom"),
        status := Str("online"),
        version := Str(cfg.version),
        port := Int(cfg.port),
        description := Str(cfg.description),
        healthCheckUrl := Str(HealthUrl(cfg.port)))]
  }

  /** Re-registering refreshes status, heartbeat, version, description, port
      and health URL of the existing row and leaves its type, capabilities,
      dependencies and every other row as they were. */
  lemma RegisterExisting(agents: seq<AgentRecord>, cfg: AgentConfig, now: int, i: nat)
    requires FindAgent(agents, cfg.name) == Some(i)
    ensures var r := Register(agents, cfg, now);
      |r| == |agents|
      && r[i].name == agents[i].name
      && r[i].status == Str("online") && r[i].lastHeartbeat == Int(now)
      && r[i].version == Str(cfg.version) && r[i].description == Str(cfg.description)
      && r[i].port == Int(cfg.port) && r[i].healthCheckUrl == Str(HealthUrl(cfg.port))
      && r[i].agentType == agents[i].agentType
      && r[i].capabilities == agents[i].capabilities
      && r[i].dependencies == agents[i].dependencies
      && r[i].subdomain == agents[i].subdomain
      && forall j :: 0 <= j < |agents| && j != i ==> r[j] == agents[j]
  {
  }

  /** Registering an unknown name appends exactly one `custom` row. */
  lemma RegisterNew(agents: seq<AgentRecord>, cfg: AgentConfig, now: int)
    requires FindAgent(agents, cfg.name).None?
    ensures var r := Register(agents, cfg, now);
      |r| == |agents| + 1 && r[..|agents|] == agents
      && r[|agents|].name == Str(cfg.name)
      && r[|agents|].agentType == Str("custom")
      && r[|agents|].status == Str("online")
      && r[|agents|].port == Int(cfg.port)
      && r[|agents|].healthCheckUrl == Str(HealthUrl(cfg.port))
  {
  }

  /** After registering, a lookup by the agent's name finds an online row. */
  lemma {:induction false} RegisteredAgentIsOnline(agents: seq<AgentRecord>, cfg: AgentConfig, now: int)
    ensures var r := Register(agents, cfg, now);
      FindAgent(r, cfg.name).Some? && r[FindAgent(r, cfg.name).value].status == Str("online")
  {
    var r := Register(agents, cfg, now);
    match FindAgent(agents, cfg.name)
    case Some(i) =>
      FindAgentAfterUpdate(agents, cfg.name, i, r[i]);
    case None =>
      FindAgentAfterAppend(agents, cfg.name, r[|agents|]);
  }

  /** Replacing the first match by a row of the same name keeps the lookup. */
  lemma {:induction false} FindAgentAfterUpdate(agents: seq<AgentRecord>, name: string, i: nat, row: AgentRecord)
    requires FindAgent(agents, name) == Some(i)
    requires row.name == Str(name)
    ensures FindAgent(agents[i := row], name) == Some(i)
  {
    if i > 0 {
      assert agents[i := row][1..] == agents[1..][i - 1 := row];
      FindAgentAfterUpdate(agents[1..], name, i - 1, row);
    }
  }

  /** Appending a row for a name that was absent makes it the first match. */
  lemma {:induction false} FindAgentAfterAppend(agents: seq<AgentRecord>, name: string, row: AgentRecord)
    requires FindAgent(agents, name).None?
    requires row.name == Str(name)
    ensures FindAgent(agents + [row], name) == Some(|agents|)
  {
    if |agents| > 0 {
      assert (agents + [row])[1..] == agents[1..] + [row];
      FindAgentAfterAppend(agents[1..], name, row);
    }
  }

  /** `_update_agent_status`: status and heartbeat of the agent's own row. */
  function UpdateStatus(agents: seq<AgentRecord>, name: string, status: string, now: int): seq<AgentRecord>
  {
    match FindAgent(agents, name)
    case Some(i) => agents[i := agents[i].(status := Str(status), lastHeartbeat := Int(now))]
    case None => agents
  }

  /** An unknown name is a no-op; a known one changes only that row's status
      and heartbeat. */
  lemma UpdateStatusEffect(agents: seq<AgentRecord>, name: string, status: string, now: int)
    ensures var r := UpdateStatus(agents, name, status, now);
      |r| == |agents|
      && (FindAgent(agents, name).None? ==> r == agents)
      && (FindAgent(agents, name).Some? ==>
            var i := FindAgent(agents, name).value;
            r[i] == agents[i].(status := Str(status), lastHeartbeat := Int(now))
            && forall j :: 0 <= j < |agents| && j != i ==> r[j] == agents[j])
  {
  }

  /** A status update cannot break the table's constraints, so its commit
      always succeeds. */
  lemma UpdateStatusKeepsConsistent(agents: seq<AgentRecord>, name: string, status: string, now: int)
    requires AgentsConsistent(agents)
    ensures AgentsConsistent(UpdateStatus(agents, name, status, now))
  {
    var r := UpdateStatus(agents, name, status, now);
    assert forall j :: 0 <= j < |r| ==>
      (r[j].name == agents[j].name && r[j].agentType == agents[j].agentType
       && r[j].subdomain == agents[j].subdomain && r[j].port == agents[j].port);
  }

  // ---------------------------------------------------------------------
  // Direct messages.

  /** Body of `POST /messages/send`. */
  datatype AgentMessage = AgentMessage(
    toAgent: string,
    messageType: string,
    payload: map<string, Value>,
    priority: string,
    correlationId: Option<string>)

  /** Python truthiness of an optional string. */
  predicate Truthy(s: Option<string>)
  {
    s.Some? && s.value != ""
  }

  /** `message.correlation_id or str(uuid.uuid4())`. */
  function RecordCorrelationId(m: AgentMessage, freshId: string): string
  {
    if Truthy(m.correlationId) then m.correlationId.value else freshId
  }

  /** The arguments the background sender is scheduled with. */
  datatype DirectSend = DirectSend(
    toAgent: string,
    messageType: string,
    payload: map<string, Value>,
    correlationId: Option<string>)

  datatype SendReceipt = SendReceipt(status: string, correlationId: string)

  /** The record `send_message` persists. */
  function MessageRecord(self: string, id: nat, m: AgentMessage, freshId: string): (r: InterAgentMessage)
    ensures r.fromAgent == self && r.toAgent == m.toAgent && r.status == Pending
    ensures r.correlationId == Some(if Truthy(m.correlationId) then m.correlationId.value else freshId)
  {
    InterAgentMessage(id, self, m.toAgent, m.messageType, m.payload, m.priority, Pending,
                      Some(RecordCorrelationId(m, freshId)))
  }

  /** The task scheduled by `send_message`: it carries the caller's
      correlation id, not the one stored in the record. */
  function ScheduledSend(m: AgentMessage): DirectSend
  {
    DirectSend(m.toAgent, m.messageType, m.payload, m.correlationId)
  }

  /** Outcome of `_send_agent_message`. */
  datatype DirectResult =
    | TargetNotFound
    | TargetNotOnline
    | Replied(body: Value)
    | PostFailed(error: string)
  {
    predicate Posted() { Replied? || PostFailed? }
  }

  /** The decision part of `_send_agent_message`: the target must be known and
      online before the POST is issued; a 200 with a JSON body is the reply. */
  function DirectOutcome(agents: seq<AgentRecord>, to: string, post: HttpOutcome): (r: DirectResult)
    ensures FindAgent(agents, to).None? ==> r == TargetNotFound
    ensures FindAgent(agents, to).Some? && agents[FindAgent(agents, to).value].status != Str("online")
      ==> r == TargetNotOnline
    ensures r.Posted() ==> FindAgent(agents, to).Some? && agents[FindAgent(agents, to).value].status == Str("online")
    ensures r.Replied? <==> r.Posted() && post.Responded? && post.status == 200 && post.body.Some?
  {
    match FindAgent(agents, to)
    case None => TargetNotFound
    case Some(i) =>
      if agents[i].status != Str("online") then TargetNotOnline
      else match post
        case Unreachable(e) => PostFailed(e)
        case Responded(code, body) =>
          if code == 200 && body.Some? then Replied(body.value)
          else if code == 200 then PostFailed("response is not JSON")
          else PostFailed("HTTP " + IntString(code))
  }

  /** The failure handler: when a correlation id was passed, the first stored
      message with that id becomes `failed`. */
  function MarkFailed(messages: seq<InterAgentMessage>, correlationId: Option<string>): seq<InterAgentMessage>
  {
    if !Truthy(correlationId) then messages
    else match FindMessage(messages, correlationId.value)
      case None => messages
      case Some(i) => messages[i := messages[i].(status := Failed)]
  }

  /** The message table after one direct send. */
  function AfterDirectSend(messages: seq<InterAgentMessage>, r: DirectResult, correlationId: Option<string>): seq<InterAgentMessage>
  {
    if r.Replied? then messages else MarkFailed(messages, correlationId)
  }

  /** No message is ever marked delivered. */
  ghost predicate NoneDelivered(messages: seq<InterAgentMessage>)
  {
    forall j :: 0 <= j < |messages| ==> messages[j].status != Delivered
  }

  /** Marking a failure sets the first message carrying the caller's id to
      `failed`, changes nothing else, and never marks anything `delivered`. */
  lemma MarkFailedEffect(messages: seq<InterAgentMessage>, correlationId: Option<string>)
    ensures var r := MarkFailed(messages, correlationId);
      |r| == |messages|
      && (forall j :: 0 <= j < |messages| && r[j] != messages[j] ==>
            Truthy(correlationId) && FindMessage(messages, correlationId.value) == Some(j)
            && r[j] == messages[j].(status := Failed))
      && (Truthy(correlationId) && FindMessage(messages, correlationId.value).Some? ==>
            var i := FindMessage(messages, correlationId.value).value;
            i < |messages| && r[i] == messages[i].(status := Failed))
      && (NoneDelivered(messages) ==> NoneDelivered(r))
  {
  }

  /** A send without a caller-supplied correlation id that then fails leaves
      its own record `pending`: the scheduled task has no id to look it up by. */
  lemma UncorrelatedFailureStaysPending(messages: seq<InterAgentMessage>, self: string, id: nat,
                                        m: AgentMessage, freshId: string, r: DirectResult)
    requires !Truthy(m.correlationId)
    ensures var stored := messages + [MessageRecord(self, id, m, freshId)];
      var after := AfterDirectSend(stored, r, ScheduledSend(m).correlationId);
      after == stored && after[|messages|].status == Pending
      && after[|messages|].correlationId == Some(freshId)
  {
  }

  /** `/health`'s response. */
  datatype HealthResponse = HealthResponse(
    status: string,
    agent: string,
    version: string,
    uptime: int,
    dependencies: seq<string>,
    timestamp: int)

  /** A running agent: its constructor configuration, start time and the
      store it registers in. */
  class LincAgent {
    const config: AgentConfig
    const startTime: int
    const db: Database

    constructor (config: AgentConfig, startTime: int, db: Database)
      ensures this.config == config && this.startTime == startTime && this.db == db
    {
      this.config := config;
      this.startTime := startTime;
      this.db := db;
    }

    /** `GET /health`: always healthy, under the agent's own name. */
    function Health(now: int): (r: HealthResponse)
      ensures r.status == "healthy" && r.agent == config.name && r.version == config.version
      ensures r.dependencies == config.dependencies && r.uptime == now - startTime
    {
      HealthResponse("healthy", config.name, config.version, now - startTime, config.dependencies, now)
    }

    /** Startup registration; a failed commit is logged and leaves the store unchanged. */
    method RegisterAgent(now: int) returns (outcome: Outcome)
      modifies db
      ensures var t := old(db.Snapshot());
        db.Snapshot() == RunSession(t, Ok(t.(agents := Register(t.agents, config, now)))).state
        && outcome == RunSession(t, Ok(t.(agents := Register(t.agents, config, now)))).outcome
    {
      var t := db.Snapshot();
      outcome := db.Run(Ok(t.(agents := Register(t.agents, config, now))));
    }

    method UpdateAgentStatus(status: string, now: int)
      requires Consistent(db.Snapshot())
      modifies db
      ensures db.Snapshot() == old(db.Snapshot()).(agents := UpdateStatus(old(db.agents), config.name, status, now))
    {
      var t := db.Snapshot();
      UpdateStatusKeepsConsistent(t.agents, config.name, status, now);
      var outcome := db.Run(Ok(t.(agents := UpdateStatus(t.agents, config.name, status, now))));
    }

    /** The shutdown hook marks the agent offline. */
    method Shutdown(now: int)
      requires Consistent(db.Snapshot())
      modifies db
      ensures db.Snapshot() == old(db.Snapshot()).(agents := UpdateStatus(old(db.agents), config.name, "offline", now))
    {
      UpdateAgentStatus("offline", now);
    }

    /** One iteration of the heartbeat loop marks the agent online. */
    method HeartbeatTick(now: int)
      requires Consistent(db.Snapshot())
      modifies db
      ensures db.Snapshot() == old(db.Snapshot()).(agents := UpdateStatus(old(db.agents), config.name, "online", now))
    {
      UpdateAgentStatus("online", now);
    }

    /** `POST /messages/send`: persist the record, schedule the direct send,
        answer with the stored correlation id. */
    method SendMessage(m: AgentMessage, freshId: string) returns (receipt: SendReceipt, task: DirectSend)
      requires Consistent(db.Snapshot())
      modifies db
      ensures var t := old(db.Snapshot());
        db.Snapshot() == t.(messages := t.messages + [MessageRecord(config.name, |t.messages| + 1, m, freshId)])
      ensures receipt == SendReceipt("sent", RecordCorrelationId(m, freshId))
      ensures task == ScheduledSend(m)
    {
      var t := db.Snapshot();
      var record := MessageRecord(config.name, |t.messages| + 1, m, freshId);
      var outcome := db.Run(Ok(t.(messages := t.messages + [record])));
      receipt := SendReceipt("sent", record.correlationId.value);
      task := ScheduledSend(m);
    }

    /** `_send_agent_message` with the POST's outcome supplied. */
    method SendAgentMessage(task: DirectSend, post: HttpOutcome) returns (r: DirectResult)
      requires Consistent(db.Snapshot())
      modifies db
      ensures r == DirectOutcome(old(db.agents), task.toAgent, post)
      ensures db.Snapshot() == old(db.Snapshot()).(messages := AfterDirectSend(old(db.messages), r, task.correlationId))
    {
      r := DirectOutcome(db.agents, task.toAgent, post);
      if !r.Replied? {
        var t := db.Snapshot();
        var outcome := db.Run(Ok(t.(messages := MarkFailed(t.messages, task.correlationId))));
      }
    }
  }
}
