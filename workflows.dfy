/** The orchestration hub's own state: the table of active workflows, which
    starting a workflow and the agents' completion and error reports drive,
    and the registration of agents that announce themselves by message. */
module Workflows {
  import opened Common
  import opened Store
  import opened BaseAgent
  import opened WorkflowRouter
  import opened Messaging

  // ---------------------------------------------------------------------
  // Workflow table.

  datatype WorkflowStatus = Executing | Completed | Error

  /** An entry of `active_workflows`: the routing result it was started
      with, plus what execution and the agents' reports added. */
  datatype Workflow = Workflow(
    plan: RoutingResult,
    status: WorkflowStatus,
    userId: int,
    startedAt: int,
    completedAt: Option<int>,
    error: Option<Value>)

  /** The payload sent to the primary agent. The routing result has no
      `context` entry, so the context sent is always empty. */
  function StartPayload(workflowId: string, userId: int): (p: map<string, Value>)
    ensures p.Keys == {"workflow_id", "user_id", "request_type", "context"}
    ensures p["workflow_id"] == Str(workflowId) && p["user_id"] == Int(userId)
    ensures p["request_type"] == Str("workflow_start")
    ensures p["context"] == Object(map[])
  {
    map["workflow_id" := Str(workflowId), "user_id" := Int(userId),
        "request_type" := Str("workflow_start"), "context" := Object(map[])]
  }

  /** `_execute_workflow` on the table: the entry is stored as executing;
      when the send raises `fault`, it is marked as failed with the
      exception's text. */
  function AfterExecute(wfs: map<string, Workflow>, id: string, data: RoutingResult, userId: int, now: int,
                        fault: Option<string>): (r: map<string, Workflow>)
    ensures r.Keys == wfs.Keys + {id}
    ensures forall w :: w in wfs && w != id ==> r[w] == wfs[w]
    ensures r[id].plan == data && r[id].userId == userId && r[id].startedAt == now
    ensures r[id].status == (if fault.None? then Executing else Error)
    ensures r[id].error == (if fault.None? then None else Some(Str(fault.value)))
  {
    var entry := Workflow(data, Executing, userId, now, None, None);
    match fault
    case None => wfs[id := entry]
    case Some(e) => wfs[id := entry.(status := Error, error := Some(Str(e)))]
  }

  /** Whether a value can be looked up in a dictionary: lists and objects
      cannot, and looking one up raises. */
  predicate Hashable(v: Value)
  {
    !v.List? && !v.Object?
  }

  const UnhashableError: string := "unhashable type"

  /** The table after a message of `messageType` from an agent: a completion
      or error report for a known workflow sets its status, whatever it
      was before; anything else leaves the table alone. Looking up an
      unhashable workflow id raises. */
  function AfterAgentMessage(wfs: map<string, Workflow>, messageType: string, payload: map<string, Value>,
                             now: int): (r: Result<map<string, Workflow>, string>)
    ensures r.Err? <==> (messageType in {"workflow_complete", "workflow_error"}
                         && !Hashable(GetOrNull(payload, "workflow_id")))
    ensures r.Err? ==> r.error == UnhashableError
    ensures r.Ok? ==> r.value.Keys == wfs.Keys
    ensures r.Ok? ==> forall w :: w in wfs && GetOrNull(payload, "workflow_id") != Str(w) ==> r.value[w] == wfs[w]
    ensures r.Ok? && messageType !in {"workflow_complete", "workflow_error"} ==> r.value == wfs
    ensures (messageType == "workflow_complete" && GetOrNull(payload, "workflow_id").Str?
             && GetOrNull(payload, "workflow_id").s in wfs) ==>
      var w := GetOrNull(payload, "workflow_id").s;
      r == Ok(wfs[w := wfs[w].(status := Completed, completedAt := Some(now))])
    ensures (messageType == "workflow_error" && GetOrNull(payload, "workflow_id").Str?
             && GetOrNull(payload, "workflow_id").s in wfs) ==>
      var w := GetOrNull(payload, "workflow_id").s;
      r == Ok(wfs[w := wfs[w].(status := Error, error := Some(GetOrNull(payload, "error")))])
  {
    if messageType != "workflow_complete" && messageType != "workflow_error" then Ok(wfs)
    else
      var v := GetOrNull(payload, "workflow_id");
      if !Hashable(v) then Err(UnhashableError)
      else if v.Str? && v.s in wfs then
        if messageType == "workflow_complete" then Ok(wfs[v.s := wfs[v.s].(status := Completed, completedAt := Some(now))])
        else Ok(wfs[v.s := wfs[v.s].(status := Error, error := Some(GetOrNull(payload, "error")))])
      else Ok(wfs)
  }

  /** Terminal states are not guarded: an error report after completion
      turns a completed workflow into a failed one. */
  lemma CompletedCanBecomeError(wfs: map<string, Workflow>, id: string, t1: int, t2: int, reason: Value)
    requires id in wfs
    ensures var p1 := map["workflow_id" := Str(id)];
      var p2 := map["workflow_id" := Str(id), "error" := reason];
      var done := AfterAgentMessage(wfs, "workflow_complete", p1, t1);
      done.Ok? && done.value[id].status == Completed
      && AfterAgentMessage(done.value, "workflow_error", p2, t2).Ok?
      && AfterAgentMessage(done.value, "workflow_error", p2, t2).value[id].status == Error
  {
    var p1 := map["workflow_id" := Str(id)];
    var p2 := map["workflow_id" := Str(id), "error" := reason];
    assert GetOrNull(p1, "workflow_id") == Str(id);
    assert GetOrNull(p2, "workflow_id") == Str(id);
  }

  /** A report naming a workflow the hub does not know changes nothing. */
  lemma UnknownWorkflowIgnored(wfs: map<string, Workflow>, messageType: string, payload: map<string, Value>, now: int)
    requires GetOrNull(payload, "workflow_id").Str? && GetOrNull(payload, "workflow_id").s !in wfs
    ensures AfterAgentMessage(wfs, messageType, payload, now) == Ok(wfs)
  {
    var r := AfterAgentMessage(wfs, messageType, payload, now);
    assert r.Ok?;
    assert forall w :: w in wfs ==> GetOrNull(payload, "workflow_id") != Str(w);
    assert r.value.Keys == wfs.Keys;
  }

  // ---------------------------------------------------------------------
  // Registration by message.

  /** `setattr` for every key the row has a column for; other keys are skipped. */
  function ApplyData(a: AgentRecord, data: map<string, Value>): AgentRecord
  {
    AgentRecord(
      if "name" in data then data["name"] else a.name,
      if "type" in data then data["type"] else a.agentType,
      if "status" in data then data["status"] else a.status,
      if "version" in data then data["version"] else a.version,
      if "subdomain" in data then data["subdomain"] else a.subdomain,
      if "port" in data then data["port"] else a.port,
      if "description" in data then data["description"] else a.description,
      if "capabilities" in data then data["capabilities"] else a.capabilities,
      if "dependencies" in data then data["dependencies"] else a.dependencies,
      if "health_check_url" in data then data["health_check_url"] else a.healthCheckUrl,
      if "last_heartbeat" in data then data["last_heartbeat"] else a.lastHeartbeat)
  }

  /** The columns the data names take its values; the others keep theirs. */
  lemma ApplyDataColumns(a: AgentRecord, data: map<string, Value>)
    ensures forall k :: k in AgentColumns ==>
      Column(ApplyData(a, data), k) == (if k in data then data[k] else Column(a, k))
  {
    forall k | k in AgentColumns
      ensures Column(ApplyData(a, data), k) == (if k in data then data[k] else Column(a, k))
    {
      if k == "name" {
      } else if k == "type" {
      } else if k == "status" {
      } else if k == "version" {
      } else if k == "subdomain" {
      } else if k == "port" {
      } else if k == "description" {
      } else if k == "capabilities" {
      } else if k == "dependencies" {
      } else if k == "health_check_url" {
      } else if k == "last_heartbeat" {
      }
    }
  }

  /** Two rows that agree on every column are the same row. */
  lemma ColumnsDetermineRecord(a: AgentRecord, b: AgentRecord)
    requires forall k :: k in AgentColumns ==> Column(a, k) == Column(b, k)
    ensures a == b
  {
    assert Column(a, "name") == Column(b, "name");
    assert Column(a, "type") == Column(b, "type");
    assert Column(a, "status") == Column(b, "status");
    assert Column(a, "version") == Column(b, "version");
    assert Column(a, "subdomain") == Column(b, "subdomain");
    assert Column(a, "port") == Column(b, "port");
    assert Column(a, "description") == Column(b, "description");
    assert Column(a, "capabilities") == Column(b, "capabilities");
    assert Column(a, "dependencies") == Column(b, "dependencies");
    assert Column(a, "health_check_url") == Column(b, "health_check_url");
    assert Column(a, "last_heartbeat") == Column(b, "last_heartbeat");
  }

  const DuplicateNameError: string := "Agent() got multiple values for keyword argument 'name'"
  const InvalidKeywordError: string := "invalid keyword argument for Agent"

  /** The body of `_handle_agent_registration`'s unit of work: update the
      named row in place, or construct a new row from the name and the data.
      The constructor refuses a second `name` and keys the record does not
      have. */
  function RegistrationBody(t: Tables, name: string, data: map<string, Value>, now: int): Result<Tables, string>
  {
    match FindAgent(t.agents, name)
    case Some(i) => Ok(t.(agents := t.agents[i := ApplyData(t.agents[i], data)]))
    case None =>
      if "name" in data then Err(DuplicateNameError)
      else if !(data.Keys <= AgentColumns + OtherAgentAttributes) then Err(InvalidKeywordError)
      else Ok(t.(agents := t.agents + [ApplyData(NewAgent(Str(name), now), data)]))
  }

  /** Updating a known agent overwrites exactly the columns the data names
      and touches no other row and no other table. */
  lemma RegistrationUpdatesKnownAgent(t: Tables, name: string, data: map<string, Value>, now: int, i: nat)
    requires FindAgent(t.agents, name) == Some(i)
    ensures RegistrationBody(t, name, data, now).Ok?
    ensures var after := RegistrationBody(t, name, data, now).value;
      after.users == t.users && after.sessions == t.sessions && after.messages == t.messages && after.events == t.events
      && |after.agents| == |t.agents|
      && (forall j :: 0 <= j < |t.agents| && j != i ==> after.agents[j] == t.agents[j])
      && (forall k :: k in AgentColumns ==> Column(after.agents[i], k) == (if k in data then data[k] else Column(t.agents[i], k)))
  {
    ApplyDataColumns(t.agents[i], data);
  }

  /** A new name with acceptable data appends one row carrying that name,
      the data's columns, and the column defaults elsewhere. */
  lemma RegistrationCreatesAgent(t: Tables, name: string, data: map<string, Value>, now: int)
    requires FindAgent(t.agents, name).None?
    requires "name" !in data && data.Keys <= AgentColumns + OtherAgentAttributes
    ensures RegistrationBody(t, name, data, now).Ok?
    ensures var after := RegistrationBody(t, name, data, now).value;
      after.agents[..|t.agents|] == t.agents && |after.agents| == |t.agents| + 1
      && after.agents[|t.agents|].name == Str(name)
      && after.agents[|t.agents|].status == (if "status" in data then data["status"] else Str("offline"))
      && after.agents[|t.agents|].agentType == (if "type" in data then data["type"] else Null)
  {
  }

  /** A new name with unusable data raises before anything is added. */
  lemma RegistrationRejectsBadData(t: Tables, name: string, data: map<string, Value>, now: int)
    requires FindAgent(t.agents, name).None?
    requires "name" in data || exists k :: k in data && k !in AgentColumns && k !in OtherAgentAttributes
    ensures RegistrationBody(t, name, data, now).Err?
    ensures RunSession(t, RegistrationBody(t, name, data, now)).state == t
  {
  }

  const Acknowledged: map<string, Value> := map["status" := Str("acknowledged")]

  /** The orchestration hub. */
  class MasterLinc {
    const agent: LincAgent
    const messenger: AgentMessenger
    const db: Database
    var activeWorkflows: map<string, Workflow>

    constructor (startTime: int, db: Database, brokerId: int)
      ensures agent.config == MasterLincConfig && agent.db == db && this.db == db
      ensures messenger.agentName == MasterLincConfig.name && fresh(messenger) && fresh(messenger.broker)
      ensures activeWorkflows == map[]
    {
      agent := new LincAgent(MasterLincConfig, startTime, db);
      messenger := new AgentMessenger(MasterLincConfig.name, brokerId);
      this.db := db;
      activeWorkflows := map[];
    }

    /** `GET /workflow/{id}`. */
    function WorkflowStatusOf(id: string): (r: Result<Workflow, HttpError>)
      reads this
      ensures r.Ok? <==> id in activeWorkflows
      ensures r.Ok? ==> r.value == activeWorkflows[id]
      ensures r.Err? ==> r.error == HttpError(404, "Workflow not found")
    {
      if id in activeWorkflows then Ok(activeWorkflows[id]) else Err(HttpError(404, "Workflow not found"))
    }

    /** Stores the workflow and sends the start request to its primary
      agent. The messenger swallows every publishing failure, so no fault
      reaches the handler and the entry stays executing. */
    method ExecuteWorkflow(id: string, data: RoutingResult, userId: int, now: int, stamp: string, reachable: bool)
      modifies this, messenger.broker
      ensures activeWorkflows == AfterExecute(old(activeWorkflows), id, data, userId, now, None)
      ensures messenger.broker.published == old(messenger.broker.published)
        + (if reachable
           then [Publication(DirectChannel(data.primaryAgent),
                             Decorate(DirectMessage(messenger.agentName, data.primaryAgent, "workflow_request",
                                                    StartPayload(id, userId)), stamp, messenger.broker.brokerId))]
           else [])
      ensures messenger.broker.subscribers == old(messenger.broker.subscribers)
    {
      activeWorkflows := activeWorkflows[id := Workflow(data, Executing, userId, now, None, None)];
      messenger.SendToAgent(data.primaryAgent, "workflow_request", StartPayload(id, userId), stamp, reachable);
    }

    /** `_handle_agent_message`: reports update the workflow table,
      registrations go to the agents table, and every message that does
      not raise is acknowledged. */
    method HandleAgentMessage(from: string, messageType: string, payload: map<string, Value>, now: int)
      returns (r: Result<map<string, Value>, string>)
      modifies this, db
      ensures r.Ok? <==> AfterAgentMessage(old(activeWorkflows), messageType, payload, now).Ok?
      ensures r.Ok? ==> r.value == Acknowledged && activeWorkflows == AfterAgentMessage(old(activeWorkflows), messageType, payload, now).value
      ensures r.Err? ==> activeWorkflows == old(activeWorkflows)
      ensures db.Snapshot() == (if messageType == "agent_registration"
                                then RunSession(old(db.Snapshot()), RegistrationBody(old(db.Snapshot()), from, payload, now)).state
                                else old(db.Snapshot()))
    {
      var next := AfterAgentMessage(activeWorkflows, messageType, payload, now);
      if next.Err? {
        return Err(next.error);
      }
      activeWorkflows := next.value;
      if messageType == "agent_registration" {
        var _ := HandleAgentRegistration(from, payload, now);
      }
      r := Ok(Acknowledged);
    }

    /** `_handle_agent_registration`: the upsert in one unit of work; a
      failure is rolled back and logged, never raised. */
    method HandleAgentRegistration(name: string, data: map<string, Value>, now: int) returns (outcome: Outcome)
      modifies db
      ensures db.Snapshot() == RunSession(old(db.Snapshot()), RegistrationBody(old(db.Snapshot()), name, data, now)).state
      ensures outcome == RunSession(old(db.Snapshot()), RegistrationBody(old(db.Snapshot()), name, data, now)).outcome
    {
      var t := db.Snapshot();
      var body: Result<Tables, string>;
      match FindAgent(t.agents, name) {
        case Some(i) =>
          var row := UpdateRow(t.agents[i], data);
          body := Ok(t.(agents := t.agents[i := row]));
        case None =>
          if "name" in data {
            body := Err(DuplicateNameError);
          } else if !(data.Keys <= AgentColumns + OtherAgentAttributes) {
            body := Err(InvalidKeywordError);
          } else {
            var row := UpdateRow(NewAgent(Str(name), now), data);
            body := Ok(t.(agents := t.agents + [row]));
          }
      }
      outcome := db.Run(body);
    }
  }

  /** The `setattr` loop over the data's items, in whatever order they come. */
  method UpdateRow(a: AgentRecord, data: map<string, Value>) returns (row: AgentRecord)
    ensures row == ApplyData(a, data)
  {
    row := a;
    var pending := data.Keys;
    while pending != {}
      invariant pending <= data.Keys
      invariant forall k :: k in AgentColumns ==>
        Column(row, k) == (if k in data && k !in pending then data[k] else Column(a, k))
      decreases pending
    {
      var k :| k in pending;
      if k in AgentColumns {
        row := SetColumn(row, k, data[k]);
      }
      pending := pending - {k};
    }
    ApplyDataColumns(a, data);
    ColumnsDetermineRecord(row, ApplyData(a, data));
  }
}
