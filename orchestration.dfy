/** The orchestration service of the hub: choosing the agent family for a
    request from its context, checking that family's health through a
    short-lived cache, forwarding the request, and keeping a bounded,
    newest-first log of routing events per family and outcome.

    The cache and the event lists live in Redis; here they are fields of
    the service, and `redisUp` says whether Redis answered during a call.
    The health probe and the forwarded request are HTTP outcomes passed in. */
module Orchestration {
  import opened Common

  // ---------------------------------------------------------------------
  // Agent families.

  datatype AgentType =
    | Doctor | Nurse | Patient | CareTeam | Business | Payment | Insight
    | Development | Automation | Code | Media | Education | Chat | OpenId

  /** The enumeration's string values. */
  function TypeValue(t: AgentType): string
  {
    match t
    case Doctor => "doctor"
    case Nurse => "nurse"
    case Patient => "patient"
    case CareTeam => "careteam"
    case Business => "business"
    case Payment => "payment"
    case Insight => "insight"
    case Development => "development"
    case Automation => "automation"
    case Code => "code"
    case Media => "media"
    case Education => "education"
    case Chat => "chat"
    case OpenId => "openid"
  }

  /** `AgentType(s)`: the member with that value, if any. */
  function ParseType(s: string): (r: Option<AgentType>)
    ensures r.Some? ==> TypeValue(r.value) == s
  {
    match s
    case "doctor" => Some(Doctor)
    case "nurse" => Some(Nurse)
    case "patient" => Some(Patient)
    case "careteam" => Some(CareTeam)
    case "business" => Some(Business)
    case "payment" => Some(Payment)
    case "insight" => Some(Insight)
    case "development" => Some(Development)
    case "automation" => Some(Automation)
    case "code" => Some(Code)
    case "media" => Some(Media)
    case "education" => Some(Education)
    case "chat" => Some(Chat)
    case "openid" => Some(OpenId)
    case _ => None
  }

  /** Every member is found again from its value. */
  lemma ParseTypeValue(t: AgentType)
    ensures ParseType(TypeValue(t)) == Some(t)
  {
  }

  // ---------------------------------------------------------------------
  // Choosing a family from the request context.

  /** The family for an already lower-cased role, request type and domain:
      the role decides first, then the domain; anything else goes to chat. */
  function DecideAgent(role: string, requestType: string, domain: string): (t: AgentType)
    ensures t != OpenId && t != Automation && t != Code
  {
    if role in ["doctor", "physician", "clinician"] then Doctor
    else if role in ["nurse", "rn", "lpn"] then Nurse
    else if role in ["patient", "client"] then Patient
    else if domain in ["healthcare", "medical", "clinical"] then
      if Contains(requestType, "team") || Contains(requestType, "collaboration") then CareTeam else Doctor
    else if domain in ["business", "operations", "admin"] then Business
    else if domain in ["payment", "billing", "financial"] then Payment
    else if domain in ["analytics", "reporting", "insights"] then Insight
    else if domain in ["development", "coding", "programming"] then Development
    else if domain in ["media", "imaging", "files"] then Media
    else if domain in ["education", "training", "learning"] then Education
    else if domain in ["chat", "conversation", "messaging"] then Chat
    else Chat
  }

  const ClinicalRoles: set<string> := {"doctor", "physician", "clinician", "nurse", "rn", "lpn", "patient", "client"}
  const KnownDomains: set<string> := {
    "healthcare", "medical", "clinical", "business", "operations", "admin", "payment", "billing", "financial",
    "analytics", "reporting", "insights", "development", "coding", "programming", "media", "imaging", "files",
    "education", "training", "learning"
  }

  /** A recognised role settles the family, whatever the domain says. */
  lemma RoleDecides(role: string, requestType: string, domain: string, domain': string, requestType': string)
    requires role in ClinicalRoles
    ensures DecideAgent(role, requestType, domain) == DecideAgent(role, requestType', domain')
    ensures DecideAgent(role, requestType, domain) in {Doctor, Nurse, Patient}
  {
  }

  /** For a clinical domain and no recognised role, the care team is chosen
      exactly when the request type mentions a team or a collaboration;
      otherwise the doctor is. */
  lemma ClinicalDomain(role: string, requestType: string, domain: string)
    requires role !in ClinicalRoles && domain in {"healthcare", "medical", "clinical"}
    ensures DecideAgent(role, requestType, domain) == CareTeam
      <==> (Contains(requestType, "team") || Contains(requestType, "collaboration"))
    ensures DecideAgent(role, requestType, domain) in {CareTeam, Doctor}
  {
  }

  /** No recognised role and no recognised domain: chat. */
  lemma DefaultIsChat(role: string, requestType: string, domain: string)
    requires role !in ClinicalRoles && domain !in KnownDomains
    ensures DecideAgent(role, requestType, domain) == Chat
  {
  }

  /** `ctx.get(key, "").lower()`: absent reads as empty; a value that is
      not a string has no `lower` and raises. */
  function ContextField(ctx: map<string, Value>, key: string): (r: Result<string, string>)
    ensures key !in ctx ==> r == Ok("")
    ensures r.Ok? && key in ctx ==> ctx[key].Str? && r.value == Lower(ctx[key].s)
    ensures r.Err? <==> key in ctx && !ctx[key].Str?
  {
    if key !in ctx then Ok("")
    else match ctx[key]
      case Str(s) => Ok(Lower(s))
      case _ => Err("object has no attribute 'lower'")
  }

  /** `determine_best_agent`. */
  function DetermineBestAgent(ctx: map<string, Value>): Result<AgentType, string>
  {
    match ContextField(ctx, "user_role")
    case Err(e) => Err(e)
    case Ok(role) =>
      match ContextField(ctx, "request_type")
      case Err(e) => Err(e)
      case Ok(requestType) =>
        match ContextField(ctx, "domain")
        case Err(e) => Err(e)
        case Ok(domain) => Ok(DecideAgent(role, requestType, domain))
  }

  /** Matching ignores letter case: contexts whose fields agree once
      lower-cased are routed alike. */
  lemma DetermineIgnoresCase(ctx1: map<string, Value>, ctx2: map<string, Value>)
    requires forall k :: k in {"user_role", "request_type", "domain"} ==>
      (k in ctx1 <==> k in ctx2)
      && (k in ctx1 ==> ctx1[k].Str? && ctx2[k].Str? && Lower(ctx1[k].s) == Lower(ctx2[k].s))
    ensures DetermineBestAgent(ctx1).Ok? && DetermineBestAgent(ctx1) == DetermineBestAgent(ctx2)
  {
    assert ContextField(ctx1, "user_role") == ContextField(ctx2, "user_role");
    assert ContextField(ctx1, "request_type") == ContextField(ctx2, "request_type");
    assert ContextField(ctx1, "domain") == ContextField(ctx2, "domain");
  }

  /** An empty context goes to chat. */
  lemma EmptyContextIsChat()
    ensures DetermineBestAgent(map[]) == Ok(Chat)
  {
    assert "" !in ClinicalRoles && "" !in KnownDomains;
    DefaultIsChat("", "", "");
  }

  // ---------------------------------------------------------------------
  // Requests.

  /** A routing request as received: each field is absent (`None`) or given. */
  datatype OrchestrationRequest = OrchestrationRequest(
    agentType: Option<Value>,
    context: Option<Value>,
    endpoint: Option<string>,
    verb: Option<string>,
    data: Option<Value>)

  /** `process_request`'s choice of target: a given type value that names a
      member is used as is; otherwise the context decides. Reading a
      context that is not an object raises. */
  function ResolveTarget(req: OrchestrationRequest): (r: Result<AgentType, string>)
    ensures (req.agentType.Some? && req.agentType.value.Str? && ParseType(req.agentType.value.s).Some?)
      ==> r == Ok(ParseType(req.agentType.value.s).value)
    ensures (req.agentType.None? || !req.agentType.value.Str? || ParseType(req.agentType.value.s).None?)
      ==> r == (match req.context
                case None => DetermineBestAgent(map[])
                case Some(Object(ctx)) => DetermineBestAgent(ctx)
                case Some(_) => Err("object has no attribute 'get'"))
  {
    var given := match req.agentType
      case Some(v) => if Truthy(v) && v.Str? then ParseType(v.s) else None
      case None => None;
    match given
    case Some(t) => Ok(t)
    case None =>
      match req.context
      case None => DetermineBestAgent(map[])
      case Some(Object(ctx)) => DetermineBestAgent(ctx)
      case Some(_) => Err("object has no attribute 'get'")
  }

  /** Python truthiness of a JSON value. */
  predicate Truthy(v: Value)
  {
    match v
    case Null => false
    case Bool(b) => b
    case Int(i) => i != 0
    case Str(s) => |s| > 0
    case List(items) => |items| > 0
    case Object(fields) => |fields| > 0
  }

  function EndpointOf(req: OrchestrationRequest): string
  {
    match req.endpoint
    case None => "/"
    case Some(e) => e
  }

  function MethodOf(req: OrchestrationRequest): string
  {
    match req.verb
    case None => "GET"
    case Some(m) => m
  }

  // ---------------------------------------------------------------------
  // Health cache.

  /** A cached health verdict and the instant it expires. */
  datatype CacheEntry = CacheEntry(verdict: string, expiresAt: int)

  /** `agent_registry_ttl`, in seconds. */
  const AgentRegistryTtl: int := 60

  /** The verdict Redis returns at `now`, if the key has not expired. */
  function Cached(cache: map<AgentType, CacheEntry>, t: AgentType, now: int): Option<string>
  {
    if t in cache && now < cache[t].expiresAt then Some(cache[t].verdict) else None
  }

  datatype HealthCheck = HealthCheck(healthy: bool, probed: bool, cache: map<AgentType, CacheEntry>)

  /** `check_agent_health`: a cached `healthy` answers without probing; any
      other cached verdict, or none, leads to a probe whose answer (status
      200 or not) is cached for the TTL. Any failure answers false and
      writes nothing. */
  function CheckHealth(cache: map<AgentType, CacheEntry>, urls: map<AgentType, string>, t: AgentType, now: int,
                       redisUp: bool, probe: HttpOutcome): (h: HealthCheck)
    ensures !redisUp ==> !h.healthy && h.cache == cache
    ensures redisUp && Cached(cache, t, now) == Some("healthy") ==> h.healthy && !h.probed && h.cache == cache
    ensures h.probed <==> redisUp && Cached(cache, t, now) != Some("healthy") && t in urls
    ensures h.probed && probe.Responded? ==>
      h.healthy == (probe.status == 200)
      && h.cache == cache[t := CacheEntry(if probe.status == 200 then "healthy" else "unhealthy", now + AgentRegistryTtl)]
    ensures h.probed && probe.Unreachable? ==> !h.healthy && h.cache == cache
    ensures forall u :: u != t && u in cache ==> u in h.cache && h.cache[u] == cache[u]
  {
    if !redisUp then HealthCheck(false, false, cache)
    else if Cached(cache, t, now) == Some("healthy") then HealthCheck(true, false, cache)
    else if t !in urls then HealthCheck(false, false, cache)
    else match probe
      case Unreachable(_) => HealthCheck(false, true, cache)
      case Responded(status, _) =>
        var healthy := status == 200;
        HealthCheck(healthy, true, cache[t := CacheEntry(if healthy then "healthy" else "unhealthy", now + AgentRegistryTtl)])
  }

  /** A cached `unhealthy` verdict does not settle anything: it is probed again. */
  lemma CachedUnhealthyReprobes(cache: map<AgentType, CacheEntry>, urls: map<AgentType, string>, t: AgentType, now: int,
                                probe: HttpOutcome)
    requires Cached(cache, t, now) == Some("unhealthy") && t in urls
    ensures CheckHealth(cache, urls, t, now, true, probe).probed
  {
  }

  /** Within the TTL of a healthy answer, the next check needs no probe. */
  lemma HealthyAnswerIsReused(cache: map<AgentType, CacheEntry>, urls: map<AgentType, string>, t: AgentType, now: int,
                              later: int, probe: HttpOutcome, probe': HttpOutcome)
    requires t in urls && probe == Responded(200, None) && Cached(cache, t, now) != Some("healthy")
    requires now <= later < now + AgentRegistryTtl
    ensures var first := CheckHealth(cache, urls, t, now, true, probe);
      first.healthy
      && var second := CheckHealth(first.cache, urls, t, later, true, probe');
      second.healthy && !second.probed
  {
  }

  // ---------------------------------------------------------------------
  // Routing-event log.

  /** One logged routing event; `error` is present only for a non-empty
      error message. */
  datatype RoutingEvent = RoutingEvent(agentType: AgentType, endpoint: string, verb: string, status: string,
                                       error: Option<string>)

  const EventLogCapacity: nat := 1000

  function MakeEvent(t: AgentType, endpoint: string, verb: string, status: string, errorMessage: string): (e: RoutingEvent)
    ensures e.error.Some? <==> errorMessage != ""
    ensures e.error.Some? ==> e.error.value == errorMessage
    ensures e.agentType == t && e.endpoint == endpoint && e.verb == verb && e.status == status
  {
    RoutingEvent(t, endpoint, verb, status, if errorMessage != "" then Some(errorMessage) else None)
  }

  /** `lpush` then `ltrim 0 999` on the list of `e`'s family and status. */
  function PushEvent(events: map<(AgentType, string), seq<RoutingEvent>>, e: RoutingEvent): (r: map<(AgentType, string), seq<RoutingEvent>>)
    ensures r.Keys == events.Keys + {(e.agentType, e.status)}
    ensures forall k :: k in events && k != (e.agentType, e.status) ==> r[k] == events[k]
    ensures var before := if (e.agentType, e.status) in events then events[(e.agentType, e.status)] else [];
      var after := r[(e.agentType, e.status)];
      |after| == (if |before| + 1 <= EventLogCapacity then |before| + 1 else EventLogCapacity)
      && after[0] == e
      && after[1..] == before[..|after| - 1]
  {
    var key := (e.agentType, e.status);
    var before := if key in events then events[key] else [];
    var pushed := [e] + before;
    var kept := if |pushed| <= EventLogCapacity then pushed else pushed[..EventLogCapacity];
    assert kept[1..] == before[..|kept| - 1];
    events[key := kept]
  }

  /** No list ever holds more than 1000 events. */
  predicate EventLogBounded(events: map<(AgentType, string), seq<RoutingEvent>>)
  {
    forall k :: k in events ==> |events[k]| <= EventLogCapacity
  }

  lemma PushKeepsBound(events: map<(AgentType, string), seq<RoutingEvent>>, e: RoutingEvent)
    requires EventLogBounded(events)
    ensures EventLogBounded(PushEvent(events, e))
  {
  }

  function PushAll(events: map<(AgentType, string), seq<RoutingEvent>>, logged: seq<RoutingEvent>): map<(AgentType, string), seq<RoutingEvent>>
    decreases |logged|
  {
    if |logged| == 0 then events else PushAll(PushEvent(events, logged[0]), logged[1..])
  }

  lemma {:induction false} PushAllKeepsBound(events: map<(AgentType, string), seq<RoutingEvent>>, logged: seq<RoutingEvent>)
    requires EventLogBounded(events)
    ensures EventLogBounded(PushAll(events, logged))
    decreases |logged|
  {
    if |logged| > 0 {
      PushKeepsBound(events, logged[0]);
      PushAllKeepsBound(PushEvent(events, logged[0]), logged[1..]);
    }
  }

  // ---------------------------------------------------------------------
  // Forwarding a request.

  /** How `route_request` ended: the response body or the error raised,
      the health check, whether the request went out, and the events
      logged, in order. */
  datatype RouteResult = RouteResult(
    result: Result<Value, string>,
    health: HealthCheck,
    requested: bool,
    logged: seq<RoutingEvent>)

  const RedisDownError: string := "Redis connection error"

  /** The message raised for an unhealthy target. It spells the family by its
      value (`doctor`), as a `str`-mixin enum formats in an f-string before
      Python 3.11; from 3.11 on it reads `AgentType.DOCTOR`. */
  function NotHealthyError(t: AgentType): string
  {
    "Agent " + TypeValue(t) + " is not healthy"
  }

  /** The text of the error a non-2xx response raises. */
  function StatusError(status: int): string
  {
    "HTTP status " + IntString(status)
  }

  const JsonDecodeError: string := "response body is not JSON"

  /** `route_request`. Only a healthy family is sent the request. A transport
      failure or a non-2xx answer logs an error and is raised again; a 2xx
      answer logs success, and when its body is not JSON the decoding
      error is then logged and raised as well. With Redis down the health
      check answers false and logging the failure raises Redis's error. */
  function RouteSteps(urls: map<AgentType, string>, cache: map<AgentType, CacheEntry>, t: AgentType,
                      endpoint: string, verb: string, now: int, redisUp: bool,
                      probe: HttpOutcome, response: HttpOutcome): (r: RouteResult)
    ensures r.requested ==> r.health.healthy
    ensures r.result.Ok? ==> r.requested
  {
    if t !in urls then RouteResult(Err("Unknown agent type: " + TypeValue(t)), HealthCheck(false, false, cache), false, [])
    else
      var h := CheckHealth(cache, urls, t, now, redisUp, probe);
      if !h.healthy then
        if !redisUp then RouteResult(Err(RedisDownError), h, false, [])
        else RouteResult(Err(NotHealthyError(t)), h, false, [MakeEvent(t, endpoint, verb, "error", NotHealthyError(t))])
      else match response
        case Unreachable(e) =>
          RouteResult(Err(e), h, true, [MakeEvent(t, endpoint, verb, "error", e)])
        case Responded(status, body) =>
          if !(200 <= status < 300) then
            RouteResult(Err(StatusError(status)), h, true, [MakeEvent(t, endpoint, verb, "error", StatusError(status))])
          else match body
            case Some(v) => RouteResult(Ok(v), h, true, [MakeEvent(t, endpoint, verb, "success", "")])
            case None =>
              RouteResult(Err(JsonDecodeError), h, true,
                          [MakeEvent(t, endpoint, verb, "success", ""), MakeEvent(t, endpoint, verb, "error", JsonDecodeError)])
  }

  /** With Redis answering, each call logs exactly one event — success when
      it returns, error when it raises — except a 2xx answer whose body is
      not JSON, which logs a success and then an error. */
  lemma RouteLogsOutcome(urls: map<AgentType, string>, cache: map<AgentType, CacheEntry>, t: AgentType,
                         endpoint: string, verb: string, now: int, probe: HttpOutcome, response: HttpOutcome)
    requires t in urls
    ensures var r := RouteSteps(urls, cache, t, endpoint, verb, now, true, probe, response);
      |r.logged| >= 1
      && (r.result.Ok? ==> |r.logged| == 1 && r.logged[0].status == "success")
      && (r.result.Err? ==> r.logged[|r.logged| - 1].status == "error"
                            && r.logged[|r.logged| - 1].error == (if r.result.error != "" then Some(r.result.error) else None))
      && (|r.logged| == 2 <==> r.requested && response.Responded? && 200 <= response.status < 300 && response.body.None?)
      && |r.logged| <= 2
  {
  }

  /** With Redis answering, a request succeeds exactly when the family is
      healthy and answers 2xx with a JSON body; that body is returned, and
      one success event is logged. */
  lemma RouteSucceeds(urls: map<AgentType, string>, cache: map<AgentType, CacheEntry>, t: AgentType,
                      endpoint: string, verb: string, now: int, probe: HttpOutcome, response: HttpOutcome)
    requires t in urls
    ensures var r := RouteSteps(urls, cache, t, endpoint, verb, now, true, probe, response);
      (r.result.Ok? <==> CheckHealth(cache, urls, t, now, true, probe).healthy
                          && response.Responded? && 200 <= response.status < 300 && response.body.Some?)
      && (r.result.Ok? ==> r.result.value == response.body.value && r.requested
                           && r.logged == [MakeEvent(t, endpoint, verb, "success", "")])
  {
  }

  /** Each way a request fails, and the error it raises: an unknown family,
      Redis down, an unhealthy family, a transport failure, a non-2xx
      status, or a 2xx body that is not JSON. */
  lemma RouteFailures(urls: map<AgentType, string>, cache: map<AgentType, CacheEntry>, t: AgentType,
                      endpoint: string, verb: string, now: int, redisUp: bool, probe: HttpOutcome, response: HttpOutcome)
    ensures var h := CheckHealth(cache, urls, t, now, redisUp, probe);
      var r := RouteSteps(urls, cache, t, endpoint, verb, now, redisUp, probe, response);
      (t !in urls ==> r.result == Err("Unknown agent type: " + TypeValue(t)) && !r.requested && r.logged == [])
      && (t in urls && !redisUp ==> r.result == Err(RedisDownError) && !r.requested && r.logged == [])
      && (t in urls && redisUp && !h.healthy ==>
            r.result == Err(NotHealthyError(t)) && !r.requested
            && r.logged == [MakeEvent(t, endpoint, verb, "error", NotHealthyError(t))])
      && (t in urls && h.healthy && response.Unreachable? ==> r.result == Err(response.error) && r.requested)
      && (t in urls && h.healthy && response.Responded? && !(200 <= response.status < 300) ==>
            r.result == Err(StatusError(response.status)) && r.requested)
      && (t in urls && h.healthy && response.Responded? && 200 <= response.status < 300 && response.body.None? ==>
            r.result == Err(JsonDecodeError) && r.requested)
  {
  }

  /** No request is made to a family whose health check failed. */
  lemma NoRequestWhenUnhealthy(urls: map<AgentType, string>, cache: map<AgentType, CacheEntry>, t: AgentType,
                               endpoint: string, verb: string, now: int, redisUp: bool,
                               probe: HttpOutcome, response: HttpOutcome)
    requires !CheckHealth(cache, urls, t, now, redisUp, probe).healthy
    ensures var r := RouteSteps(urls, cache, t, endpoint, verb, now, redisUp, probe, response);
      !r.requested && r.result.Err?
  {
  }

  /** The result of `process_request`. */
  datatype Processed = Processed(routedTo: string, result: Value)

  /** The orchestration service and the Redis state it keeps. */
  class OrchestrationService {
    const agentUrls: map<AgentType, string>
    var healthCache: map<AgentType, CacheEntry>
    var routingEvents: map<(AgentType, string), seq<RoutingEvent>>

    constructor (agentUrls: map<AgentType, string>)
      ensures this.agentUrls == agentUrls && healthCache == map[] && routingEvents == map[]
    {
      this.agentUrls := agentUrls;
      healthCache, routingEvents := map[], map[];
    }

    predicate Valid()
      reads this
    {
      EventLogBounded(routingEvents)
    }

    method CheckAgentHealth(t: AgentType, now: int, redisUp: bool, probe: HttpOutcome) returns (healthy: bool)
      modifies this
      ensures var h := CheckHealth(old(healthCache), agentUrls, t, now, redisUp, probe);
        healthy == h.healthy && healthCache == h.cache
      ensures routingEvents == old(routingEvents)
    {
      var h := CheckHealth(healthCache, agentUrls, t, now, redisUp, probe);
      healthy := h.healthy;
      healthCache := h.cache;
    }

    method LogRoutingEvent(t: AgentType, endpoint: string, verb: string, status: string, errorMessage: string)
      requires Valid()
      modifies this
      ensures Valid()
      ensures routingEvents == PushEvent(old(routingEvents), MakeEvent(t, endpoint, verb, status, errorMessage))
      ensures healthCache == old(healthCache)
    {
      PushKeepsBound(routingEvents, MakeEvent(t, endpoint, verb, status, errorMessage));
      routingEvents := PushEvent(routingEvents, MakeEvent(t, endpoint, verb, status, errorMessage));
    }

    method RouteRequest(t: AgentType, endpoint: string, verb: string, now: int, redisUp: bool,
                        probe: HttpOutcome, response: HttpOutcome) returns (result: Result<Value, string>)
      requires Valid()
      modifies this
      ensures Valid()
      ensures var r := RouteSteps(agentUrls, old(healthCache), t, endpoint, verb, now, redisUp, probe, response);
        result == r.result && healthCache == r.health.cache && routingEvents == PushAll(old(routingEvents), r.logged)
    {
      var r := RouteSteps(agentUrls, healthCache, t, endpoint, verb, now, redisUp, probe, response);
      PushAllKeepsBound(routingEvents, r.logged);
      healthCache := r.health.cache;
      routingEvents := PushAll(routingEvents, r.logged);
      result := r.result;
    }

    /** `process_request`: resolve the target, forward with the defaults,
      and report which family the request went to. */
    method ProcessRequest(req: OrchestrationRequest, now: int, redisUp: bool, probe: HttpOutcome, response: HttpOutcome)
      returns (r: Result<Processed, string>)
      requires Valid()
      modifies this
      ensures Valid()
      ensures ResolveTarget(req).Err? ==> r == Err(ResolveTarget(req).error) && unchanged(this)
      ensures ResolveTarget(req).Ok? ==>
        var t := ResolveTarget(req).value;
        var steps := RouteSteps(agentUrls, old(healthCache), t, EndpointOf(req), MethodOf(req), now, redisUp, probe, response);
        healthCache == steps.health.cache && routingEvents == PushAll(old(routingEvents), steps.logged)
        && (r.Ok? <==> steps.result.Ok?)
        && (r.Ok? ==> r.value == Processed(TypeValue(t), steps.result.value))
        && (r.Err? ==> r.error == steps.result.error)
    {
      var target := ResolveTarget(req);
      if target.Err? {
        return Err(target.error);
      }
      var result := RouteRequest(target.value, EndpointOf(req), MethodOf(req), now, redisUp, probe, response);
      match result {
        case Ok(v) => r := Ok(Processed(TypeValue(target.value), v));
        case Err(e) => r := Err(e);
      }
    }
  }
}
