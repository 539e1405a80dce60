# LINC agents: a verified model of the coordination layer

BrainSAIT's LINC agents are a family of FastAPI services that work together:
- MasterLINC, the orchestration hub;
- AuthLINC, the identity gateway;
- DoctorLINC, the physician assistant;
- and others.

They share:
- a relational store (agents, users, sessions, inter-agent messages, system events);
- a Redis publish/subscribe fabric;
- a base class that registers each agent and keeps its heartbeat.

This project models, in Dafny, the decisions these services make, and proves what they promise:

- **Intent router (`WorkflowRouter`, router.dfy).**
  - MasterLINC scores a case-folded intent against its keyword table, comparing scores as fractions.
  - The first top scorer wins; with no match the request falls back to `chatlinc`.
  - The support map is attached and the step plan built.
- **Workflow table and dynamic registration (`Workflows`, workflows.dfy).**
  - `active_workflows` is a map that `_execute_workflow` and `_handle_agent_message` update.
  - `GET /workflow/{id}` reads it.
  - `_handle_agent_registration` upserts agent rows.
- **Shared store (`Store`, store.dfy).**
  - The rows of the tables the core touches, their unique and not-null constraints, and `.first()` lookups.
  - `get_db_session`: commit when the body completes and the constraints hold, roll back otherwise.
- **Seed data (`Seed`, seed.dfy).** `seed_initial_data`: the guard, the sixteen literal agents, and the properties of that list.
- **Base agent (`BaseAgent`, base_agent.dfy).**
  - Self-registration as an upsert, and status updates on heartbeat and shutdown.
  - The `send_message` record, and `_send_agent_message` with its failure marking.
  - `/health`.
- **Messaging (`Messaging`, messaging.dfy).**
  - `MessageBroker`'s subscriber table, publish decoration and the listen loop's dispatch rule.
  - Channel naming, and `AgentMessenger`.
- **Orchestration service (`Orchestration`, orchestration.dfy).**
  - `determine_best_agent` and `process_request` target resolution.
  - The `check_agent_health` cache, `route_request` control flow, and the bounded routing-event lists.
- **Shared authentication (`Auth`, auth.dfy).**
  - Role permissions, `permission_required` and the four role checkers.
  - `verify_token` and the current-user checks, `authenticate_user`, access-token claims.
  - Session creation, lookup and invalidation.
- **AuthLINC handlers (`AuthLinc`, authlinc.dfy).**
  - `register`, `login`, `logout`, `/auth/me`, `/auth/permissions`, `verify-token`, `change-password` and `/auth/sessions`.
  - Each is a function from the store to the new store and the reply, and a class method is proved equal to it.
- **DoctorLINC rules (`DoctorLinc`, clinical.dfy).**
  - Chief complaint, findings and recommendation extraction; the severity rule.
  - Transcription glossing, symptom lookup, patient summary and prescription validation.
- **String operations (`Common`, common.dfy).** Python's `lower`, `in`, `split`, `strip` and `replace` as used by the above.

## How the model is built

Each state-changing operation of the source becomes a method of a class whose fields are the state it changes:
- `Database` holds the tables;
- `MasterLinc` holds `active_workflows`;
- `MessageBroker` holds `subscribers`;
- `OrchestrationService` holds the Redis health cache and the event lists.

The method's `ensures` gives the new state as a pure function of the old one, and the lemmas about that function carry the properties. Loops in the source become loops in the methods, each proved against its specification function.

Everything the code does not compute itself is a parameter or oracle:
- clocks (`now`);
- `uuid4` (fresh ids);
- HTTP outcomes (`HttpOutcome`);
- Redis reachability (`reachable`, `redisUp`);
- bcrypt (`verify`, `hash`);
- JWT (`encode`, and a `Decoded` outcome).

Python floats, `datetime` and timestamps are modelled as integers or left opaque. Routing scores `hits / len(keywords)` are compared by cross-multiplication, which is exact because every denominator is positive.

On these points the code departs from what its names, docstrings or comments suggest; the model follows the code:
- `_handle_agent_message` overwrites terminal workflow states. A `workflow_error` after `workflow_complete` turns the entry to `error`.
- A cached `unhealthy` verdict is probed again, not reused.
- No path sets an inter-agent message to `delivered`. A failed direct send marks `failed` only the first stored message with the caller's correlation id, and only when the caller gave one.
- Logging out with an unknown token answers 500 "Logout service error", not 400. The generic handler catches the 400 raised inside the `try`.
- The dispatched workflow payload always carries `context = {}`: the routing result has no `context` key.
- Heartbeat staleness is not derived anywhere; status is whatever was last written.

## Model

| member | source | states |
|---|---|---|
| WorkflowRouter.Hits | agents/masterlinc/main.py:197 | the score numerator never exceeds the row's keyword count |
| WorkflowRouter.HitsPositive | agents/masterlinc/main.py:196-199 | a row becomes a candidate exactly when one of its keywords occurs in the lowercased intent |
| WorkflowRouter.CandidatesSound | agents/masterlinc/main.py:195-199 | every scored agent is a table row with at least one match, carrying that row's agent and the fraction hits / keyword count |
| WorkflowRouter.CandidatesOrdered | agents/masterlinc/main.py:195-199 | candidates appear in table order, each row at most once |
| WorkflowRouter.CandidatesComplete | agents/masterlinc/main.py:195-199 | every row with a match is a candidate |
| WorkflowRouter.BestIndex | agents/masterlinc/main.py:205-206 | Python `max` over the candidates: the chosen score is at least every score and strictly above every earlier one |
| WorkflowRouter.Leader | agents/masterlinc/main.py:192-206 | the winning row has a match, and there is none exactly when no row matches |
| WorkflowRouter.LeaderOutscores | agents/masterlinc/main.py:192-206 | no matching row outscores the winner, and every matching row before it scores strictly less (ties go to the earlier row) |
| WorkflowRouter.IntentKeywordsWellFormed | agents/masterlinc/main.py:165-190 | the keyword table has non-empty rows and six distinct agents |
| WorkflowRouter.PrimaryIsTableAgent | agents/masterlinc/main.py:165-206 | the primary agent is always one of the six table agents |
| WorkflowRouter.NoMatchFallsBack | agents/masterlinc/main.py:201-206 | with no keyword in the lowercased intent the primary is `chatlinc` |
| WorkflowRouter.PrimaryOutscores | agents/masterlinc/main.py:192-206 | when any row matched, the primary is the agent of a matching row that is never outscored, and that beats every earlier matching row |
| WorkflowRouter.SupportingAgents | agents/masterlinc/main.py:242-253 | the support list never contains the primary, is empty for an unknown primary, and ignores the context |
| WorkflowRouter.PlanShape | agents/masterlinc/main.py:208-240 | the plan has 1 + supporting steps: step 1 the primary `process_request` pending, step k+2 supporter k `support_processing` waiting; the duration is 5 |
| WorkflowRouter.AnalyzeAndRoute | agents/masterlinc/main.py:156-240 | the scoring loop, `max` and the step loop compute exactly the specified routing result |
| WorkflowRouter.CountHits | agents/masterlinc/main.py:197 | the counting loop yields the specified number of matches |
| WorkflowRouter.ScoreAgents | agents/masterlinc/main.py:195-199 | the scoring loop yields exactly the specified candidates |
| WorkflowRouter.MaxCandidate | agents/masterlinc/main.py:205-206 | the running maximum, replaced only on a strictly greater score, is the first maximal candidate |
| WorkflowRouter.BuildSteps | agents/masterlinc/main.py:215-230 | the step loop builds the specified plan |
| Workflows.StartPayload | agents/masterlinc/main.py:275-280 | the start request carries the workflow id, the user, `workflow_start` and an empty context |
| Workflows.AfterExecute | agents/masterlinc/main.py:264-294 | the entry is stored with its plan, user and start time, status `executing` (or `error` with the failure text when the send raised); other workflows are unchanged |
| Workflows.AfterAgentMessage | agents/masterlinc/main.py:371-398 | completion and error reports set `completed` / `error` on a known id only; other types and other entries are unchanged; an unhashable id raises |
| Workflows.CompletedCanBecomeError | agents/masterlinc/main.py:380-392 | an error report after a completion turns the entry to `error`: terminal states are not guarded |
| Workflows.UnknownWorkflowIgnored | agents/masterlinc/main.py:380-392 | a report naming an unknown workflow changes nothing |
| Workflows.ApplyDataColumns | agents/masterlinc/main.py:409-411 | the `setattr` loop sets exactly the columns the data names and keeps the others |
| Workflows.ColumnsDetermineRecord | shared/database/models.py:15-32 | two agent rows agreeing on every column are equal |
| Workflows.RegistrationUpdatesKnownAgent | agents/masterlinc/main.py:405-411 | a known agent's row takes the named columns' values, keeps the rest, and no other row changes |
| Workflows.RegistrationCreatesAgent | agents/masterlinc/main.py:412-417 | a new name with acceptable data appends one row with that name |
| Workflows.RegistrationRejectsBadData | agents/masterlinc/main.py:412-421 | a new name with unusable data raises, is logged, and leaves the store unchanged |
| Workflows.MasterLinc.constructor | agents/masterlinc/main.py:49-60 | the hub starts with its own configuration, a fresh messenger and no workflows |
| Workflows.MasterLinc.WorkflowStatusOf | agents/masterlinc/main.py:113-121 | the stored entry for a known id, 404 "Workflow not found" otherwise |
| Workflows.MasterLinc.ExecuteWorkflow | agents/masterlinc/main.py:255-294 | the table becomes the executing entry and the start request is published on the primary's channel |
| Workflows.MasterLinc.HandleAgentMessage | agents/masterlinc/main.py:371-398 | reports update the table as specified and are acknowledged; registrations run the upsert |
| Workflows.MasterLinc.HandleAgentRegistration | agents/masterlinc/main.py:400-421 | the upsert runs as one unit of work that commits or rolls back as a whole |
| Workflows.UpdateRow | agents/masterlinc/main.py:409-411 | the loop over the data's items gives the specified row, whatever the item order |
| Store.NewAgent | shared/database/models.py:15-32 | a new agent object has the column defaults: status `offline`, version `1.0.0`, heartbeat now |
| Store.SetColumn | agents/masterlinc/main.py:411-413 | `setattr` changes the named column and no other |
| Store.FindAgent | shared/models/base_agent.py:223 | the first row with the name, or none when no row has it |
| Store.FindUserByName | shared/auth/__init__.py:96 | the first user with the username, or none when no user has it |
| Store.FindMessage | shared/models/base_agent.py:324-326 | the first message with the correlation id, or none |
| Store.NextUserId | shared/database/models.py:41 | a fresh autoincrement key exceeds every key in use |
| Store.NextSessionId | shared/database/models.py:69 | a fresh autoincrement key exceeds every key in use |
| Store.Commit | shared/database/__init__.py:53-55 | the pending state is committed exactly when it meets the unique and not-null constraints, else the old state stays |
| Store.RunSession | shared/database/__init__.py:47-58 | a unit of work commits iff its body completes and the constraints hold; otherwise the store is as before |
| Store.RunSessionKeepsConsistent | shared/database/__init__.py:47-58 | a unit of work never leaves the store violating its constraints |
| Store.Database.constructor | shared/database/__init__.py:35-37 | the schema starts empty |
| Store.Database.Run | shared/database/__init__.py:47-58 | the store and the reported outcome are those of the unit of work |
| Seed.SeedInitialData | shared/database/__init__.py:69-250 | the guard and the `db.add` loop leave the store as specified and commit |
| Seed.SeedColumns | shared/database/__init__.py:80-244 | the sixteen entries have these names, subdomains, ports and dependencies, in this order |
| Seed.SeedDistinct | shared/database/__init__.py:80-244 | seeded names, subdomains and ports are pairwise distinct, as the unique columns demand |
| Seed.SeedDependenciesEarlier | shared/database/__init__.py:80-244 | every dependency names an agent listed earlier, so the list order is a valid start order |
| Seed.SeedRowsConsistent | shared/database/__init__.py:243-250 | the seeded rows satisfy every constraint of the agents table |
| Seed.SeedIdempotent | shared/database/__init__.py:74-77 | seeding a non-empty table changes nothing, an empty table gets sixteen rows, and seeding twice is seeding once |
| Seed.ConstructorsMatchSeed | shared/database/__init__.py:80-110 | the seed rows of masterlinc, authlinc and doctorlinc carry their constructors' ports and dependencies |
| Seed.RoutedAgentsAreSeeded | agents/masterlinc/main.py:165-253 | every agent the router can name, as primary or supporter, is seeded |
| BaseAgent.RegisterExisting | shared/models/base_agent.py:222-231 | re-registering sets status online, heartbeat, version, description, port and health URL, and keeps type, capabilities, dependencies and other rows |
| BaseAgent.RegisterNew | shared/models/base_agent.py:233-245 | an unknown name gets exactly one new `custom` row, online, with the health URL |
| BaseAgent.RegisteredAgentIsOnline | shared/models/base_agent.py:216-245 | after registering, a lookup by the agent's name finds an online row |
| BaseAgent.FindAgentAfterUpdate | shared/models/base_agent.py:223-231 | updating the found row in place keeps it the first match |
| BaseAgent.FindAgentAfterAppend | shared/models/base_agent.py:233-243 | a row appended for an absent name becomes its first match |
| BaseAgent.UpdateStatusEffect | shared/models/base_agent.py:250-261 | an unknown name is a no-op; a known one changes only that row's status and heartbeat |
| BaseAgent.UpdateStatusKeepsConsistent | shared/models/base_agent.py:256-261 | a status update keeps the table's constraints, so its commit succeeds |
| BaseAgent.MessageRecord | shared/models/base_agent.py:120-127 | the stored message comes from this agent, is pending, and carries the caller's correlation id or a fresh one |
| BaseAgent.DirectOutcome | shared/models/base_agent.py:284-314 | no POST for an unknown or not-online target; a reply only on a 200 with a body |
| BaseAgent.MarkFailedEffect | shared/models/base_agent.py:316-329 | with a caller's correlation id, the first stored message carrying it becomes `failed`; no other message changes, and nothing changes without an id |
| BaseAgent.UncorrelatedFailureStaysPending | shared/models/base_agent.py:126-138 | a failed send without a caller-supplied id leaves its own record pending |
| BaseAgent.LincAgent.constructor | shared/models/base_agent.py:45-58 | an agent keeps its configuration and start time |
| BaseAgent.LincAgent.Health | shared/models/base_agent.py:87-98 | `/health` is always `healthy` under the agent's own name, version and dependencies |
| BaseAgent.LincAgent.RegisterAgent | shared/models/base_agent.py:216-248 | startup registration is the upsert in one unit of work |
| BaseAgent.LincAgent.UpdateAgentStatus | shared/models/base_agent.py:250-264 | the store changes as the status update specifies |
| BaseAgent.LincAgent.Shutdown | shared/models/base_agent.py:202-206 | shutdown marks the agent offline |
| BaseAgent.LincAgent.HeartbeatTick | shared/models/base_agent.py:266-271 | one heartbeat marks the agent online |
| BaseAgent.LincAgent.SendMessage | shared/models/base_agent.py:111-140 | one pending record is stored, its correlation id returned, and the send scheduled with the caller's id |
| BaseAgent.LincAgent.SendAgentMessage | shared/models/base_agent.py:276-329 | the outcome is the specified decision and the message table changes only by the failure marking |
| Messaging.DirectChannel | shared/messaging/__init__.py:177 | an agent's private channel is the 11-character prefix `linc:agent:` followed by its name |
| Messaging.BroadcastChannelNaming | shared/messaging/__init__.py:156-163 | every family channel is `linc:` followed by the family |
| Messaging.DirectChannelInjective | shared/messaging/__init__.py:177 | distinct agents have distinct private channels |
| Messaging.DirectChannelNotBroadcast | shared/messaging/__init__.py:156-177 | a private channel is never a family channel |
| Messaging.Decorate | shared/messaging/__init__.py:57-61 | the published body is the input plus `timestamp` and `broker_id`, which override same-named keys |
| Messaging.DecorateIdempotent | shared/messaging/__init__.py:57-61 | decorating twice at the same instant is decorating once |
| Messaging.DirectMessage | shared/messaging/__init__.py:199-204 | a direct message carries sender, target, type and payload |
| Messaging.BroadcastMessage | shared/messaging/__init__.py:211-216 | a broadcast carries sender, type, payload and `broadcast: true` |
| Messaging.AlertMessage | shared/messaging/__init__.py:222-227 | an alert carries sender, level, text and the metadata or `{}` |
| Messaging.BroadcastTarget | shared/messaging/__init__.py:208-218 | a broadcast goes to `linc:<type>` exactly for the six families, nowhere otherwise |
| Messaging.Dispatch | shared/messaging/__init__.py:99-115 | each invocation is a `message` item on a subscribed channel, handled by that channel's handler |
| Messaging.DispatchIgnoresHandlerFailures | shared/messaging/__init__.py:109-112 | a raising handler is caught: which handlers run, on what, does not depend on failures |
| Messaging.DispatchComplete | shared/messaging/__init__.py:102-110 | when all data decodes, the handlers are invoked on exactly the `message` items of subscribed channels, each once and in arrival order |
| Messaging.DispatchStopsAtUndecodable | shared/messaging/__init__.py:102-115 | undecodable data ends the loop, even on an unsubscribed channel |
| Messaging.DispatchSound | shared/messaging/__init__.py:103-110 | every invocation answers a `message` item read on its channel |
| Messaging.MessageBroker.constructor | shared/messaging/__init__.py:18-23 | a broker starts disconnected with no subscribers |
| Messaging.MessageBroker.Connect | shared/messaging/__init__.py:25-35 | connected exactly when the server answers |
| Messaging.MessageBroker.Publish | shared/messaging/__init__.py:50-70 | reconnects first, sends the decorated body when the server is reachable, and swallows failures |
| Messaging.MessageBroker.Subscribe | shared/messaging/__init__.py:72-86 | sets or replaces the channel's single handler |
| Messaging.MessageBroker.Unsubscribe | shared/messaging/__init__.py:88-97 | removes the channel's handler if present; other channels keep theirs |
| Messaging.MessageBroker.Listen | shared/messaging/__init__.py:99-115 | the listen loop invokes exactly the specified dispatches |
| Messaging.MessengerSubscriptions | shared/messaging/__init__.py:172-195 | connecting adds the private, system and orchestration channels with their handlers and keeps others |
| Messaging.AgentMessenger.constructor | shared/messaging/__init__.py:168-170 | a messenger has its name and a fresh broker |
| Messaging.AgentMessenger.Connect | shared/messaging/__init__.py:172-195 | connects and subscribes to exactly its three channels |
| Messaging.AgentMessenger.SendToAgent | shared/messaging/__init__.py:197-206 | publishes the direct message on the target's private channel |
| Messaging.AgentMessenger.BroadcastToType | shared/messaging/__init__.py:208-218 | publishes the broadcast on the family channel, or nothing for an unknown family |
| Messaging.AgentMessenger.SendSystemAlert | shared/messaging/__init__.py:220-229 | publishes the alert on `linc:system` |
| Orchestration.ParseType | agents/masterlinc/src/services/orchestration_service.py:17-32 | `AgentType(s)` finds the member whose value is `s` |
| Orchestration.ParseTypeValue | agents/masterlinc/src/services/orchestration_service.py:17-32 | every member is found again from its value |
| Orchestration.DecideAgent | agents/masterlinc/src/services/orchestration_service.py:159-188 | OPENID, AUTOMATION and CODE are never chosen |
| Orchestration.RoleDecides | agents/masterlinc/src/services/orchestration_service.py:160-165 | a recognised role decides DOCTOR, NURSE or PATIENT whatever the domain and request type |
| Orchestration.ClinicalDomain | agents/masterlinc/src/services/orchestration_service.py:168-171 | a clinical domain gives CARETEAM iff the request type mentions team or collaboration, DOCTOR otherwise |
| Orchestration.DefaultIsChat | agents/masterlinc/src/services/orchestration_service.py:184-188 | no recognised role or domain gives CHAT |
| Orchestration.ContextField | agents/masterlinc/src/services/orchestration_service.py:155-157 | an absent field reads as "", a string is lowercased, another value raises |
| Orchestration.DetermineIgnoresCase | agents/masterlinc/src/services/orchestration_service.py:155-157 | contexts that agree once lowercased choose the same family |
| Orchestration.EmptyContextIsChat | agents/masterlinc/src/services/orchestration_service.py:151-188 | an empty context goes to CHAT |
| Orchestration.ResolveTarget | agents/masterlinc/src/services/orchestration_service.py:221-231 | a valid `agent_type` string is used directly; otherwise the context decides |
| Orchestration.CheckHealth | agents/masterlinc/src/services/orchestration_service.py:107-135 | without Redis the answer is false and nothing is cached; a cached `healthy` answers without a probe; otherwise the probe decides (200 = healthy) and is cached for the TTL; an unreachable agent answers false without a cache write; other families' entries are kept |
| Orchestration.CachedUnhealthyReprobes | agents/masterlinc/src/services/orchestration_service.py:114-122 | a cached `unhealthy` verdict is probed again |
| Orchestration.HealthyAnswerIsReused | agents/masterlinc/src/services/orchestration_service.py:112-129 | within the TTL of a healthy answer the next check needs no probe |
| Orchestration.MakeEvent | agents/masterlinc/src/services/orchestration_service.py:200-209 | the event has `error` exactly when the error message is non-empty |
| Orchestration.PushEvent | agents/masterlinc/src/services/orchestration_service.py:212-214 | the event goes to the front of its (type, status) list, trimmed to 1000; other lists are unchanged |
| Orchestration.PushKeepsBound | agents/masterlinc/src/services/orchestration_service.py:213-214 | no list ever exceeds 1000 events after a push |
| Orchestration.PushAllKeepsBound | agents/masterlinc/src/services/orchestration_service.py:213-214 | the bound holds after any sequence of pushes |
| Orchestration.RouteSteps | agents/masterlinc/src/services/orchestration_service.py:60-105 | a request is made only after a healthy check, and a result only after a request |
| Orchestration.RouteLogsOutcome | agents/masterlinc/src/services/orchestration_service.py:91-105 | with Redis up, a returned result logs one success event and a failure ends with one error event carrying its message; only a 2xx reply without a JSON body logs both |
| Orchestration.RouteSucceeds | agents/masterlinc/src/services/orchestration_service.py:76-96 | with Redis up, a request returns a result exactly when the family is healthy and answers 2xx with a JSON body; the result is that body and one success event is logged |
| Orchestration.RouteFailures | agents/masterlinc/src/services/orchestration_service.py:70-105 | an unknown family, Redis down, an unhealthy family ("Agent … is not healthy", no request), a transport failure, a non-2xx status and a non-JSON body each raise their own error |
| Orchestration.NoRequestWhenUnhealthy | agents/masterlinc/src/services/orchestration_service.py:78-79 | no request goes to a family whose health check failed |
| Orchestration.OrchestrationService.constructor | agents/masterlinc/src/services/orchestration_service.py:37-58 | the service starts with its URL table and empty Redis state |
| Orchestration.OrchestrationService.CheckAgentHealth | agents/masterlinc/src/services/orchestration_service.py:107-135 | the verdict and the cache are those specified; the event lists are unchanged |
| Orchestration.OrchestrationService.LogRoutingEvent | agents/masterlinc/src/services/orchestration_service.py:190-215 | the event lists become the specified push and stay bounded |
| Orchestration.OrchestrationService.RouteRequest | agents/masterlinc/src/services/orchestration_service.py:60-105 | the cache, the event lists and the result are the specified routing step |
| Orchestration.OrchestrationService.ProcessRequest | agents/masterlinc/src/services/orchestration_service.py:217-250 | resolves the target, forwards with `/` and `GET` as defaults, and reports `routed_to` with the result |
| Auth.UserPermissions | shared/auth/__init__.py:179-203 | the role's fixed list, or none for an unknown role |
| Auth.PermissionRequired | shared/auth/__init__.py:205-219 | the user when the role grants the permission, 403 "Permission '<p>' required" otherwise |
| Auth.PermissionsBelongToOneRole | shared/auth/__init__.py:181-201 | no permission is granted to two roles |
| Auth.AdminLacksClinicalPermissions | shared/auth/__init__.py:181-193 | admin holds none of the doctor and nurse permissions |
| Auth.Admit | shared/auth/__init__.py:159-171 | a checker admits exactly the roles in its list and refuses others with 403 |
| Auth.RoleCheckersNested | shared/auth/__init__.py:173-177 | admin within doctor within nurse within healthcare, the last being the four clinical roles |
| Auth.AccessClaims | shared/auth/__init__.py:41-51 | the claims are a copy of the input plus `exp` = now + the lifetime, 30 minutes by default |
| Auth.VerifyToken | shared/auth/__init__.py:53-70 | the subject of a decodable token with a string `sub`, 401 otherwise |
| Auth.CurrentUser | shared/auth/__init__.py:72-83 | a verifying token whose subject is a stored username yields that user's row; 401 when the token fails or names no user |
| Auth.CurrentActiveUser | shared/auth/__init__.py:85-92 | the current user when active, 400 "Inactive user" otherwise |
| Auth.AuthenticateUser | shared/auth/__init__.py:94-101 | the named user exactly when the password verifies against its hash |
| Auth.NewSession | shared/auth/__init__.py:123-130 | the new session is the user's, active, fresh-keyed, and expires 24 hours from now |
| Auth.SessionTokenExpiresWithSession | shared/auth/__init__.py:112-130 | the session token's `exp` equals the row's `expires_at` |
| Auth.FindSessionByToken | shared/auth/__init__.py:148-150 | the first session with the token, or none |
| Auth.ValidSession | shared/auth/__init__.py:138-144 | the first session with the token that is active and unexpired, or none |
| Auth.Invalidated | shared/auth/__init__.py:146-157 | the first session with the token becomes inactive; every other row is unchanged |
| Auth.InvalidateIdempotent | shared/auth/__init__.py:146-157 | invalidating twice is invalidating once |
| Auth.InvalidatedTokenIsDead | shared/auth/__init__.py:138-157 | with unique tokens, an invalidated token opens no session |
| Auth.InvalidateKeepsConsistent | shared/auth/__init__.py:152-154 | invalidation keeps the table's constraints |
| Auth.InvalidateSession | shared/auth/__init__.py:146-157 | true exactly when a session has the token, and the store changes as specified |
| Auth.CreateUserSession | shared/auth/__init__.py:103-136 | signs the 24-hour token and adds one session row in a unit of work |
| AuthLinc.IpAddress | agents/authlinc/main.py:109 | the client's host, or "test" when there is none |
| AuthLinc.LogEvent | agents/authlinc/main.py:114-115 | on a consistent store, logging an event commits it at the end of the event table |
| AuthLinc.NewUser | agents/authlinc/main.py:216-226 | the new user has the request's fields and the hash, is active, unverified, never logged in, with a fresh id |
| AuthLinc.RegisterSteps | agents/authlinc/main.py:194-267 | a taken username or email is refused with 400 and changes nothing; any error is 400 or 500 |
| AuthLinc.RegisterAddsOneUser | agents/authlinc/main.py:214-258 | a fresh registration succeeds iff the national id is unused, adding exactly one user and one event; otherwise 500 and nothing changes |
| AuthLinc.LoginSteps | agents/authlinc/main.py:91-192 | an authenticated but inactive user gets 400 "Account is disabled" and nothing changes; any error is 401, 400 or 500 |
| AuthLinc.LoginRejectsBadCredentials | agents/authlinc/main.py:100-120 | bad credentials give 401 and leave only a warning event, before the active check |
| AuthLinc.LoginOpensOneSession | agents/authlinc/main.py:128-183 | a good login adds one session, sets `last_login`, logs success and returns a 1800-second bearer token with the user's public columns and the role's permissions; it fails (500) on a token clash with nothing written, or after all three writes when the user has no `full_name` |
| AuthLinc.SecondLoginSameInstantFails | agents/authlinc/main.py:136-142 | a second login by the same user to the same agent at the same instant signs the same session token and fails with 500 |
| AuthLinc.UserLookupAfterUpdate | agents/authlinc/main.py:145-146 | updating a user in place keeps every username lookup |
| AuthLinc.AccessTokenIsNotSessionToken | agents/authlinc/main.py:129-142 | for an injective encoder, the returned access token differs from the stored session token |
| AuthLinc.LogoutSteps | agents/authlinc/main.py:269-292 | success iff a session has the token, which is then inactive; otherwise 500 "Logout service error" and nothing changes |
| AuthLinc.LogoutEndsSession | agents/authlinc/main.py:275-280 | after logout the token opens no session, and a second logout also succeeds and changes nothing |
| AuthLinc.VerifyTokenReply | agents/authlinc/main.py:321-350 | valid exactly for a verifiable token naming an active user, with that user's id, name, role and permissions |
| AuthLinc.MeReply | agents/authlinc/main.py:294-311 | the caller's public columns exactly when the caller resolves and has a `full_name`; otherwise the current-user error, or 500 when `full_name` is null |
| AuthLinc.PermissionsReply | agents/authlinc/main.py:313-319 | the caller's role's permissions, or the current-user error |
| AuthLinc.ChangePasswordSteps | agents/authlinc/main.py:352-390 | an unknown caller gets the current-user error and nothing changes |
| AuthLinc.ChangePasswordEffect | agents/authlinc/main.py:360-381 | a wrong current password gives 400 and changes nothing; a right one replaces only the caller's hash and logs one event |
| AuthLinc.SessionsOf | agents/authlinc/main.py:398-415 | lists exactly the caller's active, unexpired sessions |
| AuthLinc.UserSessionsReply | agents/authlinc/main.py:392-415 | the caller's listed sessions, or the current-user error |
| AuthLinc.OpenedSessionIsListed | agents/authlinc/main.py:398-402 | a session login opened is listed for its user until it expires |
| AuthLinc.AuthLincAgent.constructor | agents/authlinc/main.py:76-83 | the gateway runs with its own configuration over the store |
| AuthLinc.AuthLincAgent.Register | agents/authlinc/main.py:194-267 | the store and reply are those of the specified registration |
| AuthLinc.AuthLincAgent.Login | agents/authlinc/main.py:91-192 | the store and reply are those of the specified login |
| AuthLinc.AuthLincAgent.Logout | agents/authlinc/main.py:269-292 | the store and reply are those of the specified logout |
| AuthLinc.AuthLincAgent.VerifyTokenEndpoint | agents/authlinc/main.py:321-350 | the reply is the specified verification |
| AuthLinc.AuthLincAgent.ChangePassword | agents/authlinc/main.py:352-390 | the store and reply are those of the specified password change |
| AuthLinc.AuthLincAgent.GetUserSessions | agents/authlinc/main.py:392-415 | the reply is the specified session listing |
| DoctorLinc.FirstContained | agents/doctorlinc/main.py:344-345 | the first keyword occurring in the text, or none when none does |
| DoctorLinc.FirstSentenceWith | agents/doctorlinc/main.py:348-349 | the first sentence containing the keyword once lowercased, or none |
| DoctorLinc.SentenceWithKeyword | agents/doctorlinc/main.py:345-350 | a keyword found in the lowercased note is found in one of its `.`-sentences, and still after stripping |
| DoctorLinc.ComplaintFromFirst | agents/doctorlinc/main.py:344-352 | the answer is the placeholder when no keyword occurs, else the first sentence with the first occurring keyword |
| DoctorLinc.ChiefComplaintSpec | agents/doctorlinc/main.py:339-352 | "Not clearly stated" exactly when no complaint keyword occurs; otherwise the stripped first sentence with the first matching keyword |
| DoctorLinc.PlaceholderHasNoKeyword | agents/doctorlinc/main.py:342-352 | the placeholder contains no complaint keyword |
| DoctorLinc.ExtractChiefComplaint | agents/doctorlinc/main.py:339-352 | the nested loops with early return give the specified complaint |
| DoctorLinc.SearchComplaint | agents/doctorlinc/main.py:344-352 | the loops give the specified answer for any keyword list |
| DoctorLinc.FindingsFrom | agents/doctorlinc/main.py:363-365 | at most one finding per term |
| DoctorLinc.FindingsMembership | agents/doctorlinc/main.py:363-365 | "Documented: t" is reported exactly when t is a listed term occurring in the text |
| DoctorLinc.FindingsDistinct | agents/doctorlinc/main.py:363-365 | distinct terms give distinct findings |
| DoctorLinc.ClinicalTermsDistinct | agents/doctorlinc/main.py:358-361 | the seven clinical terms are distinct |
| DoctorLinc.ClinicalFindingsSpec | agents/doctorlinc/main.py:354-367 | at most seven findings, none repeated, exactly the terms occurring in the lowercased note |
| DoctorLinc.ExtractClinicalFindings | agents/doctorlinc/main.py:354-367 | the loop gives the specified findings |
| DoctorLinc.CollectFindings | agents/doctorlinc/main.py:363-367 | the loop gives the specified findings for any term list |
| DoctorLinc.RecommendationsFrom | agents/doctorlinc/main.py:376-380 | at most one entry per sentence |
| DoctorLinc.RecommendationsSpec | agents/doctorlinc/main.py:369-382 | at most one entry per sentence; each entry is the stripped form of a sentence with a keyword and still contains one; every sentence with a keyword is reported stripped |
| DoctorLinc.RecommendationsKeepKeyword | agents/doctorlinc/main.py:377-379 | every reported sentence contains some keyword |
| DoctorLinc.RecommendationsSound | agents/doctorlinc/main.py:376-379 | every entry is the stripped form of a sentence with a keyword |
| DoctorLinc.RecommendationsComplete | agents/doctorlinc/main.py:376-379 | every sentence with a keyword is reported, stripped |
| DoctorLinc.StrippedSentenceKeepsKeyword | agents/doctorlinc/main.py:378-379 | stripping keeps the keyword that selected the sentence |
| DoctorLinc.ExtractRecommendations | agents/doctorlinc/main.py:369-382 | the loops with `break` give the specified recommendations |
| DoctorLinc.CollectRecommendations | agents/doctorlinc/main.py:375-382 | the loops give the specified recommendations for any keyword list |
| DoctorLinc.AssessmentText | agents/doctorlinc/main.py:405 | an absent assessment reads as "", a string as itself, another value raises |
| DoctorLinc.Severity | agents/doctorlinc/main.py:404-411 | `high` exactly when the lowercased assessment contains an urgent keyword, `routine` otherwise |
| DoctorLinc.MissingAssessmentIsRoutine | agents/doctorlinc/main.py:405-411 | a note without an assessment is routine |
| DoctorLinc.AssessSeverity | agents/doctorlinc/main.py:401-411 | the loop with early return gives the specified severity |
| DoctorLinc.AnnotateAbsent | agents/doctorlinc/main.py:475-476 | a text containing none of the terms is unchanged by the replacements |
| DoctorLinc.ProcessTranscriptionSpec | agents/doctorlinc/main.py:462-478 | the identity unless the language is `ar`, and for `ar` too when no listed term occurs; replacing the first listed term, when it occurs, leaves its glossed form in the text |
| DoctorLinc.ProcessClinicalTranscription | agents/doctorlinc/main.py:462-478 | the loop of replacements gives the specified text |
| DoctorLinc.AnalyzeSymptomsSpec | agents/doctorlinc/main.py:486-515 | headache with nausea gives the migraine entry first, else fever with cough the respiratory entry, else the default |
| DoctorLinc.AnalyzeSymptomsIgnoresCaseAndOrder | agents/doctorlinc/main.py:502-507 | symptom lists with the same folded members get the same answer |
| DoctorLinc.DiagnoseByMembership | agents/doctorlinc/main.py:505-507 | the lookup reads the symptoms only through membership |
| DoctorLinc.AnalyzeSymptomList | agents/doctorlinc/main.py:480-515 | the loop gives the specified diagnosis |
| DoctorLinc.NamesOf | agents/doctorlinc/main.py:539 | the `name` of every medication, in order, and an error when one lacks it |
| DoctorLinc.NoteVisits | agents/doctorlinc/main.py:531-536 | one visit at most per record |
| DoctorLinc.NoteVisitsAppend | agents/doctorlinc/main.py:530-536 | visits of a longer list extend those of its prefix |
| DoctorLinc.GatheredVisits | agents/doctorlinc/main.py:530-536 | a completed pass records exactly the clinical notes' visits, in order |
| DoctorLinc.MedicationNamesSpec | agents/doctorlinc/main.py:537-539 | reading one prescription succeeds exactly when its `medications` is absent, empty, or a list of objects with names, and then yields those names |
| DoctorLinc.GatheredMedications | agents/doctorlinc/main.py:530-539 | a pass fails exactly when some prescription is malformed; a completed pass gathers every prescription's names, in order |
| DoctorLinc.PatientSummarySpec | agents/doctorlinc/main.py:517-541 | the total counts every record; the visits are those of the clinical notes among the first ten, and the medications the names listed by the prescriptions among them, in order |
| DoctorLinc.PatientSummaryFails | agents/doctorlinc/main.py:530-539 | the summary fails exactly when a prescription among the first ten records has a `medications` value the loop cannot read |
| DoctorLinc.SummaryIgnoresLaterRecords | agents/doctorlinc/main.py:530 | records past the tenth affect only the total |
| DoctorLinc.GeneratePatientSummary | agents/doctorlinc/main.py:517-541 | the loop gives the specified summary or failure |
| DoctorLinc.ErrorPersists | agents/doctorlinc/main.py:530-539 | a failure ends the pass whatever records follow |
| Common.GetOrNull | agents/doctorlinc/main.py:443-446 | `d.get(key)`: the value when the key is present, null when it is missing |
| DoctorLinc.ValidateMedication | agents/doctorlinc/main.py:442-449 | the fields are copied, instructions default to "", and the entry is marked validated |
| DoctorLinc.ValidatePrescriptionSpec | agents/doctorlinc/main.py:421-452 | the result copies the patient, diagnosis, notes, language and provider, and holds one validated entry per medication carrying its name, dosage, frequency, duration and instructions ("" when absent) |
| DoctorLinc.ValidatePrescriptionRequest | agents/doctorlinc/main.py:421-452 | the loop gives the specified validated prescription |
| Common.Lower | agents/doctorlinc/main.py:345 | `lower()` keeps the length and folds each character |
| Common.SplitKeepsOccurrence | agents/doctorlinc/main.py:347-349 | a needle free of `.` found in the lowercased text is found in a lowercased part of `split('.')` |
| Common.Strip | agents/doctorlinc/main.py:350 | `strip()` is the slice of its input left after cutting only whitespace from both ends, and it neither starts nor ends with whitespace |
| Common.StripKeepsOccurrence | agents/doctorlinc/main.py:379 | stripping keeps a needle that starts and ends with non-space |
| Common.ReplaceAbsent | agents/doctorlinc/main.py:476 | `replace` of an absent pattern leaves the text unchanged |
| Common.ReplacePresent | agents/doctorlinc/main.py:476 | `replace` of a present pattern leaves the replacement in the text |

## Left out

- FastAPI wiring is not modelled: routes, dependency injection, CORS, uvicorn and the app factories. Each handler's decisions are modelled with its inputs as parameters.
- SQLAlchemy engine and ORM plumbing is not modelled. The store is a record of sequences; only the unique and not-null columns constrain a commit. Foreign keys are not enforced, and neither are store faults that no constraint explains.
- `created_at`, `updated_at`, `generated_at`, `timestamp`, `processed_at` and `uptime` are integers or strings passed in. Their formatting (`isoformat`) is not modelled.
- The session row's `ip_address` and `user_agent` columns are not modelled.
- Redis connection handling is not modelled: `disconnect`, `set_cache`, `get_cache` and `delete_cache`. The server's reachability is a boolean parameter.
- The 24-hour `expire` on routing-event lists is not modelled, and neither is the exact formatting of cache keys.
- `pubsub.listen` is a finite sequence of incoming items, so the listen loop is modelled over a finite stretch of traffic.
- Concurrency is not modelled. This covers the listener task started by each `subscribe`, background tasks and asyncio scheduling. `BaseAgent.LincAgent.HeartbeatTick` models one iteration of the infinite heartbeat loop; the 30-second sleep is left out.
- httpx calls (health probes, direct POSTs, routed requests) are outcomes passed in, not performed.
- Orchestration.RouteSteps: the messages of a non-2xx status and of a body that is not JSON are fixed stand-ins (`StatusError`, `JsonDecodeError`). The source passes on httpx's `HTTPStatusError` text and the JSON decoder's message, which quote the URL, the reason phrase and the decoder position.
- In the `users` table, `role`, `preferred_language`, `is_active` and `is_verified` are nullable columns, but the model stores them as plain values. Every write the model performs gives them a value, through the column defaults or `UserCreate`. `full_name` is modelled as nullable, because the login and `/auth/me` replies depend on it.
- bcrypt hashing and verification are function parameters. JWT encoding is a function parameter, assumed injective only by the lemma that says so, and decoding is a `Decoded` outcome.
- The "Agent … is not healthy" text spells the family by its value (`doctor`), as f-strings format a `str`-mixin enum before Python 3.11; from 3.11 on it reads `AgentType.DOCTOR`. The repository does not pin a Python version.
- Common.Lower: folds ASCII letters only. Python's `lower()` also folds non-ASCII letters. Every keyword of the modelled tables is lower case already and Arabic has no case, but on the input side some non-ASCII characters fold to ASCII in Python: U+212A KELVIN SIGN lowers to `k`, so a request containing "TAL\u212A" matches the router keyword "talk" in the source and not in the model.
- Workflows.ApplyDataColumns: a known agent's update skips keys that are not tracked columns. In the source `setattr` also writes `id` (changing the primary key), `created_at`, `updated_at` and any other attribute name.
- The agent constructor's accepted keywords besides the columns, `Store.OtherAgentAttributes`, are the surrogate key, the timestamps, the relationship, `metadata` and `registry`. SQLAlchemy accepts any name the mapped class has as an attribute, which also includes dunder and `_sa_` names and `query` when a query property is configured; the model rejects those.
- Auth.SessionTokenExpiresWithSession: one clock reading `now` stands for both `datetime.utcnow()` calls, in `create_access_token` and for `expires_at`. The JWT library also truncates `exp` to whole seconds, so in the source the two instants can differ slightly.
- `_analyze_symptoms` sorts the folded symptoms; the model keeps them unsorted. The lookup reads them only through membership (`DoctorLinc.DiagnoseByMembership`), so the order cannot change the answer.
- DoctorLinc.ProcessTranscriptionSpec: states the gloss only for the first listed term. For the later terms it states only the identity cases, not that each occurring term ends up glossed; the later replacements' effect on earlier glosses is not proved.
- Python floats are opaque: the diagnosis confidence values and the 0.8 fallback score. The fallback score only makes `chatlinc` the sole candidate.
- `_transcribe_audio`, `_generate_clinical_codes` and `_generate_follow_up` return constants, and `_generate_fhir_document` only logs. `_validate_fhir_resource` is a single structural check outside the rule functions modelled here.
- DoctorLINC's HTTP handlers, `_process_clinical_note` and `_enhance_soap_note` only assemble the modelled rules into responses, so they are not modelled.
- Workflows.MasterLinc.ExecuteWorkflow: models only the path on which storing and publishing succeed. In the source, publishing never raises, because `publish` catches every error, so the `error` branch is unreachable. `Workflows.AfterExecute` still states what that branch would store.
- Orchestration.EndpointOf and Orchestration.MethodOf take the request's `endpoint` and `method` when they are strings. A non-string value would be passed on to httpx, which is not modelled.
- MasterLINC's `list_agents`, `health_check_agent`, `_check_agent_health`, `_collect_system_metrics` and `broadcast_message` routes are not modelled. They read the registry or forward to the messenger already modelled.
- `get_agent_registry` is not modelled; it only calls `check_agent_health` per family.
- Configuration comes from the environment. Only `agent_registry_ttl` (60 seconds) is used, as a constant.
