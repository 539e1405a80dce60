/** The publish/subscribe layer between agents: a broker holding one handler
    per channel, the decoration every published body receives, the rule by
    which incoming pub/sub traffic reaches handlers, the channel naming
    scheme, and the per-agent messenger built on top of the broker.

    The Redis server is an oracle: each broker call is given `reachable`,
    whether the server answered that call. */
module Messaging {
  import opened Common

  // ---------------------------------------------------------------------
  // Channels.

  /** The six broadcast channels, one per agent family. */
  const AgentChannels: map<string, string> := map[
    "system" := "linc:system",
    "healthcare" := "linc:healthcare",
    "business" := "linc:business",
    "development" := "linc:development",
    "content" := "linc:content",
    "orchestration" := "linc:orchestration"
  ]

  const SystemChannel: string := "linc:system"
  const OrchestrationChannel: string := "linc:orchestration"

  /** The private channel of one agent. */
  function DirectChannel(agentName: string): (c: string)
    ensures |c| == 11 + |agentName| && c[..11] == "linc:agent:" && c[11..] == agentName
  {
    "linc:agent:" + agentName
  }

  /** Every broadcast channel is `linc:` followed by its family name. */
  lemma BroadcastChannelNaming()
    ensures forall t :: t in AgentChannels ==> AgentChannels[t] == "linc:" + t
    ensures AgentChannels["system"] == SystemChannel && AgentChannels["orchestration"] == OrchestrationChannel
  {
  }

  /** Distinct agents listen on distinct private channels. */
  lemma DirectChannelInjective(a: string, b: string)
    ensures DirectChannel(a) == DirectChannel(b) ==> a == b
  {
    if DirectChannel(a) == DirectChannel(b) {
      assert a == DirectChannel(a)[11..];
    }
  }

  /** A private channel is never one of the broadcast channels: its sixth
      character is `a`, which starts no family name. */
  lemma DirectChannelNotBroadcast(agentName: string)
    ensures DirectChannel(agentName) !in AgentChannels.Values
    ensures DirectChannel(agentName) != SystemChannel && DirectChannel(agentName) != OrchestrationChannel
  {
    var c := DirectChannel(agentName);
    assert c[5] == 'a';
    forall t | t in AgentChannels
      ensures AgentChannels[t] != c
    {
      assert AgentChannels[t][5] != 'a';
    }
  }

  // ---------------------------------------------------------------------
  // Message bodies.

  /** The body actually sent by `publish`: the caller's body plus the
      publication time and the broker's identity, which override any keys
      of the same name. */
  function Decorate(message: map<string, Value>, now: string, brokerId: int): (r: map<string, Value>)
    ensures r.Keys == message.Keys + {"timestamp", "broker_id"}
    ensures r["timestamp"] == Str(now) && r["broker_id"] == Int(brokerId)
    ensures forall k :: k in message && k != "timestamp" && k != "broker_id" ==> r[k] == message[k]
  {
    message["timestamp" := Str(now)]["broker_id" := Int(brokerId)]
  }

  /** Decorating twice at the same instant is decorating once. */
  lemma DecorateIdempotent(message: map<string, Value>, now: string, brokerId: int)
    ensures Decorate(Decorate(message, now, brokerId), now, brokerId) == Decorate(message, now, brokerId)
  {
  }

  function DirectMessage(from: string, to: string, messageType: string, payload: map<string, Value>): (m: map<string, Value>)
    ensures m.Keys == {"from_agent", "to_agent", "message_type", "payload"}
    ensures m["from_agent"] == Str(from) && m["to_agent"] == Str(to)
    ensures m["message_type"] == Str(messageType) && m["payload"] == Object(payload)
  {
    map["from_agent" := Str(from), "to_agent" := Str(to), "message_type" := Str(messageType), "payload" := Object(payload)]
  }

  function BroadcastMessage(from: string, messageType: string, payload: map<string, Value>): (m: map<string, Value>)
    ensures m.Keys == {"from_agent", "message_type", "payload", "broadcast"}
    ensures m["from_agent"] == Str(from) && m["broadcast"] == Bool(true)
    ensures m["message_type"] == Str(messageType) && m["payload"] == Object(payload)
  {
    map["from_agent" := Str(from), "message_type" := Str(messageType), "payload" := Object(payload), "broadcast" := Bool(true)]
  }

  /** A system alert; missing or empty metadata is sent as `{}`. */
  function AlertMessage(from: string, level: string, text: string, metadata: Option<map<string, Value>>): (m: map<string, Value>)
    ensures m.Keys == {"from_agent", "alert_level", "message", "metadata"}
    ensures m["from_agent"] == Str(from) && m["alert_level"] == Str(level) && m["message"] == Str(text)
    ensures metadata.None? ==> m["metadata"] == Object(map[])
    ensures metadata.Some? ==> m["metadata"] == Object(metadata.value)
  {
    var md := match metadata
      case None => map[]
      case Some(d) => if |d| == 0 then map[] else d;
    map["from_agent" := Str(from), "alert_level" := Str(level), "message" := Str(text), "metadata" := Object(md)]
  }

  /** Where `broadcast_to_type` publishes: the family's channel, or nowhere
      for a type that has none. */
  function BroadcastTarget(agentType: string): (r: Option<string>)
    ensures r.Some? <==> agentType in {"system", "healthcare", "business", "development", "content", "orchestration"}
    ensures r.Some? ==> r.value == "linc:" + agentType
  {
    if agentType in AgentChannels then Some(AgentChannels[agentType]) else None
  }

  // ---------------------------------------------------------------------
  // Dispatch of incoming traffic.

  /** The handlers a subscriber can register; the messenger's three are
      named, any other callable is `External`. */
  datatype Handler = DirectHandler | SystemHandler | OrchestrationHandler | External(name: string)

  /** One item read from the pub/sub connection: its kind (`message`,
      `subscribe`, ...), its channel, and its data when that decodes as JSON. */
  datatype Incoming = Incoming(kind: string, channel: string, data: Option<Value>)

  /** A handler invocation, and whether the handler raised. */
  datatype Delivery = Delivery(channel: string, handler: Handler, data: Value, raised: bool)

  /** The handler invocations the listen loop makes for `incoming`: only
      `message` items on subscribed channels reach a handler; a raising
      handler is caught and the loop goes on; data that does not decode
      (even on an unsubscribed channel) ends the loop. `raises` says which
      invocations raise. */
  function Dispatch(subs: map<string, Handler>, incoming: seq<Incoming>, raises: (Handler, Value) -> bool): (log: seq<Delivery>)
    ensures |log| <= |incoming|
    ensures forall k :: 0 <= k < |log| ==>
      log[k].channel in subs && log[k].handler == subs[log[k].channel]
      && log[k].raised == raises(log[k].handler, log[k].data)
  {
    if |incoming| == 0 then []
    else
      var m := incoming[0];
      if m.kind != "message" then Dispatch(subs, incoming[1..], raises)
      else match m.data
        case None => []
        case Some(d) =>
          (if m.channel in subs then [Delivery(m.channel, subs[m.channel], d, raises(subs[m.channel], d))] else [])
          + Dispatch(subs, incoming[1..], raises)
  }

  /** One step of the listen loop: the first item's invocation, if any,
      followed by the rest, unless its data does not decode. */
  lemma DispatchStep(subs: map<string, Handler>, incoming: seq<Incoming>, raises: (Handler, Value) -> bool)
    requires |incoming| > 0
    ensures var m := incoming[0];
      Dispatch(subs, incoming, raises) ==
        if m.kind != "message" then Dispatch(subs, incoming[1..], raises)
        else if m.data.None? then []
        else (if m.channel in subs then [Delivery(m.channel, subs[m.channel], m.data.value, raises(subs[m.channel], m.data.value))] else [])
             + Dispatch(subs, incoming[1..], raises)
  {
  }

  /** What was invoked, with what, regardless of how the handler ended. */
  function Invocations(log: seq<Delivery>): (r: seq<(string, Value)>)
    ensures |r| == |log|
    ensures forall k :: 0 <= k < |log| ==> r[k] == (log[k].channel, log[k].data)
  {
    if |log| == 0 then [] else [(log[0].channel, log[0].data)] + Invocations(log[1..])
  }

  lemma InvocationsAppend(a: seq<Delivery>, b: seq<Delivery>)
    ensures Invocations(a + b) == Invocations(a) + Invocations(b)
  {
  }

  /** Handler failures are caught: which handlers run, on what, does not
      depend on whether any of them raises. */
  lemma {:induction false} DispatchIgnoresHandlerFailures(subs: map<string, Handler>, incoming: seq<Incoming>,
                                                          raises1: (Handler, Value) -> bool, raises2: (Handler, Value) -> bool)
    ensures Invocations(Dispatch(subs, incoming, raises1)) == Invocations(Dispatch(subs, incoming, raises2))
  {
    if |incoming| > 0 {
      DispatchIgnoresHandlerFailures(subs, incoming[1..], raises1, raises2);
      var m := incoming[0];
      if m.kind == "message" && m.data.Some? {
        var d := m.data.value;
        var head1 := if m.channel in subs then [Delivery(m.channel, subs[m.channel], d, raises1(subs[m.channel], d))] else [];
        var head2 := if m.channel in subs then [Delivery(m.channel, subs[m.channel], d, raises2(subs[m.channel], d))] else [];
        InvocationsAppend(head1, Dispatch(subs, incoming[1..], raises1));
        InvocationsAppend(head2, Dispatch(subs, incoming[1..], raises2));
      }
    }
  }

  /** The `message` items on subscribed channels. */
  function Eligible(subs: map<string, Handler>, incoming: seq<Incoming>): (n: nat)
    ensures n <= |incoming|
  {
    if |incoming| == 0 then 0
    else (if incoming[0].kind == "message" && incoming[0].channel in subs then 1 else 0) + Eligible(subs, incoming[1..])
  }

  /** The channel and decoded data of each `message` item on a subscribed
      channel whose data decodes, in arrival order. */
  function EligibleItems(subs: map<string, Handler>, incoming: seq<Incoming>): (r: seq<(string, Value)>)
    ensures |r| <= |incoming|
  {
    if |incoming| == 0 then []
    else
      var m := incoming[0];
      (if m.kind == "message" && m.channel in subs && m.data.Some? then [(m.channel, m.data.value)] else [])
      + EligibleItems(subs, incoming[1..])
  }

  /** When every message decodes, each eligible item is dispatched exactly
      once, in arrival order, and nothing else is. */
  lemma {:induction false} DispatchComplete(subs: map<string, Handler>, incoming: seq<Incoming>, raises: (Handler, Value) -> bool)
    requires forall j :: 0 <= j < |incoming| && incoming[j].kind == "message" ==> incoming[j].data.Some?
    ensures |Dispatch(subs, incoming, raises)| == Eligible(subs, incoming)
    ensures Invocations(Dispatch(subs, incoming, raises)) == EligibleItems(subs, incoming)
  {
    if |incoming| > 0 {
      assert forall j :: 0 <= j < |incoming| - 1 ==> incoming[1..][j] == incoming[j + 1];
      DispatchComplete(subs, incoming[1..], raises);
      var m := incoming[0];
      if m.kind == "message" {
        var d := m.data.value;
        var head := if m.channel in subs then [Delivery(m.channel, subs[m.channel], d, raises(subs[m.channel], d))] else [];
        InvocationsAppend(head, Dispatch(subs, incoming[1..], raises));
      }
    }
  }

  /** An undecodable message ends the loop: nothing after it is dispatched. */
  lemma {:induction false} DispatchStopsAtUndecodable(subs: map<string, Handler>, incoming: seq<Incoming>,
                                                      raises: (Handler, Value) -> bool, k: nat)
    requires k < |incoming| && incoming[k].kind == "message" && incoming[k].data.None?
    ensures Dispatch(subs, incoming, raises) == Dispatch(subs, incoming[..k], raises)
  {
    if k > 0 {
      assert incoming[1..][k - 1] == incoming[k];
      DispatchStopsAtUndecodable(subs, incoming[1..], raises, k - 1);
      assert incoming[..k][1..] == incoming[1..][..k - 1];
    } else {
      assert incoming[..k] == [];
    }
  }

  /** Every invocation answers a `message` item read on its channel. */
  lemma {:induction false} DispatchSound(subs: map<string, Handler>, incoming: seq<Incoming>, raises: (Handler, Value) -> bool, k: nat)
    requires k < |Dispatch(subs, incoming, raises)|
    ensures exists j :: (0 <= j < |incoming| && incoming[j].kind == "message"
      && incoming[j].channel == Dispatch(subs, incoming, raises)[k].channel
      && incoming[j].data == Some(Dispatch(subs, incoming, raises)[k].data))
  {
    var m := incoming[0];
    var rest := Dispatch(subs, incoming[1..], raises);
    if m.kind != "message" {
      DispatchSound(subs, incoming[1..], raises, k);
      var j :| 0 <= j < |incoming[1..]| && incoming[1..][j].kind == "message"
        && incoming[1..][j].channel == rest[k].channel && incoming[1..][j].data == Some(rest[k].data);
      assert incoming[j + 1] == incoming[1..][j];
    } else {
      var d := m.data.value;
      if m.channel in subs && k == 0 {
        assert incoming[0].data == Some(Dispatch(subs, incoming, raises)[0].data);
      } else {
        var k' := if m.channel in subs then k - 1 else k;
        assert Dispatch(subs, incoming, raises)[k] == rest[k'];
        DispatchSound(subs, incoming[1..], raises, k');
        var j :| 0 <= j < |incoming[1..]| && incoming[1..][j].kind == "message"
          && incoming[1..][j].channel == rest[k'].channel && incoming[1..][j].data == Some(rest[k'].data);
        assert incoming[j + 1] == incoming[1..][j];
      }
    }
  }

  // ---------------------------------------------------------------------
  // The broker.

  /** A body as it went out on a channel. */
  datatype Publication = Publication(channel: string, body: map<string, Value>)

  class MessageBroker {
    /** At most one handler per channel. */
    var subscribers: map<string, Handler>
    var isConnected: bool
    /** What reached the server, in order. */
    var published: seq<Publication>
    /** The broker's identity as stamped on what it publishes. */
    const brokerId: int

    constructor (brokerId: int)
      ensures this.brokerId == brokerId
      ensures subscribers == map[] && !isConnected && published == []
    {
      this.brokerId := brokerId;
      subscribers, isConnected, published := map[], false, [];
    }

    /** Connects when the server answers the ping. */
    method Connect(reachable: bool)
      modifies this
      ensures isConnected == reachable
      ensures subscribers == old(subscribers) && published == old(published)
    {
      isConnected := reachable;
    }

    /** Publishes the decorated body; a failure is logged and swallowed. */
    method Publish(channel: string, message: map<string, Value>, now: string, reachable: bool)
      modifies this
      ensures isConnected == (old(isConnected) || reachable)
      ensures published == old(published) + (if reachable then [Publication(channel, Decorate(message, now, brokerId))] else [])
      ensures subscribers == old(subscribers)
    {
      if !isConnected {
        Connect(reachable);
      }
      if reachable {
        published := published + [Publication(channel, Decorate(message, now, brokerId))];
      }
    }

    /** Sets or replaces the channel's handler; a failure is logged and swallowed. */
    method Subscribe(channel: string, handler: Handler, reachable: bool)
      modifies this
      ensures isConnected == (old(isConnected) || reachable)
      ensures subscribers == if reachable then old(subscribers)[channel := handler] else old(subscribers)
      ensures published == old(published)
    {
      if !isConnected {
        Connect(reachable);
      }
      if reachable {
        subscribers := subscribers[channel := handler];
      }
    }

    /** Removes the channel's handler if it has one; other channels keep theirs. */
    method Unsubscribe(channel: string, reachable: bool)
      modifies this
      ensures subscribers == if reachable then old(subscribers) - {channel} else old(subscribers)
      ensures isConnected == old(isConnected) && published == old(published)
    {
      if reachable && channel in subscribers {
        subscribers := subscribers - {channel};
      }
    }

    /** The listen loop over a finite stretch of incoming traffic. */
    method Listen(incoming: seq<Incoming>, raises: (Handler, Value) -> bool) returns (log: seq<Delivery>)
      ensures log == Dispatch(subscribers, incoming, raises)
    {
      var subs := subscribers;
      log := [];
      var i := 0;
      while i < |incoming|
        invariant 0 <= i <= |incoming|
        invariant log + Dispatch(subs, incoming[i..], raises) == Dispatch(subs, incoming, raises)
      {
        var m := incoming[i];
        assert incoming[i..][0] == m && incoming[i..][1..] == incoming[i + 1..];
        DispatchStep(subs, incoming[i..], raises);
        ghost var rest := Dispatch(subs, incoming[i + 1..], raises);
        if m.kind == "message" {
          if m.data.None? {
            assert log + [] == log;
            return;
          }
          var d := m.data.value;
          if m.channel in subs {
            var h := subs[m.channel];
            var delivery := Delivery(m.channel, h, d, raises(h, d));
            assert log + ([delivery] + rest) == (log + [delivery]) + rest;
            log := log + [delivery];
          } else {
            assert [] + rest == rest;
          }
        }
        i := i + 1;
      }
      assert incoming[i..] == [];
      assert log + [] == log;
    }
  }

  /** The three subscriptions an agent's messenger makes on connecting. */
  function MessengerSubscriptions(subs: map<string, Handler>, agentName: string): (r: map<string, Handler>)
    ensures r.Keys == subs.Keys + {DirectChannel(agentName), SystemChannel, OrchestrationChannel}
    ensures r[DirectChannel(agentName)] == DirectHandler
    ensures r[SystemChannel] == SystemHandler && r[OrchestrationChannel] == OrchestrationHandler
    ensures forall c :: c in subs && c != DirectChannel(agentName) && c != SystemChannel && c != OrchestrationChannel ==> r[c] == subs[c]
  {
    DirectChannelNotBroadcast(agentName);
    subs[DirectChannel(agentName) := DirectHandler][SystemChannel := SystemHandler][OrchestrationChannel := OrchestrationHandler]
  }

  /** The messaging interface of one agent. */
  class AgentMessenger {
    const agentName: string
    const broker: MessageBroker

    constructor (agentName: string, brokerId: int)
      ensures this.agentName == agentName && fresh(broker) && broker.brokerId == brokerId
      ensures broker.subscribers == map[] && !broker.isConnected && broker.published == []
    {
      this.agentName := agentName;
      broker := new MessageBroker(brokerId);
    }

    /** Connects, then listens on its private, the system and the
        orchestration channels. */
    method Connect(reachable: bool)
      modifies broker
      ensures broker.isConnected == reachable
      ensures broker.subscribers == if reachable then MessengerSubscriptions(old(broker.subscribers), agentName) else old(broker.subscribers)
      ensures broker.published == old(broker.published)
    {
      broker.Connect(reachable);
      broker.Subscribe(DirectChannel(agentName), DirectHandler, reachable);
      broker.Subscribe(AgentChannels["system"], SystemHandler, reachable);
      broker.Subscribe(AgentChannels["orchestration"], OrchestrationHandler, reachable);
    }

    method SendToAgent(target: string, messageType: string, payload: map<string, Value>, now: string, reachable: bool)
      modifies broker
      ensures broker.published == old(broker.published)
        + (if reachable then [Publication(DirectChannel(target), Decorate(DirectMessage(agentName, target, messageType, payload), now, broker.brokerId))] else [])
      ensures broker.subscribers == old(broker.subscribers) && broker.isConnected == (old(broker.isConnected) || reachable)
    {
      broker.Publish(DirectChannel(target), DirectMessage(agentName, target, messageType, payload), now, reachable);
    }

    /** Publishes on the family's channel; an unknown family publishes nothing. */
    method BroadcastToType(agentType: string, messageType: string, payload: map<string, Value>, now: string, reachable: bool)
      modifies broker
      ensures broker.published == old(broker.published)
        + (if reachable && BroadcastTarget(agentType).Some?
           then [Publication(BroadcastTarget(agentType).value, Decorate(BroadcastMessage(agentName, messageType, payload), now, broker.brokerId))]
           else [])
      ensures broker.subscribers == old(broker.subscribers)
      ensures broker.isConnected == (old(broker.isConnected) || (reachable && BroadcastTarget(agentType).Some?))
    {
      if agentType in AgentChannels {
        broker.Publish(AgentChannels[agentType], BroadcastMessage(agentName, messageType, payload), now, reachable);
      }
    }

    method SendSystemAlert(level: string, text: string, metadata: Option<map<string, Value>>, now: string, reachable: bool)
      modifies broker
      ensures broker.published == old(broker.published)
        + (if reachable then [Publication(SystemChannel, Decorate(AlertMessage(agentName, level, text, metadata), now, broker.brokerId))] else [])
      ensures broker.subscribers == old(broker.subscribers) && broker.isConnected == (old(broker.isConnected) || reachable)
    {
      broker.Publish(AgentChannels["system"], AlertMessage(agentName, level, text, metadata), now, reachable);
    }
  }
}
