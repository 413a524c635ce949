/**
  The Supabase Realtime provider (`SupabaseProvider`): it relays document and
  presence (awareness) changes between replicas over one broadcast channel.
  Its only decisions are which events lead to a message on the channel,
  gated by the origin of a document change and by the `_isConnected` flag.

  `React` says what one event does; `Run` folds it over a sequence of events.
  The class's handlers are proved to do what `React` says, and the lemmas
  about `Run` are the promises of the protocol.
*/
module SupabaseSync {
  import opened Wrappers
  import opened Crdt

  const SyncUpdateEvent: string := "sync-update"
  const AwarenessUpdateEvent: string := "awareness-update"
  const RequestSyncEvent: string := "request-sync"
  /** The subscribe status that means the channel is joined. */
  const SubscribedStatus: string := "SUBSCRIBED"

  /** A broadcast payload: a plain array of numbers, or the empty object `{}`. */
  datatype Payload = Numbers(values: seq<int>) | EmptyObject

  /** One `channel.send({ type: 'broadcast', event, payload })`. */
  datatype Message = Message(event: string, payload: Payload)

  const RequestSyncMessage: Message := Message(RequestSyncEvent, EmptyObject)

  /** `Array.from(payload)`: the bytes as plain numbers. */
  function ToWire(bytes: Bytes): (w: seq<int>)
    ensures |w| == |bytes|
    ensures forall i :: 0 <= i < |w| ==> 0 <= w[i] < 256
  {
    seq(|bytes|, i requires 0 <= i < |bytes| => bytes[i] as int)
  }

  /** The ToUint8 conversion `new Uint8Array` applies to each number: reduction modulo 256. */
  function ToUint8(n: int): Byte {
    n % 256
  }

  /** `new Uint8Array(payload)` for an array of integers. */
  function FromWire(w: seq<int>): (bytes: Bytes)
    ensures |bytes| == |w|
  {
    seq(|w|, i requires 0 <= i < |w| => ToUint8(w[i]))
  }

  /** A payload sent as numbers is rebuilt into the same bytes on receipt. */
  lemma WireRoundTrip(bytes: Bytes)
    ensures FromWire(ToWire(bytes)) == bytes
  {
    var back := FromWire(ToWire(bytes));
    forall i | 0 <= i < |bytes| ensures back[i] == bytes[i] {
      assert ToWire(bytes)[i] == bytes[i];
    }
  }

  /** Every number is reduced modulo 256: numbers in 0..255 are kept, the others are wrapped, not rejected. */
  lemma FromWireWraps(w: seq<int>)
    ensures forall i :: 0 <= i < |w| ==> FromWire(w)[i] as int == w[i] % 256
    ensures forall i :: 0 <= i < |w| && 0 <= w[i] < 256 ==> FromWire(w)[i] as int == w[i]
    ensures FromWire([256, -1, 511]) == [0, 255, 255]
  {
    assert FromWire([256, -1, 511])[1] == 255;
  }

  /** An origin whose changes are this replica's own: neither `remote` nor `db-load`. */
  predicate IsLocalOrigin(origin: Origin) {
    origin != RemoteOrigin && origin != DbLoadOrigin
  }

  /** The doc `update` listener: a change is broadcast iff its origin is local and the provider is connected. */
  function DocUpdateMessages(update: Bytes, origin: Origin, connected: bool): (m: seq<Message>)
    ensures |m| <= 1
    ensures m != [] <==> IsLocalOrigin(origin) && connected
    ensures m != [] ==> m[0].event == SyncUpdateEvent && m[0].payload.Numbers? && FromWire(m[0].payload.values) == update
  {
    if IsLocalOrigin(origin) && connected then
      WireRoundTrip(update);
      [Message(SyncUpdateEvent, Numbers(ToWire(update)))]
    else []
  }

  /** The clients an awareness change covers, in the order the message lists them. */
  function ChangedClients(added: seq<int>, updated: seq<int>, removed: seq<int>): (clients: seq<int>)
    ensures |clients| == |added| + |updated| + |removed|
    ensures clients[..|added|] == added
    ensures clients[|added|..|added| + |updated|] == updated
    ensures clients[|added| + |updated|..] == removed
  {
    added + updated + removed
  }

  /**
    The foreign functions the provider depends on: the encoder of the full
    document state, the replica's verdict on which bytes are an update, and
    the encoder of some clients' awareness states.
  */
  datatype Codecs = Codecs(encodeState: seq<Applied> -> Bytes, accepts: Bytes -> bool, encodeAwareness: seq<int> -> Bytes)

  /** What the provider's decisions depend on and change: the connection flag, the replica, and whether the resync timer is set. */
  datatype ProviderState = ProviderState(connected: bool, history: seq<Applied>, ticking: bool)

  /** Something that reaches the provider. */
  datatype Event =
    | Status(status: string)                 // the subscribe callback
    | InboundSyncUpdate(payload: seq<int>)    // a `sync-update` broadcast from a peer
    | InboundAwareness(payload: seq<int>)     // an `awareness-update` broadcast from a peer
    | InboundRequestSync                      // a `request-sync` broadcast from a peer
    | DocUpdate(update: Bytes, origin: Origin) // a change applied to the replica by this process
    | AwarenessChange(added: seq<int>, updated: seq<int>, removed: seq<int>)
    | ResyncTick(states: nat)                 // the 30 s timer, with the size of the awareness map
    | Destroy

  datatype Reaction = Reaction(state: ProviderState, sent: seq<Message>)

  /** What the provider does on one event. */
  function React(codecs: Codecs, s: ProviderState, e: Event): Reaction {
    match e
    case Status(status) =>
      if status == SubscribedStatus then Reaction(s.(connected := true), [RequestSyncMessage])
      else Reaction(s.(connected := false), [])
    case InboundSyncUpdate(payload) =>
      var update := FromWire(payload);
      if codecs.accepts(update) then
        Reaction(s.(history := s.history + [Applied(update, RemoteOrigin)]), DocUpdateMessages(update, RemoteOrigin, s.connected))
      else Reaction(s, [])
    case InboundAwareness(_) => Reaction(s, [])
    case InboundRequestSync =>
      Reaction(s, if s.connected then [Message(SyncUpdateEvent, Numbers(ToWire(codecs.encodeState(s.history))))] else [])
    case DocUpdate(update, origin) =>
      Reaction(s.(history := s.history + [Applied(update, origin)]), DocUpdateMessages(update, origin, s.connected))
    case AwarenessChange(added, updated, removed) =>
      Reaction(s, if s.connected then [Message(AwarenessUpdateEvent, Numbers(ToWire(codecs.encodeAwareness(ChangedClients(added, updated, removed)))))] else [])
    case ResyncTick(states) =>
      Reaction(s, if s.ticking && s.connected && states > 1 then [RequestSyncMessage] else [])
    case Destroy => Reaction(s.(ticking := false), [])
  }

  /** The provider's state after a sequence of events, and every message it sent, in order. */
  function Run(codecs: Codecs, s: ProviderState, events: seq<Event>): Reaction
    decreases |events|
  {
    if events == [] then Reaction(s, [])
    else
      var first := React(codecs, s, events[0]);
      var rest := Run(codecs, first.state, events[1..]);
      Reaction(rest.state, first.sent + rest.sent)
  }

  /** Running a trace that starts with `e` is reacting to `e`, then running the rest. */
  lemma RunCons(codecs: Codecs, s: ProviderState, e: Event, rest: seq<Event>)
    ensures var first := React(codecs, s, e);
      Run(codecs, s, [e] + rest) == Reaction(Run(codecs, first.state, rest).state, first.sent + Run(codecs, first.state, rest).sent)
  {
    assert ([e] + rest)[0] == e && ([e] + rest)[1..] == rest;
  }

  /** Running two sequences of events one after the other is running their concatenation. */
  lemma {:induction false} RunAppend(codecs: Codecs, s: ProviderState, a: seq<Event>, b: seq<Event>)
    ensures var left := Run(codecs, s, a);
      Run(codecs, s, a + b) == Reaction(Run(codecs, left.state, b).state, left.sent + Run(codecs, left.state, b).sent)
    decreases |a|
  {
    if a != [] {
      var first := React(codecs, s, a[0]);
      assert (a + b)[0] == a[0] && (a + b)[1..] == a[1..] + b;
      RunAppend(codecs, first.state, a[1..], b);
    } else {
      assert a + b == b;
    }
  }

  /** The update an event applies to the replica, if any: a peer's update only when the replica accepts it. */
  function AppliedBy(codecs: Codecs, e: Event): seq<Applied> {
    match e
    case InboundSyncUpdate(payload) =>
      if codecs.accepts(FromWire(payload)) then [Applied(FromWire(payload), RemoteOrigin)] else []
    case DocUpdate(update, origin) => [Applied(update, origin)]
    case _ => []
  }

  function AllApplied(codecs: Codecs, events: seq<Event>): seq<Applied> {
    if events == [] then [] else AppliedBy(codecs, events[0]) + AllApplied(codecs, events[1..])
  }

  /** Every local update and every accepted peer update reaches the replica, in order, whether or not the provider is connected. */
  lemma {:induction false} HistoryRecordsEveryUpdate(codecs: Codecs, s: ProviderState, events: seq<Event>)
    ensures Run(codecs, s, events).state.history == s.history + AllApplied(codecs, events)
    decreases |events|
  {
    if events != [] {
      HistoryRecordsEveryUpdate(codecs, React(codecs, s, events[0]).state, events[1..]);
    }
  }

  /** An update that came from the channel or from the database. */
  predicate IsForeignUpdate(e: Event) {
    e.InboundSyncUpdate? || (e.DocUpdate? && !IsLocalOrigin(e.origin))
  }

  /** The awareness payloads a trace delivers, decoded, in order. */
  function AwarenessPayloads(events: seq<Event>): seq<Bytes> {
    if events == [] then []
    else
      var last := events[|events| - 1];
      AwarenessPayloads(events[..|events| - 1]) + (if last.InboundAwareness? then [FromWire(last.payload)] else [])
  }

  /** Every inbound awareness payload of a trace is handed to awareness, and nothing else is. */
  lemma {:induction false} AwarenessPayloadsExactly(events: seq<Event>)
    ensures forall k :: 0 <= k < |events| && events[k].InboundAwareness? ==>
      FromWire(events[k].payload) in AwarenessPayloads(events)
    ensures forall p :: p in AwarenessPayloads(events) ==>
      exists k :: 0 <= k < |events| && events[k].InboundAwareness? && p == FromWire(events[k].payload)
  {
    if events != [] {
      var init := events[..|events| - 1];
      AwarenessPayloadsExactly(init);
      forall k | 0 <= k < |events| - 1 && events[k].InboundAwareness?
        ensures FromWire(events[k].payload) in AwarenessPayloads(events)
      {
        assert init[k] == events[k];
      }
      forall p | p in AwarenessPayloads(events)
        ensures exists k :: 0 <= k < |events| && events[k].InboundAwareness? && p == FromWire(events[k].payload)
      {
        if p in AwarenessPayloads(init) {
          var k :| 0 <= k < |init| && init[k].InboundAwareness? && p == FromWire(init[k].payload);
          assert events[k] == init[k];
        }
      }
    }
  }

  /** No event of the trace is a `destroy`. */
  predicate NoDestroy(events: seq<Event>) {
    forall k :: 0 <= k < |events| ==> !events[k].Destroy?
  }

  /** Reacting to an update from a peer or the database sends nothing. */
  lemma ForeignReactSilent(codecs: Codecs, s: ProviderState, e: Event)
    requires IsForeignUpdate(e)
    ensures React(codecs, s, e).sent == []
  {
    if e.InboundSyncUpdate? {
      assert !IsLocalOrigin(RemoteOrigin);
    }
  }

  /**
    No echo: updates received from peers (applied as `remote`) and state
    loaded from the database (applied as `db-load`) are never broadcast,
    whatever the connection state.
  */
  lemma {:induction false} ForeignUpdatesNeverBroadcast(codecs: Codecs, s: ProviderState, events: seq<Event>)
    requires forall e :: e in events ==> IsForeignUpdate(e)
    ensures Run(codecs, s, events).sent == []
    ensures Run(codecs, s, events).state.connected == s.connected
    decreases |events|
  {
    if events != [] {
      assert events[0] in events;
      ForeignUpdatesNeverBroadcast(codecs, React(codecs, s, events[0]).state, events[1..]);
    }
  }

  /**
    No echo, event by event: wherever an update from a peer or from the
    database occurs in a trace, it adds no message, and the messages around it
    are those of the events before and after it.
  */
  lemma ForeignUpdateSilent(codecs: Codecs, s: ProviderState, before: seq<Event>, e: Event, after: seq<Event>)
    requires IsForeignUpdate(e)
    ensures var mid := Run(codecs, s, before);
      React(codecs, mid.state, e).sent == []
      && Run(codecs, s, before + [e] + after).sent == mid.sent + Run(codecs, React(codecs, mid.state, e).state, after).sent
  {
    var mid := Run(codecs, s, before);
    ForeignReactSilent(codecs, mid.state, e);
    assert before + [e] + after == before + ([e] + after);
    RunAppend(codecs, s, before, [e] + after);
    RunCons(codecs, mid.state, e, after);
  }

  /**
    Every `sync-update` the provider sends carries either an update made
    locally (an origin other than `remote` and `db-load`) or the full state,
    in answer to a peer's `request-sync`.
  */
  lemma {:induction false} SyncUpdatesHaveLocalSource(codecs: Codecs, s: ProviderState, events: seq<Event>)
    ensures forall m :: m in Run(codecs, s, events).sent && m.event == SyncUpdateEvent ==>
      InboundRequestSync in events
      || exists e :: e in events && e.DocUpdate? && IsLocalOrigin(e.origin) && m.payload == Numbers(ToWire(e.update))
    decreases |events|
  {
    if events != [] {
      var first := React(codecs, s, events[0]);
      SyncUpdatesHaveLocalSource(codecs, first.state, events[1..]);
      forall m | m in Run(codecs, s, events).sent && m.event == SyncUpdateEvent
        ensures InboundRequestSync in events
          || exists e :: e in events && e.DocUpdate? && IsLocalOrigin(e.origin) && m.payload == Numbers(ToWire(e.update))
      {
        assert events[0] in events;
        if m in first.sent {
          if !events[0].InboundRequestSync? {
            assert events[0].DocUpdate?;
          }
        } else {
          assert m in Run(codecs, first.state, events[1..]).sent;
          assert forall e :: e in events[1..] ==> e in events;
        }
      }
    }
  }

  /** Whether the events include a `SUBSCRIBED` status. */
  predicate Subscribes(events: seq<Event>) {
    exists e :: e in events && e == Status(SubscribedStatus)
  }

  /**
    While the channel is not joined nothing is sent: document changes,
    presence changes, peers' requests and timer ticks are all dropped, and
    nothing is kept to be sent later.
  */
  lemma {:induction false} DisconnectedSendsNothing(codecs: Codecs, s: ProviderState, events: seq<Event>)
    requires !s.connected && !Subscribes(events)
    ensures Run(codecs, s, events).sent == []
    ensures !Run(codecs, s, events).state.connected
    decreases |events|
  {
    if events != [] {
      assert events[0] in events;
      assert !Subscribes(events[1..]) by {
        assert forall e :: e in events[1..] ==> e in events;
      }
      DisconnectedSendsNothing(codecs, React(codecs, s, events[0]).state, events[1..]);
    }
  }

  /**
    Joining the channel sends exactly one `request-sync`, whatever changes
    were made while disconnected: they are not queued.
  */
  lemma ReconnectSendsOnlyRequest(codecs: Codecs, s: ProviderState, offline: seq<Event>)
    requires !s.connected && !Subscribes(offline)
    ensures var r := Run(codecs, s, offline + [Status(SubscribedStatus)]);
      r.sent == [RequestSyncMessage] && r.state.connected
      && r.state.history == s.history + AllApplied(codecs, offline)
  {
    RunAppend(codecs, s, offline, [Status(SubscribedStatus)]);
    DisconnectedSendsNothing(codecs, s, offline);
    HistoryRecordsEveryUpdate(codecs, s, offline);
  }

  /** A peer's `request-sync` is answered with one `sync-update` carrying the full encoded state, and only when connected. */
  lemma RequestSyncAnswer(codecs: Codecs, s: ProviderState)
    ensures var r := React(codecs, s, InboundRequestSync);
      r.state == s
      && (s.connected ==> |r.sent| == 1 && r.sent[0].event == SyncUpdateEvent && r.sent[0].payload.Numbers?
                          && FromWire(r.sent[0].payload.values) == codecs.encodeState(s.history))
      && (!s.connected ==> r.sent == [])
  {
    WireRoundTrip(codecs.encodeState(s.history));
  }

  /** Presence changes go out only when connected, listing added, then updated, then removed clients. */
  lemma AwarenessBroadcast(codecs: Codecs, s: ProviderState, added: seq<int>, updated: seq<int>, removed: seq<int>)
    ensures var r := React(codecs, s, AwarenessChange(added, updated, removed));
      r.state == s
      && (r.sent != [] <==> s.connected)
      && (s.connected ==> r.sent == [Message(AwarenessUpdateEvent, Numbers(ToWire(codecs.encodeAwareness(added + updated + removed))))])
  {
  }

  /** After `destroy` the timer never sends again; the replica and the connection flag are left as they were. */
  lemma {:induction false} DestroyStopsResync(codecs: Codecs, s: ProviderState, ticks: seq<nat>)
    ensures React(codecs, s, Destroy).state == s.(ticking := false)
    ensures Run(codecs, s.(ticking := false), seq(|ticks|, i requires 0 <= i < |ticks| => ResyncTick(ticks[i]))).sent == []
    decreases |ticks|
  {
    if ticks != [] {
      var events := seq(|ticks|, i requires 0 <= i < |ticks| => ResyncTick(ticks[i]));
      assert events[1..] == seq(|ticks[1..]|, i requires 0 <= i < |ticks[1..]| => ResyncTick(ticks[1..][i]));
      DestroyStopsResync(codecs, s, ticks[1..]);
    }
  }

  class SupabaseProvider {
    /** `_isConnected`. */
    var connected: bool
    /** `_resyncInterval` is set and not cleared. */
    var ticking: bool
    /** The channel has not been unsubscribed. */
    var subscribed: bool
    /** The awareness instance has not been destroyed. */
    var awarenessLive: bool
    /** Updates handed to `applyAwarenessUpdate` with origin `remote`, in order. */
    var awarenessApplied: seq<Bytes>
    /** Every message handed to `channel.send`, in order. */
    var sent: seq<Message>
    const doc: Doc
    /** `encodeAwarenessUpdate(this.awareness, clients)` (foreign; it reads the awareness states). */
    const encodeAwareness: seq<int> -> Bytes

    constructor (doc: Doc, encodeAwareness: seq<int> -> Bytes)
      ensures !connected && ticking && subscribed && awarenessLive
      ensures awarenessApplied == [] && sent == []
      ensures this.doc == doc && this.encodeAwareness == encodeAwareness
    {
      connected := false;
      ticking := true;
      subscribed := true;
      awarenessLive := true;
      awarenessApplied := [];
      sent := [];
      this.doc := doc;
      this.encodeAwareness := encodeAwareness;
    }

    function Encoders(): Codecs {
      Codecs(doc.encodeState, doc.accepts, encodeAwareness)
    }

    /** The part of the provider's state that `React` describes. */
    function State(): ProviderState
      reads this, doc
    {
      ProviderState(connected, doc.history, ticking)
    }

    /** `broadcast(event, payload)`: send the bytes as a plain array of numbers. */
    method Broadcast(event: string, payload: Bytes)
      modifies this`sent
      ensures sent == old(sent) + [Message(event, Numbers(ToWire(payload)))]
    {
      sent := sent + [Message(event, Numbers(ToWire(payload)))];
    }

    /** The doc `update` listener. */
    method OnDocUpdate(update: Bytes, origin: Origin)
      modifies this`sent
      ensures sent == old(sent) + DocUpdateMessages(update, origin, connected)
    {
      if origin != RemoteOrigin && origin != DbLoadOrigin && connected {
        Broadcast(SyncUpdateEvent, update);
      }
    }

    /** A change made to the replica by this process: Yjs applies it, then calls the `update` listener. */
    method ApplyLocal(update: Bytes, origin: Origin)
      modifies this`sent, doc`history
      ensures State() == React(Encoders(), old(State()), DocUpdate(update, origin)).state
      ensures sent == old(sent) + React(Encoders(), old(State()), DocUpdate(update, origin)).sent
    {
      doc.Transact(update, origin);
      OnDocUpdate(update, origin);
    }

    /**
      The `sync-update` handler: apply the peer's update with origin `remote`
      (which the listener then ignores). Bytes the replica rejects make the
      handler throw, and nothing changes.
    */
    method OnSyncUpdate(payload: seq<int>)
      modifies this`sent, doc`history
      ensures State() == React(Encoders(), old(State()), InboundSyncUpdate(payload)).state
      ensures sent == old(sent)
    {
      var update := FromWire(payload);
      var applied := doc.ApplyUpdate(update, RemoteOrigin);
      if applied {
        OnDocUpdate(update, RemoteOrigin);
      }
    }

    /** The `awareness-update` handler: hand the peer's presence to the awareness instance with origin `remote`. */
    method OnAwarenessUpdate(payload: seq<int>)
      modifies this`awarenessApplied
      ensures awarenessApplied == old(awarenessApplied) + [FromWire(payload)]
    {
      awarenessApplied := awarenessApplied + [FromWire(payload)];
    }

    /** The `request-sync` handler: when connected, send the full encoded state. */
    method OnRequestSync()
      modifies this`sent
      ensures sent == old(sent) + React(Encoders(), State(), InboundRequestSync).sent
    {
      if connected {
        var update := doc.EncodeStateAsUpdate();
        Broadcast(SyncUpdateEvent, update);
      }
    }

    /** The subscribe callback. */
    method OnSubscribeStatus(status: string)
      modifies this`connected, this`sent
      ensures State() == React(Encoders(), old(State()), Status(status)).state
      ensures sent == old(sent) + React(Encoders(), old(State()), Status(status)).sent
    {
      if status == SubscribedStatus {
        connected := true;
        sent := sent + [RequestSyncMessage];
      } else {
        connected := false;
      }
    }

    /** The awareness `update` listener: when connected, send the changed clients' states. */
    method OnAwarenessChange(added: seq<int>, updated: seq<int>, removed: seq<int>)
      modifies this`sent
      ensures sent == old(sent) + React(Encoders(), State(), AwarenessChange(added, updated, removed)).sent
    {
      if !connected {
        return;
      }
      var changedClients := added + updated + removed;
      var update := encodeAwareness(changedClients);
      Broadcast(AwarenessUpdateEvent, update);
    }

    /** The resync timer firing (it fires only while it is set). */
    method OnResyncTick(states: nat)
      modifies this`sent
      ensures sent == old(sent) + React(Encoders(), State(), ResyncTick(states)).sent
    {
      if ticking && connected && states > 1 {
        sent := sent + [RequestSyncMessage];
      }
    }

    /** `destroy`: clear the timer, leave the channel, destroy the awareness instance; the replica is kept. */
    method Destroy()
      modifies this`ticking, this`subscribed, this`awarenessLive
      ensures !ticking && !subscribed && !awarenessLive
      ensures State() == React(Encoders(), old(State()), Event.Destroy).state
    {
      ticking := false;
      subscribed := false;
      awarenessLive := false;
    }

    /** Deliver one event to the handler that receives it. */
    method Handle(e: Event)
      modifies this, doc`history
      ensures State() == React(Encoders(), old(State()), e).state
      ensures sent == old(sent) + React(Encoders(), old(State()), e).sent
      ensures awarenessApplied == old(awarenessApplied) + (if e.InboundAwareness? then [FromWire(e.payload)] else [])
      ensures subscribed == (old(subscribed) && !e.Destroy?)
      ensures awarenessLive == (old(awarenessLive) && !e.Destroy?)
    {
      match e
      case Status(status) => OnSubscribeStatus(status);
      case InboundSyncUpdate(payload) => OnSyncUpdate(payload);
      case InboundAwareness(payload) => OnAwarenessUpdate(payload);
      case InboundRequestSync => OnRequestSync();
      case DocUpdate(update, origin) => ApplyLocal(update, origin);
      case AwarenessChange(added, updated, removed) => OnAwarenessChange(added, updated, removed);
      case ResyncTick(states) => OnResyncTick(states);
      case Destroy => Destroy();
    }

    /**
      Deliver a sequence of events in order: the provider does what `Run`
      says, hands every awareness payload to awareness in order, and stays
      subscribed with live awareness until a `destroy`.
    */
    method HandleAll(events: seq<Event>)
      modifies this, doc`history
      ensures State() == Run(Encoders(), old(State()), events).state
      ensures sent == old(sent) + Run(Encoders(), old(State()), events).sent
      ensures awarenessApplied == old(awarenessApplied) + AwarenessPayloads(events)
      ensures subscribed == (old(subscribed) && NoDestroy(events))
      ensures awarenessLive == (old(awarenessLive) && NoDestroy(events))
    {
      var i := 0;
      while i < |events|
        invariant 0 <= i <= |events|
        invariant State() == Run(Encoders(), old(State()), events[..i]).state
        invariant sent == old(sent) + Run(Encoders(), old(State()), events[..i]).sent
        invariant awarenessApplied == old(awarenessApplied) + AwarenessPayloads(events[..i])
        invariant subscribed == (old(subscribed) && NoDestroy(events[..i]))
        invariant awarenessLive == (old(awarenessLive) && NoDestroy(events[..i]))
      {
        RunAppend(Encoders(), old(State()), events[..i], [events[i]]);
        assert events[..i + 1] == events[..i] + [events[i]];
        assert events[..i + 1][..i] == events[..i];
        Handle(events[i]);
        i := i + 1;
      }
      assert events[..i] == events;
    }
  }
}
