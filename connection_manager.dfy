/**
 * `connectionManager` of nostr_dht.js: the ring of relay URLs, the socket table
 * keyed by URL, the list of live connections, the handler registry, broadcast
 * and dispatch of inbound messages.
 *
 * WebSockets belong to the transport. A socket is an index into `net`, which
 * records for each socket ever constructed the relay URL its callbacks were
 * created for and its `readyState`. The transport's events (the socket opens,
 * starts closing, closes, delivers a message) are the methods `SocketOpened`,
 * `SocketClosing`, `SocketClosed` and `SocketMessage`; what the source's
 * callbacks do in reply is part of each. `socket.send` and handler
 * invocations are recorded in the logs `sent` and `calls`.
 */
module ConnectionManager {
  import opened Wrappers
  import opened Json
  import opened KeyManager
  import JsMap

  type Url = string
  type SocketId = nat
  type SubscriptionId = string

  /** A callback passed to `addHandler`; the model records its calls instead of running it. */
  type HandlerRef = nat

  /** `connect` resolves once this many connections are live. */
  const MinConnections: nat := 5

  datatype ReadyState = Connecting | Open | Closing | Closed
  {
    /** The number `WebSocket.readyState` reports. */
    function Code(): nat {
      match this
      case Connecting => 0
      case Open => 1
      case Closing => 2
      case Closed => 3
    }
  }

  /** A WebSocket: the relay URL its callbacks close over, and its readyState. */
  datatype Socket = Socket(url: Url, readyState: ReadyState)

  /** An entry `{url, socket}` of `connections`. */
  datatype Connection = Connection(url: Url, socket: SocketId)

  /** One `socket.send(data)`. */
  datatype Delivery = Delivery(socket: SocketId, data: string)

  /** One `handler(msg[2])`; `None` is `undefined`. */
  datatype HandlerCall = HandlerCall(handler: HandlerRef, payload: Option<Json>)

  // ---------------------------------------------------------------------------
  // The ring of relays

  /** `relays.shift()` followed by `relays.push(relay)`: the head moves to the tail. */
  function Rotate(ring: seq<Url>): (r: seq<Url>)
    requires ring != []
    ensures |r| == |ring| && multiset(r) == multiset(ring)
    ensures r[|r| - 1] == ring[0]
    ensures forall i :: 1 <= i < |ring| ==> r[i - 1] == ring[i]
  {
    assert ring == [ring[0]] + ring[1..];
    ring[1..] + [ring[0]]
  }

  /** The ring after k maintenance steps. */
  function RotateN(ring: seq<Url>, k: nat): (r: seq<Url>)
    requires ring != []
    ensures |r| == |ring|
  {
    if k == 0 then ring else Rotate(RotateN(ring, k - 1))
  }

  /** One step applied to the ring split after relay k - 1 splits it after relay k. */
  lemma RotateShiftsSplit(ring: seq<Url>, k: nat)
    requires 0 < k <= |ring|
    ensures Rotate(ring[k - 1..] + ring[..k - 1]) == ring[k..] + ring[..k]
  {
    var prev := ring[k - 1..] + ring[..k - 1];
    assert prev[0] == ring[k - 1];
    assert prev[1..] == ring[k..] + ring[..k - 1];
    assert ring[..k] == ring[..k - 1] + [ring[k - 1]];
  }

  /** After k <= |ring| steps the first k relays have moved, in order, behind the others. */
  lemma {:induction false} RotateNSplits(ring: seq<Url>, k: nat)
    requires ring != [] && k <= |ring|
    ensures RotateN(ring, k) == ring[k..] + ring[..k]
  {
    if k == 0 {
      assert ring[0..] == ring && ring[..0] == [];
    } else {
      RotateNSplits(ring, k - 1);
      RotateShiftsSplit(ring, k);
    }
  }

  /** Step k attempts relay k, so each relay is attempted once per |ring| steps, and then the ring is as it was. */
  lemma RingVisitsEachRelayInTurn(ring: seq<Url>, k: nat)
    requires ring != [] && k < |ring|
    ensures RotateN(ring, k)[0] == ring[k]
    ensures RotateN(ring, |ring|) == ring
  {
    RotateNSplits(ring, k);
    RotateNSplits(ring, |ring|);
    assert ring[|ring|..] == [] && ring[..|ring|] == ring;
  }

  // ---------------------------------------------------------------------------
  // Sockets and connections

  /** `s.readyState === 1`. */
  predicate IsOpenSocket(net: seq<Socket>, s: SocketId) {
    s < |net| && net[s].readyState.Code() == 1
  }

  /** `sockets[relay] && sockets[relay].readyState === 1`: the test that keeps a relay's socket. */
  predicate HasOpenSocket(sockets: map<Url, SocketId>, net: seq<Socket>, relay: Url) {
    relay in sockets && IsOpenSocket(net, sockets[relay])
  }

  /** `connections.filter(c => c.url !== relay)`. */
  function WithoutRelay(conns: seq<Connection>, relay: Url): (r: seq<Connection>)
    ensures forall c :: c in r <==> c in conns && c.url != relay
    ensures |r| <= |conns|
  {
    if conns == [] then []
    else (if conns[0].url != relay then [conns[0]] else []) + WithoutRelay(conns[1..], relay)
  }

  /** The filter distributes over concatenation: the entries it keeps stay in list order. */
  lemma {:induction false} WithoutRelayKeepsListOrder(a: seq<Connection>, b: seq<Connection>, relay: Url)
    ensures WithoutRelay(a + b, relay) == WithoutRelay(a, relay) + WithoutRelay(b, relay)
  {
    if a == [] {
      assert a + b == b;
    } else {
      var head := if a[0].url != relay then [a[0]] else [];
      WithoutRelayKeepsListOrder(a[1..], b, relay);
      assert (a + b)[0] == a[0] && (a + b)[1..] == a[1..] + b;
      calc {
        WithoutRelay(a + b, relay);
        head + WithoutRelay(a[1..] + b, relay);
        head + (WithoutRelay(a[1..], relay) + WithoutRelay(b, relay));
        (head + WithoutRelay(a[1..], relay)) + WithoutRelay(b, relay);
        WithoutRelay(a, relay) + WithoutRelay(b, relay);
      }
    }
  }

  /** The entries of one relay, in list order. */
  function OfRelay(conns: seq<Connection>, relay: Url): seq<Connection> {
    if conns == [] then []
    else (if conns[0].url == relay then [conns[0]] else []) + OfRelay(conns[1..], relay)
  }

  /** Removing a relay drops all of its entries and keeps every other relay's entries, in order. */
  lemma {:induction false} WithoutRelayRemovesExactlyThatRelay(conns: seq<Connection>, relay: Url, other: Url)
    ensures OfRelay(WithoutRelay(conns, relay), relay) == []
    ensures other != relay ==> OfRelay(WithoutRelay(conns, relay), other) == OfRelay(conns, other)
  {
    if conns != [] {
      WithoutRelayRemovesExactlyThatRelay(conns[1..], relay, other);
      var rest := WithoutRelay(conns[1..], relay);
      if conns[0].url != relay {
        var r := [conns[0]] + rest;
        assert WithoutRelay(conns, relay) == r;
        assert r[0] == conns[0] && r[1..] == rest;
        assert OfRelay(r, relay) == OfRelay(rest, relay);
        assert OfRelay(r, other) == (if conns[0].url == other then [conns[0]] else []) + OfRelay(rest, other);
      } else {
        assert WithoutRelay(conns, relay) == rest;
      }
    }
  }

  /** The sends `broadcast(data)` makes: one to each connection whose socket is open, in list order. */
  function Deliveries(conns: seq<Connection>, net: seq<Socket>, data: string): (r: seq<Delivery>)
    ensures |r| <= |conns|
    ensures forall d :: d in r ==> d.data == data && IsOpenSocket(net, d.socket)
    ensures forall d :: d in r ==> exists c :: c in conns && c.socket == d.socket
    ensures forall c :: c in conns && IsOpenSocket(net, c.socket) ==> Delivery(c.socket, data) in r
  {
    if conns == [] then []
    else
      var init, last := conns[..|conns| - 1], conns[|conns| - 1];
      assert forall c :: c in conns ==> c in init || c == last;
      assert forall c :: c in init ==> c in conns;
      Deliveries(init, net, data) + (if IsOpenSocket(net, last.socket) then [Delivery(last.socket, data)] else [])
  }

  /** Broadcasting to one connection sends once to its socket if that is open, and otherwise not at all. */
  lemma DeliveriesToOne(c: Connection, net: seq<Socket>, data: string)
    ensures Deliveries([c], net, data) == if IsOpenSocket(net, c.socket) then [Delivery(c.socket, data)] else []
  {
    assert [c][..0] == [];
  }

  /** Broadcasting to a concatenation sends to the first part, then to the second: list order. */
  lemma {:induction false} DeliveriesInListOrder(a: seq<Connection>, b: seq<Connection>, net: seq<Socket>, data: string)
    ensures Deliveries(a + b, net, data) == Deliveries(a, net, data) + Deliveries(b, net, data)
    decreases |b|
  {
    if b != [] {
      var b' := b[..|b| - 1];
      DeliveriesInListOrder(a, b', net, data);
      assert (a + b)[..|a + b| - 1] == a + b';
    } else {
      assert a + b == a;
    }
  }

  // ---------------------------------------------------------------------------
  // Dispatch

  /** The subscription id of an inbound message: `msg[1]` when `msg[0] === 'EVENT'` and `msg[1]` is a string. */
  function SubscriptionOf(msg: Json): Option<SubscriptionId> {
    if Element(msg, 0) == Some(JStr("EVENT")) && Element(msg, 1).Some? && Element(msg, 1).value.JStr?
    then Some(Element(msg, 1).value.s)
    else None
  }

  /** `msg[0] === 'EVENT' && msg[1] === subId`: exactly when subId is the message's subscription id. */
  function Routes(msg: Json, subId: SubscriptionId): (b: bool)
    ensures b <==> SubscriptionOf(msg) == Some(subId)
  {
    Element(msg, 0) == Some(JStr("EVENT")) && Element(msg, 1) == Some(JStr(subId))
  }

  /**
   * The calls `passToHandlers(msg)` makes, visiting the handlers in insertion
   * order: one call with `msg[2]` for each entry whose id the message routes to,
   * and no other.
   */
  function Dispatch(handlers: JsMap.Map<SubscriptionId, HandlerRef>, msg: Json): (r: seq<HandlerCall>)
    ensures |r| <= |handlers|
    ensures forall c :: c in r ==> c.payload == Element(msg, 2) && exists e :: e in handlers && Routes(msg, e.0) && c.handler == e.1
    ensures forall e :: e in handlers && Routes(msg, e.0) ==> HandlerCall(e.1, Element(msg, 2)) in r
  {
    if handlers == [] then []
    else
      var init, last := handlers[..|handlers| - 1], handlers[|handlers| - 1];
      assert forall e :: e in handlers ==> e in init || e == last;
      assert forall e :: e in init ==> e in handlers;
      Dispatch(init, msg) + (if Routes(msg, last.0) then [HandlerCall(last.1, Element(msg, 2))] else [])
  }

  /** One handler entry is called, with `msg[2]`, exactly when the message routes to its id. */
  lemma DispatchToOne(e: (SubscriptionId, HandlerRef), msg: Json)
    ensures Dispatch([e], msg) == if Routes(msg, e.0) then [HandlerCall(e.1, Element(msg, 2))] else []
  {
    assert [e][..0] == [];
  }

  /** Dispatching over a concatenation calls the first part's handlers, then the second's: insertion order. */
  lemma {:induction false} DispatchInInsertionOrder(a: JsMap.Map<SubscriptionId, HandlerRef>,
                                                    b: JsMap.Map<SubscriptionId, HandlerRef>, msg: Json)
    ensures Dispatch(a + b, msg) == Dispatch(a, msg) + Dispatch(b, msg)
    decreases |b|
  {
    if b != [] {
      var b' := b[..|b| - 1];
      DispatchInInsertionOrder(a, b', msg);
      assert (a + b)[..|a + b| - 1] == a + b';
    } else {
      assert a + b == a;
    }
  }

  /**
   * The handler registered under a message's subscription id is called once,
   * with `msg[2]`; no other handler is called, and a message that is not an
   * EVENT or names an unknown id calls none.
   */
  lemma {:induction false} DispatchCallsOnlyTheOwner(handlers: JsMap.Map<SubscriptionId, HandlerRef>, msg: Json)
    requires JsMap.KeysUnique(handlers)
    ensures SubscriptionOf(msg).None? ==> Dispatch(handlers, msg) == []
    ensures SubscriptionOf(msg).Some? ==>
      var id := SubscriptionOf(msg).value;
      Dispatch(handlers, msg) ==
        if JsMap.Get(handlers, id).Some? then [HandlerCall(JsMap.Get(handlers, id).value, Element(msg, 2))] else []
  {
    if handlers != [] {
      var init, last := handlers[..|handlers| - 1], handlers[|handlers| - 1];
      assert JsMap.KeysUnique(init);
      DispatchCallsOnlyTheOwner(init, msg);
      if SubscriptionOf(msg).Some? {
        var id := SubscriptionOf(msg).value;
        JsMap.GetSnoc(handlers, id);
        if last.0 == id {
          JsMap.GetIsPresent(init, id);
          assert JsMap.Get(init, id).None?;
        }
      }
    }
  }

  // ---------------------------------------------------------------------------
  // The connection manager object

  class Manager {
    /** `connectionManager.relays`: `None` until `connect` sets it. */
    var relays: Option<seq<Url>>
    /** `connectionManager.keyPair`: `None` until `connect` sets it. */
    var keyPair: Option<KeyPair>
    /** `connectionManager.connectionInterval` holds a timer. */
    var intervalStarted: bool
    var connections: seq<Connection>
    var handlers: JsMap.Map<SubscriptionId, HandlerRef>
    var sockets: map<Url, SocketId>

    /** The transport's side: every socket constructed, every send, every handler call. */
    var net: seq<Socket>
    var sent: seq<Delivery>
    var calls: seq<HandlerCall>

    /**
     * The socket table and the connection list only name sockets of their own
     * relay; the table never keeps a closed socket, and every listed connection
     * has opened and not yet closed.
     */
    ghost predicate Valid()
      reads this
    {
      && (forall u :: u in sockets ==> sockets[u] < |net| && net[sockets[u]].url == u && net[sockets[u]].readyState != Closed)
      && (forall c :: c in connections ==>
            c.socket < |net| && net[c.socket].url == c.url && net[c.socket].readyState in {Open, Closing})
      && JsMap.KeysUnique(handlers)
    }

    /** The object as the module creates it. */
    constructor ()
      ensures Valid()
      ensures relays == None && keyPair == None && !intervalStarted
      ensures connections == [] && handlers == [] && sockets == map[]
      ensures net == [] && sent == [] && calls == []
    {
      relays, keyPair, intervalStarted := None, None, false;
      connections, handlers, sockets := [], [], map[];
      net, sent, calls := [], [], [];
    }

    /**
     * `connect(relays, keyPair)`, setup only: the first call's relay list and key
     * pair win, and the maintenance timer is started once.
     */
    method Connect(relayList: seq<Url>, kp: KeyPair)
      requires Valid()
      modifies this
      ensures Valid()
      ensures relays == if old(relays).None? then Some(relayList) else old(relays)
      ensures keyPair == if old(keyPair).None? then Some(kp) else old(keyPair)
      ensures intervalStarted
      ensures connections == old(connections) && handlers == old(handlers) && sockets == old(sockets)
      ensures net == old(net) && sent == old(sent) && calls == old(calls)
    {
      if relays.None? {
        relays := Some(relayList);
      }
      if keyPair.None? {
        keyPair := Some(kp);
      }
      if !intervalStarted {
        intervalStarted := true;
      }
    }

    /** The condition the promise of `connect` waits for. */
    predicate Ready()
      reads this
    {
      |connections| >= MinConnections
    }

    /**
     * `connectAndMaintain`: take the head of the ring and put it back at the
     * tail; keep its socket when that is open, otherwise construct a new
     * (connecting) socket for it and make it the relay's table entry. Before
     * `connect` the ring is undefined and the call throws; on an empty ring
     * `new WebSocket(undefined)` throws. Either way nothing changes.
     */
    method ConnectAndMaintain()
      requires Valid()
      modifies this
      ensures Valid()
      ensures old(relays).None? || old(relays).value == [] ==>
        relays == old(relays) && sockets == old(sockets) && net == old(net)
      ensures old(relays).Some? && old(relays).value != [] ==>
        var ring := old(relays).value;
        && relays == Some(Rotate(ring))
        && if HasOpenSocket(old(sockets), old(net), ring[0])
           then sockets == old(sockets) && net == old(net)
           else sockets == old(sockets)[ring[0] := |old(net)|] && net == old(net) + [Socket(ring[0], Connecting)]
      ensures connections == old(connections) && handlers == old(handlers) && sent == old(sent) && calls == old(calls)
      ensures keyPair == old(keyPair) && intervalStarted == old(intervalStarted)
    {
      if relays.None? || relays.value == [] {
        return;
      }
      var ring := relays.value;
      var relay := ring[0];
      if relay in sockets && net[sockets[relay]].readyState.Code() == 1 {
        relays := Some(ring[1..] + [relay]);
      } else {
        var socket := |net|;
        net := net + [Socket(relay, Connecting)];
        sockets := sockets[relay := socket];
        relays := Some(ring[1..] + [relay]);
      }
    }

    /** The transport opens socket s; its `onopen` appends `{url: relay, socket}` to the connections. */
    method SocketOpened(s: SocketId)
      requires Valid() && s < |net| && net[s].readyState == Connecting
      modifies this
      ensures Valid()
      ensures net == old(net)[s := Socket(old(net[s].url), Open)]
      ensures connections == old(connections) + [Connection(old(net[s].url), s)]
      ensures relays == old(relays) && sockets == old(sockets) && handlers == old(handlers)
      ensures sent == old(sent) && calls == old(calls)
      ensures keyPair == old(keyPair) && intervalStarted == old(intervalStarted)
    {
      var relay := net[s].url;
      net := net[s := Socket(relay, Open)];
      connections := connections + [Connection(relay, s)];
    }

    /** The open socket s starts its closing handshake; no callback of the source runs. */
    method SocketClosing(s: SocketId)
      requires Valid() && s < |net| && net[s].readyState == Open
      modifies this
      ensures Valid()
      ensures net == old(net)[s := Socket(old(net[s].url), Closing)]
      ensures relays == old(relays) && sockets == old(sockets) && connections == old(connections)
      ensures handlers == old(handlers) && sent == old(sent) && calls == old(calls)
      ensures keyPair == old(keyPair) && intervalStarted == old(intervalStarted)
    {
      net := net[s := Socket(net[s].url, Closing)];
    }

    /**
     * The transport closes socket s (after a failed attempt or a live session);
     * its `onclose` removes every connection of its relay and deletes the
     * relay's table entry, whichever socket that entry holds.
     */
    method SocketClosed(s: SocketId)
      requires Valid() && s < |net| && net[s].readyState != Closed
      modifies this
      ensures Valid()
      ensures net == old(net)[s := Socket(old(net[s].url), Closed)]
      ensures connections == WithoutRelay(old(connections), old(net[s].url))
      ensures sockets == old(sockets) - {old(net[s].url)}
      ensures relays == old(relays) && handlers == old(handlers) && sent == old(sent) && calls == old(calls)
      ensures keyPair == old(keyPair) && intervalStarted == old(intervalStarted)
    {
      var relay := net[s].url;
      net := net[s := Socket(relay, Closed)];
      connections := WithoutRelay(connections, relay);
      sockets := sockets - {relay};
    }

    /**
     * `broadcast(data)`: send to every connection whose socket is open, in list
     * order; the others are skipped.
     */
    method Broadcast(data: string)
      requires Valid()
      modifies this
      ensures Valid()
      ensures sent == old(sent) + Deliveries(connections, net, data)
      ensures relays == old(relays) && sockets == old(sockets) && connections == old(connections)
      ensures handlers == old(handlers) && net == old(net) && calls == old(calls)
      ensures keyPair == old(keyPair) && intervalStarted == old(intervalStarted)
    {
      for i := 0 to |connections|
        modifies this`sent
        invariant sent == old(sent) + Deliveries(connections[..i], net, data)
      {
        var c := connections[i];
        if c.socket < |net| && net[c.socket].readyState.Code() == 1 {
          sent := sent + [Delivery(c.socket, data)];
        }
        assert connections[..i + 1][..i] == connections[..i];
      }
      assert connections[..|connections|] == connections;
    }

    /** `addHandler(subscriptionId, handler)`: `handlers.set`. */
    method AddHandler(subscriptionId: SubscriptionId, handler: HandlerRef)
      requires Valid()
      modifies this
      ensures Valid()
      ensures handlers == JsMap.Set(old(handlers), subscriptionId, handler)
      ensures relays == old(relays) && sockets == old(sockets) && connections == old(connections)
      ensures net == old(net) && sent == old(sent) && calls == old(calls)
      ensures keyPair == old(keyPair) && intervalStarted == old(intervalStarted)
    {
      JsMap.SetKeepsKeysUnique(handlers, subscriptionId, handler);
      handlers := JsMap.Set(handlers, subscriptionId, handler);
    }

    /** `passToHandlers(msg)`: call, in insertion order, each handler whose id the message routes to. */
    method PassToHandlers(msg: Json)
      requires Valid()
      modifies this
      ensures Valid()
      ensures calls == old(calls) + Dispatch(handlers, msg)
      ensures relays == old(relays) && sockets == old(sockets) && connections == old(connections)
      ensures handlers == old(handlers) && net == old(net) && sent == old(sent)
      ensures keyPair == old(keyPair) && intervalStarted == old(intervalStarted)
    {
      for i := 0 to |handlers|
        modifies this`calls
        invariant calls == old(calls) + Dispatch(handlers[..i], msg)
      {
        var (subId, handler) := handlers[i];
        if Element(msg, 0) == Some(JStr("EVENT")) && Element(msg, 1) == Some(JStr(subId)) {
          calls := calls + [HandlerCall(handler, Element(msg, 2))];
        }
        assert handlers[..i + 1][..i] == handlers[..i];
      }
      assert handlers[..|handlers|] == handlers;
    }

    /**
     * The transport delivers a frame on socket s, already parsed by `JSON.parse`;
     * `onmessage` passes it to the handlers. A WebSocket delivers messages only
     * while open. Every socket carries this callback, including one that is no
     * longer in the table or the connection list.
     */
    method SocketMessage(s: SocketId, msg: Json)
      requires Valid() && s < |net| && net[s].readyState == Open
      modifies this
      ensures Valid()
      ensures calls == old(calls) + Dispatch(handlers, msg)
      ensures relays == old(relays) && sockets == old(sockets) && connections == old(connections)
      ensures handlers == old(handlers) && net == old(net) && sent == old(sent)
      ensures keyPair == old(keyPair) && intervalStarted == old(intervalStarted)
    {
      PassToHandlers(msg);
    }
  }
}
