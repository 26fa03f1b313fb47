/**
 * The exported interface of nostr_dht.js: `startConnections`, `announceData`
 * and `subscribeToData`, over the one module-level connection manager and the
 * two maps between `[tag, topic]` pairs and subscription ids.
 */
module NostrDht {
  import opened Wrappers
  import opened Json
  import opened Utils
  import opened Platform
  import opened Events
  import opened KeyManager
  import opened EventManager
  import opened ConnectionManager
  import JsMap

  /** The hosts of the built-in relay list, in the order the ring starts in. */
  const RelayHosts: seq<string> := [
    "relay.nostr.net",
    "relay.snort.social",
    "relay.piazza.today",
    "relay.exit.pub",
    "nostr.lu.ke",
    "nostr.mom",
    "relay.urbanzap.space",
    "nostr.data.haus",
    "nostr.sathoarder.com",
    "relay.nostromo.social",
    "relay.nostr.bg",
    "nostr.stakey.net",
    "nostr.vulpem.com",
    "a.nos.lol",
    "eu.purplerelay.com",
    "nostr2.sanhauf.com",
    "e.nos.lol"
  ]

  /** The built-in relay URLs: each host behind `wss://`, in the same order. */
  function DefaultRelays(): (r: seq<Url>)
    ensures |r| == |RelayHosts| == 17
    ensures forall i :: 0 <= i < |r| ==> 6 <= |r[i]| && r[i][..6] == "wss://" && r[i][6..] == RelayHosts[i]
  {
    seq(|RelayHosts|, i requires 0 <= i < |RelayHosts| => "wss://" + RelayHosts[i])
  }

  /** Subscription ids are this many characters long. */
  const SubscriptionIdLength: nat := 64

  /**
   * The array `[tag, topic]` used as a `Map` key: a fresh object on every
   * call, so keys compare by identity, not by contents.
   */
  class TagTopic {
    const tag: string
    const topic: string

    constructor (tag: string, topic: string)
      ensures this.tag == tag && this.topic == topic
    {
      this.tag := tag;
      this.topic := topic;
    }
  }

  /** The module state: the connection manager and the two subscription maps. */
  class Dht {
    const manager: Manager
    var tagTopicToSubscriptionId: JsMap.Map<TagTopic, SubscriptionId>
    var subscriptionIdToTagTopic: JsMap.Map<SubscriptionId, (string, string)>

    ghost predicate Valid()
      reads this, manager
    {
      && manager.Valid()
      && JsMap.KeysUnique(tagTopicToSubscriptionId)
      && JsMap.KeysUnique(subscriptionIdToTagTopic)
    }

    /** The state when the module is loaded. */
    constructor ()
      ensures Valid() && fresh(manager)
      ensures manager.relays == None && manager.keyPair == None && !manager.intervalStarted
      ensures manager.connections == [] && manager.handlers == [] && manager.sockets == map[]
      ensures manager.net == [] && manager.sent == [] && manager.calls == []
      ensures tagTopicToSubscriptionId == [] && subscriptionIdToTagTopic == []
    {
      manager := new Manager();
      tagTopicToSubscriptionId := [];
      subscriptionIdToTagTopic := [];
    }

    /**
     * `startConnections()`, given the result of `randomPrivateKey()`: make a key
     * pair and pass it with the built-in relays to `connect`, whose first call wins.
     */
    method StartConnections(p: Primitives, privateKey: PrivateKey)
      requires Valid()
      modifies manager
      ensures Valid()
      ensures manager.relays == if old(manager.relays).None? then Some(DefaultRelays()) else old(manager.relays)
      ensures manager.keyPair ==
        if old(manager.keyPair).None? then Some(GenerateKeypair(p, privateKey)) else old(manager.keyPair)
      ensures manager.intervalStarted
      ensures manager.connections == old(manager.connections) && manager.handlers == old(manager.handlers)
      ensures manager.sockets == old(manager.sockets) && manager.net == old(manager.net)
      ensures manager.sent == old(manager.sent) && manager.calls == old(manager.calls)
    {
      var keyPair := GenerateKeypair(p, privateKey);
      manager.Connect(DefaultRelays(), keyPair);
    }

    /**
     * `connectionManager.announceData(message, tag, topic)` at clock reading
     * `nowMs`: broadcast the signed EVENT message. Before `connect` there is no
     * key pair; reading its public key throws, and nothing is sent.
     */
    method AnnounceData(p: Primitives, message: string, tag: string, topic: string, nowMs: int) returns (thrown: bool)
      requires Valid()
      modifies manager
      ensures Valid()
      ensures thrown <==> old(manager.keyPair).None?
      ensures thrown ==> manager.sent == old(manager.sent)
      ensures old(manager.keyPair).Some? ==>
        manager.sent == old(manager.sent) +
          Deliveries(manager.connections, manager.net,
                     p.stringify(GenerateSendEvent(p, old(manager.keyPair).value, message, tag, topic, nowMs)))
      ensures manager.relays == old(manager.relays) && manager.keyPair == old(manager.keyPair)
      ensures manager.intervalStarted == old(manager.intervalStarted)
      ensures manager.connections == old(manager.connections) && manager.handlers == old(manager.handlers)
      ensures manager.sockets == old(manager.sockets) && manager.net == old(manager.net)
      ensures manager.calls == old(manager.calls)
    {
      if manager.keyPair.None? {
        return true;
      }
      var data := GenerateSendEvent(p, manager.keyPair.value, message, tag, topic, nowMs);
      manager.Broadcast(p.stringify(data));
      return false;
    }

    /**
     * `subscribeToData(tag, topic, handler)` with the `Math.random()` draws
     * `random` and clock reading `nowMs`: draw a 64-character id, record it in
     * both maps (under a fresh `[tag, topic]` key), register the handler under
     * it and broadcast the REQ message.
     */
    method SubscribeToData(p: Primitives, tag: string, topic: string, handler: HandlerRef,
                           random: seq<real>, nowMs: int) returns (subscriptionId: SubscriptionId)
      requires Valid()
      requires |random| == SubscriptionIdLength
      requires forall i :: 0 <= i < |random| ==> 0.0 <= random[i] < 1.0
      modifies this, manager
      ensures Valid()
      ensures |subscriptionId| == SubscriptionIdLength
      ensures forall i :: 0 <= i < |subscriptionId| ==> subscriptionId[i] == CharSet[PickIndex(random[i])]
      ensures |tagTopicToSubscriptionId| == |old(tagTopicToSubscriptionId)| + 1
      ensures tagTopicToSubscriptionId[..|old(tagTopicToSubscriptionId)|] == old(tagTopicToSubscriptionId)
      ensures var (key, id) := tagTopicToSubscriptionId[|old(tagTopicToSubscriptionId)|];
        fresh(key) && key.tag == tag && key.topic == topic && id == subscriptionId
      ensures subscriptionIdToTagTopic == JsMap.Set(old(subscriptionIdToTagTopic), subscriptionId, (tag, topic))
      ensures manager.handlers == JsMap.Set(old(manager.handlers), subscriptionId, handler)
      ensures manager.sent == old(manager.sent) +
        Deliveries(manager.connections, manager.net,
                   p.stringify(GenerateRequestAndSubscribeEvent(tag, topic, subscriptionId, nowMs)))
      ensures manager.relays == old(manager.relays) && manager.keyPair == old(manager.keyPair)
      ensures manager.intervalStarted == old(manager.intervalStarted)
      ensures manager.connections == old(manager.connections) && manager.sockets == old(manager.sockets)
      ensures manager.net == old(manager.net) && manager.calls == old(manager.calls)
    {
      subscriptionId := GenerateRandomId(SubscriptionIdLength, random);
      var key := new TagTopic(tag, topic);
      JsMap.SetOrder(tagTopicToSubscriptionId, key, subscriptionId);
      JsMap.SetKeepsKeysUnique(tagTopicToSubscriptionId, key, subscriptionId);
      tagTopicToSubscriptionId := JsMap.Set(tagTopicToSubscriptionId, key, subscriptionId);
      JsMap.SetKeepsKeysUnique(subscriptionIdToTagTopic, subscriptionId, (tag, topic));
      subscriptionIdToTagTopic := JsMap.Set(subscriptionIdToTagTopic, subscriptionId, (tag, topic));
      var data := GenerateRequestAndSubscribeEvent(tag, topic, subscriptionId, nowMs);
      manager.AddHandler(subscriptionId, handler);
      manager.Broadcast(p.stringify(data));
    }
  }

  // ---------------------------------------------------------------------------
  // Properties across operations

  /**
   * After `addHandler(id, h)`, an EVENT for id calls h alone, with `msg[2]`,
   * and an EVENT for another id calls exactly what it called before.
   */
  lemma AddHandlerOverwritesOnlyItsOwnId(handlers: JsMap.Map<SubscriptionId, HandlerRef>, id: SubscriptionId,
                                         h: HandlerRef, msg: Json)
    requires JsMap.KeysUnique(handlers)
    ensures SubscriptionOf(msg) == Some(id) ==>
      Dispatch(JsMap.Set(handlers, id, h), msg) == [HandlerCall(h, Element(msg, 2))]
    ensures SubscriptionOf(msg) != Some(id) ==>
      Dispatch(JsMap.Set(handlers, id, h), msg) == Dispatch(handlers, msg)
  {
    JsMap.SetKeepsKeysUnique(handlers, id, h);
    DispatchCallsOnlyTheOwner(handlers, msg);
    DispatchCallsOnlyTheOwner(JsMap.Set(handlers, id, h), msg);
    JsMap.SetThenGet(handlers, id, h);
    if SubscriptionOf(msg).Some? && SubscriptionOf(msg).value != id {
      JsMap.SetKeepsOthers(handlers, id, h, SubscriptionOf(msg).value);
    }
  }

  /**
   * A relay that answers a subscription with `["EVENT", subscriptionId, event]`,
   * where event is one this library announced, makes the subscriber's handler
   * run once, on an event whose content is the announced message.
   */
  lemma RelayedAnnouncementReachesSubscriber(p: Primitives, keyPair: KeyPair, message: string, tag: string,
                                             topic: string, nowMs: int, handlers: JsMap.Map<SubscriptionId, HandlerRef>,
                                             subscriptionId: SubscriptionId, h: HandlerRef)
    requires JsMap.KeysUnique(handlers) && JsMap.Get(handlers, subscriptionId) == Some(h)
    ensures var event := GenerateSendEvent(p, keyPair, message, tag, topic, nowMs).items[1];
      var frame := JArr([JStr("EVENT"), JStr(subscriptionId), event]);
      && Dispatch(handlers, frame) == [HandlerCall(h, Some(event))]
      && EventFromJson(event).value.content == message
  {
    var event := GenerateSendEvent(p, keyPair, message, tag, topic, nowMs).items[1];
    var frame := JArr([JStr("EVENT"), JStr(subscriptionId), event]);
    assert SubscriptionOf(frame) == Some(subscriptionId);
    assert Element(frame, 2) == Some(event);
    DispatchCallsOnlyTheOwner(handlers, frame);
    assert Dispatch(handlers, frame) == [HandlerCall(h, Some(event))];
    assert EventFromJson(event).value.content == message;
  }

  // ---------------------------------------------------------------------------
  // Runs of the connection manager that the code allows

  /**
   * One relay whose first attempt is still connecting when the next maintenance
   * step starts a second one: both sockets open and each adds a connection, so
   * the list holds two live connections to a ring of one relay.
   */
  method TwoConnectionsToOneRelay(kp: KeyPair) returns (m: Manager)
    ensures m.relays == Some(["wss://a"])
    ensures m.connections == [Connection("wss://a", 0), Connection("wss://a", 1)]
    ensures m.sockets == map["wss://a" := 1]
    ensures |m.connections| > |m.relays.value|
  {
    assert Rotate(["wss://a"]) == ["wss://a"];
    m := new Manager();
    m.Connect(["wss://a"], kp);
    m.ConnectAndMaintain();
    m.ConnectAndMaintain();
    m.SocketOpened(0);
    m.SocketOpened(1);
  }

  /**
   * A relay's failed first attempt closes after the second attempt has opened:
   * the close handler, keyed by URL, removes the live connection and the table
   * entry, while the second socket stays open.
   */
  method StaleCloseDropsLiveConnection(kp: KeyPair) returns (m: Manager)
    ensures m.connections == [] && "wss://a" !in m.sockets
    ensures |m.net| == 2 && m.net[1] == Socket("wss://a", Open)
  {
    m := new Manager();
    m.Connect(["wss://a"], kp);
    m.ConnectAndMaintain();
    m.ConnectAndMaintain();
    m.SocketOpened(1);
    m.SocketClosed(0);
  }
}
