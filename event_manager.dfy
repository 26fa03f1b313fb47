/**
 * `eventManager` of nostr_dht.js: the outbound `["EVENT", event]` and
 * `["REQ", subscriptionId, filter]` messages, as structured JSON values (the
 * text on the wire is their `JSON.stringify`).
 */
module EventManager {
  import opened Wrappers
  import opened Json
  import opened Platform
  import opened Events
  import opened KeyManager

  /** The event kind every message of this library carries. */
  const EventKind: int := 29333

  /** How far back a subscription reaches, in seconds. */
  const LookbackSeconds: int := 10

  /** `Math.floor(Date.now() / 1000)`: Dafny's `/` by a positive divisor is floor division. */
  function UnixSeconds(nowMs: int): (s: int)
    ensures s * 1000 <= nowMs < (s + 1) * 1000
  {
    nowMs / 1000
  }

  /**
   * `eventManager.generateSendEvent(message, tag, topic)` with the clock reading
   * `nowMs`: the event of kind 29333 with the one tag `[tag, topic]`, signed with
   * the key pair the connection manager holds.
   */
  function GenerateSendEvent(p: Primitives, keyPair: KeyPair, message: string, tag: string, topic: string, nowMs: int): (m: Json)
    ensures m.JArr? && |m.items| == 2 && m.items[0] == JStr("EVENT")
    ensures EventFromJson(m.items[1]).Some?
    ensures var e := EventFromJson(m.items[1]).value;
      && e.kind == EventKind && e.content == message && e.pubkey == keyPair.publicKey
      && e.createdAt == UnixSeconds(nowMs) && e.tags == [[tag, topic]]
      && IdMatches(p, e) && |e.id| == 64
      && e.sig == SignMessage(p, e.id, keyPair) && |e.sig| == 128
  {
    var content := EventContent(EventKind, message, keyPair.publicKey, UnixSeconds(nowMs), [[tag, topic]]);
    var id := GenerateMessageHash(p, content);
    var sig := SignMessage(p, id, keyPair);
    var e := Event(content.kind, content.content, content.pubkey, content.createdAt, content.tags, id, sig);
    JArr([JStr("EVENT"), EventToJson(e)])
  }

  /**
   * The filter object `{kinds: [29333], since: now - 10, ["#" + tag]: [topic]}`:
   * a relay parsing it finds the kind list, the lower time bound and the tag
   * values each under its own key, whatever the tag is.
   */
  function SubscriptionFilter(tag: string, topic: string, nowMs: int): (f: Json)
    ensures f.JObj? && |f.members| == 3
    ensures Member(f.members, "kinds") == Some(JArr([JNum(EventKind)]))
    ensures Member(f.members, "since") == Some(JNum(UnixSeconds(nowMs) - LookbackSeconds))
    ensures Member(f.members, "#" + tag) == Some(JArr([JStr(topic)]))
  {
    var m := [
      ("kinds", JArr([JNum(EventKind)])),
      ("since", JNum(UnixSeconds(nowMs) - LookbackSeconds)),
      ("#" + tag, JArr([JStr(topic)]))
    ];
    assert ("#" + tag)[0] == '#';
    MemberFindsLast(m, 0);
    MemberFindsLast(m, 1);
    MemberFindsLast(m, 2);
    JObj(m)
  }

  /**
   * What a relay selects with a filter object, after the filter rules of NIP-01:
   * every member is a condition; `kinds` lists the allowed kinds, `since` is the
   * oldest allowed `created_at`, and `#name` lists the values allowed for tags
   * named `name`. NIP-01 defines `#name` conditions for single-letter names
   * only; this predicate extends the rule to names of any length, as this
   * library's subscriptions use them. Other members impose nothing here.
   */
  predicate FilterAccepts(filter: Json, e: Event) {
    filter.JObj? && forall i :: 0 <= i < |filter.members| ==> ConditionHolds(filter.members[i], e)
  }

  predicate ConditionHolds(member: (string, Json), e: Event) {
    var (key, value) := member;
    if key == "kinds" then value.JArr? && JNum(e.kind) in value.items
    else if key == "since" then value.JNum? && e.createdAt >= value.n
    else if |key| >= 1 && key[0] == '#' then
      value.JArr? && exists t :: t in e.tags && |t| >= 2 && t[0] == key[1..] && JStr(t[1]) in value.items
    else true
  }

  /**
   * `eventManager.generateRequestAndSubscribeEvent(tag, topic, subscriptionId)`
   * with the clock reading `nowMs`: under FilterAccepts, its filter selects
   * exactly the events of kind 29333, at most ten seconds older than now,
   * tagged `[tag, topic]`.
   */
  function GenerateRequestAndSubscribeEvent(tag: string, topic: string, subscriptionId: string, nowMs: int): (m: Json)
    ensures m.JArr? && |m.items| == 3 && m.items[0] == JStr("REQ") && m.items[1] == JStr(subscriptionId)
    ensures m.items[2] == SubscriptionFilter(tag, topic, nowMs)
    ensures forall e: Event :: FilterAccepts(m.items[2], e) <==>
      e.kind == EventKind && e.createdAt >= UnixSeconds(nowMs) - LookbackSeconds && HasTag(e.tags, tag, topic)
  {
    var filter := SubscriptionFilter(tag, topic, nowMs);
    forall e: Event
      ensures FilterAccepts(filter, e) <==>
        e.kind == EventKind && e.createdAt >= UnixSeconds(nowMs) - LookbackSeconds && HasTag(e.tags, tag, topic)
    {
      SubscriptionFilterAccepts(tag, topic, nowMs, e);
    }
    JArr([JStr("REQ"), JStr(subscriptionId), filter])
  }

  lemma SubscriptionFilterAccepts(tag: string, topic: string, nowMs: int, e: Event)
    ensures FilterAccepts(SubscriptionFilter(tag, topic, nowMs), e) <==>
      e.kind == EventKind && e.createdAt >= UnixSeconds(nowMs) - LookbackSeconds && HasTag(e.tags, tag, topic)
  {
    var m := SubscriptionFilter(tag, topic, nowMs).members;
    var key := "#" + tag;
    assert key[0] == '#' && key[1..] == tag && key != "kinds" && key != "since";
    assert ConditionHolds(m[0], e) <==> e.kind == EventKind;
    assert ConditionHolds(m[1], e) <==> e.createdAt >= UnixSeconds(nowMs) - LookbackSeconds;
    assert ConditionHolds(m[2], e) <==> HasTag(e.tags, tag, topic);
    assert FilterAccepts(SubscriptionFilter(tag, topic, nowMs), e) <==>
      ConditionHolds(m[0], e) && ConditionHolds(m[1], e) && ConditionHolds(m[2], e);
  }

  /**
   * Filter acceptance: the subscription's filter accepts an announcement on the
   * same tag and topic exactly when it was made no earlier than ten seconds
   * before the subscription (whole seconds, as both sides floor the clock).
   * Kind 29333 is ephemeral under NIP-01, so relays do not store it: an
   * announcement the filter accepts reaches the subscriber only if the relay
   * receives it while the subscription is open.
   */
  lemma AnnouncementMatchesSubscription(p: Primitives, keyPair: KeyPair, message: string, tag: string, topic: string,
                                        subscriptionId: string, announcedMs: int, subscribedMs: int)
    ensures var e := EventFromJson(GenerateSendEvent(p, keyPair, message, tag, topic, announcedMs).items[1]).value;
      FilterAccepts(GenerateRequestAndSubscribeEvent(tag, topic, subscriptionId, subscribedMs).items[2], e) <==>
      UnixSeconds(announcedMs) >= UnixSeconds(subscribedMs) - LookbackSeconds
  {
    var e := EventFromJson(GenerateSendEvent(p, keyPair, message, tag, topic, announcedMs).items[1]).value;
    assert HasTag(e.tags, tag, topic) by {
      assert e.tags[0] in e.tags;
    }
  }

  /** An announcement on another topic never matches the subscription. */
  lemma OtherTopicDoesNotMatch(p: Primitives, keyPair: KeyPair, message: string, tag: string, topic: string, other: string,
                               subscriptionId: string, announcedMs: int, subscribedMs: int)
    requires other != topic
    ensures var e := EventFromJson(GenerateSendEvent(p, keyPair, message, tag, other, announcedMs).items[1]).value;
      !FilterAccepts(GenerateRequestAndSubscribeEvent(tag, topic, subscriptionId, subscribedMs).items[2], e)
  {
  }
}
