/**
 * The event format of NIP-01 ("Events and signatures" in the basic Nostr
 * protocol), as nostr_dht.js builds it: the unsigned content of an event, the
 * signed event, and their JSON forms.
 */
module Events {
  import opened Wrappers
  import opened Json

  type Tags = seq<seq<string>>

  /** The object `generateSendEvent` builds before hashing, with its fields in the source's order. */
  datatype EventContent = EventContent(kind: int, content: string, pubkey: string, createdAt: int, tags: Tags)

  /** A signed event: the content plus `id` and `sig`. */
  datatype Event = Event(kind: int, content: string, pubkey: string, createdAt: int, tags: Tags, id: string, sig: string)
  {
    /** The fields the event id is computed over. */
    function Content(): EventContent {
      EventContent(kind, content, pubkey, createdAt, tags)
    }
  }

  /** Whether some tag of the event is `[name, value, ...]`. */
  predicate HasTag(tags: Tags, name: string, value: string) {
    exists t :: t in tags && |t| >= 2 && t[0] == name && t[1] == value
  }

  function StringsToJson(ss: seq<string>): seq<Json> {
    if ss == [] then [] else [JStr(ss[0])] + StringsToJson(ss[1..])
  }

  function JsonToStrings(items: seq<Json>): Option<seq<string>> {
    if items == [] then Some([])
    else if !items[0].JStr? then None
    else
      match JsonToStrings(items[1..])
      case None => None
      case Some(rest) => Some([items[0].s] + rest)
  }

  lemma {:induction false} StringsRoundTrip(ss: seq<string>)
    ensures JsonToStrings(StringsToJson(ss)) == Some(ss)
  {
    if ss != [] {
      StringsRoundTrip(ss[1..]);
      assert StringsToJson(ss)[1..] == StringsToJson(ss[1..]);
      assert ss == [ss[0]] + ss[1..];
    }
  }

  /** The `tags` array: an array of arrays of strings. */
  function TagsToJson(tags: Tags): seq<Json> {
    if tags == [] then [] else [JArr(StringsToJson(tags[0]))] + TagsToJson(tags[1..])
  }

  function JsonToTags(items: seq<Json>): Option<Tags> {
    if items == [] then Some([])
    else if !items[0].JArr? then None
    else
      match (JsonToStrings(items[0].items), JsonToTags(items[1..]))
      case (Some(t), Some(rest)) => Some([t] + rest)
      case _ => None
  }

  lemma {:induction false} TagsRoundTrip(tags: Tags)
    ensures JsonToTags(TagsToJson(tags)) == Some(tags)
  {
    if tags != [] {
      StringsRoundTrip(tags[0]);
      TagsRoundTrip(tags[1..]);
      assert TagsToJson(tags)[1..] == TagsToJson(tags[1..]);
      assert tags == [tags[0]] + tags[1..];
    }
  }

  /**
   * The event object `{...eventContent, id, sig}` of generateSendEvent: members
   * kind, content, pubkey, created_at, tags, id, sig, in that order.
   */
  function EventToJson(e: Event): (j: Json)
    ensures j.JObj? && EventFromJson(j) == Some(e)
  {
    var m := [
      ("kind", JNum(e.kind)),
      ("content", JStr(e.content)),
      ("pubkey", JStr(e.pubkey)),
      ("created_at", JNum(e.createdAt)),
      ("tags", JArr(TagsToJson(e.tags))),
      ("id", JStr(e.id)),
      ("sig", JStr(e.sig))
    ];
    TagsRoundTrip(e.tags);
    MemberFindsLast(m, 0);
    MemberFindsLast(m, 1);
    MemberFindsLast(m, 2);
    MemberFindsLast(m, 3);
    MemberFindsLast(m, 4);
    MemberFindsLast(m, 5);
    MemberFindsLast(m, 6);
    JObj(m)
  }

  /** Reading an event object, as a receiving client does; fails on a missing or mistyped field. */
  function EventFromJson(j: Json): Option<Event> {
    if !j.JObj? then None
    else
      var kind, content, pubkey := Member(j.members, "kind"), Member(j.members, "content"), Member(j.members, "pubkey");
      var createdAt, tags := Member(j.members, "created_at"), Member(j.members, "tags");
      var id, sig := Member(j.members, "id"), Member(j.members, "sig");
      if !(kind.Some? && kind.value.JNum? && content.Some? && content.value.JStr? && pubkey.Some? && pubkey.value.JStr?
           && createdAt.Some? && createdAt.value.JNum? && tags.Some? && tags.value.JArr?
           && id.Some? && id.value.JStr? && sig.Some? && sig.value.JStr?)
      then None
      else
        match JsonToTags(tags.value.items)
        case None => None
        case Some(t) => Some(Event(kind.value.n, content.value.s, pubkey.value.s, createdAt.value.n, t, id.value.s, sig.value.s))
  }
}
