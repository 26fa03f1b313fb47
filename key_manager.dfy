/**
 * `keyManager` of nostr_dht.js: the key pair, the event id (the hex SHA-256 of
 * the serialized hash preimage) and the signature over it.
 */
module KeyManager {
  import opened Wrappers
  import opened Json
  import opened Utils
  import opened Platform
  import opened Events

  /** `{publicKey, privateKey}`: the public key as lowercase hex, the private key as raw bytes. */
  datatype KeyPair = KeyPair(publicKey: string, privateKey: PrivateKey)

  /**
   * `keyManager.generateKeypair`, given the result of `randomPrivateKey()`:
   * the public key is the 64-digit lowercase hex form of the x-only key.
   */
  function GenerateKeypair(p: Primitives, privateKey: PrivateKey): (kp: KeyPair)
    ensures kp.privateKey == privateKey
    ensures |kp.publicKey| == 64 && IsLowerHex(kp.publicKey)
    ensures HexToBuffer(kp.publicKey) == Some(p.publicKeyOf(privateKey))
  {
    BufferToHexRoundTrip(p.publicKeyOf(privateKey));
    KeyPair(BufferToHex(p.publicKeyOf(privateKey)), privateKey)
  }

  /** `keyManager.signMessage`: the 128-digit lowercase hex form of the signature over the hash. */
  function SignMessage(p: Primitives, messageHash: string, keyPair: KeyPair): (sig: string)
    ensures |sig| == 128 && IsLowerHex(sig)
    ensures HexToBuffer(sig) == Some(p.sign(messageHash, keyPair.privateKey))
  {
    BufferToHexRoundTrip(p.sign(messageHash, keyPair.privateKey));
    BufferToHex(p.sign(messageHash, keyPair.privateKey))
  }

  /**
   * The array `[0, pubkey, created_at, kind, tags, content]` that
   * generateMessageHash serializes; each hashed field sits at its own position,
   * so the content reads back from it.
   */
  function HashPreimage(c: EventContent): (j: Json)
    ensures ContentOfPreimage(j) == Some(c)
  {
    TagsRoundTrip(c.tags);
    JArr([JNum(0), JStr(c.pubkey), JNum(c.createdAt), JNum(c.kind), JArr(TagsToJson(c.tags)), JStr(c.content)])
  }

  /** Reading the content back from a preimage; fails on anything of another shape. */
  function ContentOfPreimage(j: Json): Option<EventContent> {
    if !(j.JArr? && |j.items| == 6) then None
    else
      var it := j.items;
      if !(it[0] == JNum(0) && it[1].JStr? && it[2].JNum? && it[3].JNum? && it[4].JArr? && it[5].JStr?) then None
      else
        match JsonToTags(it[4].items)
        case None => None
        case Some(tags) => Some(EventContent(it[3].n, it[5].s, it[1].s, it[2].n, tags))
  }

  /** Two contents with the same preimage are the same content: no hashed field is dropped. */
  lemma PreimageInjective(a: EventContent, b: EventContent)
    requires HashPreimage(a) == HashPreimage(b)
    ensures a == b
  {
  }

  /** `keyManager.generateMessageHash`: lowercase hex of SHA-256 over the UTF-8 of the serialized preimage. */
  function GenerateMessageHash(p: Primitives, c: EventContent): (id: string)
    ensures |id| == 64 && IsLowerHex(id)
    ensures HexToBuffer(id) == Some(p.sha256(p.encodeUtf8(p.stringify(HashPreimage(c)))))
  {
    var digest := p.sha256(p.encodeUtf8(p.stringify(HashPreimage(c))));
    BufferToHexRoundTrip(digest);
    BufferToHex(digest)
  }

  /** NIP-01 validity of an id: recomputing the hash over the event's own fields reproduces it. */
  predicate IdMatches(p: Primitives, e: Event) {
    e.id == GenerateMessageHash(p, e.Content())
  }

  /** The id depends on the hashed fields only: `id` and `sig` themselves play no part. */
  lemma IdIgnoresIdAndSig(p: Primitives, e: Event, id: string, sig: string)
    ensures IdMatches(p, e.(id := id, sig := sig)) <==> id == GenerateMessageHash(p, e.Content())
  {
  }
}
