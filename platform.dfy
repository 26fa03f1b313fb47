/**
 * What nostr_dht.js takes from its platform and its one dependency, as
 * uninterpreted functions: the model never looks inside them. Only their
 * output sizes are fixed: SHA-256 digests are 32 bytes, x-only Schnorr public
 * keys 32 bytes and Schnorr signatures 64 bytes.
 */
module Platform {
  import opened Utils
  import opened Json

  type Digest = b: seq<byte> | |b| == 32 witness seq(32, _ => 0)
  type PublicKeyBytes = b: seq<byte> | |b| == 32 witness seq(32, _ => 0)
  type SignatureBytes = b: seq<byte> | |b| == 64 witness seq(64, _ => 0)

  /** A private key as `schnorr.utils.randomPrivateKey()` returns it. */
  type PrivateKey = seq<byte>

  datatype Primitives = Primitives(
    /** `crypto.subtle.digest('SHA-256', bytes)` */
    sha256: seq<byte> -> Digest,
    /** `new TextEncoder().encode(text)` */
    encodeUtf8: string -> seq<byte>,
    /** `JSON.stringify(value)` */
    stringify: Json -> string,
    /** `schnorr.getPublicKey(privateKey)` */
    publicKeyOf: PrivateKey -> PublicKeyBytes,
    /**
     * `schnorr.sign(messageHash, privateKey)`, where the hash is passed as its
     * hex string. Called without auxiliary randomness, the library draws fresh
     * randomness on each call, so signatures over the same id can differ; one
     * `Primitives` value fixes one of the possible signatures for each input.
     */
    sign: (string, PrivateKey) -> SignatureBytes
  )
}
