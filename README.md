# nostr_dht in Dafny

A model of the core of `nostr_dht.js`, a small library that uses Nostr relays as
a rendezvous service. A peer announces ephemeral events of kind 29333, each
tagged `[tag, topic]`. Other peers subscribe to a tag and topic and have a
handler called for each matching event a relay forwards.

The model covers these parts of the library:

- **`utils`** (`Utils`): `bufferToHex`, the `reduce` over `toString(16).padStart(2, '0')`, and `generateRandomId`, the fill loop over a 62-character set.
- **`keyManager`** (`KeyManager`): the public key as hex, the signature as hex, and the event id. The id is the hex SHA-256 of the serialized array `[0, pubkey, created_at, kind, tags, content]`.
- **`eventManager`** (`EventManager`): the outbound `["EVENT", event]` and `["REQ", subscriptionId, filter]` messages, as JSON values. The filter's meaning follows the filter rules of NIP-01, so the model can state which events a subscription accepts. NIP-01 defines tag conditions (`#name`) for single-letter tag names only; the model applies the same rule to names of any length, as this library's tags can be longer.
- **`connectionManager`** (`ConnectionManager.Manager`), a class over the module's mutable state:
  - the relay ring that `connectAndMaintain` rotates;
  - the socket table keyed by relay URL;
  - the `connections` list that the socket callbacks maintain;
  - the handler `Map`, `broadcast` and `passToHandlers`.
- **The exported functions** (`NostrDht.Dht`): `startConnections` and `subscribeToData`, and `connectionManager.announceData`, the inner function that the exported `announceData` calls (`Dht.AnnounceData`). This includes the two module-level maps between `[tag, topic]` and subscription ids.

Sockets are indices into a log `net` of every socket constructed. Each entry
records the relay URL its callbacks close over and its `readyState`. The
transport's events are methods:

- `SocketOpened`
- `SocketClosing`
- `SocketClosed`
- `SocketMessage`

Each of these performs what the source's `onopen`, `onclose` and `onmessage`
callbacks do. `socket.send` and handler invocations are appended to the logs
`sent` and `calls`.

Opaque primitives are fields of a `Platform.Primitives` record, so every
contract holds for any implementation of them:

- SHA-256
- UTF-8 encoding
- `JSON.stringify`
- the Schnorr public key and signature

`Math.random()` draws and `Date.now()` readings are parameters.

## Behaviour as written

The model follows the code as written. These are the places where its behaviour
departs from what a reader of the library's interface might expect:

- **No retry on collision.** The subscription id is drawn once. The code does not check it against the registered ids, so a repeated id would replace the earlier handler.
- **Parse errors throw.** An inbound frame goes through `JSON.parse` without a `try`. A frame that fails to parse throws inside `onmessage` before any handler runs; it is not reported as a decode failure. The model takes frames already parsed. A frame routes by what `msg[0]` and `msg[1]` read: an array by its elements, and an object by its members named "0" and "1", so `{"0": "EVENT", "1": id, "2": e}` routes to id like the array form. A string reads single characters, so it never routes; `null`, a number or a boolean routes to no handler.
- **More connections than relays.** A relay whose socket is still connecting when its turn comes round gets a second socket. Both sockets can open, and each appends a connection. So `connections` can hold several entries per relay and more entries than the ring has relays. `NostrDht.TwoConnectionsToOneRelay` shows this with one relay and two live connections. A pool over L relays might be expected to hold at most L connections; this one can hold more.
- **`onclose` is keyed by URL, not by socket.** A failed earlier attempt that closes late removes every connection of its relay and the table entry. That includes the newer, open socket, which stays open, unlisted and unreachable by `broadcast`. `NostrDht.StaleCloseDropsLiveConnection` shows this.
- **Linear dispatch.** `passToHandlers` walks the whole handler `Map` and compares ids instead of looking one up. With unique keys this is the same as a lookup (`ConnectionManager.DispatchCallsOnlyTheOwner`).
- **Write-only tag map.** The `[tag, topic]` → id map uses a fresh array as its key on every call, so no later lookup could find it. Nothing reads the map.

## Model

| member | source | states |
|---|---|---|
| Utils.ToRadix16 | nostr_dht.js:152 | `toString(16)` yields lowercase hex digits denoting exactly n, with no leading zero, one digit iff n < 16, at most two for a byte |
| Utils.PadStart | nostr_dht.js:152 | `padStart` gives the larger of the width and the input length; the input is the suffix and the prefix is all fill characters |
| Utils.ByteToHex | nostr_dht.js:152 | a byte becomes two lowercase hex digits whose value, high digit first, is the byte |
| Utils.ByteToHexIsPaddedRadix16 | nostr_dht.js:152 | `c.toString(16).padStart(2, '0')` is that two-digit form for every byte |
| Utils.BufferToHex | nostr_dht.js:151-153 | the hex string of a buffer has length 2n and only lowercase hex digits |
| Utils.BufferToHexCons | nostr_dht.js:151-153 | the left-to-right reduction puts the first byte's two digits first, then the rest's |
| Utils.BufferToHexRoundTrip | nostr_dht.js:151-153 | decoding the hex string two digits at a time gives back the buffer |
| Utils.BufferToHexInjective | nostr_dht.js:151-153 | distinct buffers have distinct hex strings |
| Utils.CharSetIsAlphanumerics | nostr_dht.js:156 | the character set has 62 characters, exactly the ASCII digits and letters |
| Utils.PickIndex | nostr_dht.js:159 | `Math.floor(r * 62)` for a draw in [0, 1) is a valid index, the floor of r·62 |
| Utils.GenerateRandomId | nostr_dht.js:155-163 | the id has n characters; character i is the set's character at the floor of draw i times 62, and is a letter or digit |
| Events.EventToJson | nostr_dht.js:116-124 | the event object `{...content, id, sig}` reads back as the same event, each field under its own key |
| KeyManager.GenerateKeypair | nostr_dht.js:42-47 | the private key is kept; the public key is 64 lowercase hex digits that decode to the x-only public key of it |
| KeyManager.SignMessage | nostr_dht.js:55-59 | the signature is 128 lowercase hex digits that decode to the Schnorr signature of the hash under the private key |
| KeyManager.GenerateMessageHash | nostr_dht.js:66-80 | the id is 64 lowercase hex digits that decode to SHA-256 of the UTF-8 of the serialized preimage |
| KeyManager.HashPreimage | nostr_dht.js:67-74 | the preimage `[0, pubkey, created_at, kind, tags, content]` holds each field at its own position, so the content reads back from it |
| KeyManager.PreimageInjective | nostr_dht.js:67-74 | events differing in any signed field have different preimages |
| KeyManager.IdIgnoresIdAndSig | nostr_dht.js:67-74 | whether an event's id is correct depends on its signed fields only, not on its id or sig fields |
| EventManager.UnixSeconds | nostr_dht.js:109 | `Math.floor(Date.now() / 1000)` is the whole second s with s·1000 ≤ now < (s+1)·1000 |
| EventManager.GenerateSendEvent | nostr_dht.js:103-125 | `["EVENT", e]`, where e decodes to kind 29333, the message, the manager's public key, the clock in whole seconds and the tags `[[tag, topic]]`; e's id is the hash of those fields and its sig is the signature of that id |
| EventManager.GenerateRequestAndSubscribeEvent | nostr_dht.js:127-141 | `["REQ", id, filter]`, where the filter accepts an event iff it has kind 29333, was created no earlier than ten seconds before now, and carries the tag `[tag, topic]` |
| EventManager.SubscriptionFilter | nostr_dht.js:129-133 | a relay parsing the filter finds `[29333]` under `kinds`, now − 10 seconds under `since` and `[topic]` under `#tag`, whatever the tag |
| EventManager.SubscriptionFilterAccepts | nostr_dht.js:129-133 | each of the filter's three members is one of those three conditions, and the filter is their conjunction |
| EventManager.AnnouncementMatchesSubscription | nostr_dht.js:103-141 | the subscription's filter accepts an announcement on the subscribed tag and topic iff it was created no more than ten seconds before the subscription, in whole seconds |
| EventManager.OtherTopicDoesNotMatch | nostr_dht.js:103-141 | the filter never accepts an announcement on another topic |
| JsMap.Set | nostr_dht.js:262 | after `set(k, v)` the map holds the entry (k, v), and it has grown by one entry only if k was new |
| JsMap.SetThenGet | nostr_dht.js:261-263 | after `handlers.set(id, h)`, looking up id gives h |
| JsMap.SetKeepsOthers | nostr_dht.js:261-263 | `set` leaves every other key's entry unchanged |
| JsMap.SetOrder | nostr_dht.js:261-263 | `set` on a present key keeps the insertion order; on a new key it appends the entry |
| JsMap.SetKeepsKeysUnique | nostr_dht.js:261-263 | `set` never creates a second entry for a key |
| ConnectionManager.Rotate | nostr_dht.js:207-212 | `shift` then `push` keeps the ring's length and multiset of relays, moves the head to the tail and shifts the others forward by one |
| ConnectionManager.RotateNSplits | nostr_dht.js:205-248 | after k ≤ L steps the ring is its last L − k relays followed by its first k |
| ConnectionManager.RingVisitsEachRelayInTurn | nostr_dht.js:205-248 | step k attempts relay k, and after L steps the ring is back as it was |
| ConnectionManager.WithoutRelay | nostr_dht.js:218 | the filter keeps exactly the connections whose url is not the closing relay |
| ConnectionManager.WithoutRelayKeepsListOrder | nostr_dht.js:218 | the filter distributes over concatenation, so the kept entries stay in list order |
| ConnectionManager.WithoutRelayRemovesExactlyThatRelay | nostr_dht.js:217-220 | `onclose` removes all of its relay's connections and keeps each other relay's connections in order |
| ConnectionManager.Deliveries | nostr_dht.js:250-259 | broadcast sends the data only to listed connections whose socket has `readyState === 1`, and to every such connection; there are no more sends than listed connections. The exact sequence follows from `DeliveriesToOne` and `DeliveriesInListOrder` |
| ConnectionManager.DeliveriesToOne | nostr_dht.js:251-257 | one connection receives exactly one send if its socket is open and none otherwise |
| ConnectionManager.DeliveriesInListOrder | nostr_dht.js:250-259 | the sends follow the order of the connections list |
| Json.Element | nostr_dht.js:268-269 | `msg[0]`, `msg[1]`, `msg[2]` on a parsed frame: an array element, an object member named by the index, or one character of a string; `undefined` otherwise |
| ConnectionManager.IsOpenSocket | nostr_dht.js:252 | `c.socket.readyState === 1` |
| ConnectionManager.HasOpenSocket | nostr_dht.js:210 | the relay has a table entry whose socket has `readyState === 1` |
| ConnectionManager.Routes | nostr_dht.js:268 | `msg[0] === 'EVENT' && msg[1] === subId` holds iff subId is the message's subscription id |
| ConnectionManager.Dispatch | nostr_dht.js:265-272 | every call carries `msg[2]` and goes to an entry the message routes to, every such entry gets a call, and there are no more calls than entries. The exact sequence follows from `DispatchToOne` and `DispatchInInsertionOrder` |
| ConnectionManager.DispatchToOne | nostr_dht.js:268-270 | one handler entry is called once, with `msg[2]`, if the message routes to its id, and not at all otherwise |
| ConnectionManager.DispatchInInsertionOrder | nostr_dht.js:267-271 | the calls for a concatenation of entries are the first part's calls followed by the second's, so handlers run in insertion order |
| ConnectionManager.DispatchCallsOnlyTheOwner | nostr_dht.js:265-272 | with unique keys, a message calls the handler registered under its subscription id once, with `msg[2]`, and no other handler; a non-EVENT message or an unknown id calls none |
| ConnectionManager.Manager.constructor | nostr_dht.js:168-173 | no ring, no key pair, no timer, and empty connections, handlers and sockets |
| ConnectionManager.Manager.Connect | nostr_dht.js:175-186 | the first call's relays and key pair are kept, later calls change neither, and the maintenance timer runs |
| ConnectionManager.Manager.Ready | nostr_dht.js:190 | the condition the promise of `connect` waits for: at least five connections |
| ConnectionManager.Manager.ConnectAndMaintain | nostr_dht.js:205-248 | the ring rotates; a relay with an open socket keeps it; otherwise only its table entry changes, to a new connecting socket. The connections list is untouched, and a call with no ring changes nothing |
| ConnectionManager.Manager.SocketOpened | nostr_dht.js:240-243 | on open, `{url: relay, socket}` is appended to the connections and nothing else changes |
| ConnectionManager.Manager.SocketClosing | nostr_dht.js:250-254 | a closing socket is no longer open, so broadcast skips it; no callback runs |
| ConnectionManager.Manager.SocketClosed | nostr_dht.js:217-220 | on close, the relay's connections are filtered out and its table entry is deleted, whichever socket it held |
| ConnectionManager.Manager.SocketMessage | nostr_dht.js:226-238 | a frame on any open socket, listed or not, is passed to the handlers; a WebSocket delivers messages only while open |
| ConnectionManager.Manager.Broadcast | nostr_dht.js:250-259 | the sends are exactly the deliveries to open sockets, in list order; connections and sockets are unchanged |
| ConnectionManager.Manager.AddHandler | nostr_dht.js:261-263 | the handler map becomes `set(id, handler)` of the old one; keys stay unique |
| ConnectionManager.Manager.PassToHandlers | nostr_dht.js:265-272 | the calls are exactly the dispatch of the message over the handlers, in insertion order |
| NostrDht.TagTopic.constructor | nostr_dht.js:325 | a new `[tag, topic]` array holds the tag and the topic |
| NostrDht.Dht.constructor | nostr_dht.js:314-315 | at load time both maps are empty and the connection manager is fresh and empty |
| NostrDht.DefaultRelays | nostr_dht.js:10-28 | the 17 built-in hosts, in order, each behind `wss://` |
| NostrDht.Dht.StartConnections | nostr_dht.js:293-298 | a key pair from the private key, and the 17 built-in `wss://` relays, go to `connect` |
| NostrDht.Dht.AnnounceData | nostr_dht.js:274-278 | before `connect` it throws and sends nothing; otherwise it broadcasts the serialized EVENT message built with the manager's key pair |
| NostrDht.Dht.SubscribeToData | nostr_dht.js:323-331 | a 64-character id from the draws; the tag map gains one entry under a fresh key; the id map and the handler map are `set`; the serialized REQ is broadcast |
| NostrDht.AddHandlerOverwritesOnlyItsOwnId | nostr_dht.js:261-272 | after `addHandler(id, h)`, an EVENT for id calls h alone, and an EVENT for any other id calls what it called before |
| NostrDht.RelayedAnnouncementReachesSubscriber | nostr_dht.js:265-272 | a relay forwarding `["EVENT", id, e]`, with e an announced event, calls the subscriber's handler once, on an event whose content is the message |
| NostrDht.TwoConnectionsToOneRelay | nostr_dht.js:205-248 | one relay can end up with two live connections |
| NostrDht.StaleCloseDropsLiveConnection | nostr_dht.js:217-220 | a late close of a failed attempt removes the relay's live connection while its socket stays open |

## Left out

- The WebSocket transport: connecting, framing and `onerror` (which only logs). Its events are the methods `SocketOpened`, `SocketClosing`, `SocketClosed` and `SocketMessage`, and any sequence of them that follows a socket's `readyState` is allowed: a connecting socket opens or closes; an open socket delivers messages, starts closing or closes; a closing socket closes.
- KeyManager.SignMessage: `schnorr.sign` without auxiliary randomness draws fresh randomness on each call, so two signatures over the same id can differ. One `Primitives` value fixes one of the possible signatures for each input.
- SHA-256, UTF-8 encoding, `JSON.stringify` (including its string escaping), Schnorr keys and signatures, and `randomPrivateKey`: opaque, so they are parameters.
- `JSON.parse`: inbound frames arrive parsed. A frame that fails to parse throws before any handler runs, which is the same outcome as a frame that routes to no handler.
- Utils.PickIndex: draws are reals, so `Math.floor(r * 62)` is computed exactly. JavaScript first rounds `r * 62` to double precision, which can move a rare draw just below an integer to the next index.
- Kind 29333 is ephemeral under NIP-01: relays forward such events to open subscriptions and do not store them. The model states which events a subscription's filter accepts, not which ones a relay still holds.
- Floating point: JSON numbers are integers. Kinds and timestamps are integers in the source, and a fractional number in an inbound frame plays no part in routing.
- Timers:
  - the 500 ms maintenance interval (the model calls `ConnectAndMaintain` one step at a time);
  - the 2-second polling behind the promise of `connect`, whose condition is `Manager.Ready`;
  - the 15-minute re-announcement timer of the exported `announceData` at nostr_dht.js:309-312.
- The exported `announceData` wrapper at nostr_dht.js:309-312: it calls `connectionManager.announceData` without `await`, so the error that `Dht.AnnounceData` models as `thrown` (no key pair yet) becomes an unhandled rejection, and the caller still receives the interval handle.
- The `await`s in `announceData` and `subscribeToData`: each call is one atomic step. Transport events that could interleave at an `await` are modelled as happening before or after the call.
- `closeConnections` at nostr_dht.js:280-283: it clears the maintenance timer, then calls `forEach` on the plain socket object and throws a `TypeError`. It closes no socket.
- `generateUnsubscribeEvent` and `unsubscribeFromData`: their bodies are empty.
- Logging, the `debug` flag and `test.js`.
- A relay URL that `new WebSocket` rejects: the built-in relays are well formed. A malformed URL would throw after the `shift`, dropping that relay from the ring. The model's `ConnectAndMaintain` rotates every non-empty ring.
- The socket table is a plain object keyed by URL strings. Keys that collide with `Object.prototype` members, such as `__proto__`, are not modelled.
