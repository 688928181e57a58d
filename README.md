# Video-chat signaling, modelled in Dafny

Two browsers that want a WebRTC call first meet at a WebSocket relay
(`back-end/index.js`). One browser posts an `offer` and gets back a session
id. The other browser fetches that offer with `get-offer` (or finds the
session through `get-all-offers`) and posts an `answer`. The relay passes the
answer to the offerer. After that, ICE candidates (`send-icecandidate`) and
the two-step teardown (`leave`, then `leave-other`) go to the "other party"
of the session. The relay keeps all its state in one object,
`rtcOfferSignalSession`, which maps a session id to
`{id, offer, offerConnection, answerConnection}`. On the browser side
(`front-end/src/videoChat.js`), a `SignalConn` passes each incoming frame to
the handler registered for its `type`, either with `on` (for good) or with
`once` (for the next frame only).

The project has these files:

- `protocol.dfy` (module `Protocol`) holds the wire values: frames
  `{type, status?, data?, message?}` as the datatype `Envelope`, their
  payloads, and the connection and session handles.
- `relay.dfy` (module `Relay`) holds the relay. It has one pure function per
  `case` of the relay's `switch`, the switch itself as `Route`, and the class
  `Registry`. The class keeps the session map and the insertion order of its
  keys. The insertion order is the order in which `Object.values` lists the
  sessions. `Registry.Handle` handles one frame by updating those fields in
  place, and it is proved to match `Route`. Connections are integer handles.
  A connection is open when the `ready` map gives it `Open`, which stands for
  `readyState === 1`. Each `sendData` call is a `Send(to, envelope)` in the
  step's `Outcome`. `uuidv4()` is a choice of any id that is not already a
  key.
- `relay_properties.dfy` (module `RelayProperties`) holds the lemmas that
  relate steps: how each step changes the listing, the `get-offer` round
  trip, how the two parties are paired, and whole runs against a fresh
  registry.
- `signal_conn.dfy` (module `Client`) holds `SignalConn`. It is a class with
  `ws`, the `handlerMap` table and a ghost log of handler runs.

**Faults.** In several places the relay reads a property of `undefined`
(`data`, the session, or the other party). The result is an uncaught
`TypeError`. The model makes each of these an explicit
`Fault(DataMissing | SessionMissing | OtherPartyMissing)` outcome and does
not turn any of them into an error frame. Every such throw comes before any
write or send, so a `Fault` leaves the registry unchanged and sends nothing.

**Behaviours of the code that a reader might not expect:**

- No handler writes a session's `answer`, so `get-all-offers` never lists
  an answer, even after a successful `answer` (`ListAfterAnswer`).
- `send-icecandidate`, `leave` and `leave-other` from the offerer of a
  session that nobody has joined throw. They do not return an
  invalid-session-state error (`IceBeforeAnswer`).
- `leave-other` on an unknown id throws. It is not a no-op
  (`LeaveOtherThenLookups`).
- A second `answer` replaces the joiner without any check
  (`AnswerOverwritesJoiner`).
- No session is removed when its connection closes. Such a session just
  drops out of the listing.

## Model

| member | source | states |
|---|---|---|
| `Relay.Find` | back-end/index.js:72 | The lookup of `data.sessionId` finds a record exactly when the id is present and is a key, and then finds that key's record. |
| `Relay.OtherParty` | back-end/index.js:136-139 | The other party is absent exactly when the source is the offerer and nobody has answered. It is always one of the two participants. It is the offerer whenever the source is not the offerer, including a non-participant. It equals the source only when one connection both offered and answered. |
| `Relay.Locate` | back-end/index.js:132-142 | The lookup shared by leave, leave-other and send-icecandidate succeeds exactly when `data`, the session and the other party all exist. On success it gives the requested key and that session's other party. Otherwise it names the first missing one: `data`, then the session, then the other party. |
| `Relay.Offer` | back-end/index.js:51-68 | With `data` present, exactly one key is added: the drawn id, whose record is `{id, offer: data.offer, offerConnection: source}` with no answering connection. Every other record is unchanged. The source alone receives `offer`/success with `{sessionId: id}`. Without `data` it faults and nothing changes. |
| `Relay.GetOffer` | back-end/index.js:71-90 | Without `data` it faults. Otherwise it sends exactly one frame, to the source, and never changes the registry. The frame is a success exactly when the id is a key. A success frame is exactly `{type: get-offer, status: success, data: {offer}}`, with that session's offer and no `message`. Otherwise it is the error `No offer matched the id sent`. |
| `Relay.Listed` | back-end/index.js:96 | A session is listed exactly when its offering connection is known and in state open (`readyState === 1`). A connecting, closing or closed connection does not qualify. |
| `Relay.Project` | back-end/index.js:99-103 | The projection keeps the session's `id`, `offer` and `answer` and drops both connection objects. |
| `Relay.OpenOffers` | back-end/index.js:93-103 | The filter/map chain lists only records whose offering connection is open, each projected to `{id, offer, answer}`. Every such record of the enumerated keys is listed. |
| `Relay.GetAllOffers` | back-end/index.js:92-110 | It never faults and never changes the registry. It sends one frame, to the source: exactly `{type: get-all-offers, status: success, data: {chatRoomList}}` with the open-offer listing and no `message`. |
| `Relay.Answer` | back-end/index.js:113-129 | The key set and order do not change. It faults when `data` or the session is missing. Otherwise the session's answering connection becomes the source, whoever held it before, and all other fields and records are unchanged. The offerer receives `offer-accepted` with the answer, and the source receives `answer`/success. |
| `Relay.Leave` | back-end/index.js:131-146 | It never changes the registry. When the lookup succeeds it sends exactly one `leave-other` frame, to the other party. Otherwise it faults with the lookup's cause. |
| `Relay.Without` | back-end/index.js:169 | Deleting a key leaves exactly the other keys in the enumeration order and keeps the order duplicate-free. |
| `Relay.WithoutKeepsOrder` | back-end/index.js:169 | Deleting an absent key leaves the order as it was. Deleting a present key cuts it out at its position and keeps every other key in its place. |
| `Relay.LeaveOther` | back-end/index.js:148-170 | On a successful lookup it sends `leave`/success to the other party and `leave-other`/success to the source, in that order. It then deletes exactly the requested key and leaves every other record unchanged. On a failed lookup it faults and changes nothing. |
| `Relay.SendIceCandidate` | back-end/index.js:173-190 | It never changes the registry. When the lookup succeeds it sends exactly one `receieve-icecandidate` frame carrying `data.iceCandidates`, to the other party. Otherwise it faults. |
| `Relay.Default` | back-end/index.js:192-197 | An unknown type gets exactly one frame, to the source: type `default`, status error, message `Invalid command`, and no `data`. |
| `Relay.Route` | back-end/index.js:50-198 | A fault never changes the registry, and only the six handlers that read `data` can fault. Only `offer`, `answer` and `leave-other` change the registry. An unknown type gets the default error. No step adds a key other than the drawn id. |
| `Relay.FreshIdExists` | back-end/index.js:52 | An id that is not yet a key always exists, so the fresh-id draw always succeeds. |
| `Relay.OfferKeepsInv` | back-end/index.js:54-58 | An offer under a fresh id keeps the registry invariant: the key order is duplicate-free and covers exactly the keys, each record holds its own key as `id`, and no record has an `answer`. |
| `Relay.LeaveOtherKeepsInv` | back-end/index.js:169 | Deleting a session keeps the registry invariant. |
| `Relay.RouteKeepsInv` | back-end/index.js:50-198 | Every handler keeps the registry invariant. In particular, no handler ever writes a session's `answer`. |
| `Relay.Registry.constructor` | back-end/index.js:31 | The registry starts empty and satisfies the invariant. |
| `Relay.Registry.Handle` | back-end/index.js:39-199 | One message event, handled to completion: the id drawn is not a key, the new map, order and sends are exactly those of `Route`, and the invariant is kept. |
| `RelayProperties.OpenOffersSnoc` | back-end/index.js:93-103 | Listing a key order with one more key appended gives the old listing plus that key's entry, if it is listed. |
| `RelayProperties.OpenOffersCongruent` | back-end/index.js:96-103 | The listing depends on each record only through its presence, its offering connection's liveness and its projection. |
| `RelayProperties.ListingExact` | back-end/index.js:92-110 | Under the invariant, the listing contains an entry with `id = k`, the stored offer and no answer exactly for the keys `k` whose offering connection is open. The `answer` in every entry is absent. |
| `RelayProperties.OfferListing` | back-end/index.js:51-103 | After an `offer` the listing is the old one, followed by the new session's entry when the offering connection is open. |
| `RelayProperties.AnswerListing` | back-end/index.js:113-115 | `answer` leaves the listing unchanged. |
| `RelayProperties.OpenOffersWithout` | back-end/index.js:93-103 | Listing the key order without `k` over the records without `k` gives the old listing with the entries of id `k` cut out and the rest in their old order. |
| `RelayProperties.DropId` | back-end/index.js:169 | Cutting the entries of id `k` out of a listing keeps exactly the entries with any other id. |
| `RelayProperties.LeaveOtherListing` | back-end/index.js:148-170 | After `leave-other`, the listing is the old listing, in the old order, with the deleted session's entry cut out. |
| `RelayProperties.OfferThenGetOffer` | back-end/index.js:51-90 | Round trip: `get-offer` on the id that `offer` returned answers success with exactly the posted offer, for any connection. |
| `RelayProperties.LeaveOtherThenLookups` | back-end/index.js:148-170 | After a session is deleted, `get-offer` on its id returns the error frame, and `answer` and `leave-other` on it fault with a missing session. |
| `RelayProperties.AnswerPairsParties` | back-end/index.js:113-139 | After `b` answers a session offered by a different `a`, `a` and `b` resolve to each other as other party, and any third connection resolves to `a`. |
| `RelayProperties.AnswerOverwritesJoiner` | back-end/index.js:113-115 | A second `answer` succeeds and makes its sender the offerer's other party in place of the first joiner. |
| `RelayProperties.OfferFetchAnswer` | back-end/index.js:51-129 | Offer, fetch, answer on a fresh registry: `a` gets its id, `b` gets `a`'s offer, `a` gets `offer-accepted` with `b`'s answer, and `b` gets `answer`/success. |
| `RelayProperties.Teardown` | back-end/index.js:131-170 | Offer, answer, `leave` from the offerer, `leave-other` from the joiner: the joiner gets `leave-other`. Then the offerer gets `leave`/success and the joiner `leave-other`/success. Afterwards the id is unknown. |
| `RelayProperties.IceBeforeAnswer` | back-end/index.js:173-190 | ICE candidates from the offerer of a session nobody has joined fault. From a non-participant they reach the offerer. |
| `RelayProperties.ListAfterAnswer` | back-end/index.js:92-129 | After offer and answer, the listing holds exactly that session, with its offer and no answer. |
| `RelayProperties.OfferRun` | back-end/index.js:51-58 | A run of `offer` frames, each from any connection, against any reachable registry hands out pairwise distinct ids. None of them was a key before. Each ends up naming the record built from its own frame. |
| `Client.Armed` | front-end/src/videoChat.js:219 | A type has a live handler exactly when its slot holds a plain handler or a `once` wrapper. A missing key (`undefined`) or an emptied slot (`null`) does not count. |
| `Client.Register` | front-end/src/videoChat.js:232-244 | One `on`/`once` call sets exactly its type's slot, to the handler (`on`) or to a wrapper around it (`once`), and leaves every other type's slot unchanged. |
| `Client.RegisterAll` | front-end/src/videoChat.js:232-244 | After a sequence of registrations, every registered type has a handler and every type that none of them names keeps its slot. |
| `Client.RegisterAllSnoc` | front-end/src/videoChat.js:232-244 | Appending one registration to a sequence applies it last. |
| `Client.RegisterAllAppend` | front-end/src/videoChat.js:232-244 | Registering two sequences one after the other is registering their concatenation. |
| `Client.RegisterAllLast` | front-end/src/videoChat.js:232-244 | The last registration for a type decides its slot, whatever came before. |
| `Client.SignalConn.constructor` | front-end/src/videoChat.js:191-198 | A new connection has no socket, an empty handler table and no handler runs. |
| `Client.SignalConn.On` | front-end/src/videoChat.js:232-235 | `on(t, h)` sets slot `t` to `h`, replacing what was there, and leaves every other slot unchanged. |
| `Client.SignalConn.Once` | front-end/src/videoChat.js:237-244 | `once(t, h)` sets slot `t` to a wrapper around `h` and leaves every other slot unchanged. |
| `Client.SignalConn.RunHandler` | front-end/src/videoChat.js:238-239 | A handler run is logged once, with its data. The `on`/`once` calls it makes take effect in order. |
| `Client.SignalConn.HandleMessage` | front-end/src/videoChat.js:211-223 | An error status throws with the table and log unchanged. With no handler for the type, the data comes back resolved, nothing runs and nothing changes. Otherwise the handler runs exactly once with `data`. A plain handler's result is returned. A `once` wrapper returns `undefined` and leaves its slot `null`, even when the handler re-registered that type. |
| `Client.OnceRunsOnce` | front-end/src/videoChat.js:237-244 | A `once` handler runs for the first frame of its type and not for the second, whatever it registered while it ran. Its log holds exactly one run. |
| `Client.OnceWipesOwnTypeRegistration` | front-end/src/videoChat.js:238-242 | A handler that a `once` handler installs with `on` for its own type is wiped when the slot is cleared, so the next frame of that type reaches no handler. |
| `Client.OnReplaces` | front-end/src/videoChat.js:232-235 | After two `on` calls for one type, every frame of that type runs the second handler and the first never runs. |
| `Client.ErrorKeepsHandler` | front-end/src/videoChat.js:211-223 | An error frame throws without running the waiting `once` handler, which still runs for the next frame. |

## Left out

- The HTTP placeholder server with its CORS headers (back-end/index.js:9-25), the `WebSocket.Server` setup (27-29, 39-40) and the `console.log` calls are left out. They are transport and logging.
- `JSON.parse` and `JSON.stringify` are left out. Frames are decoded values. A frame that does not parse is an uncaught throw in the relay and in the client, and it is not modelled.
- A `data` that is present but `null` is treated like a missing `data`. Both throw `DataMissing`.
- `uuidv4()` randomness is replaced by a choice of any id that is not a key. Ids are natural numbers, so keys that an object inherits from its prototype (such as `toString`) are not modelled.
- `SignalConn.HandleMessage` does not model keys that `handlerMap` inherits from its prototype. In the source, a frame of type `toString` or `constructor` calls an inherited function, and a frame of type `__proto__` throws. The model resolves all three with the frame's data. The relay never sends these types.
- What `ws` does when sending to a connection that is not open is not modelled. Every `sendData` is recorded as a `Send`.
- What follows a `Fault` is not modelled. That is the uncaught exception in the `message` listener and its effect on the process or the socket.
- Interleaving is not modelled. Each message handler runs to completion, as on Node's event loop.
- Nothing reacts to a connection closing, because the relay has no close hook. A session whose offerer has gone simply stops being listed.
- `SignalConn.connect` and `SignalConn.send` (front-end/src/videoChat.js:200-230) and `window.printState` (248-252) are not modelled. They are socket and console I/O. `ws` stays `None`.
- Handlers that throw are not modelled. A `once` handler that throws leaves its wrapper installed. What a handler returns is opaque (`HandlerReturned(h, data)`).
- All `RTCPeerConnection`, media and data-channel code in front-end/src/videoChat.js (8-188) and front-end/src/script.jsx are not modelled. They are thin wrappers over browser APIs and UI wiring.
