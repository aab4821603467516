# Beacon connection core in Dafny

This project models the connection core of the Beacon SDK: the client that owns
the active transport, the abstract transport, and the domain error taxonomy.

- **Client** (`Clients`). The client keeps its active transport in a slot. The
  slot is a resettable promise (`ExposedPromise`): it is either pending or
  settled, and `instance` stands for the identity of the promise object.
  `init` lets the first installed transport win. `setTransport` resolves a
  pending slot in place, or installs a new slot when the old one is already
  settled. Each `setTransport` emits one `ACTIVE_TRANSPORT_SET` event. The
  client also keeps the advisory rate limiter: a log of millisecond
  timestamps, pruned to a 5-second window, limited above 2 requests. Finally,
  the client's inbound listener passes text messages to the dispatch hook
  `handleResponse` and drops everything else.
- **Transport** (`Transports`). The transport has a two-state connection
  status. Its peer store is a sequence of peers keyed by public key, and its
  listeners are an ordered list of identities. `send` routes to one peer or
  broadcasts to all of them. `addPeer`, `removePeer` and `removeAllPeers` pair
  store changes with `listen` and unsubscribe calls. `notifyListeners` fans a
  message out to every listener. Change requests on the peer store, calls on
  the communication client and calls of the `listen` hook are recorded, in
  order, in the transport's `calls` log.
- **Errors** (`BeaconErrors`). The factory maps each of the nine kinds to an
  error class. Error messages have the text form `[kind]:detail`.

`Seqs` holds an order-preserving filter, as JavaScript's
`Array.prototype.filter` does it. The rate limiter and `removeListener` use
`filter`. The model also represents the peer store's removal by this filter.
`Wrappers` holds `Option` and `Result`.

Every operation is a pure function from the old state to the new one. The
clock reading `new Date().getTime()` is the parameter `now`. What
`sendMessage` returns is a caller-supplied total function `reply`.

## Model

| member | source | states |
|---|---|---|
| Clients.New | src/clients/client/Client.ts:42-48 | A new client has an unsettled slot, an empty request log and no events. |
| Clients.AddRequestAndCheckIfRateLimited | src/clients/client/Client.ts:114-123 | The check appends `now` as the last entry. Every entry kept is still inside the 5000 ms window and comes from the old log. Every old entry inside the window is kept. The result is true iff more than 2 entries remain, iff two earlier entries lie inside the window. Nothing else in the client changes. |
| Clients.RateLimitKeepsOrder | src/clients/client/Client.ts:116-120 | The entries kept from a log `a + b` are those kept from `a` followed by those kept from `b`, and `now` comes last. So retained entries keep their relative order. |
| Clients.WindowEdge | src/clients/client/Client.ts:116-118 | An entry exactly 5000 ms old is dropped. An entry 4999 ms old is kept. |
| Clients.SameInstant | src/clients/client/Client.ts:116-120 | A check at `now` on a log that holds only `now` entries keeps all of them and appends `now`. |
| Clients.ThreeRequestsAtOnce | src/clients/client/Client.ts:114-123 | With the limit 2 and the 5-second window (lines 33-37), three checks at the same instant on an empty log return false, false, true. |
| Clients.SetTransport | src/clients/client/Client.ts:159-175 | A transport argument ends up in the slot. On a pending slot it is resolved into that same instance. On a settled slot a new instance is installed. No argument leaves a pending slot untouched and turns a settled slot into a new pending instance. Every call appends exactly one `ACTIVE_TRANSPORT_SET` event carrying its argument. Nothing else in the client changes. |
| Clients.Init | src/clients/client/Client.ts:131-139 | The returned type is always the installed transport's type. On a settled slot the client is unchanged and the argument is discarded. On a pending slot the argument is resolved into the same slot instance, with one event. |
| Clients.InitTwice | src/clients/client/Client.ts:131-134 | A second `init` with another transport returns the first transport's type. The first transport stays installed and the client is unchanged. |
| Clients.ClearThenInit | src/clients/client/Client.ts:167-172 | After `setTransport(undefined)` on a settled slot the status is `NOT_CONNECTED`. A later `init` installs the new transport in the new slot instance and returns its type. |
| Clients.ConnectionStatus | src/clients/client/Client.ts:56-58 | While the slot is unsettled the status is `NOT_CONNECTED`. Once it is settled, the status is the installed transport's status. |
| Clients.ConnectionStatusFollowsSlot | src/clients/client/Client.ts:56-58 | A new client is `NOT_CONNECTED`. After a transport is set, the status is that transport's status. After clearing, it is `NOT_CONNECTED`. |
| Clients.Ready | src/clients/client/Client.ts:63-65 | `ready` resumes exactly when the slot is settled. |
| Clients.GetPeers | src/clients/client/Client.ts:144-146 | The call waits while the slot is pending. Once the slot is settled it returns the installed transport's peers. |
| Clients.AddPeer | src/clients/client/Client.ts:152-154 | The call waits while the slot is pending. Once the slot is settled it applies the transport's `addPeer` to the installed transport, in the same slot instance, and changes nothing else. |
| Clients.AddedPeerIsKnown | src/clients/client/Client.ts:144-154 | On a settled slot, the added peer's public key is among the keys of the peers the client's `getPeers` returns. The peer itself may not be there, because a known key is skipped. |
| Clients.AddListener | src/clients/client/Client.ts:177-189 | The client's listener is appended to the transport's listeners. The rest of the transport is unchanged. |
| Clients.AddListenerToInstalled | src/clients/client/Client.ts:177-179 | Registering on the installed transport appends the client's listener to that transport inside the same slot instance. Nothing else changes, and nothing happens while no transport is installed. |
| Clients.OnMessage | src/clients/client/Client.ts:179-186 | The listener dispatches iff the message is a string. The dispatch carries that text and the message's context. |
| Clients.DeliveryReachesHandler | src/clients/client/Client.ts:179-186 | When a message is fanned out to a listener list, the client's hook is called once per registration of the client's listener if the message is text, each time with that text and context. It is never called for a non-text message. |
| Clients.RegisteredOnceDispatchesOnce | src/clients/client/Client.ts:177-187 | A client whose listener was registered once gets exactly one hook call per text message. |
| Clients.InitThenListen | src/clients/client/Client.ts:131-186 | Take `init` on an unsettled slot, with a transport not already carrying the client's listener, followed by registration on the installed transport. A text message that transport then delivers reaches the hook exactly once. |
| ExposedPromise.Resolve | src/clients/client/Client.ts:161-166 | `resolve` keeps the promise instance and leaves the promise settled. A settled promise is unchanged. A pending one now holds the given value. |
| ExposedPromise.SettlesAtMostOnce | src/clients/client/Client.ts:161-166 | A second `resolve` changes nothing, so the first value wins. |
| Transports.New | src/transports/Transport.ts:58-62 | A new transport has type `POST_MESSAGE` and status `NOT_CONNECTED`. It keeps the given name, client presence and stored peers, with no listeners and no calls yet. |
| Transports.ConnectionLifecycle | src/transports/Transport.ts:74-90 | A new transport is `NOT_CONNECTED` with type `POST_MESSAGE`. `connect` makes it `CONNECTED`, and a repeated `connect` changes nothing more. `reconnect` leaves the status as it was. |
| Transports.ConnectionStatus | src/transports/Transport.ts:54-56 | The getter reads `CONNECTED` exactly when the transport's status is `CONNECTED`. |
| Transports.Connect | src/transports/Transport.ts:74-79 | The status becomes `CONNECTED` and nothing else changes. |
| Transports.Reconnect | src/transports/Transport.ts:86-90 | The transport is unchanged. |
| Transports.Send | src/transports/Transport.ts:98-114 | A truthy recipient that no peer has fails with `Peer unknown` and sends nothing. A known recipient gets exactly one `sendMessage`, to the first peer with that key, and the call returns that delivery's result. A falsy recipient (absent or `""`) produces one `sendMessage` per peer, in peer order. It returns the first delivery's result, or nothing when there are no peers. Without a communication client, any send that would deliver fails with a `TypeError` and sends nothing. Only the call log changes. |
| Transports.FindPeer | src/transports/Transport.ts:102 | The lookup finds nothing iff no peer has the key. Otherwise it returns the first index whose peer has the key. |
| Transports.Broadcast | src/transports/Transport.ts:110 | There is one delivery per peer, and delivery `i` goes to peer `i`. |
| Transports.AddListener | src/transports/Transport.ts:121-129 | The listener is appended at the end. Nothing else changes. |
| Transports.RemoveListener | src/transports/Transport.ts:136-144 | The removed listener no longer occurs. Every other listener keeps its exact number of registrations, as a multiset equation, so the list shrinks by the removed listener's registrations. Nothing else changes. |
| Transports.AddThenRemoveListener | src/transports/Transport.ts:126-141 | Removing a listener right after adding it gives the same result as removing it alone. If the listener was not registered, this restores the transport. With `RemoveCommutesWithAdd` this fixes the order of the listeners that remain. |
| Transports.RemoveCommutesWithAdd | src/transports/Transport.ts:141 | Removing one listener after registering another gives the same result as removing first and then registering. So the other listeners keep their order. |
| Transports.GetPeers | src/transports/Transport.ts:146-148 | The result is the store's peers, so it has exactly the store's keys. |
| Transports.HasPeer | src/transports/Transport.ts:151 | A key is known iff some stored peer has it. |
| Transports.AddPeer | src/transports/Transport.ts:150-158 | A known key leaves the transport unchanged: nothing is stored and `listen` is not called. An unknown key appends the peer and logs the store's `addPeer` followed by one `listen` for that key. The stored key set gains the peer's key either way. |
| Transports.AddPeerKeepsUnique | src/transports/Transport.ts:150-158 | `addPeer` never stores a public key twice. |
| Transports.RemoveKey | src/transports/Transport.ts:162 | The store keeps exactly the peers whose key differs from the removed one. Its key set loses that key. |
| Transports.RemoveKeyKeepsUnique | src/transports/Transport.ts:162 | Removal keeps the store's keys unique. |
| Transports.RemovePeer | src/transports/Transport.ts:160-166 | The key is gone from the store and the other peers remain. The log gains the store's `removePeer` for that key. When a client is present, exactly one `unsubscribeFromEncryptedMessage` for that key follows. Nothing else changes. |
| Transports.RemoveAllPeers | src/transports/Transport.ts:168-174 | The store is empty. The log gains the store's `removeAllPeers`. When a client is present, one `unsubscribeFromEncryptedMessages` follows. Nothing else changes. |
| Transports.ReplayKeys | src/transports/Transport.ts:150-166 | After any run of `addPeer`/`removePeer` calls, on any store, the known keys are the initial keys with each add and remove applied in order. |
| Transports.ReplayKeepsUnique | src/transports/Transport.ts:150-166 | Starting from a store whose keys are unique, any run of `addPeer`/`removePeer` keeps them unique, so duplicate adds collapse to one entry. |
| Transports.NotifyListeners | src/transports/Transport.ts:182-199 | Each registered listener is called exactly once, in registration order, with the same message and context. The warning is raised iff there are no listeners. |
| Seqs.Filter | src/transports/Transport.ts:141 | Each kept element comes from the input and satisfies the selector. Every input element that satisfies the selector is kept, and the result is no longer than the input. |
| BeaconErrors.NewBeaconError | src/errors/BeaconError.ts:15-20 | The name is `BeaconError`. The message is `[`, the kind's text, `]:`, then the detail. |
| BeaconErrors.MessageRoundTrip | src/errors/BeaconError.ts:18-20 | For any detail, parsing a constructed message gives back the kind and the detail. |
| BeaconErrors.GetError | src/errors/BeaconError.ts:22-47 | The factory is total over the nine kinds. It yields `NetworkNotSupportedBeaconError` iff the kind is `BROADCAST_ERROR` or `NETWORK_NOT_SUPPORTED`. |
| BeaconErrors.GetErrorMatchesClassNames | src/errors/BeaconError.ts:24-41 | Every kind except `BROADCAST_ERROR` maps to the class named after it. Every class is reached. `BROADCAST_ERROR` shares its class with `NETWORK_NOT_SUPPORTED`. |
| BeaconErrors.GetErrorInjectiveButForBroadcast | src/errors/BeaconError.ts:24-41 | Two kinds map to the same class iff they are equal or are the pair `BROADCAST_ERROR`/`NETWORK_NOT_SUPPORTED`. |

Two details of the code are worth noting:

- `init` does not register the inbound listener. `Clients.AddListener` and
  `Clients.AddListenerToInstalled` model the separate `addListener`.
- The window edge is strict: `date + 5000 > now` drops an entry exactly 5000 ms
  old (`Clients.WindowEdge`).

## Left out

- Transports are values, not shared objects. A change made to a transport
  through another reference than the slot is not seen through the slot, so
  `Clients.AddListener` on a transport value does not update the installed
  one. `Clients.AddListenerToInstalled` covers the in-place registration on the
  installed transport. A `connect` on the installed transport is seen only when
  that transport is installed already connected.
- Transports.NotifyListeners: listeners are assumed to return normally. In the
  program, a listener that throws synchronously stops `forEach`: the listeners
  after it are not called and `notifyListeners` rejects. The client's own
  listener is `async`, so it cannot throw this way.
- Clients.AddListener: the program registers a fresh anonymous closure each
  time, which can never be removed. The model gives all of them the client's
  one `listener` id, so a `Transports.RemoveListener` with that id, which the
  program cannot express, would remove them.

- Asynchrony and concurrency: every `await` is taken to complete in program
  order. Broadcast deliveries are logged one after the other rather than run
  concurrently through `Promise.all`. Suspension on a pending slot appears as
  `Waiting`.
- The `ExposedPromise` source is not part of this model. Only pending/settled
  and object identity are modelled. The rejected state is left out, because
  nothing in this core rejects the slot, so `status === RESOLVED` and
  `isSettled()` agree here.
- Failures of collaborators are not modelled: a `sendMessage`, peer-store,
  `listen` or unsubscribe call that throws or rejects. This includes a
  broadcast failing because one delivery rejects, and a failure between the
  store's `addPeer` and `listen`, which leaves a stored but unsubscribed peer.
  The missing communication client in `send` is the one collaborator failure
  that is modelled.
- The peer store (`PeerManager`) is not part of this model. It is represented
  as a sequence in which `addPeer` appends and `removePeer` drops every entry
  with the key. Persistence and `newPeerListener` are left out.
- `Serializer.deserialize` is external. `Dispatch` carries the text that it
  would decode, and decode failures are not modelled.
- The default `handleResponse`, which throws "not overwritten", and
  `matrixNodes` are left out, as are the account delegations (`getAccounts`,
  `getAccount`, `removeAccount`, `removeAllAccounts`). They are pure
  forwarding to the account manager, which is not part of this model.
- Logging (`logger.log`, `logger.warn`, `console.log`) is left out, except that
  the zero-listener warning is the `warned` result of
  `Transports.NotifyListeners`. The event bus appears only as the client's
  `events` log.
- The static `isAvailable` (always false) and the constructor-only
  `WalletPostMessageTransport` are left out, because they have no behaviour to
  state.
- `TransportType` and `TransportStatus` are defined in the SDK's shared types,
  not in `Client.ts`, `Transport.ts` or `BeaconError.ts`. Only
  `POST_MESSAGE`/`P2P` and `NOT_CONNECTED`/`CONNECTED` are modelled.
- The `BeaconErrorType` enum is not part of this model. Each kind's text is
  taken to be its member name, for example `BROADCAST_ERROR`.
- The error subclasses' own constructors (their names and detail texts) are not
  part of this model. `BeaconErrors.GetError` returns the class, not an
  instance.
- Timestamps are unbounded integers. JavaScript numbers are doubles, which are
  exact for millisecond clock values, so this makes no difference.
