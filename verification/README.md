# Stream signaling gateway — Dafny model

This project models the real-time presence and signaling coordinator of the
live-streaming API: the socket.io gateway on the `/stream` namespace
(`StreamsGateway`). The gateway keeps two in-memory maps:

- `activeStreams`: stream id → set of viewer connection ids;
- `broadcasterSockets`: stream id → broadcaster connection id.

It handles the transport's connect and disconnect and seven messages:

- `join-stream`, `leave-stream`: presence, viewer-count persistence and publication;
- `start-stream`, `stop-stream`: the live flag and the broadcaster;
- `offer`, `answer`, `ice-candidate`: relay of opaque negotiation payloads.

Each handler is one atomic step of a pure function:

`Step(state, connection, event) → StepResult(state', emits, writes, ack)`

- `state` holds both maps and the insertion order of `activeStreams`' keys.
  It also holds the socket.io room adapter and the stream store.
- `emits` lists every emit with the exact set of live connections it reaches.
- `writes` lists every `update(id, partial)` call made to the stream store, in order.
- `ack` is the value the handler returns to the sender.

Modules, one per file:

- `wrappers.dfy` (`Wrappers`): `Option`.
- `stream_store.dfy` (`StreamStore`): the stream store at its interface.
  `findOne` returns a record or nothing. `update` merges a partial record.
  An update of a missing id changes nothing. Column defaults are `isLive = false`
  and `viewerCount = 0`.
- `socket_rooms.dfy` (`SocketRooms`): socket.io rooms.
  A new connection sits in the room named by its own id.
  `client.join` and `client.leave` change one membership.
  A disconnect drops the connection from every room.
  It defines three addressing forms:
  - `server.to(x)` reaches every live member of room `x`, the sender included;
  - `client.to(x)` reaches the same set, minus every connection in the room
    named by the sender's id (as socket.io 4 does). While that room holds only
    the sender, this is room `x` minus the sender;
  - `server.emit` reaches every live connection.
- `stream_gateway.dfy` (`StreamsGateway`): the state, one function per handler, the
  dispatcher `Step`, and `Run` over a trace of events.
- `gateway_properties.dfy` (`GatewayProperties`): the state invariant and its
  preservation. Also: count consistency, disconnect purge and idempotence,
  last-writer-wins on start, stop after start, relay addressing, the
  N-joins/M-leaves count, and one end-to-end broadcast session.

The state invariant `Valid` has two parts:

- the insertion order lists each key of `activeStreams` exactly once;
- every viewer of a stream is a live connection inside that stream's room.

So every `viewer-count` publication reaches every viewer of its stream.

Behaviour of the gateway worth noting:

- A disconnect persists each affected stream's new count (`stream.gateway.ts:42`)
  but emits no `viewer-count`.
- `leave-stream` publishes the count (line 89) before the connection leaves the room
  (line 92). The leaving connection therefore still receives that publication.
- `answer`, and `ice-candidate` with a `to`, use `client.to`. They do not reach a
  sender that is still in its own room, even when it names itself. `offer` with a
  `to` uses `server.to`, so a self-addressed offer does reach the sender.
- Stream ids and connection ids share one room namespace. A connection that sends
  `leave-stream` with its own id leaves its own room, and its `client.to` relays
  to a room it is in then reach it too. A connection that joins a "stream" named by another
  connection's id is left out of every `client.to` relay from that connection.
- `start-stream` and `stop-stream` on a missing record report `{ success: true }`
  and do nothing.
- A disconnecting broadcaster stays in `broadcasterSockets`. Later `viewer-joined`
  notices are addressed to a connection that no longer exists and do not reach it.
- No message field is validated.
- `if (data.to)` and `if (broadcasterSocketId)` test JavaScript truthiness.
  The model spells this out: an empty string counts as absent.

## Model

| member | source | states |
|---|---|---|
| StreamStore.PatchEffects | apps/api/src/stream/stream.gateway.ts:177-179 | the count patch overwrites only the viewer count and the live patch (lines 103, 119) only the live flag |
| StreamStore.FindOne | apps/api/src/stream/stream.service.ts:29-31 | the lookup yields a record exactly when the store has a row with that id, and then that row |
| StreamStore.Merge | apps/api/src/stream/stream.service.ts:37-40 | merging a partial record: each field named by the patch takes the patch's value, every other field keeps the record's value |
| StreamStore.Update | apps/api/src/stream/stream.service.ts:37-40 | an update never creates or deletes rows, merges the patch into the row with that id when it exists, and leaves every other row unchanged |
| StreamStore.ApplyWrites | apps/api/src/stream/stream.gateway.ts:177-179 | a sequence of store calls never changes the set of rows, and a single call is exactly one update |
| StreamStore.FindAfterUpdate | apps/api/src/stream/stream.service.ts:37-40 | reading back after an update sees the old record with the patch applied, and still sees nothing for a missing id |
| StreamStore.UpdateIdempotent | apps/api/src/stream/stream.service.ts:37-40 | repeating the same update changes nothing further |
| StreamStore.ApplyWritesAt | apps/api/src/stream/stream.gateway.ts:39-44 | with calls to distinct ids, a row ends up changed by exactly the one call addressed to it, or unchanged if none is |
| SocketRooms.Connect | apps/api/src/stream/stream.gateway.ts:31-33 | a new connection becomes live; every other connection keeps its rooms; the new connection's own room holds only it unless someone else already joined a room of that name |
| SocketRooms.Join | apps/api/src/stream/stream.gateway.ts:59 | `client.join` adds the room to the connection's rooms and changes no other connection |
| SocketRooms.Leave | apps/api/src/stream/stream.gateway.ts:92 | `client.leave` removes the room from the connection's rooms and changes no other connection |
| SocketRooms.Disconnect | apps/api/src/stream/stream.gateway.ts:35 | a disconnected connection is no longer live, and every other connection keeps its rooms |
| SocketRooms.MembershipChanges | apps/api/src/stream/stream.gateway.ts:59 | seen from the rooms: connect adds the connection to its own room only; join adds it to one room only; leave removes it from one room only; disconnect removes it from every room |
| SocketRooms.ServerTo | apps/api/src/stream/stream.gateway.ts:64 | `server.to(x)` reaches exactly the live connections that are in room `x`, the sender included |
| SocketRooms.ClientTo | apps/api/src/stream/stream.gateway.ts:141 | `client.to(x)` reaches a member of `x` exactly when it is not in the room named by the sender's id. It never reaches a sender still in its own room. With the sender's own room intact it is `x` minus the sender |
| SocketRooms.ServerEmit | apps/api/src/stream/stream.gateway.ts:107 | `server.emit` reaches every live connection, and so every member of every room |
| SocketRooms.AddressById | apps/api/src/stream/stream.gateway.ts:135 | with its own room intact, addressing a connection by its id reaches exactly that connection through `server.to`. Through `client.to` it reaches that connection unless the connection is in the room named by the sender's id, and so never when it is the sender |
| SocketRooms.LeaveUndoesJoin | apps/api/src/stream/stream.gateway.ts:59 | leaving a room just joined restores the adapter, when the connection was not in that room before |
| StreamsGateway.Init | apps/api/src/stream/stream.gateway.ts:26-27 | a started gateway has no viewers, no broadcasters and no live connection, keeps the store it is given, and satisfies the invariant |
| StreamsGateway.Truthy | apps/api/src/stream/stream.gateway.ts:68 | a string tests true exactly when it is non-empty |
| StreamsGateway.HandleConnection | apps/api/src/stream/stream.gateway.ts:31-33 | connect makes the connection live and addressable by its id, changes the room adapter only by that connect, and leaves viewers, their insertion order, broadcasters and the store unchanged. It emits nothing |
| StreamsGateway.Sweep | apps/api/src/stream/stream.gateway.ts:39-44 | the disconnect sweep keeps every key and removes the connection from exactly the viewer sets of the visited streams |
| StreamsGateway.SweepWritesSound | apps/api/src/stream/stream.gateway.ts:40-42 | each count write of the sweep goes to a visited stream whose viewer set held the connection and carries that stream's size after the sweep |
| StreamsGateway.SweepWritesDistinct | apps/api/src/stream/stream.gateway.ts:39-44 | the sweep writes each stream at most once |
| StreamsGateway.SweepWritesCover | apps/api/src/stream/stream.gateway.ts:39-44 | every visited stream whose viewer set held the connection is written |
| StreamsGateway.HandleDisconnect | apps/api/src/stream/stream.gateway.ts:35-45 | disconnect removes the connection from its rooms and from the viewer sets, keeps every key, leaves `broadcasterSockets` untouched and emits nothing. It issues one count write, with the new size, per stream that held the connection and none elsewhere |
| StreamsGateway.HandleJoinStream | apps/api/src/stream/stream.gateway.ts:47-76 | join adds the connection to the stream's viewer set, creating the entry if absent, and to the room; other streams and `broadcasterSockets` are unchanged. The new size is persisted, published to the whole room (joiner included) and returned. A `viewer-joined` notice goes to the broadcaster exactly when one is recorded |
| StreamsGateway.HandleLeaveStream | apps/api/src/stream/stream.gateway.ts:78-94 | leave removes only this connection, only from an existing entry, and never deletes the key. With no entry nothing is persisted or emitted. With an entry the new size is persisted and published to the room as it was before the leave. The connection always leaves the room and the ack is `{ success: true }` |
| StreamsGateway.HandleStartStream | apps/api/src/stream/stream.gateway.ts:96-110 | with a record: it becomes live, the sender joins the room and replaces any broadcaster, and every live connection hears `stream-started`. Without a record nothing changes or is emitted. Success either way |
| StreamsGateway.HandleStopStream | apps/api/src/stream/stream.gateway.ts:112-125 | with a record: it goes offline, the room hears `stream-stopped`, and only that stream's broadcaster entry is deleted, whoever the sender is. Without a record nothing changes. Success either way |
| StreamsGateway.HandleOffer | apps/api/src/stream/stream.gateway.ts:128-146 | an offer with a non-empty `to` reaches every live member of room `to`, sender included. Otherwise it reaches room `streamId` minus the sender's own room. It carries `from` = sender and changes no state |
| StreamsGateway.HandleAnswer | apps/api/src/stream/stream.gateway.ts:148-157 | an answer reaches room `to` minus the sender's own room, so never a sender still in that room. It carries `from` = sender and changes no state |
| StreamsGateway.HandleIceCandidate | apps/api/src/stream/stream.gateway.ts:159-175 | a candidate reaches room `to` (if non-empty) or room `streamId`, minus the sender's own room, so never a sender still in that room. It carries `from` = sender and changes no state |
| StreamsGateway.Step | apps/api/src/stream/stream.gateway.ts:47-175 | an event the transport would not deliver changes nothing; every event changes the store only through its logged writes and never adds or removes a stream record |
| GatewayProperties.ConnectPreservesValid | apps/api/src/stream/stream.gateway.ts:31-33 | a connect keeps the invariant |
| GatewayProperties.SweepKeepsOrder | apps/api/src/stream/stream.gateway.ts:39-44 | the sweep keeps the insertion order listing the keys |
| GatewayProperties.SweepKeepsViewersInRooms | apps/api/src/stream/stream.gateway.ts:35-45 | after the sweep and the transport disconnect, every remaining viewer is still live and in its stream's room |
| GatewayProperties.DisconnectPreservesValid | apps/api/src/stream/stream.gateway.ts:35-45 | a disconnect keeps the invariant |
| GatewayProperties.JoinPreservesValid | apps/api/src/stream/stream.gateway.ts:54-59 | a join keeps the invariant |
| GatewayProperties.LeavePreservesValid | apps/api/src/stream/stream.gateway.ts:85-92 | a leave keeps the invariant |
| GatewayProperties.StepPreservesValid | apps/api/src/stream/stream.gateway.ts:35-175 | every event keeps the invariant |
| GatewayProperties.RunPreservesValid | apps/api/src/stream/stream.gateway.ts:35-175 | any trace of events from a valid state ends in a valid state |
| GatewayProperties.ReachableValid | apps/api/src/stream/stream.gateway.ts:26-27 | every state reachable from start-up is valid |
| GatewayProperties.JoinLeaveCountConsistent | apps/api/src/stream/stream.gateway.ts:61-64 | after a join, or a leave of an existing entry, the stored `viewerCount` (when the record exists) and the published count both equal the viewer-set size, and every viewer receives the publication |
| GatewayProperties.DisconnectCountConsistent | apps/api/src/stream/stream.gateway.ts:40-42 | after a disconnect, every stream that held the connection has its stored `viewerCount` equal to its new viewer-set size, one less than before |
| GatewayProperties.DisconnectPurges | apps/api/src/stream/stream.gateway.ts:35-45 | on a valid state, a disconnect leaves the connection in no viewer set and no room, and streams without it untouched. Each stream that held it is written exactly once. `broadcasterSockets` is untouched and nothing is emitted |
| GatewayProperties.SweepWithoutMember | apps/api/src/stream/stream.gateway.ts:39-44 | a sweep over streams none of which holds the connection changes nothing and writes nothing |
| GatewayProperties.DisconnectIdempotent | apps/api/src/stream/stream.gateway.ts:35-45 | a second disconnect of the same connection changes nothing, writes nothing and emits nothing |
| GatewayProperties.RejoinRepublishes | apps/api/src/stream/stream.gateway.ts:54-75 | re-joining leaves presence and rooms unchanged but persists, publishes and returns the same count again |
| GatewayProperties.LeaveUndoesJoin | apps/api/src/stream/stream.gateway.ts:85-93 | a join followed by a leave of an existing entry restores presence and rooms exactly, and the count drops back by one |
| GatewayProperties.LastStartWins | apps/api/src/stream/stream.gateway.ts:101-107 | after two starts of the same stream the second starter is the broadcaster, the record is live, and both starters are in the room |
| GatewayProperties.StopAfterStart | apps/api/src/stream/stream.gateway.ts:117-124 | a stop by any connection after a start clears the broadcaster and the live flag, and the stop notice reaches the broadcaster |
| GatewayProperties.DisconnectedBroadcasterIsStale | apps/api/src/stream/stream.gateway.ts:66-73 | after the broadcaster disconnects it is still recorded, and the next viewer's `viewer-joined` notice does not reach it |
| GatewayProperties.OfferToOneConnection | apps/api/src/stream/stream.gateway.ts:133-138 | an offer addressed to a connection with its own room intact reaches exactly that connection, tagged with the sender |
| GatewayProperties.SelfAddressedAnswerReachesNobody | apps/api/src/stream/stream.gateway.ts:153-168 | in every state, an answer a live connection addresses to itself reaches nobody, and so does an ICE candidate it addresses to its own (non-empty) id |
| GatewayProperties.RoomRelayExcludesSender | apps/api/src/stream/stream.gateway.ts:139-174 | an unaddressed offer or candidate from a room member never comes back to a sender still in its own room. With the sender's own room intact it reaches every other member of the room |
| GatewayProperties.SenderOutsideOwnRoomHearsItself | apps/api/src/stream/stream.gateway.ts:92 | a connection that joins a stream and then leaves the room named by its own id receives its own unaddressed offer to that stream |
| GatewayProperties.SenderRoomJoinerMissesRelays | apps/api/src/stream/stream.gateway.ts:59 | a connection that joins a stream named by another connection's id receives none of that connection's `client.to` relays: offer, answer addressed to it, or candidate |
| GatewayProperties.RelaysOnlyForward | apps/api/src/stream/stream.gateway.ts:128-175 | relay events change no presence, broadcaster or store state, return nothing, and emit one message tagged with the sender |
| GatewayProperties.JoinsAddAll | apps/api/src/stream/stream.gateway.ts:54-59 | a run of joins by live connections keeps the live set and adds exactly those connections to the viewer set |
| GatewayProperties.LeavesRemoveAll | apps/api/src/stream/stream.gateway.ts:85-87 | a run of leaves of an existing entry removes exactly those connections from the viewer set |
| GatewayProperties.RunJoinTrace | apps/api/src/stream/stream.gateway.ts:47-76 | running a trace of join messages through the dispatcher is folding the join handler over the live senders |
| GatewayProperties.RunLeaveTrace | apps/api/src/stream/stream.gateway.ts:78-94 | running a trace of leave messages through the dispatcher is folding the leave handler over the live senders |
| GatewayProperties.JoinsPersistCount | apps/api/src/stream/stream.gateway.ts:61-62 | after a run of joins, the stored count of the stream (when its record exists) is its viewer-set size, and no record is created |
| GatewayProperties.LeavesPersistCount | apps/api/src/stream/stream.gateway.ts:87-88 | a run of leaves of an existing entry keeps the stored count equal to the viewer-set size, and no record is created |
| GatewayProperties.JoinsThenLeavesCount | apps/api/src/stream/stream.gateway.ts:54-90 | N distinct live connections join a stream nobody is viewing (no entry, or an emptied one), then M distinct ones among them leave: N − M viewers remain, and the stored count is N − M when the record exists |
| GatewayProperties.SessionConnects | apps/api/src/stream/stream.gateway.ts:31-33 | in the broadcast session, the two connects change only the rooms |
| GatewayProperties.SessionStart | apps/api/src/stream/stream.gateway.ts:101-109 | in the broadcast session, start makes the record live and `b` the broadcaster, and announces to both live connections |
| GatewayProperties.SessionJoin | apps/api/src/stream/stream.gateway.ts:54-75 | in the broadcast session, `v1`'s join yields count 1, published to `b` and `v1`, and a `viewer-joined` notice to `b` |
| GatewayProperties.SessionDisconnect | apps/api/src/stream/stream.gateway.ts:35-45 | in the broadcast session, `v1`'s disconnect persists count 0 and emits nothing |
| GatewayProperties.SessionStop | apps/api/src/stream/stream.gateway.ts:117-124 | in the broadcast session, stop makes the record offline, clears the broadcaster and notifies `b`, the room's only member |
| GatewayProperties.BroadcastSession | apps/api/src/stream/stream.gateway.ts:35-125 | the whole session as one trace ends offline, with no broadcaster, an empty but present viewer entry and a stored count of 0 |

## Left out

- Interleaving at `await` points. Each handler is one atomic step. A store call that fails or rejects is not modelled; every write succeeds. The unawaited count update of a disconnect is applied within the step.
- Logging, CORS, the namespace and gateway wiring (`stream.module.ts`, `main.ts`). They do not affect the state.
- Message validation. Message bodies are typed values. A missing `streamId`, or a missing `to` on `answer`, is not modelled, since the gateway does not check for either.
- The contents of session descriptions and ICE candidates. They are an opaque `Payload`.
- The stream record's other columns: title, description, stream key, broadcaster id, timestamps. Also the store's `create`, `findAll`, `findByStreamKey` and `remove`, and the HTTP controller. The gateway never uses them. A record's existence is taken as given.
- Delivery order and transport framing. Emits are listed in issue order, each with its recipient set; nothing models queues.
- Connection ids are fresh: a connect of an id that is already live is not delivered. Nor is a message from a connection that is not live. Both are no-ops in `Step`.
- The socket.io library itself is not part of this model. Its rooms and its three addressing forms are modelled on socket.io 4's behaviour, and `client.to` leaves out the sender's own-id room as that version does. Acknowledgement timeouts, volatile emits and multi-node adapters are left out; the gateway uses none of them.
- The web client, its peer-connection handling, its HTTP client and its build scripts. They are outside the gateway.
- StreamsGateway.HandleDisconnect: its per-stream removal is stated for the streams in the insertion order `order`. Under the invariant `Valid` these are all the keys of `activeStreams`, and `GatewayProperties.DisconnectPurges` states the unconditional form on valid states.
