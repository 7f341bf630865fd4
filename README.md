# Session registry of the mediasoup signalling server

This project models the server-side session registry of `app.js`. The
registry is the in-memory bookkeeping that the socket.io handlers of the
`/mediasoup` namespace keep. It consists of:

- `rooms`: a map from room name to the room's router and its member sockets;
- `peers`: a map from socket id to the room the socket joined and the ids of its transports, producers and consumers;
- three flat record lists, `transports`, `producers` and `consumers`, each tagged with the owning socket and the room.

`Session.Server` is a class holding these five fields. Each socket handler
is one method that runs as a single atomic step. The media engine
(mediasoup) is opaque. Routers, transports, producers and consumers are
ids taken from a counter of fresh ids (`nextId`). Every `close()` is
recorded in the `closed` set, every `connect()` in `connected`, and
consumers still paused in `paused`. Messages pushed to other sockets are
appended to `outbox`. The router's `canConsume` verdict is a boolean
parameter. The engine calls that may reject (transport creation, consumer
creation) take an `engineOk` parameter.

Some handlers throw a JavaScript TypeError on bad input, for example a
socket that never joined or a missing send transport. Outside `consume`,
the exception is not caught: it escapes the handler as an uncaught
exception or an unhandled rejection. `consume` catches its own
(`app.js:310`, `352-358`) and answers with the error payload, which the
model returns as `ConsumeError`. For the other handlers the model reports
such a call as `None` or `false` and states
the registry it leaves, which is the registry before the call, except for
`disconnect`, whose removals happen before the peer lookup that throws.
What the Node.js runtime does next is not modelled (see "## Left out").

Modules:

- `Seqs` (`seqs.dfy`): `Option`, plus `Filter` and `FirstIndex` with the meaning of `Array.prototype.filter` and `find`, and their lemmas.
- `Registry` (`registry.dfy`): the stored values, the lookups and the producer-list and fan-out functions with their lemmas. It also holds the predicates the class invariant is built from.
- `Session` (`session.dfy`): the `Server` class and one method per handler.
- `Scenario` (`scenario.dfy`): client call sequences of the handlers, verified from their contracts alone. Examples: a first producer in its room is alone; a late joiner is sent the existing producer; a consumer is resumed twice; a producing socket leaves; the producerclose listener fires; a socket leaves twice.

`Server.Valid()` is the invariant every handler keeps:

- every record is of its list's kind;
- every record is owned by a socket that has a peer entry;
- every record names an id already handed out;
- every peer's room exists and lists the peer as a member;
- every router and every closed id was handed out.

Behaviour as written in `app.js` that the model follows, where a cleaner
design would differ:

- Re-joining appends the socket to the room's members again (`app.js:139`). Membership can hold duplicates, and a socket that re-joins another room stays listed in its old one.
- The `new-producer` fan-out goes once to the owner of every other producer record of the room (`app.js:255-260`). It does not go to every room member: a member that produces nothing is not told, and a member with two producers is told twice.
- `producersExist` is computed over the global producer list, not the room's (`app.js:297`).
- When `canConsume` is false, `consume` sends no acknowledgement at all (`app.js:317-351`). A failed transport creation sends none either (`app.js:189-191`).
- The receive-transport lookup in `transport-recv-connect` and `consume` matches any socket's receive transport with that id (`app.js:303-305`, `313-315`).
- The producerclose listener drops the consumer and transport records but not their ids in the peer's own lists (`app.js:330-338`).

## Model

| member | source | states |
|---|---|---|
| Seqs.Filter | app.js:85 | the filtered list is never longer than the input |
| Seqs.FilterMembers | app.js:85 | an element is kept exactly when it is in the input and satisfies the predicate |
| Seqs.FilterConcat | app.js:85 | filtering a concatenation filters each part and keeps them in order, so relative order is preserved |
| Seqs.FilterKeepsAll | app.js:85 | when every element satisfies the predicate, filtering returns the input unchanged |
| Seqs.FilterIdempotent | app.js:85 | filtering a second time by the same predicate removes nothing more |
| Registry.RemovalIdempotent | app.js:79-88 | `removeItems` run again for the same socket keeps every record and closes nothing; `Scenario.LeaveTwice` uses it for a second `disconnect` |
| Seqs.FirstIndex | app.js:303-305 | `find`: the index returned satisfies the predicate and no earlier index does; None exactly when no element satisfies it |
| Registry.OwnedHandlesSnoc | app.js:80-84 | the set of ids closed by `removeItems` grows by the next record's id exactly when that record belongs to the socket |
| Registry.RegisteredAppend | app.js:195-198 | appending a record of the list's kind, owned by a live peer and naming a handed-out id, keeps the list's invariant |
| Registry.RegisteredGrow | app.js:132 | the list invariant survives more owners and more handed-out ids |
| Registry.RegisteredFilter | app.js:335-337 | removing records by any predicate keeps the list invariant |
| Registry.UnknownOwnerKeepsAll | app.js:92-94 | under the invariant, removing the records of a socket without a peer entry removes nothing |
| Registry.OwnedHandlesBelow | app.js:80-84 | every id `removeItems` closes was handed out by the engine |
| Registry.RegisteredWithout | app.js:92-94 | after removing a socket's records, every remaining record is an old record of another socket, and the list invariant holds without that socket as an owner |
| Registry.GetTransport | app.js:264-267 | `getTransport`: the index of the first transport record of the socket whose `consumer` flag is false; None exactly when there is no such record |
| Registry.FindRecvTransport | app.js:303-305 | the index of the first receive transport record with that id, whatever its owner; None exactly when there is none |
| Registry.FindConsumer | app.js:364 | the index of the first consumer record with that id; None exactly when there is none |
| Registry.ProducerListMembers | app.js:239-250 | an id is in the `getProducers` answer exactly when some producer record of the caller's room, owned by another socket, carries it |
| Registry.ProducerListSnoc | app.js:242-247 | the `getProducers` answer keeps registry order: one more record adds its id at the end if it qualifies, and nothing otherwise |
| Registry.RecipientsSnoc | app.js:255-261 | the fan-out targets keep registry order: one more producer record adds its owner at the end if it qualifies |
| Registry.RecipientsMembers | app.js:255-260 | a socket is a fan-out target exactly when it is not the producer's socket and owns a producer record in the room |
| Registry.RecipientsCount | app.js:255-260 | every other socket is notified once per producer record it owns in the room |
| Session.Server.constructor | app.js:31-35 | the registry starts with no rooms, peers or records, and nothing is closed or sent |
| Session.Server.NewHandle | app.js:132 | an engine object gets the next fresh id and the invariant is kept |
| Session.Server.CreateRoom | app.js:125-143 | an existing room keeps its router and gets the socket appended to its members; otherwise exactly one new router is made and the members are just the socket. Either way the returned router is the room's router and other rooms are untouched |
| Session.Server.JoinRoom | app.js:105-123 | enters the room as CreateRoom does, replies with that router's capabilities, and (re)sets only the caller's peer entry to a fresh one for that room |
| Session.Server.AddTransport | app.js:194-208 | exactly one transport record, with the consumer flag, is appended; its id is appended to the owner's transport list and no other peer entry changes |
| Session.Server.AddProducer | app.js:210-222 | exactly one producer record is appended; its id is appended to the owner's producer list and no other peer entry changes |
| Session.Server.AddConsumer | app.js:224-237 | exactly one consumer record is appended; its id is appended to the owner's consumer list and no other peer entry changes |
| Session.Server.CreateWebRtcTransport | app.js:171-192 | a reply happens exactly when the socket joined and the engine succeeds, and carries a fresh id registered in the socket's room. A socket without a peer entry, or an engine failure, leaves every record and peer list as it was |
| Session.Server.GetProducers | app.js:239-250 | the loop returns the ids of the producers of the caller's room owned by other sockets, in registry order; a socket without a peer entry gets no answer |
| Session.Server.InformConsumers | app.js:252-262 | the loop appends one `new-producer` notice for each target, in registry order, and sends nothing else |
| Session.Server.TransportConnect | app.js:270-273 | it succeeds exactly when the socket has a send transport, and connects the first one |
| Session.Server.TransportProduce | app.js:276-299 | it succeeds exactly when the socket has a send transport. It appends one producer record with a fresh id in the caller's room and adds the id to the caller's list. It notifies the owners of the room's other producer records, and reports `producersExist` as whether the global list now holds more than one producer. Without a send transport nothing changes |
| Session.Server.TransportRecvConnect | app.js:301-307 | it succeeds exactly when a receive transport with that id exists, and connects it |
| Session.Server.Consume | app.js:309-360 | no reply exactly when the caller and the receive transport exist and `canConsume` is false. Parameters exactly when in addition `canConsume` holds and the engine succeeds: a fresh consumer, paused, one record appended, carrying the requested producer id. In every other case the error payload is returned, and no record or peer entry changes |
| Session.Server.OnProducerClose | app.js:330-338 | tells the consumer's socket `producer-closed`, closes the transport and the consumer, and removes exactly the records with those ids, keeping the rest in order. The peer's id lists are not touched |
| Session.Server.ConsumerResume | app.js:362-366 | it succeeds exactly when a consumer record with that id exists, and then unpauses that consumer |
| Session.Server.RemoveItems | app.js:79-88 | the loop closes exactly the ids of the socket's records; the result holds the other records in their order |
| Session.Server.RemoveSocketRecords | app.js:90-94 | consumers, producers and transports each lose exactly the socket's records. Each of those records is closed, and the rest keep the list invariant |
| Session.Server.Disconnect | app.js:90-103 | no record of the socket remains, every removed record's id is closed, and other sockets' records stay in order. For a joined socket, its peer entry is deleted and every occurrence of it leaves its room's members; the room keeps its router and other rooms are unchanged. For a socket that never joined, the peers, the rooms and the three lists are unchanged |

## Left out

- The Express routes, static files, HTTP listener (`http.createServer`) and socket.io namespace setup (`app.js:1-28`, `73-77`) are I/O plumbing and are not modelled.
- Worker creation, the `died` handler and the delayed `process.exit` (`app.js:38-52`) are process lifecycle and timers.
- The body of the module-level `createWebRtcTransport` (`app.js:369-413`) is not modelled. Its listen options, and the ICE, DTLS and RTP parameters a transport reports, are reduced to the transport's id; its `dtlsstatechange` and `close` listeners are left out too.
- The consumer's `transportclose` listener (`app.js:327-329`) only logs and is left out.
- The producer's `transportclose` listener (`app.js:290-293`) is left out. It closes the producer but leaves its record in `producers`. So when a send transport closes outside `disconnect`, for example through the `dtlsstatechange` listener (`app.js:390-394`), `getProducers` keeps listing the closed producer and the fan-out still targets its owner.
- The codec list (`app.js:55-70`), `kind`, `rtpParameters`, `rtpCapabilities` and `appData` are engine payloads. The model abstracts them: a router's capabilities are its id, and a consumer's `kind` and `rtpParameters` are not in its reply.
- `router.canConsume` is an uninterpreted verdict, passed in as a boolean.
- Whether `transport.produce` and `worker.createRouter` reject is not modelled; they always succeed here.
- The socket object stored in `peers` is represented by its id. Pushes to a socket are appended to `outbox` addressed by id.
- Handlers run one at a time to completion. The interleaving of `await`s between handlers is not modelled.
- The engine decides which consumers the `producerclose` event reaches. The model gives the listener for one consumer as a method, for a caller to invoke.
- `console.log` output is not modelled.
- Session.Server.CreateRoom takes room names to be strings that are not properties inherited by a plain JavaScript object. `rooms` is a plain object (`app.js:31`), so for a name such as `constructor`, `toString`, `valueOf` or `__proto__` the test at `app.js:128` sees an inherited value. `router1` then becomes `undefined` (`app.js:129`), `router1.id` throws at `app.js:135`, and no room is stored. The model treats such a name as an absent room and creates a router and a room for it. Object keys are also coerced to strings, so a number `1` and the string `"1"` share one room while the record comparisons at `app.js:244` and `256` tell them apart; a room name that is not a string is not modelled.
- Session.Server.JoinRoom inherits the same assumption. For an inherited property name the source's handler rejects at `app.js:135` before storing a peer entry or replying; the model stores the peer entry and replies with the new router.
- A TypeError thrown inside any handler but `consume` is not caught in `app.js` (`consume` catches its own at `app.js:352-358`). In the synchronous listeners (`disconnect` at `app.js:96`, `getProducers` at `app.js:240`, `transport-connect` at `app.js:265-266`, `272`) it is an uncaught exception. In the async ones (`app.js:172`, `277`, `282`, `303-305`, `364`) it is an unhandled rejection. Under Node.js defaults both end the server process and every room with it. The model does not capture that: it returns `None` or `false` and carries on with the registry the handler left. A `disconnect` of a socket that never sent `joinRoom` reaches the throw at `app.js:96`.
- `public/index.js` is browser client code and is not part of this model.
- Session.Server.Valid does not state that engine ids are unique across records. The handlers' contracts state instead that each new id is fresh, that is, unequal to every id in its list.
- Session.Server.OnProducerClose requires its consumer and transport ids to be ones the engine handed out. This always holds for the listener, which is armed only on objects the engine created.
