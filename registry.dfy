/** The values the session registry stores, and the read-only queries the
    socket handlers run over them: the send-transport lookup, the
    receive-transport and consumer lookups by id, the producer list a
    late joiner is sent, and the targets of the `new-producer` fan-out. */
module Registry {
  import opened Seqs

  type SocketId = string
  type RoomName = string
  /** Id of an object of the media engine (router, transport, producer,
      consumer); the engine hands out fresh ones. */
  type Id = nat

  /** `rooms[name]`: the room's router and its member list, in join order. */
  datatype Room = Room(router: Id, peers: seq<SocketId>)

  datatype PeerDetails = PeerDetails(name: string, isAdmin: bool)

  /** `peers[socketId]`: the room the socket joined last and the ids of the
      engine objects registered for it since then. */
  datatype Peer = Peer(
    roomName: RoomName,
    transports: seq<Id>,
    producers: seq<Id>,
    consumers: seq<Id>,
    peerDetails: PeerDetails)

  /** What `joinRoom` stores for a socket: empty id lists, no details. */
  function NewPeer(roomName: RoomName): (p: Peer)
    ensures p.roomName == roomName
    ensures p.transports == p.producers == p.consumers == []
  {
    Peer(roomName, [], [], [], PeerDetails("", false))
  }

  /** One entry of the flat lists `transports`, `producers` and `consumers`:
      the owning socket, the engine object and the room it was made in.
      A transport record also carries the client's `consumer` flag
      (true for a receive transport). */
  datatype Record =
    | TransportRecord(socketId: SocketId, handle: Id, roomName: RoomName, consumer: bool)
    | ProducerRecord(socketId: SocketId, handle: Id, roomName: RoomName)
    | ConsumerRecord(socketId: SocketId, handle: Id, roomName: RoomName)

  /** A message the server pushes to a socket. */
  datatype Notice =
    | NewProducer(to: SocketId, producerId: Id)
    | ProducerClosed(to: SocketId, producerId: Id)

  // Selection predicates, named so that equal calls denote equal predicates.

  function NotOwnedBy(s: SocketId): (p: Record -> bool) { (r: Record) => r.socketId != s }

  function OtherThan(s: SocketId): (p: SocketId -> bool) { (x: SocketId) => x != s }

  function HandleOtherThan(h: Id): (p: Record -> bool) { (r: Record) => r.handle != h }

  function OtherInRoom(roomName: RoomName, s: SocketId): (p: Record -> bool)
  {
    (r: Record) => r.socketId != s && r.roomName == roomName
  }

  function OwnedInRoom(x: SocketId, roomName: RoomName): (p: Record -> bool)
  {
    (r: Record) => r.socketId == x && r.roomName == roomName
  }

  function IsSendTransportOf(s: SocketId): (p: Record -> bool)
  {
    (r: Record) => r.TransportRecord? && r.socketId == s && !r.consumer
  }

  function IsRecvTransport(id: Id): (p: Record -> bool)
  {
    (r: Record) => r.TransportRecord? && r.consumer && r.handle == id
  }

  function HasHandle(id: Id): (p: Record -> bool) { (r: Record) => r.handle == id }

  /** The ids of the engine objects of `rs`, position by position. */
  function Handles(rs: seq<Record>): (ids: seq<Id>)
    ensures |ids| == |rs|
    ensures forall i :: 0 <= i < |rs| ==> ids[i] == rs[i].handle
  {
    seq(|rs|, i requires 0 <= i < |rs| => rs[i].handle)
  }

  /** The owning sockets of `rs`, position by position. */
  function Owners(rs: seq<Record>): (os: seq<SocketId>)
    ensures |os| == |rs|
    ensures forall i :: 0 <= i < |rs| ==> os[i] == rs[i].socketId
  {
    seq(|rs|, i requires 0 <= i < |rs| => rs[i].socketId)
  }

  /** The engine objects owned by `s` among `items`: what `removeItems` closes. */
  function OwnedHandles(items: seq<Record>, s: SocketId): (hs: set<Id>)
  {
    set r | r in items && r.socketId == s :: r.handle
  }

  lemma OwnedHandlesSnoc(items: seq<Record>, r: Record, s: SocketId)
    ensures OwnedHandles(items + [r], s)
         == OwnedHandles(items, s) + (if r.socketId == s then {r.handle} else {})
  {
    assert forall x :: x in items + [r] <==> x in items || x == r;
  }

  // ---------------------------------------------------------------------
  // Registry invariants

  datatype Kind = TransportKind | ProducerKind | ConsumerKind

  function KindOf(r: Record): Kind
  {
    match r
    case TransportRecord(_, _, _, _) => TransportKind
    case ProducerRecord(_, _, _) => ProducerKind
    case ConsumerRecord(_, _, _) => ConsumerKind
  }

  /** Every record of `rs` is of kind `kind`, is owned by one of `owners`
      and names an engine object below `bound`. */
  ghost predicate Registered(rs: seq<Record>, kind: Kind, owners: set<SocketId>, bound: Id)
  {
    forall r :: r in rs ==> KindOf(r) == kind && r.socketId in owners && r.handle < bound
  }

  /** Every peer's room exists and lists the peer among its members. */
  ghost predicate MembersListed(peers: map<SocketId, Peer>, rooms: map<RoomName, Room>)
  {
    forall s :: s in peers ==> peers[s].roomName in rooms && s in rooms[peers[s].roomName].peers
  }

  lemma RegisteredAppend(rs: seq<Record>, r: Record, kind: Kind, owners: set<SocketId>, bound: Id)
    requires Registered(rs, kind, owners, bound)
    requires KindOf(r) == kind && r.socketId in owners && r.handle < bound
    ensures Registered(rs + [r], kind, owners, bound)
  {
  }

  lemma RegisteredGrow(rs: seq<Record>, kind: Kind, owners: set<SocketId>, bound: Id, owners': set<SocketId>, bound': Id)
    requires Registered(rs, kind, owners, bound)
    requires owners <= owners' && bound <= bound'
    ensures Registered(rs, kind, owners', bound')
  {
  }

  lemma RegisteredFilter(rs: seq<Record>, p: Record -> bool, kind: Kind, owners: set<SocketId>, bound: Id)
    requires Registered(rs, kind, owners, bound)
    ensures Registered(Filter(rs, p), kind, owners, bound)
  {
    FilterMembers(rs, p);
  }

  /** Removing the records of a socket that owns none changes nothing. */
  lemma UnknownOwnerKeepsAll(rs: seq<Record>, s: SocketId, kind: Kind, owners: set<SocketId>, bound: Id)
    requires Registered(rs, kind, owners, bound) && s !in owners
    ensures Filter(rs, NotOwnedBy(s)) == rs
  {
    FilterKeepsAll(rs, NotOwnedBy(s));
  }

  /** The objects `removeItems` closes were handed out before. */
  lemma OwnedHandlesBelow(rs: seq<Record>, s: SocketId, kind: Kind, owners: set<SocketId>, bound: Id)
    requires Registered(rs, kind, owners, bound)
    ensures forall h :: h in OwnedHandles(rs, s) ==> h < bound
  {
  }

  /** Removing the records of `s` a second time removes and closes nothing
      more: what the first removal keeps holds no record of `s`. */
  lemma {:induction false} RemovalIdempotent(rs: seq<Record>, s: SocketId)
    ensures Filter(Filter(rs, NotOwnedBy(s)), NotOwnedBy(s)) == Filter(rs, NotOwnedBy(s))
    ensures OwnedHandles(Filter(rs, NotOwnedBy(s)), s) == {}
  {
    FilterIdempotent(rs, NotOwnedBy(s));
    FilterMembers(rs, NotOwnedBy(s));
  }

  /** Dropping the records of `s` leaves records owned by the others. */
  lemma RegisteredWithout(rs: seq<Record>, s: SocketId, kind: Kind, owners: set<SocketId>, bound: Id)
    requires Registered(rs, kind, owners, bound)
    ensures Registered(Filter(rs, NotOwnedBy(s)), kind, owners - {s}, bound)
    ensures forall r :: r in Filter(rs, NotOwnedBy(s)) ==> r in rs && r.socketId != s
  {
    FilterMembers(rs, NotOwnedBy(s));
  }

  // ---------------------------------------------------------------------
  // Lookups

  /** `getTransport(socketId)`: the first transport record of `s` whose
      `consumer` flag is false; None where the source's destructuring of an
      empty filter result throws. */
  function GetTransport(transports: seq<Record>, s: SocketId): (r: Option<nat>)
    ensures r.Some? ==> r.value < |transports|
    ensures r.Some? ==> var t := transports[r.value];
      t.TransportRecord? && t.socketId == s && !t.consumer
    ensures r.Some? ==> forall j :: 0 <= j < r.value ==>
      !(transports[j].TransportRecord? && transports[j].socketId == s && !transports[j].consumer)
    ensures r.None? <==> forall j :: 0 <= j < |transports| ==>
      !(transports[j].TransportRecord? && transports[j].socketId == s && !transports[j].consumer)
  {
    FirstIndex(transports, IsSendTransportOf(s))
  }

  /** `transports.find(...)` in `transport-recv-connect` and `consume`: the
      first receive transport record whose transport has id `id`, whoever
      owns it. */
  function FindRecvTransport(transports: seq<Record>, id: Id): (r: Option<nat>)
    ensures r.Some? ==> r.value < |transports|
    ensures r.Some? ==> var t := transports[r.value];
      t.TransportRecord? && t.consumer && t.handle == id
    ensures r.Some? ==> forall j :: 0 <= j < r.value ==>
      !(transports[j].TransportRecord? && transports[j].consumer && transports[j].handle == id)
    ensures r.None? <==> forall j :: 0 <= j < |transports| ==>
      !(transports[j].TransportRecord? && transports[j].consumer && transports[j].handle == id)
  {
    FirstIndex(transports, IsRecvTransport(id))
  }

  /** `consumers.find(...)` in `consumer-resume`: the first consumer record
      whose consumer has id `id`. */
  function FindConsumer(consumers: seq<Record>, id: Id): (r: Option<nat>)
    ensures r.Some? ==> r.value < |consumers| && consumers[r.value].handle == id
    ensures r.Some? ==> forall j :: 0 <= j < r.value ==> consumers[j].handle != id
    ensures r.None? <==> forall j :: 0 <= j < |consumers| ==> consumers[j].handle != id
  {
    FirstIndex(consumers, HasHandle(id))
  }

  // ---------------------------------------------------------------------
  // getProducers and the new-producer fan-out

  /** What `getProducers` answers socket `s` of room `roomName`. */
  function ProducerList(producers: seq<Record>, roomName: RoomName, s: SocketId): (ids: seq<Id>)
  {
    Handles(Filter(producers, OtherInRoom(roomName, s)))
  }

  /** The sockets `informConsumers` emits `new-producer` to, one entry per
      matching producer record. */
  function Recipients(producers: seq<Record>, roomName: RoomName, s: SocketId): (to: seq<SocketId>)
  {
    Owners(Filter(producers, OtherInRoom(roomName, s)))
  }

  /** The notices of one fan-out, in order. */
  function NewProducerNotices(to: seq<SocketId>, id: Id): (ns: seq<Notice>)
    ensures |ns| == |to|
    ensures forall i :: 0 <= i < |to| ==> ns[i] == NewProducer(to[i], id)
  {
    seq(|to|, i requires 0 <= i < |to| => NewProducer(to[i], id))
  }

  /** getProducers lists exactly the producers of the room owned by other
      sockets. */
  lemma ProducerListMembers(producers: seq<Record>, roomName: RoomName, s: SocketId, x: Id)
    ensures x in ProducerList(producers, roomName, s) <==>
      exists r :: r in producers && r.socketId != s && r.roomName == roomName && r.handle == x
  {
    var f := Filter(producers, OtherInRoom(roomName, s));
    FilterMembers(producers, OtherInRoom(roomName, s));
    if x in ProducerList(producers, roomName, s) {
      var i :| 0 <= i < |f| && Handles(f)[i] == x;
      assert f[i] in f;
    }
    if exists r :: r in producers && r.socketId != s && r.roomName == roomName && r.handle == x {
      var r :| r in producers && r.socketId != s && r.roomName == roomName && r.handle == x;
      assert r in f;
      var i :| 0 <= i < |f| && f[i] == r;
      assert Handles(f)[i] == x;
    }
  }

  /** getProducers keeps registry order: the list for a registry grown by
      one record is the old list, followed by the new id if it qualifies. */
  lemma ProducerListSnoc(producers: seq<Record>, r: Record, roomName: RoomName, s: SocketId)
    ensures ProducerList(producers + [r], roomName, s)
         == ProducerList(producers, roomName, s)
            + (if r.socketId != s && r.roomName == roomName then [r.handle] else [])
  {
    var p := OtherInRoom(roomName, s);
    FilterConcat(producers, [r], p);
    assert Filter([r], p) == (if p(r) then [r] else []) + Filter([], p);
    var a, b := Filter(producers, p), Filter([r], p);
    assert Handles(a + b) == Handles(a) + Handles(b);
  }

  /** Fan-out keeps registry order, like getProducers. */
  lemma RecipientsSnoc(producers: seq<Record>, r: Record, roomName: RoomName, s: SocketId)
    ensures Recipients(producers + [r], roomName, s)
         == Recipients(producers, roomName, s)
            + (if r.socketId != s && r.roomName == roomName then [r.socketId] else [])
  {
    var p := OtherInRoom(roomName, s);
    FilterConcat(producers, [r], p);
    assert Filter([r], p) == (if p(r) then [r] else []) + Filter([], p);
    var a, b := Filter(producers, p), Filter([r], p);
    assert Owners(a + b) == Owners(a) + Owners(b);
  }

  /** A socket is a fan-out target exactly when it is not the producing
      socket and owns a producer record of the room: a room member that
      produces nothing is not told about the new producer. */
  lemma RecipientsMembers(producers: seq<Record>, roomName: RoomName, s: SocketId, x: SocketId)
    ensures x in Recipients(producers, roomName, s) <==>
      x != s && exists r :: r in producers && r.socketId == x && r.roomName == roomName
  {
    var f := Filter(producers, OtherInRoom(roomName, s));
    FilterMembers(producers, OtherInRoom(roomName, s));
    if x in Recipients(producers, roomName, s) {
      var i :| 0 <= i < |f| && Owners(f)[i] == x;
      assert f[i] in f;
    }
    if x != s && exists r :: r in producers && r.socketId == x && r.roomName == roomName {
      var r :| r in producers && r.socketId == x && r.roomName == roomName;
      assert r in f;
      var i :| 0 <= i < |f| && f[i] == r;
      assert Owners(f)[i] == x;
    }
  }

  /** Each other socket is notified once per producer record it owns in the
      room, not once per membership. */
  lemma {:induction false} RecipientsCount(producers: seq<Record>, roomName: RoomName, s: SocketId, x: SocketId)
    requires x != s
    ensures multiset(Recipients(producers, roomName, s))[x]
         == |Filter(producers, OwnedInRoom(x, roomName))|
  {
    if producers != [] {
      var r, rest := producers[0], producers[1..];
      assert producers == [r] + rest;
      RecipientsCount(rest, roomName, s, x);
      var p := OtherInRoom(roomName, s);
      var head := if p(r) then [r] else [];
      assert Filter(producers, p) == head + Filter(rest, p);
      assert Owners(head + Filter(rest, p)) == Owners(head) + Owners(Filter(rest, p));
      assert Recipients(producers, roomName, s) == Owners(head) + Recipients(rest, roomName, s);
    }
  }
}
