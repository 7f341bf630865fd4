/** The signalling server's state and its socket handlers. Each handler is
    one atomic step over the module-level registry (`rooms`, `peers`,
    `transports`, `producers`, `consumers`). The media engine is reduced to
    a supply of fresh ids (`nextId`), the set of objects closed so far
    (`closed`), the transports given DTLS parameters (`connected`) and the
    consumers still paused (`paused`); messages pushed to sockets are
    appended to `outbox`. */
module Session {
  import opened Seqs
  import opened Registry

  /** Acknowledgement of `transport-produce`. */
  datatype ProduceReply = ProduceReply(id: Id, producersExist: bool)

  /** Acknowledgement of `consume`: no callback at all, the consumer's
      parameters, or the error payload of the catch block. */
  datatype ConsumeReply =
    | NoReply
    | ConsumerParams(id: Id, producerId: Id, serverConsumerId: Id)
    | ConsumeError

  class Server {
    var rooms: map<RoomName, Room>
    var peers: map<SocketId, Peer>
    var transports: seq<Record>
    var producers: seq<Record>
    var consumers: seq<Record>

    // Stand-ins for the media engine and the sockets.
    var nextId: Id
    var closed: set<Id>
    var connected: set<Id>
    var paused: set<Id>
    var outbox: seq<Notice>

    /** Every list holds records of its own kind, owned by a live peer and
        naming an engine object already handed out; every peer's room
        exists and lists it as a member; every router and every closed
        object was handed out by the engine. */
    ghost predicate Valid()
      reads this`rooms, this`peers, this`transports, this`producers, this`consumers
      reads this`nextId, this`closed
    {
      && Registered(transports, TransportKind, peers.Keys, nextId)
      && Registered(producers, ProducerKind, peers.Keys, nextId)
      && Registered(consumers, ConsumerKind, peers.Keys, nextId)
      && MembersListed(peers, rooms)
      && (forall n :: n in rooms ==> rooms[n].router < nextId)
      && (forall h :: h in closed ==> h < nextId)
    }

    /** The state at start-up: nothing registered, nothing sent. */
    constructor ()
      ensures Valid()
      ensures rooms == map[] && peers == map[]
      ensures transports == producers == consumers == []
      ensures closed == connected == paused == {} && outbox == []
    {
      rooms, peers := map[], map[];
      transports, producers, consumers := [], [], [];
      nextId := 0;
      closed, connected, paused := {}, {}, {};
      outbox := [];
    }

    /** The engine creates an object: its id is new. */
    method NewHandle() returns (h: Id)
      requires Valid()
      modifies this`nextId
      ensures Valid()
      ensures h == old(nextId) && nextId == old(nextId) + 1
    {
      h := nextId;
      nextId := nextId + 1;
      RegisteredGrow(transports, TransportKind, peers.Keys, h, peers.Keys, nextId);
      RegisteredGrow(producers, ProducerKind, peers.Keys, h, peers.Keys, nextId);
      RegisteredGrow(consumers, ConsumerKind, peers.Keys, h, peers.Keys, nextId);
    }

    // -------------------------------------------------------------------
    // Rooms

    /** `createRoom`: reuse the room's router and append `s` to its members,
        or create a router and a room whose only member is `s`. */
    method CreateRoom(roomName: RoomName, s: SocketId) returns (router: Id)
      requires Valid()
      modifies this`rooms, this`nextId
      ensures Valid()
      ensures roomName in rooms && router == rooms[roomName].router
      ensures roomName in old(rooms) ==>
        && router == old(rooms)[roomName].router
        && nextId == old(nextId)
        && rooms == old(rooms)[roomName := Room(router, old(rooms)[roomName].peers + [s])]
      ensures roomName !in old(rooms) ==>
        && router == old(nextId) && nextId == old(nextId) + 1
        && router !in old(closed)
        && (forall n :: n in old(rooms) ==> old(rooms)[n].router != router)
        && rooms == old(rooms)[roomName := Room(router, [s])]
    {
      var members: seq<SocketId> := [];
      if roomName in rooms {
        router := rooms[roomName].router;
        members := rooms[roomName].peers;
      } else {
        router := NewHandle();
      }
      assert members + [s] == if roomName in old(rooms) then old(rooms)[roomName].peers + [s] else [s];
      rooms := rooms[roomName := Room(router, members + [s])];
    }

    /** `joinRoom`: enter the room (see CreateRoom) and (re)set the socket's
        peer entry; the reply carries the router's capabilities, modelled by
        the router's id. Entries of other sockets are kept. */
    method JoinRoom(s: SocketId, roomName: RoomName) returns (rtpCapabilities: Id)
      requires Valid()
      modifies this`rooms, this`nextId, this`peers
      ensures Valid()
      ensures roomName in rooms && rtpCapabilities == rooms[roomName].router
      ensures roomName in old(rooms) ==>
        && rtpCapabilities == old(rooms)[roomName].router
        && nextId == old(nextId)
        && rooms == old(rooms)[roomName := Room(rtpCapabilities, old(rooms)[roomName].peers + [s])]
      ensures roomName !in old(rooms) ==>
        && rtpCapabilities == old(nextId) && nextId == old(nextId) + 1
        && rooms == old(rooms)[roomName := Room(rtpCapabilities, [s])]
      ensures peers == old(peers)[s := NewPeer(roomName)]
    {
      rtpCapabilities := CreateRoom(roomName, s);
      peers := peers[s := NewPeer(roomName)];
    }

    // -------------------------------------------------------------------
    // Registering engine objects

    /** `addTransport`: one record appended, its id appended to the
        owner's transport list; nothing else changes. */
    method AddTransport(s: SocketId, t: Id, roomName: RoomName, consumer: bool)
      requires Valid() && s in peers && t < nextId
      modifies this`transports, this`peers
      ensures Valid()
      ensures transports == old(transports) + [TransportRecord(s, t, roomName, consumer)]
      ensures peers == old(peers)[s := old(peers)[s].(transports := old(peers)[s].transports + [t])]
    {
      RegisteredAppend(transports, TransportRecord(s, t, roomName, consumer), TransportKind, peers.Keys, nextId);
      transports := transports + [TransportRecord(s, t, roomName, consumer)];
      peers := peers[s := peers[s].(transports := peers[s].transports + [t])];
      assert peers.Keys == old(peers).Keys;
    }

    /** `addProducer`: one record appended, its id appended to the owner's
        producer list; nothing else changes. */
    method AddProducer(s: SocketId, p: Id, roomName: RoomName)
      requires Valid() && s in peers && p < nextId
      modifies this`producers, this`peers
      ensures Valid()
      ensures producers == old(producers) + [ProducerRecord(s, p, roomName)]
      ensures peers == old(peers)[s := old(peers)[s].(producers := old(peers)[s].producers + [p])]
    {
      RegisteredAppend(producers, ProducerRecord(s, p, roomName), ProducerKind, peers.Keys, nextId);
      producers := producers + [ProducerRecord(s, p, roomName)];
      peers := peers[s := peers[s].(producers := peers[s].producers + [p])];
      assert peers.Keys == old(peers).Keys;
    }

    /** `addConsumer`: one record appended, its id appended to the owner's
        consumer list; nothing else changes. */
    method AddConsumer(s: SocketId, c: Id, roomName: RoomName)
      requires Valid() && s in peers && c < nextId
      modifies this`consumers, this`peers
      ensures Valid()
      ensures consumers == old(consumers) + [ConsumerRecord(s, c, roomName)]
      ensures peers == old(peers)[s := old(peers)[s].(consumers := old(peers)[s].consumers + [c])]
    {
      RegisteredAppend(consumers, ConsumerRecord(s, c, roomName), ConsumerKind, peers.Keys, nextId);
      consumers := consumers + [ConsumerRecord(s, c, roomName)];
      peers := peers[s := peers[s].(consumers := peers[s].consumers + [c])];
      assert peers.Keys == old(peers).Keys;
    }

    /** `createWebRtcTransport`: the engine call may fail (`engineOk`); on
        success the new transport's id is sent back and the transport is
        registered for `s` in its room. A socket that never joined, or an
        engine failure, leaves the state unchanged and sends no reply. */
    method CreateWebRtcTransport(s: SocketId, consumer: bool, engineOk: bool) returns (reply: Option<Id>)
      requires Valid()
      modifies this`transports, this`peers, this`nextId
      ensures Valid()
      ensures reply.Some? <==> s in old(peers) && engineOk
      ensures reply.None? ==>
        transports == old(transports) && peers == old(peers) && nextId == old(nextId)
      ensures reply.Some? ==>
        && s in old(peers)
        && reply.value == old(nextId) && nextId == old(nextId) + 1
        && reply.value !in old(closed)
        && (forall r :: r in old(transports) ==> r.handle != reply.value)
        && transports == old(transports) + [TransportRecord(s, reply.value, old(peers)[s].roomName, consumer)]
        && peers == old(peers)[s := old(peers)[s].(transports := old(peers)[s].transports + [reply.value])]
    {
      if s !in peers {
        return None;
      }
      var roomName := peers[s].roomName;
      if !engineOk {
        return None;
      }
      var t := NewHandle();
      reply := Some(t);
      AddTransport(s, t, roomName, consumer);
    }

    // -------------------------------------------------------------------
    // Read-only queries

    /** `getProducers`: the ids of the producers of the caller's room that
        other sockets own, in registry order. */
    method GetProducers(s: SocketId) returns (reply: Option<seq<Id>>)
      ensures s !in peers ==> reply.None?
      ensures s in peers ==> reply == Some(ProducerList(producers, peers[s].roomName, s))
    {
      if s !in peers {
        return None;
      }
      var roomName := peers[s].roomName;
      var producerList: seq<Id> := [];
      var i := 0;
      while i < |producers|
        invariant 0 <= i <= |producers|
        invariant producerList == ProducerList(producers[..i], roomName, s)
      {
        var producerData := producers[i];
        if producerData.socketId != s && producerData.roomName == roomName {
          producerList := producerList + [producerData.handle];
        }
        ProducerListSnoc(producers[..i], producerData, roomName, s);
        assert producers[..i + 1] == producers[..i] + [producerData];
        i := i + 1;
      }
      assert producers[..i] == producers;
      reply := Some(producerList);
    }

    /** `informConsumers`: push `new-producer` for `id` to the owner of every
        producer record of the room not owned by `s`, in registry order. */
    method InformConsumers(roomName: RoomName, s: SocketId, id: Id)
      requires Valid()
      modifies this`outbox
      ensures Valid()
      ensures outbox == old(outbox) + NewProducerNotices(Recipients(producers, roomName, s), id)
    {
      var i := 0;
      while i < |producers|
        invariant 0 <= i <= |producers|
        invariant outbox == old(outbox) + NewProducerNotices(Recipients(producers[..i], roomName, s), id)
      {
        var producerData := producers[i];
        if producerData.socketId != s && producerData.roomName == roomName {
          outbox := outbox + [NewProducer(producerData.socketId, id)];
        }
        RecipientsSnoc(producers[..i], producerData, roomName, s);
        assert producers[..i + 1] == producers[..i] + [producerData];
        i := i + 1;
      }
      assert producers[..i] == producers;
    }

    // -------------------------------------------------------------------
    // Connecting, producing, consuming

    /** `transport-connect`: give DTLS parameters to the caller's send
        transport; a caller without one makes the handler throw. */
    method TransportConnect(s: SocketId) returns (ok: bool)
      modifies this`connected
      ensures ok <==> GetTransport(transports, s).Some?
      ensures ok ==> connected == old(connected) + {transports[GetTransport(transports, s).value].handle}
      ensures !ok ==> connected == old(connected)
    {
      var i := GetTransport(transports, s);
      if i.None? {
        return false;
      }
      connected := connected + {transports[i.value].handle};
      ok := true;
    }

    /** `transport-produce`: produce on the caller's send transport, register
        the producer, fan out `new-producer`, and reply with the producer's
        id and whether the registry now holds more than one producer (in
        any room). Without a send transport the handler throws and nothing
        changes. */
    method TransportProduce(s: SocketId) returns (reply: Option<ProduceReply>)
      requires Valid()
      modifies this`producers, this`peers, this`nextId, this`outbox
      ensures Valid()
      ensures reply.Some? <==> GetTransport(transports, s).Some?
      ensures reply.None? ==>
        producers == old(producers) && peers == old(peers) && nextId == old(nextId) && outbox == old(outbox)
      ensures reply.Some? ==>
        && s in old(peers)
        && var roomName, p := old(peers)[s].roomName, old(nextId);
        && reply.value.id == p && nextId == p + 1
        && (forall r :: r in old(producers) ==> r.handle != p)
        && producers == old(producers) + [ProducerRecord(s, p, roomName)]
        && reply.value.producersExist == (|producers| > 1)
        && peers == old(peers)[s := old(peers)[s].(producers := old(peers)[s].producers + [p])]
        && outbox == old(outbox) + NewProducerNotices(Recipients(old(producers), roomName, s), p)
    {
      var i := GetTransport(transports, s);
      if i.None? {
        return None;
      }
      assert transports[i.value] in transports;
      var p := NewHandle();
      var roomName := peers[s].roomName;
      AddProducer(s, p, roomName);
      RecipientsSnoc(old(producers), ProducerRecord(s, p, roomName), roomName, s);
      InformConsumers(roomName, s, p);
      reply := Some(ProduceReply(p, |producers| > 1));
    }

    /** `transport-recv-connect`: give DTLS parameters to the receive
        transport with id `transportId`, whoever owns it. */
    method TransportRecvConnect(transportId: Id) returns (ok: bool)
      modifies this`connected
      ensures ok <==> FindRecvTransport(transports, transportId).Some?
      ensures ok ==> connected == old(connected) + {transportId}
      ensures !ok ==> connected == old(connected)
    {
      var i := FindRecvTransport(transports, transportId);
      if i.None? {
        return false;
      }
      connected := connected + {transports[i.value].handle};
      ok := true;
    }

    /** `consume`: on the receive transport `transportId`, if the router
        says the caller can consume `remoteProducerId` (`canConsume`) and
        the engine call succeeds (`engineOk`), create a paused consumer,
        register it and reply with its parameters. An incompatible producer
        gets no reply; a missing peer or transport, or an engine failure,
        gets the error payload; neither adds a record. */
    method Consume(s: SocketId, transportId: Id, remoteProducerId: Id, canConsume: bool, engineOk: bool)
      returns (reply: ConsumeReply)
      requires Valid()
      modifies this`consumers, this`peers, this`nextId, this`paused
      ensures Valid()
      ensures reply.NoReply? <==>
        s in old(peers) && FindRecvTransport(transports, transportId).Some? && !canConsume
      ensures reply.ConsumerParams? <==>
        s in old(peers) && FindRecvTransport(transports, transportId).Some? && canConsume && engineOk
      ensures !reply.ConsumerParams? ==>
        consumers == old(consumers) && peers == old(peers) && nextId == old(nextId) && paused == old(paused)
      ensures reply.ConsumerParams? ==>
        && s in old(peers)
        && var c := old(nextId);
        && reply == ConsumerParams(c, remoteProducerId, c)
        && nextId == c + 1
        && (forall r :: r in old(consumers) ==> r.handle != c)
        && paused == old(paused) + {c}
        && consumers == old(consumers) + [ConsumerRecord(s, c, old(peers)[s].roomName)]
        && peers == old(peers)[s := old(peers)[s].(consumers := old(peers)[s].consumers + [c])]
    {
      if s !in peers {
        return ConsumeError;
      }
      var roomName := peers[s].roomName;
      var i := FindRecvTransport(transports, transportId);
      if i.None? {
        return ConsumeError;
      }
      if !canConsume {
        return NoReply;
      }
      if !engineOk {
        return ConsumeError;
      }
      var c := NewHandle();
      paused := paused + {c};
      AddConsumer(s, c, roomName);
      reply := ConsumerParams(c, remoteProducerId, c);
    }

    /** The `producerclose` listener armed by `consume` for socket `s`,
        consumer `consumerId` on receive transport `transportId`: tell the
        socket, close both objects and drop their records. The peer's own id
        lists are left as they are. */
    method OnProducerClose(s: SocketId, consumerId: Id, transportId: Id, remoteProducerId: Id)
      requires Valid() && consumerId < nextId && transportId < nextId
      modifies this`outbox, this`closed, this`transports, this`consumers
      ensures Valid()
      ensures outbox == old(outbox) + [ProducerClosed(s, remoteProducerId)]
      ensures closed == old(closed) + {transportId, consumerId}
      ensures transports == Filter(old(transports), HandleOtherThan(transportId))
      ensures consumers == Filter(old(consumers), HandleOtherThan(consumerId))
      ensures forall r :: r in transports ==> r.handle != transportId
      ensures forall r :: r in consumers ==> r.handle != consumerId
    {
      outbox := outbox + [ProducerClosed(s, remoteProducerId)];
      var keptTransports := Filter(transports, HandleOtherThan(transportId));
      FilterMembers(transports, HandleOtherThan(transportId));
      RegisteredFilter(transports, HandleOtherThan(transportId), TransportKind, peers.Keys, nextId);
      var keptConsumers := Filter(consumers, HandleOtherThan(consumerId));
      FilterMembers(consumers, HandleOtherThan(consumerId));
      RegisteredFilter(consumers, HandleOtherThan(consumerId), ConsumerKind, peers.Keys, nextId);
      closed := closed + {transportId};
      transports := keptTransports;
      closed := closed + {consumerId};
      consumers := keptConsumers;
    }

    /** `consumer-resume`: unpause the first consumer registered with id
        `consumerId`; an unknown id makes the handler throw. */
    method ConsumerResume(consumerId: Id) returns (ok: bool)
      modifies this`paused
      ensures ok <==> FindConsumer(consumers, consumerId).Some?
      ensures ok ==> paused == old(paused) - {consumerId}
      ensures !ok ==> paused == old(paused)
    {
      var i := FindConsumer(consumers, consumerId);
      if i.None? {
        return false;
      }
      paused := paused - {consumers[i.value].handle};
      ok := true;
    }

    // -------------------------------------------------------------------
    // Disconnect

    /** `removeItems`: close the object of every record of `s`, then keep
        the other records in their order. */
    method RemoveItems(items: seq<Record>, s: SocketId) returns (kept: seq<Record>)
      modifies this`closed
      ensures closed == old(closed) + OwnedHandles(items, s)
      ensures kept == Filter(items, NotOwnedBy(s))
      ensures forall r :: r in kept ==> r in items && r.socketId != s
    {
      var i := 0;
      while i < |items|
        invariant 0 <= i <= |items|
        invariant closed == old(closed) + OwnedHandles(items[..i], s)
      {
        var item := items[i];
        if item.socketId == s {
          closed := closed + {item.handle};
        }
        OwnedHandlesSnoc(items[..i], item, s);
        assert items[..i + 1] == items[..i] + [item];
        i := i + 1;
      }
      assert items[..i] == items;
      kept := Filter(items, NotOwnedBy(s));
      FilterMembers(items, NotOwnedBy(s));
    }

    /** The record-removal half of `disconnect`: `removeItems` on the
        consumers, the producers and the transports, in that order. What is
        left are the records of other sockets, each still owned by a peer. */
    method RemoveSocketRecords(s: SocketId)
      requires Registered(transports, TransportKind, peers.Keys, nextId)
      requires Registered(producers, ProducerKind, peers.Keys, nextId)
      requires Registered(consumers, ConsumerKind, peers.Keys, nextId)
      requires forall h :: h in closed ==> h < nextId
      modifies this`consumers, this`producers, this`transports, this`closed
      ensures consumers == Filter(old(consumers), NotOwnedBy(s))
      ensures producers == Filter(old(producers), NotOwnedBy(s))
      ensures transports == Filter(old(transports), NotOwnedBy(s))
      ensures closed == old(closed)
        + OwnedHandles(old(consumers), s) + OwnedHandles(old(producers), s) + OwnedHandles(old(transports), s)
      ensures Registered(transports, TransportKind, peers.Keys - {s}, nextId)
      ensures Registered(producers, ProducerKind, peers.Keys - {s}, nextId)
      ensures Registered(consumers, ConsumerKind, peers.Keys - {s}, nextId)
      ensures forall h :: h in closed ==> h < nextId
    {
      ghost var owners, bound := peers.Keys, nextId;
      RegisteredWithout(consumers, s, ConsumerKind, owners, bound);
      RegisteredWithout(producers, s, ProducerKind, owners, bound);
      RegisteredWithout(transports, s, TransportKind, owners, bound);
      OwnedHandlesBelow(consumers, s, ConsumerKind, owners, bound);
      OwnedHandlesBelow(producers, s, ProducerKind, owners, bound);
      OwnedHandlesBelow(transports, s, TransportKind, owners, bound);
      var cs := RemoveItems(consumers, s);
      var ps := RemoveItems(producers, s);
      var ts := RemoveItems(transports, s);
      consumers, producers, transports := cs, ps, ts;
    }

    /** `disconnect`: remove and close every consumer, producer and
        transport of `s`, then delete its peer entry and drop every
        occurrence of `s` from its room's members, keeping the router. For a
        socket that never joined, the handler throws after the removals. */
    method Disconnect(s: SocketId) returns (ok: bool)
      requires Valid()
      modifies this`consumers, this`producers, this`transports, this`closed, this`peers, this`rooms
      ensures Valid()
      ensures ok <==> s in old(peers)
      ensures consumers == Filter(old(consumers), NotOwnedBy(s))
      ensures producers == Filter(old(producers), NotOwnedBy(s))
      ensures transports == Filter(old(transports), NotOwnedBy(s))
      ensures forall r :: r in consumers + producers + transports ==> r.socketId != s
      ensures closed == old(closed)
        + OwnedHandles(old(consumers), s) + OwnedHandles(old(producers), s) + OwnedHandles(old(transports), s)
      ensures ok ==>
        && var roomName := old(peers)[s].roomName;
        && peers == old(peers) - {s}
        && roomName in old(rooms)
        && rooms == old(rooms)[roomName :=
             Room(old(rooms)[roomName].router, Filter(old(rooms)[roomName].peers, OtherThan(s)))]
        && (forall x :: x in rooms[roomName].peers ==> x in old(rooms)[roomName].peers && x != s)
        && (forall x :: x in old(rooms)[roomName].peers && x != s ==> x in rooms[roomName].peers)
      ensures !ok ==> peers == old(peers) && rooms == old(rooms)
      ensures !ok ==>
        consumers == old(consumers) && producers == old(producers) && transports == old(transports)
    {
      RemoveSocketRecords(s);
      FilterMembers(old(consumers), NotOwnedBy(s));
      FilterMembers(old(producers), NotOwnedBy(s));
      FilterMembers(old(transports), NotOwnedBy(s));
      if s !in peers {
        RegisteredGrow(transports, TransportKind, peers.Keys - {s}, nextId, peers.Keys, nextId);
        RegisteredGrow(producers, ProducerKind, peers.Keys - {s}, nextId, peers.Keys, nextId);
        RegisteredGrow(consumers, ConsumerKind, peers.Keys - {s}, nextId, peers.Keys, nextId);
        UnknownOwnerKeepsAll(old(consumers), s, ConsumerKind, peers.Keys, nextId);
        UnknownOwnerKeepsAll(old(producers), s, ProducerKind, peers.Keys, nextId);
        UnknownOwnerKeepsAll(old(transports), s, TransportKind, peers.Keys, nextId);
        return false;
      }
      var roomName := peers[s].roomName;
      peers := peers - {s};
      var members := Filter(rooms[roomName].peers, OtherThan(s));
      FilterMembers(rooms[roomName].peers, OtherThan(s));
      rooms := rooms[roomName := Room(rooms[roomName].router, members)];
      assert peers.Keys == old(peers).Keys - {s};
      forall x | x in peers
        ensures peers[x].roomName in rooms && x in rooms[peers[x].roomName].peers
      {
        if peers[x].roomName == roomName {
          assert x in old(rooms)[roomName].peers;
        }
      }
      ok := true;
    }
  }
}
