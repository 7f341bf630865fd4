/** Clients of the session model: call sequences of the handlers verified
    from their contracts alone, so every assertion below is a consequence
    of them. */
module Scenario {
  import opened Seqs
  import opened Registry
  import opened Session

  /** The first socket of a room gets a send transport of its own. */
  method FirstTransport()
  {
    var srv := new Server();
    var _ := srv.JoinRoom("p1", "r1");
    assert srv.rooms["r1"].peers == ["p1"];
    var send := srv.CreateWebRtcTransport("p1", false, true);
    assert send.Some?;
    assert srv.transports == [TransportRecord("p1", send.value, "r1", false)];
    assert srv.producers == [] && srv.outbox == [];
  }

  /** The first socket of a room produces: nobody else holds a producer
      record, so nobody is told and no other producer exists. */
  method FirstProducerIsAlone(srv: Server, t: Id)
    requires srv.Valid()
    requires "p1" in srv.peers && srv.peers["p1"].roomName == "r1"
    requires srv.transports == [TransportRecord("p1", t, "r1", false)]
    requires srv.producers == [] && srv.outbox == []
    modifies srv
  {
    var connected := srv.TransportConnect("p1");
    assert connected;
    var produced := srv.TransportProduce("p1");
    assert produced.Some?;
    assert !produced.value.producersExist;
    assert Recipients([], "r1", "p1") == [];
    assert NewProducerNotices([], produced.value.id) == [];
    assert srv.outbox == [];
    assert srv.producers == [ProducerRecord("p1", produced.value.id, "r1")];
  }

  /** A second socket joining the same room reuses its router; the same
      socket joining again is listed twice. */
  method SecondPeerSharesRouter()
  {
    var srv := new Server();
    assert "p1" != "p2" by { assert "p1"[1] != "p2"[1]; }
    var caps1 := srv.JoinRoom("p1", "r1");
    var caps2 := srv.JoinRoom("p2", "r1");
    assert caps2 == caps1;
    assert srv.rooms["r1"].peers == ["p1", "p2"];
    var caps3 := srv.JoinRoom("p2", "r1");
    assert caps3 == caps1;
    assert srv.rooms["r1"].peers == ["p1", "p2", "p2"];
    assert srv.peers.Keys == {"p1", "p2"};
  }

  /** A socket asking for the producers of its room sees another socket's
      producer. */
  method SeesOthersProducer(srv: Server, v: Id)
    requires srv.Valid()
    requires "p2" in srv.peers && srv.peers["p2"].roomName == "r1"
    requires srv.producers == [ProducerRecord("p1", v, "r1")]
  {
    var list := srv.GetProducers("p2");
    assert "p1" != "p2" by { assert "p1"[1] != "p2"[1]; }
    ProducerListSnoc([], ProducerRecord("p1", v, "r1"), "r1", "p2");
    assert [] + [ProducerRecord("p1", v, "r1")] == srv.producers;
    assert ProducerList([], "r1", "p2") == [];
    assert ProducerList(srv.producers, "r1", "p2") == [v];
    assert list == Some([v]);
  }

  /** A consumer on an existing receive transport starts paused; resuming it
      twice succeeds both times and leaves it running. */
  method ConsumeThenResume(srv: Server, s: SocketId, t: Id, v: Id)
    requires srv.Valid()
    requires s in srv.peers && FindRecvTransport(srv.transports, t).Some?
    modifies srv
  {
    var consumed := srv.Consume(s, t, v, true, true);
    assert consumed.ConsumerParams? && consumed.producerId == v;
    var c := consumed.id;
    assert c in srv.paused;
    assert srv.consumers[|srv.consumers| - 1].handle == c;
    var resumed := srv.ConsumerResume(c);
    assert resumed && c !in srv.paused;
    resumed := srv.ConsumerResume(c);
    assert resumed && c !in srv.paused;
  }

  /** A producing socket leaves: its producer is closed, its records and
      its peer entry go, and it is no longer a member of its room. */
  method ProducerLeaves(srv: Server, v: Id)
    requires srv.Valid()
    requires "p1" in srv.peers && ProducerRecord("p1", v, "r1") in srv.producers
    modifies srv
  {
    var room := srv.peers["p1"].roomName;
    var left := srv.Disconnect("p1");
    assert left;
    assert v in srv.closed;
    assert "p1" !in srv.peers;
    assert "p1" !in srv.rooms[room].peers;
    assert forall r :: r in srv.producers ==> r.socketId != "p1";
  }

  /** The producerclose listener tells its consumer's socket, and closes
      the consumer and its receive transport. */
  method ProducerCloseNotifies(srv: Server, s: SocketId, c: Id, t: Id, v: Id)
    requires srv.Valid() && c < srv.nextId && t < srv.nextId
    modifies srv
  {
    var before := srv.outbox;
    srv.OnProducerClose(s, c, t, v);
    assert srv.outbox == before + [ProducerClosed(s, v)];
    assert forall r :: r in srv.consumers ==> r.handle != c;
    assert c in srv.closed && t in srv.closed;
  }

  /** A socket that leaves twice: the second `disconnect` finds no peer
      entry, and removes and closes nothing more, so the lists are those one
      removal of the socket's records leaves. */
  method LeaveTwice(srv: Server, s: SocketId)
    requires srv.Valid()
    modifies srv
  {
    ghost var cs, ps, ts := srv.consumers, srv.producers, srv.transports;
    var _ := srv.Disconnect(s);
    ghost var closed := srv.closed;
    var again := srv.Disconnect(s);
    assert !again;
    RemovalIdempotent(cs, s);
    RemovalIdempotent(ps, s);
    RemovalIdempotent(ts, s);
    assert srv.consumers == Filter(cs, NotOwnedBy(s));
    assert srv.producers == Filter(ps, NotOwnedBy(s));
    assert srv.transports == Filter(ts, NotOwnedBy(s));
    assert srv.closed == closed;
  }
}
