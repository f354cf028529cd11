/** Facts about the loops of the connection manager, on values. */
module ManagerLoops {
  import opened Messages
  import opened ManagerSpec
  import Seq = SequencerSpec
  import PeerLists

  /** The frames of the packets, in order, as they go to the local side. */
  function BytesOf(ps: seq<Packet>): (r: seq<Bytes>)
    ensures |r| == |ps| && forall i :: 0 <= i < |ps| ==> r[i] == ps[i].bytes
  {
    seq(|ps|, i requires 0 <= i < |ps| => ps[i].bytes)
  }

  /** One datagram per address, in order. */
  function CopySeq(addresses: seq<SocketAddr>, message: Message): seq<Outgoing> {
    if addresses == [] then []
    else CopySeq(addresses[..|addresses| - 1], message) + [Outgoing(addresses[|addresses| - 1], message)]
  }

  lemma CopiesOneMore(all: set<SocketAddr>, a: SocketAddr, message: Message)
    requires a in all
    ensures Copies(all, message) == Copies(all - {a}, message) + multiset{Outgoing(a, message)}
  {
    var rest := set x | x in all - {a} :: Outgoing(x, message);
    assert (set x | x in all :: Outgoing(x, message)) == rest + {Outgoing(a, message)};
    assert Outgoing(a, message) !in rest;
  }

  lemma LastAddress(init: seq<SocketAddr>, a: SocketAddr, all: set<SocketAddr>)
    requires multiset(init + [a]) == multiset(all)
    ensures a in all && multiset(init) == multiset(all - {a})
  {
    assert multiset(init + [a]) == multiset(init) + multiset{a};
    assert a in multiset(all);
    assert multiset(all) == multiset(all - {a}) + multiset{a};
    assert multiset(init) == multiset(init + [a]) - multiset{a};
    assert multiset(all - {a}) == multiset(all) - multiset{a};
  }

  lemma {:induction false} CopySeqIsCopies(addresses: seq<SocketAddr>, all: set<SocketAddr>, message: Message)
    requires multiset(addresses) == multiset(all)
    ensures multiset(CopySeq(addresses, message)) == Copies(all, message)
    decreases addresses
  {
    if addresses == [] {
      assert |multiset(all)| == 0;
      assert all == {};
    } else {
      hide Copies;
      var init, a := addresses[..|addresses| - 1], addresses[|addresses| - 1];
      assert addresses == init + [a];
      LastAddress(init, a, all);
      CopySeqIsCopies(init, all - {a}, message);
      CopiesOneMore(all, a, message);
    }
  }

  lemma {:induction false} FanoutSnoc(peers: Peers, ids: seq<PeerId>, id: PeerId, message: PeerId -> Message)
    ensures Fanout(peers, ids + [id], message) == Fanout(peers, ids, message) + Copies(Connections(peers, id), message(id))
    decreases ids
  {
    hide Copies, Connections;
    if ids == [] {
      assert ids + [id] == [id];
      assert [id][1..] == [];
    } else {
      assert (ids + [id])[1..] == ids[1..] + [id];
      FanoutSnoc(peers, ids[1..], id, message);
    }
  }

  lemma {:induction false} CopySeqCount(addresses: seq<SocketAddr>, message: Message, o: Outgoing)
    ensures multiset(CopySeq(addresses, message))[o]
            == if o.message == message then multiset(addresses)[o.destination] else 0
    decreases addresses
  {
    if addresses != [] {
      var init, a := addresses[..|addresses| - 1], addresses[|addresses| - 1];
      assert addresses == init + [a];
      CopySeqCount(init, message, o);
      assert o == Outgoing(a, message) <==> o.message == message && o.destination == a;
    }
  }

  lemma {:induction false} FanoutCount(peers: Peers, ids: seq<PeerId>, f: PeerId -> Message, message: Message, o: Outgoing)
    requires forall p :: f(p) == message
    ensures Fanout(peers, ids, f)[o] == if o.message == message then PeerLists.AllAddresses(peers, ids)[o.destination] else 0
    decreases ids
  {
    if ids != [] {
      FanoutCount(peers, ids[1..], f, message, o);
      var all := Connections(peers, ids[0]);
      assert Copies(all, message)[o] == if o.message == message && o.destination in all then 1 else 0;
    }
  }

  /** A message to all listed addresses, one by one, is the fan-out of that message to the listed peers. */
  lemma CopySeqIsFanout(addresses: seq<SocketAddr>, peers: Peers, ids: seq<PeerId>, f: PeerId -> Message, message: Message)
    requires multiset(addresses) == PeerLists.AllAddresses(peers, ids) && forall p :: f(p) == message
    ensures multiset(CopySeq(addresses, message)) == Fanout(peers, ids, f)
  {
    hide CopySeq, Fanout, PeerLists.AllAddresses;
    forall o: Outgoing
      ensures multiset(CopySeq(addresses, message))[o] == Fanout(peers, ids, f)[o]
    {
      CopySeqCount(addresses, message, o);
      FanoutCount(peers, ids, f, message, o);
    }
  }

  lemma CountSendsSnoc(peers: Peers, ids: seq<PeerId>, id: PeerId)
    requires id !in ids
    ensures CountSends(CountSends(peers, ids), [id]) == CountSends(peers, ids + [id])
    ensures TxCounter(CountSends(peers, ids), id) == TxCounter(peers, id)
    ensures Connections(CountSends(peers, ids), id) == Connections(peers, id)
  {
  }

  /** A tick in progress: the peers in `ids` have been served. */
  function TickedSo(peers: Peers, ids: seq<PeerId>, now: nat): Peers {
    map p | p in peers ::
      if p in ids then peers[p].(sequencer := Seq.Apply(peers[p].sequencer, Seq.Tick(now)).state) else peers[p]
  }

  lemma TickedSoSnoc(peers: Peers, ids: seq<PeerId>, id: PeerId, now: nat)
    requires id !in ids && id in peers
    ensures id in TickedSo(peers, ids, now) && TickedSo(peers, ids, now)[id] == peers[id]
    ensures TickedSo(peers, ids + [id], now)
            == SetSequencer(TickedSo(peers, ids, now), id, Seq.Apply(peers[id].sequencer, Seq.Tick(now)).state)
  {
    hide Seq.Apply;
  }

  lemma {:induction false} TickOutputSnoc(peers: Peers, ids: seq<PeerId>, id: PeerId, now: nat)
    requires id in peers
    ensures TickOutput(peers, ids + [id], now)
            == TickOutput(peers, ids, now) + Seq.Apply(peers[id].sequencer, Seq.Tick(now)).out
    decreases ids
  {
    hide Seq.Apply;
    if ids == [] {
      assert ids + [id] == [id];
      assert [id][1..] == [];
    } else {
      assert (ids + [id])[1..] == ids[1..] + [id];
      TickOutputSnoc(peers, ids[1..], id, now);
      var first := if ids[0] in peers then Seq.Apply(peers[ids[0]].sequencer, Seq.Tick(now)).out else [];
      var last := Seq.Apply(peers[id].sequencer, Seq.Tick(now)).out;
      assert first + (TickOutput(peers, ids[1..], now) + last) == first + TickOutput(peers, ids[1..], now) + last;
    }
  }

  lemma TickedAll(peers: Peers, ids: seq<PeerId>, now: nat)
    requires IsOrder(ids, peers.Keys)
    ensures TickedSo(peers, ids, now) == TickState(peers, now)
  {
    hide Seq.Apply;
  }

  lemma LearnOne(h: Headers, table: map<Mac, PeerId>, p: Packet)
    ensures LearnTable(h, table, [p]) == Learn(h, table, p.peerId, p.bytes)
  {
    assert [p][1..] == [];
    assert LearnTable(h, Learn(h, table, p.peerId, p.bytes), []) == Learn(h, table, p.peerId, p.bytes);
  }

  lemma LearnAllStep(h: Headers, d: Director, p: Packet, ps: seq<Packet>)
    ensures LearnAll(h, d, [p] + ps) == LearnAll(h, LearnAll(h, d, [p]), ps)
  {
    assert ([p] + ps)[1..] == ps;
    if d.Layer2? {
      LearnOne(h, d.macTable, p);
    }
  }

  lemma LearnNothing(h: Headers, d: Director)
    ensures LearnAll(h, d, []) == d
  {
  }

  lemma FanoutNone(peers: Peers, f: PeerId -> Message)
    ensures Fanout(peers, [], f) == multiset{}
    ensures CountSends(peers, []) == peers
  {
  }

  lemma FanoutOne(peers: Peers, id: PeerId, f: PeerId -> Message)
    ensures Fanout(peers, [id], f) == Copies(Connections(peers, id), f(id))
  {
    FanoutSnoc(peers, [], id, f);
    assert [] + [id] == [id];
    hide Copies, Connections;
  }

  lemma TickedNone(peers: Peers, now: nat)
    ensures TickedSo(peers, [], now) == peers && TickOutput(peers, [], now) == []
  {
    hide Seq.Apply;
  }

  lemma StepLocal(h: Headers, m: Manager, e: Event)
    requires e.input.Local?
    ensures Step(h, m, e) == HandleLocal(h, m, e.input.frame, e.input.order)
  {
  }

  lemma FitsWhen(m: Manager, e: Event)
    requires !e.input.Udp? && !e.input.MaintenanceTick? ==> IsOrder(e.input.order, m.peers.Keys)
    ensures Fits(m, e)
  {
  }

  lemma NoEvents(h: Headers, m: Manager, t: nat)
    ensures Run(h, m, []) == Outcome(m, multiset{}, []) && IsRun(h, m, t, [])
  {
  }

  lemma OrderAt(ids: seq<PeerId>, keys: set<PeerId>, i: nat)
    requires IsOrder(ids, keys) && i < |ids|
    ensures ids[i] in keys && ids[i] !in ids[..i]
    ensures ids[..i + 1] == ids[..i] + [ids[i]]
  {
  }

  lemma {:induction false} OrderExists(keys: set<PeerId>) returns (order: seq<PeerId>)
    ensures IsOrder(order, keys)
    decreases keys
  {
    if keys == {} {
      order := [];
    } else {
      var p :| p in keys;
      order := OrderExists(keys - {p});
      order := order + [p];
    }
  }
}

/** The connection manager object and the handlers of its event loop, each refining the step on values. */
module ConnectionManagers {
  import opened Messages
  import opened Sequencers
  import opened PeerLists
  import opened TrafficDirectors
  import opened ManagerLoops
  import Spec = ManagerSpec
  import Seq = SequencerSpec
  import Runs = ManagerRuns

  /** What wakes the loop up. */
  datatype Reason =
    | Datagram(decoded: Option<Message>, source: SocketAddr)
    | FromLocal(frame: Bytes)
    | SequencerDue
    | MaintenanceDue
    | KeepaliveDue

  datatype Wakeup = Wakeup(now: nat, reason: Reason)

  /** The event on values that a wake-up means; only the iteration order of the hash map is left open. */
  predicate Answers(w: Wakeup, e: Spec.Event) {
    && e.now == w.now
    && match w.reason
       case Datagram(decoded, source) => e.input == Spec.Udp(decoded, source)
       case FromLocal(frame) => e.input.Local? && e.input.frame == frame
       case SequencerDue => e.input.SequencerTick?
       case MaintenanceDue => e.input == Spec.MaintenanceTick
       case KeepaliveDue => e.input.KeepaliveTick?
  }

  class ConnectionManager {
    const headers: Spec.Headers
    const ownPeerId: PeerId
    const ownTunIp: Option<Ipv4Addr>
    const peerList: PeerList
    const trafficDirector: DirectorType
    var packetsToLocal: seq<Bytes>
    var udpOutput: seq<Outgoing>
    ghost var delivered: seq<Packet>  // the packets whose bytes went to the local side

    ghost predicate Valid()
      reads this, peerList, peerList.objects
    {
      peerList.Valid() && packetsToLocal == BytesOf(delivered)
    }

    ghost function View(): Spec.Manager
      requires peerList.Valid()
      reads peerList, peerList.objects, trafficDirector.Object()
    {
      Spec.Manager(ownPeerId, ownTunIp, peerList.View(), trafficDirector.View())
    }

    /** The object did what the outcome on values says: new state, datagrams sent, packets delivered. */
    twostate predicate Matches(r: Spec.Outcome)
      requires peerList.Valid()
      reads this, peerList, peerList.objects, trafficDirector.Object()
    {
      && View() == r.state
      && multiset(udpOutput) == multiset(old(udpOutput)) + r.sent
      && delivered == old(delivered) + r.delivered
    }

    constructor (headers: Spec.Headers, configs: seq<Spec.PeerConfig>, peerId: PeerId, tunIp: Option<Ipv4Addr>, now: nat)
      ensures Valid() && packetsToLocal == [] && udpOutput == [] && delivered == []
      ensures fresh(peerList) && fresh(peerList.objects) && fresh(trafficDirector.Object())
      ensures this.headers == headers
      ensures View() == Spec.Start(peerId, tunIp, configs, now) && Runs.Good(View(), now)
    {
      Runs.StartIsGood(peerId, tunIp, configs, now);
      hide Seq.Valid, Spec.Seed, PeerList.View, PeerList.Valid, Runs.Good;
      this.headers := headers;
      ownPeerId, ownTunIp := peerId, tunIp;
      peerList := new PeerList(configs, now);
      packetsToLocal, udpOutput, delivered := [], [], [];
      if tunIp.Some? {
        var td := new Layer3Director();
        trafficDirector := Layer3(td);
      } else {
        var td := new Layer2Director();
        trafficDirector := Layer2(td);
      }
    }

    // ---------- delivering ----------

    method SendToLocal(p: Packet)
      requires packetsToLocal == BytesOf(delivered)
      modifies this`packetsToLocal, this`delivered
      ensures packetsToLocal == old(packetsToLocal) + [p.bytes] && delivered == old(delivered) + [p]
      ensures packetsToLocal == BytesOf(delivered)
    {
      packetsToLocal := packetsToLocal + [p.bytes];
      delivered := delivered + [p];
    }

    /** The loop after a flush: deliver while the next packet is there; nothing is learned. */
    method DrainFlushed(s: Sequencer, now: nat)
      requires s.Valid() && packetsToLocal == BytesOf(delivered)
      modifies s, this`packetsToLocal, this`delivered
      ensures s.Valid() && s.View() == Seq.Drain(old(s.View()), now).state
      ensures delivered == old(delivered) + Seq.Drain(old(s.View()), now).out
      ensures packetsToLocal == BytesOf(delivered)
    {
      hide Seq.Drain, Seq.Valid;
      ghost var target := Seq.Drain(s.View(), now);
      var more := s.HaveNextPacket();
      while more
        invariant s.Valid() && packetsToLocal == BytesOf(delivered)
        invariant more <==> s.nextSeq in s.packetQueue
        invariant Seq.Drain(s.View(), now).state == target.state
        invariant delivered + Seq.Drain(s.View(), now).out == old(delivered) + target.out
        decreases |s.packetQueue.Keys|
      {
        Seq.DrainStep(s.View(), now);
        var next := s.GetNextPacket(now);
        SendToLocal(next.value);
        more := s.HaveNextPacket();
      }
      Seq.DrainIdle(s.View(), now);
    }

    /** The loop after an arrival: the same, but on layer 2 every delivered frame is learned from first. */
    method DrainArrived(s: Sequencer, now: nat)
      requires s.Valid() && packetsToLocal == BytesOf(delivered)
      modifies s, this`packetsToLocal, this`delivered, trafficDirector.Object()
      ensures s.Valid() && s.View() == Seq.Drain(old(s.View()), now).state
      ensures delivered == old(delivered) + Seq.Drain(old(s.View()), now).out
      ensures packetsToLocal == BytesOf(delivered)
      ensures trafficDirector.View()
              == Spec.LearnAll(headers, old(trafficDirector.View()), Seq.Drain(old(s.View()), now).out)
    {
      hide Seq.Drain, Seq.Valid, Spec.LearnAll, DirectorType.View, BytesOf;
      ghost var target := Seq.Drain(s.View(), now);
      assert s as object != trafficDirector.Object();
      var more := s.HaveNextPacket();
      while more
        invariant s.Valid() && packetsToLocal == BytesOf(delivered)
        invariant more <==> s.nextSeq in s.packetQueue
        invariant Seq.Drain(s.View(), now).state == target.state
        invariant delivered + Seq.Drain(s.View(), now).out == old(delivered) + target.out
        invariant Spec.LearnAll(headers, trafficDirector.View(), Seq.Drain(s.View(), now).out)
                  == Spec.LearnAll(headers, old(trafficDirector.View()), target.out)
        decreases |s.packetQueue.Keys|
      {
        ghost var d := trafficDirector.View();
        Seq.DrainStep(s.View(), now);
        var next := s.GetNextPacket(now);
        LearnFrom(next.value);
        LearnAllStep(headers, d, next.value, Seq.Drain(s.View(), now).out);
        SendToLocal(next.value);
        more := s.HaveNextPacket();
      }
      Seq.DrainIdle(s.View(), now);
      LearnNothing(headers, trafficDirector.View());
    }

    /** On layer 2, remember which peer the source address of a frame belongs to. */
    method LearnFrom(p: Packet)
      modifies trafficDirector.Object()
      ensures trafficDirector.View() == Spec.LearnAll(headers, old(trafficDirector.View()), [p])
    {
      match trafficDirector
      case Layer2(td) =>
        LearnOne(headers, td.macTable, p);
        td.LearnPath(headers, p.peerId, p.bytes);
      case Layer3(_) =>
    }

    method HandleIncomingPacket(p: Packet, now: nat)
      requires Valid()
      modifies this`packetsToLocal, this`delivered, peerList.objects, trafficDirector.Object()
      ensures Valid() && Matches(Spec.HandlePacket(headers, old(View()), p, now))
    {
      hide Seq.Valid, Seq.Drain, PeerList.View, PeerList.Valid, BytesOf, Spec.LearnAll;
      peerList.ViewAt(p.peerId);
      var s := peerList.GetPeerSequencer(p.peerId);
      if s != null {
        s.InsertPacket(p);
        DrainArrived(s, now);
        peerList.SequencerUsed(p.peerId);
      }
    }

    // ---------- the sequencer tick ----------

    /** Serve one peer: flush if its deadline has passed. */
    method FlushPeer(id: PeerId, now: nat)
      requires Valid() && id in peerList.peers && peerList.peers[id].sequencer.lastUpdate <= now
      modifies this`packetsToLocal, this`delivered, peerList.objects
      ensures Valid() && id in old(peerList.View())
      ensures var r := Seq.Apply(old(peerList.View()[id].sequencer), Seq.Tick(now));
              && peerList.View() == Spec.SetSequencer(old(peerList.View()), id, r.state)
              && delivered == old(delivered) + r.out
    {
      hide Seq.Valid, Seq.Drain, PeerList.View, PeerList.Valid, BytesOf;
      peerList.ViewAt(id);
      var s := peerList.GetPeerSequencer(id);
      var exceeded := s.IsDeadlineExceeded(now);
      if exceeded {
        s.AdvanceQueue();
        DrainFlushed(s, now);
      }
      peerList.SequencerUsed(id);
    }

    /** Serve the listed peers one after the other. */
    method FlushAll(ids: seq<PeerId>, now: nat)
      requires Valid() && Spec.IsOrder(ids, peerList.View().Keys)
      requires forall p :: p in peerList.View() ==> peerList.View()[p].sequencer.lastUpdate <= now
      modifies this`packetsToLocal, this`delivered, peerList.objects
      ensures Valid() && peerList.View() == TickedSo(old(peerList.View()), ids, now)
      ensures delivered == old(delivered) + Spec.TickOutput(old(peerList.View()), ids, now)
    {
      hide Seq.Apply, Seq.Valid, PeerList.View, PeerList.Valid, BytesOf;
      hide Spec.TickOutput, TickedSo, Spec.SetSequencer, Spec.IsOrder;
      ghost var before := peerList.View();
      TickedNone(before, now);
      for i := 0 to |ids|
        invariant Valid()
        invariant peerList.View() == TickedSo(before, ids[..i], now)
        invariant delivered == old(delivered) + Spec.TickOutput(before, ids[..i], now)
      {
        OrderAt(ids, before.Keys, i);
        TickedSoSnoc(before, ids[..i], ids[i], now);
        TickOutputSnoc(before, ids[..i], ids[i], now);
        peerList.ViewAt(ids[i]);
        FlushPeer(ids[i], now);
      }
      assert ids[..|ids|] == ids;
    }

    method SequencerTick(now: nat) returns (ghost order: seq<PeerId>)
      requires Valid() && Spec.Past(View(), now)
      modifies this`packetsToLocal, this`delivered, peerList.objects
      ensures Valid() && Spec.IsOrder(order, old(peerList.peers.Keys))
      ensures Matches(Spec.Step(headers, old(View()), Spec.Event(now, Spec.SequencerTick(order))))
    {
      hide Seq.Valid, PeerList.View, PeerList.Valid, BytesOf, Spec.TickOutput, TickedSo, Spec.IsOrder, Spec.TickState;
      peerList.ViewKeys();
      var ids := peerList.GetPeerIds();
      TickedAll(peerList.View(), ids, now);
      FlushAll(ids, now);
      order := ids;
    }

    // ---------- sending ----------

    method SendAll(addresses: seq<SocketAddr>, message: Message)
      modifies this`udpOutput
      ensures udpOutput == old(udpOutput) + CopySeq(addresses, message)
    {
      assert addresses[..0] == [];
      for i := 0 to |addresses|
        invariant udpOutput == old(udpOutput) + CopySeq(addresses[..i], message)
      {
        udpOutput := udpOutput + [Outgoing(addresses[i], message)];
        assert addresses[..i + 1][..i] == addresses[..i];
      }
      assert addresses[..|addresses|] == addresses;
    }

    /** One copy of a message to every address of a peer. */
    method SendToPeer(id: PeerId, message: Message)
      requires Valid()
      modifies this`udpOutput
      ensures multiset(udpOutput) == multiset(old(udpOutput)) + Spec.Copies(Spec.Connections(peerList.View(), id), message)
    {
      hide Spec.Copies, Spec.Connections, PeerList.View, PeerList.Valid, BytesOf;
      var addresses := peerList.GetPeerConnections(id);
      SendAll(addresses, message);
      CopySeqIsCopies(addresses, Spec.Connections(peerList.View(), id), message);
    }

    /** Number a frame for one known peer, count it, and send a copy to each of the peer's addresses. */
    method SendFrame(id: PeerId, frame: Bytes)
      requires Valid() && id in peerList.peers
      modifies this`udpOutput, peerList
      ensures Valid() && peerList.objects == old(peerList.objects) && peerList.peers.Keys == old(peerList.peers.Keys)
      ensures peerList.View() == Spec.CountSends(old(peerList.View()), [id])
      ensures multiset(udpOutput)
              == multiset(old(udpOutput))
                 + Spec.Copies(Spec.Connections(old(peerList.View()), id),
                               Data(Packet(Spec.TxCounter(old(peerList.View()), id), ownPeerId, frame)))
    {
      hide Spec.Copies, PeerList.View, PeerList.Valid, BytesOf;
      var n := peerList.GetPeerTxCounter(id);
      peerList.IncrementPeerTxCounter(id);
      SendToPeer(id, Data(Packet(n, ownPeerId, frame)));
    }

    /** Send a frame to every known peer, each under its own number. */
    method SendToAll(frame: Bytes) returns (order: seq<PeerId>)
      requires Valid()
      modifies this`udpOutput, peerList
      ensures Valid() && peerList.objects == old(peerList.objects)
      ensures Spec.IsOrder(order, old(peerList.peers.Keys))
      ensures peerList.View() == Spec.CountSends(old(peerList.View()), order)
      ensures multiset(udpOutput)
              == multiset(old(udpOutput)) + Spec.Fanout(old(peerList.View()), order, Spec.DataFor(old(View()), frame))
    {
      hide Seq.Valid, PeerList.View, PeerList.Valid, BytesOf;
      hide Spec.Copies, Spec.Fanout, Spec.CountSends, Spec.Connections, Spec.IsOrder;
      ghost var before, f := peerList.View(), Spec.DataFor(View(), frame);
      order := peerList.GetPeerIds();
      FanoutNone(before, f);
      for i := 0 to |order|
        invariant Valid() && peerList.objects == old(peerList.objects) && peerList.peers.Keys == old(peerList.peers.Keys)
        invariant peerList.View() == Spec.CountSends(before, order[..i])
        invariant multiset(udpOutput) == multiset(old(udpOutput)) + Spec.Fanout(before, order[..i], f)
      {
        OrderAt(order, peerList.peers.Keys, i);
        CountSendsSnoc(before, order[..i], order[i]);
        FanoutSnoc(before, order[..i], order[i], f);
        SendFrame(order[i], frame);
      }
      assert order[..|order|] == order;
    }

    /** Send a frame to a known peer; the fan-out to a single destination. */
    method SendToOne(id: PeerId, frame: Bytes)
      requires Valid() && id in peerList.peers
      modifies this`udpOutput, peerList
      ensures Valid() && peerList.objects == old(peerList.objects)
      ensures peerList.View() == Spec.CountSends(old(peerList.View()), [id])
      ensures multiset(udpOutput)
              == multiset(old(udpOutput)) + Spec.Fanout(old(peerList.View()), [id], Spec.DataFor(old(View()), frame))
    {
      hide Seq.Valid, PeerList.View, PeerList.Valid, BytesOf;
      hide Spec.Copies, Spec.Fanout, Spec.CountSends, Spec.Connections;
      FanoutOne(peerList.View(), id, Spec.DataFor(View(), frame));
      SendFrame(id, frame);
    }

    /** On layer 2 a frame goes to everybody, to the peer its destination was learned from, or nowhere. */
    method SendLayer2(td: Layer2Director, frame: Bytes) returns (ghost order: seq<PeerId>)
      requires Valid() && trafficDirector == Layer2(td) && Spec.NoDangling(View())
      modifies this`udpOutput, peerList
      ensures Valid() && peerList.objects == old(peerList.objects)
      ensures Spec.IsOrder(order, old(peerList.peers.Keys))
      ensures Matches(Spec.HandleLocal(headers, old(View()), frame, order))
    {
      hide Seq.Valid, PeerList.View, PeerList.Valid, BytesOf;
      hide Spec.Copies, Spec.Fanout, Spec.CountSends, Spec.Connections, Spec.IsOrder;
      peerList.ViewKeys();
      FanoutNone(peerList.View(), Spec.DataFor(View(), frame));
      order := OrderExists(peerList.peers.Keys);
      var path := td.GetPath(headers, frame);
      match path
      case Some(ToPeer(id)) => SendToOne(id, frame);
      case Some(Broadcast) => order := SendToAll(frame);
      case None =>
    }

    /** On layer 3 a frame goes to the peer its destination is routed to, or nowhere. */
    method SendLayer3(td: Layer3Director, frame: Bytes) returns (ghost order: seq<PeerId>)
      requires Valid() && trafficDirector == Layer3(td) && Spec.NoDangling(View())
      modifies this`udpOutput, peerList
      ensures Valid() && peerList.objects == old(peerList.objects)
      ensures Spec.IsOrder(order, old(peerList.peers.Keys))
      ensures Matches(Spec.HandleLocal(headers, old(View()), frame, order))
    {
      hide Seq.Valid, PeerList.View, PeerList.Valid, BytesOf;
      hide Spec.Copies, Spec.Fanout, Spec.CountSends, Spec.Connections, Spec.IsOrder;
      peerList.ViewKeys();
      FanoutNone(peerList.View(), Spec.DataFor(View(), frame));
      order := OrderExists(peerList.peers.Keys);
      var route := td.GetRoute(headers, frame);
      if route.Some? {
        SendToOne(route.value, frame);
      }
    }

    method HandlePacketFromLocal(frame: Bytes) returns (ghost order: seq<PeerId>)
      requires Valid() && Spec.NoDangling(View())
      modifies this`udpOutput, peerList
      ensures Valid() && peerList.objects == old(peerList.objects)
      ensures Spec.IsOrder(order, old(peerList.peers.Keys))
      ensures Matches(Spec.HandleLocal(headers, old(View()), frame, order))
    {
      hide Seq.Valid, PeerList.View, PeerList.Valid, BytesOf, Spec.IsOrder, Spec.HandleLocal, Spec.NoDangling;
      match trafficDirector
      case Layer2(td) => order := SendLayer2(td, frame);
      case Layer3(td) => order := SendLayer3(td, frame);
    }

    // ---------- keepalives and maintenance ----------

    method HandleInstantKeepalive(target: PeerId)
      requires Valid()
      modifies this`udpOutput
      ensures multiset(udpOutput)
              == multiset(old(udpOutput)) + Spec.Copies(Spec.Connections(peerList.View(), target), Spec.OwnKeepalive(View()))
    {
      SendToPeer(target, Alive(Keepalive(ownPeerId, ownTunIp)));
    }

    method HandleIncomingKeepalive(k: Keepalive, source: SocketAddr, now: nat)
      requires Valid()
      modifies this`udpOutput, peerList, trafficDirector.Object()
      ensures Valid() && old(peerList.objects) <= peerList.objects && fresh(peerList.objects - old(peerList.objects))
      ensures Matches(Spec.HandleKeepalive(old(View()), k, source, now))
    {
      hide Spec.Copies, Spec.Connections, Spec.AddPeer, PeerList.View, PeerList.Valid, BytesOf;
      peerList.AddPeer(k.peerId, source, now);
      match trafficDirector
      case Layer2(_) =>
      case Layer3(td) =>
        if k.tunIp.Some? {
          var isNewRoute := td.InsertRoute(k.peerId, k.tunIp.value);
          if isNewRoute {
            HandleInstantKeepalive(k.peerId);
          }
        }
    }

    method HandleKeepalive() returns (ghost order: seq<PeerId>)
      requires Valid()
      modifies this`udpOutput
      ensures Valid() && Spec.IsOrder(order, peerList.peers.Keys)
      ensures forall now :: Matches(Spec.Step(headers, old(View()), Spec.Event(now, Spec.KeepaliveTick(order))))
    {
      hide Seq.Valid, Spec.Fanout, PeerList.View, PeerList.Valid, BytesOf, Spec.IsOrder, CopySeq, AllAddresses;
      ghost var m := View();
      ghost var f := (p: PeerId) => Spec.OwnKeepalive(m);
      var sockets, o := peerList.GetAllConnections();
      order := o;
      SendAll(sockets, Alive(Keepalive(ownPeerId, ownTunIp)));
      CopySeqIsFanout(sockets, m.peers, order, f, Spec.OwnKeepalive(m));
    }

    method MaintenanceTick(now: nat)
      requires Valid() && Spec.Past(View(), now)
      modifies peerList
      ensures Valid() && peerList.objects == old(peerList.objects)
      ensures Matches(Spec.Step(headers, old(View()), Spec.Event(now, Spec.MaintenanceTick)))
    {
      PastConnections(now);
      hide Spec.Prune, PeerList.View, PeerList.Valid, BytesOf;
      peerList.PruneStalePeers(now);
    }

    lemma PastConnections(now: nat)
      requires Valid() && Spec.Past(View(), now)
      ensures forall p, a :: p in peerList.peers && a in peerList.peers[p].connections ==>
                peerList.peers[p].connections[a] <= now
    {
      forall p, a | p in peerList.peers && a in peerList.peers[p].connections
        ensures peerList.peers[p].connections[a] <= now
      {
        peerList.ViewAt(p);
        assert peerList.View()[p].connections[a] <= now;
      }
    }

    /** Garbage is thrown away; everything else goes to its handler. */
    method HandleUdpPacket(decoded: Option<Message>, source: SocketAddr, now: nat)
      requires Valid()
      modifies this, peerList, peerList.objects, trafficDirector.Object()
      ensures Valid() && old(peerList.objects) <= peerList.objects && fresh(peerList.objects - old(peerList.objects))
      ensures Matches(Spec.Step(headers, old(View()), Spec.Event(now, Spec.Udp(decoded, source))))
    {
      hide Spec.HandlePacket, Spec.HandleKeepalive, PeerList.View, PeerList.Valid, BytesOf;
      match decoded
      case None =>
      case Some(Data(p)) => HandleIncomingPacket(p, now);
      case Some(Alive(k)) => HandleIncomingKeepalive(k, source, now);
    }

    // ---------- the event loop ----------

    /** React to one wake-up of the loop. */
    method React(w: Wakeup, ghost t: nat) returns (ghost e: Spec.Event)
      requires Valid() && Runs.Good(View(), t) && t <= w.now
      modifies this, peerList, peerList.objects, trafficDirector.Object()
      ensures Valid() && old(peerList.objects) <= peerList.objects && fresh(peerList.objects - old(peerList.objects))
      ensures Runs.Good(View(), w.now)
      ensures Answers(w, e) && Spec.Fits(old(View()), e)
      ensures Matches(Spec.Step(headers, old(View()), e))
    {
      ghost var m := View();
      peerList.ViewKeys();
      Runs.GoodParts(m, t, w.now);
      hide Spec.Step, PeerList.View, PeerList.Valid, BytesOf, Runs.Good, Spec.IsOrder, Spec.HandleLocal;
      hide Spec.NoDangling, Spec.Past, Spec.Fits, Seq.Valid, DirectorType.View, DirectorType.Object;
      match w.reason {
        case Datagram(decoded, source) =>
          e := Spec.Event(w.now, Spec.Udp(decoded, source));
          HandleUdpPacket(decoded, source, w.now);
        case FromLocal(frame) =>
          ghost var order := HandlePacketFromLocal(frame);
          e := Spec.Event(w.now, Spec.Local(frame, order));
          StepLocal(headers, m, e);
        case SequencerDue =>
          ghost var order := SequencerTick(w.now);
          e := Spec.Event(w.now, Spec.SequencerTick(order));
        case MaintenanceDue =>
          MaintenanceTick(w.now);
          e := Spec.Event(w.now, Spec.MaintenanceTick);
        case KeepaliveDue =>
          ghost var order := HandleKeepalive();
          e := Spec.Event(w.now, Spec.KeepaliveTick(order));
      }
      FitsWhen(m, e);
      Runs.StepKeepsGood(headers, m, t, e);
    }

    /**
     * The event loop over any finite sequence of wake-ups with a clock that does not go back: it never fails, and the
     * object goes through a run on values of exactly these wake-ups, with the same final state, datagrams and deliveries.
     */
    method Run(ws: seq<Wakeup>, ghost t: nat) returns (ghost es: seq<Spec.Event>)
      requires Valid() && Runs.Good(View(), t)
      requires forall i :: 0 <= i < |ws| ==> t <= ws[i].now
      requires forall i, j :: 0 <= i < j < |ws| ==> ws[i].now <= ws[j].now
      modifies this, peerList, peerList.objects, trafficDirector.Object()
      ensures Valid() && |es| == |ws| && Spec.IsRun(headers, old(View()), t, es)
      ensures forall i :: 0 <= i < |ws| ==> Answers(ws[i], es[i])
      ensures Matches(Spec.Run(headers, old(View()), es))
    {
      hide Spec.Step, Spec.Run, Spec.IsRun, Spec.Fits, Runs.Good, Seq.Valid;
      hide PeerList.View, PeerList.Valid, BytesOf, View, DirectorType.View, DirectorType.Object;
      ghost var m := View();
      es := [];
      NoEvents(headers, m, t);
      for i := 0 to |ws|
        invariant Valid() && old(peerList.objects) <= peerList.objects && fresh(peerList.objects - old(peerList.objects))
        invariant |es| == i && Spec.IsRun(headers, m, t, es)
        invariant forall j :: 0 <= j < i ==> Answers(ws[j], es[j])
        invariant forall j :: i <= j < |ws| ==> Runs.EndTime(t, es) <= ws[j].now
        invariant Runs.Good(View(), Runs.EndTime(t, es))
        invariant Matches(Spec.Run(headers, m, es))
      {
        ghost var x, known := Spec.Run(headers, m, es), peerList.objects;
        ghost var e := React(ws[i], Runs.EndTime(t, es));
        forall o | o in peerList.objects && o !in old(peerList.objects)
          ensures fresh(o)
        {
          assert o in known - old(peerList.objects) || o in peerList.objects - known;
        }
        ghost var r := Spec.Step(headers, x.state, e);
        assert old(delivered) + x.delivered + r.delivered == old(delivered) + (x.delivered + r.delivered);
        Runs.RunSnoc(headers, m, es, e);
        Runs.IsRunSnoc(headers, m, t, es, e);
        es := es + [e];
      }
    }
  }

  /**
   * A node from its configuration to its output: whatever the configuration and the wake-ups, it never fails; what it
   * sent is what a run on values from the start state sends, and what it handed to the local side are the bytes of the
   * packets that run delivers, one by one and in order.
   */
  method Serve(headers: Spec.Headers, configs: seq<Spec.PeerConfig>, id: PeerId, tunIp: Option<Ipv4Addr>, now: nat,
               ws: seq<Wakeup>) returns (manager: ConnectionManager, ghost es: seq<Spec.Event>)
    requires forall i :: 0 <= i < |ws| ==> now <= ws[i].now
    requires forall i, j :: 0 <= i < j < |ws| ==> ws[i].now <= ws[j].now
    ensures |es| == |ws| && forall i :: 0 <= i < |ws| ==> Answers(ws[i], es[i])
    ensures var start := Spec.Start(id, tunIp, configs, now);
            var out, channel := Spec.Run(headers, start, es).delivered, manager.packetsToLocal;
            && Runs.Good(start, now) && Spec.IsRun(headers, start, now, es)
            && multiset(manager.udpOutput) == Spec.Run(headers, start, es).sent
            && |channel| == |out| && (forall i :: 0 <= i < |out| ==> channel[i] == out[i].bytes)
  {
    hide Spec.Run, Spec.IsRun, Spec.Start, Runs.Good, BytesOf, Answers;
    manager := new ConnectionManager(headers, configs, id, tunIp, now);
    es := manager.Run(ws, now);
    ghost var out := Spec.Run(headers, Spec.Start(id, tunIp, configs, now), es).delivered;
    assert manager.delivered == [] + out == out;
  }
}
