/**
 * Safety of the whole system, for every execution from every correctly configured start: end-to-end delivery, numbering,
 * routing, and the absence of failing unwraps and overflowing counters.
 */
module SystemSafety {
  import opened Messages
  import opened ManagerSpec
  import Seq = SequencerSpec
  import opened ManagerRuns
  import opened System

  // ---------- end-to-end safety ----------

  lemma {:induction false} FromPeerOnly(ps: seq<Packet>, id: PeerId)
    ensures forall p :: p in FromPeer(ps, id) ==> p.peerId == id && p in ps
  {
    if ps != [] {
      FromPeerOnly(ps[1..], id);
    }
  }

  /**
   * `out` is a subsequence of `stream`: numbers strictly increase, so none occurs twice, all packets come from `a`, and
   * every number carries exactly the bytes the stream has there.
   */
  ghost predicate Faithful(a: PeerId, out: seq<Packet>, stream: seq<Bytes>) {
    && (forall i, j :: 0 <= i < j < |out| ==> out[i].seqNr < out[j].seqNr)
    && (forall i :: 0 <= i < |out| ==>
          out[i].peerId == a && out[i].seqNr < |stream| && out[i].bytes == stream[out[i].seqNr])
  }

  lemma FaithfulFrom(a: PeerId, out: seq<Packet>, stream: seq<Bytes>)
    requires Seq.Increasing(out) && forall p :: p in out ==> p.peerId == a && OnStream(stream, p)
    ensures Faithful(a, out, stream)
  {
  }

  /** What the invariant says about everything `b` delivered from `a`. */
  lemma DeliveriesOk(t: Topology, s: State, a: PeerId, b: PeerId)
    requires Inv(t, s) && b in s.nodes
    ensures b in s.logs
    ensures Faithful(a, FromPeer(s.logs[b], a), Stream(s.streams, a, b))
    ensures a in s.nodes[b].peers ==>
              LinkOk(Stream(s.streams, a, b), s.nodes[b].peers[a].sequencer, FromPeer(s.logs[b], a))
    ensures a !in s.nodes[b].peers ==> FromPeer(s.logs[b], a) == []
  {
    assert NodeInv(t, s, b);
    hide Inv, NodeOk, CountersOk, FromPeer, Stream, OnStream, Faithful;
    FromPeerOnly(s.logs[b], a);
    if a !in s.nodes[b].peers {
      FromPeerNone(s.logs[b], a);
    }
    FaithfulFrom(a, FromPeer(s.logs[b], a), Stream(s.streams, a, b));
  }

  /** Every execution from a correct start ends in a state that satisfies the invariant. */
  lemma Reachable(t: Topology, h: Headers, s: State, acts: seq<Action>)
    requires Init(t, s) && IsExecution(t, h, s, acts)
    ensures Inv(t, Exec(t, h, s, acts))
  {
    InitOk(t, s);
    ExecOk(t, h, s, acts);
  }

  /**
   * What `b` delivers from `a` is a subsequence of the frames `a` addressed to `b`: numbers strictly increase, so
   * none is delivered twice, and every number carries exactly the bytes that `a` gave it.
   */
  lemma EndToEnd(t: Topology, h: Headers, s: State, acts: seq<Action>, a: PeerId, b: PeerId)
    requires Init(t, s) && IsExecution(t, h, s, acts) && b in t.tunIp
    ensures b in Exec(t, h, s, acts).logs
    ensures Faithful(a, FromPeer(Exec(t, h, s, acts).logs[b], a), Stream(Exec(t, h, s, acts).streams, a, b))
  {
    hide Init, IsExecution, Exec, FromPeer, Stream, WiresOk, NodeInv, LinkOk, Faithful, TopologyOk;
    Reachable(t, h, s, acts);
    DeliveriesOk(t, Exec(t, h, s, acts), a, b);
  }

  // ---------- numbering ----------

  /** All copies of one number of one stream are identical, and no number is used before the stream reaches it. */
  lemma SenderNumbering(t: Topology, h: Headers, s: State, acts: seq<Action>, v: Wire, w: Wire)
    requires Init(t, s) && IsExecution(t, h, s, acts)
    requires v in Exec(t, h, s, acts).net && w in Exec(t, h, s, acts).net
    requires v.message.Data? && w.message.Data? && v.from == w.from
    ensures v.dest in t.owner && w.dest in t.owner
    ensures v.message.packet.seqNr < |Stream(Exec(t, h, s, acts).streams, v.from, t.owner[v.dest])|
    ensures t.owner[v.dest] == t.owner[w.dest] && v.message.packet.seqNr == w.message.packet.seqNr ==>
              v.message == w.message
  {
    hide Init, IsExecution, Exec, Stream, NodeInv, SameNodes, TopologyOk;
    Reachable(t, h, s, acts);
    assert WireOk(t, Exec(t, h, s, acts).streams, v);
    assert WireOk(t, Exec(t, h, s, acts).streams, w);
  }

  /** A frame goes out to every address of every destination, under that peer's current number. */
  lemma LocalSends(h: Headers, m: Manager, e: Event, p: PeerId, address: SocketAddr)
    requires e.input.Local? && p in Destinations(h, m, e.input.frame, e.input.order)
    requires address in Connections(m.peers, p)
    ensures Outgoing(address, Data(Packet(TxCounter(m.peers, p), m.ownId, e.input.frame))) in Step(h, m, e).sent
  {
    hide Fanout, Destinations;
    FanoutMember(m.peers, Destinations(h, m, e.input.frame, e.input.order), DataFor(m, e.input.frame),
                 Outgoing(address, DataFor(m, e.input.frame)(p)));
  }

  /**
   * A local frame is appended to the stream of every destination and to no other, and goes out to every address of that
   * destination under the number of its place in the stream; the counter stays the length of the stream.
   */
  lemma FrameNumbers(t: Topology, h: Headers, s: State, a: Action, p: PeerId)
    requires Inv(t, s) && Enabled(t, s, a) && a.event.input.Local?
    ensures SameNodes(t, Perform(h, s, a))
    ensures Stream(Perform(h, s, a).streams, a.node, p)
            == Stream(s.streams, a.node, p)
               + if p in Destinations(h, s.nodes[a.node], a.event.input.frame, a.event.input.order)
                 then [a.event.input.frame] else []
    ensures TxCounter(Perform(h, s, a).nodes[a.node].peers, p) == |Stream(Perform(h, s, a).streams, a.node, p)|
    ensures p in Destinations(h, s.nodes[a.node], a.event.input.frame, a.event.input.order) ==>
              forall address :: address in Connections(s.nodes[a.node].peers, p) ==>
                Wire(a.node, address, Data(Packet(|Stream(s.streams, a.node, p)|, a.node, a.event.input.frame)))
                  in Perform(h, s, a).net
  {
    ActorStep(t, h, s, a);
    assert NodeInv(t, s, a.node);
    var m := s.nodes[a.node];
    RecordStream(h, s.streams, m, a.node, a.event, a.node, p);
    hide Record, Stream, Inv, LinksOk, Good, WiresOk, Step, Destinations, Deliverable, Fits;
    if p in Destinations(h, m, a.event.input.frame, a.event.input.order) {
      forall address | address in Connections(m.peers, p)
        ensures Wire(a.node, address, Data(Packet(|Stream(s.streams, a.node, p)|, a.node, a.event.input.frame)))
                in Perform(h, s, a).net
      {
        LocalSends(h, m, a.event, p, address);
      }
    }
  }

  /** A datagram to an address of `p`, which is known there, with the message of `p`. */
  ghost predicate IsCopyFor(t: Topology, peers: Peers, o: Outgoing, p: PeerId, message: PeerId -> Message) {
    && o.destination in t.owner && t.owner[o.destination] == p
    && o.destination in Connections(peers, p) && o.message == message(p)
  }

  lemma CopiesOnce(t: Topology, peers: Peers, p: PeerId, message: PeerId -> Message, o: Outgoing)
    requires Owned(t, peers)
    ensures Copies(Connections(peers, p), message(p))[o] == if IsCopyFor(t, peers, o, p, message) then 1 else 0
  {
  }

  /** No address is listed under two peers, so every address of every target gets exactly one copy. */
  lemma {:induction false} FanoutOnce(t: Topology, peers: Peers, targets: seq<PeerId>, message: PeerId -> Message, o: Outgoing)
    requires Owned(t, peers)
    requires forall i, j :: 0 <= i < j < |targets| ==> targets[i] != targets[j]
    ensures Fanout(peers, targets, message)[o] == if exists p :: p in targets && IsCopyFor(t, peers, o, p, message) then 1 else 0
    decreases targets
  {
    hide Owned, Copies;
    if targets != [] {
      var p, rest := targets[0], targets[1..];
      assert p !in rest;
      assert forall q :: q in targets <==> q == p || q in rest;
      FanoutOnce(t, peers, rest, message, o);
      CopiesOnce(t, peers, p, message, o);
    }
  }

  lemma DestinationsDistinct(h: Headers, m: Manager, e: Event)
    requires Fits(m, e) && e.input.Local?
    ensures var targets := Destinations(h, m, e.input.frame, e.input.order);
            forall i, j :: 0 <= i < j < |targets| ==> targets[i] != targets[j]
  {
  }

  /** The copy of a frame that belongs to an address of `p`: its number is its place in the stream to `p`. */
  ghost predicate IsFrameCopy(t: Topology, s: State, n: PeerId, frame: Bytes, p: PeerId, o: Outgoing)
    requires n in s.nodes
  {
    && o.destination in t.owner && t.owner[o.destination] == p
    && o.destination in Connections(s.nodes[n].peers, p)
    && o.message == Data(Packet(|Stream(s.streams, n, p)|, n, frame))
  }

  /** For a local frame a node sends exactly one copy to every address of every destination, and nothing else. */
  lemma FrameCopies(t: Topology, h: Headers, s: State, a: Action, o: Outgoing)
    requires Inv(t, s) && Enabled(t, s, a) && a.event.input.Local?
    ensures var m, frame := s.nodes[a.node], a.event.input.frame;
            var targets := Destinations(h, m, frame, a.event.input.order);
            Step(h, m, a.event).sent[o] == if exists p :: p in targets && IsFrameCopy(t, s, a.node, frame, p, o) then 1 else 0
  {
    var m, frame := s.nodes[a.node], a.event.input.frame;
    var targets := Destinations(h, m, frame, a.event.input.order);
    DestinationsDistinct(h, m, a.event);
    assert NodeInv(t, s, a.node);
    hide Inv, NodeInv, Deliverable, Fits, Good, LinksOk, Owned, RoutesOk, Fanout, Destinations, Stream, Connections;
    FanoutOnce(t, m.peers, targets, DataFor(m, frame), o);
    forall p: PeerId
      ensures IsFrameCopy(t, s, a.node, frame, p, o) <==> IsCopyFor(t, m.peers, o, p, DataFor(m, frame))
    {
      assert |Stream(s.streams, a.node, p)| == TxCounter(m.peers, p);
    }
  }

  /**
   * A broadcast frame is appended to the stream to every known peer and to no other stream, and goes out exactly once to
   * every address of every known peer, under the number of its place in that peer's stream, and nowhere else.
   */
  lemma BroadcastReachesAll(t: Topology, h: Headers, s: State, a: Action, p: PeerId, q: PeerId, o: Outgoing)
    requires Inv(t, s) && Enabled(t, s, a) && a.event.input.Local?
    requires s.nodes[a.node].director.Layer2? && h.etherDst(a.event.input.frame) == Some(Mac(0xff, 0xff, 0xff, 0xff, 0xff, 0xff))
    ensures var n, known, frame := a.node, s.nodes[a.node].peers, a.event.input.frame;
            && Stream(Perform(h, s, a).streams, p, q)
               == Stream(s.streams, p, q) + (if p == n && q in known then [frame] else [])
            && Step(h, s.nodes[n], a.event).sent[o]
               == if exists x :: x in known && IsFrameCopy(t, s, n, frame, x, o) then 1 else 0
  {
    hide Inv, Perform, Deliverable, Fits, Step, Destinations, Stream, IsFrameCopy;
    BroadcastTargets(h, s.nodes[a.node], a.event);
    PerformStream(t, h, s, a, p, q);
    FrameCopies(t, h, s, a, o);
  }

  lemma BroadcastTargets(h: Headers, m: Manager, e: Event)
    requires Fits(m, e) && e.input.Local? && m.director.Layer2? && h.etherDst(e.input.frame) == Some(BROADCAST_MAC)
    ensures forall p :: p in Destinations(h, m, e.input.frame, e.input.order) <==> p in m.peers
  {
  }

  lemma PerformStream(t: Topology, h: Headers, s: State, a: Action, p: PeerId, q: PeerId)
    requires Enabled(t, s, a) && a.event.input.Local?
    ensures Stream(Perform(h, s, a).streams, p, q)
            == Stream(s.streams, p, q)
               + if p == a.node && q in Destinations(h, s.nodes[a.node], a.event.input.frame, a.event.input.order)
                 then [a.event.input.frame] else []
  {
    hide Deliverable, Fits, Step, Destinations, Stream, Record;
    RecordStream(h, s.streams, s.nodes[a.node], a.node, a.event, p, q);
  }

  // ---------- frames to one destination ----------

  /** What a table has for a key, if there is a key. */
  function Lookup<K>(table: map<K, PeerId>, key: Option<K>): Option<PeerId> {
    if key.Some? && key.value in table then Some(table[key.value]) else None
  }

  /** A frame with at most one destination joins the stream to it, goes once to each of its addresses, and nowhere else. */
  lemma DirectedFrame(t: Topology, h: Headers, s: State, a: Action, dest: Option<PeerId>, p: PeerId, q: PeerId, o: Outgoing)
    requires Inv(t, s) && Enabled(t, s, a) && a.event.input.Local?
    requires Destinations(h, s.nodes[a.node], a.event.input.frame, a.event.input.order)
             == if dest.Some? then [dest.value] else []
    ensures var n, frame := a.node, a.event.input.frame;
            && Stream(Perform(h, s, a).streams, p, q)
               == Stream(s.streams, p, q) + (if p == n && dest == Some(q) then [frame] else [])
            && Step(h, s.nodes[n], a.event).sent[o]
               == if dest.Some? && IsFrameCopy(t, s, n, frame, dest.value, o) then 1 else 0
  {
    hide Inv, Perform, Deliverable, Fits, Step, Destinations, Stream, IsFrameCopy;
    PerformStream(t, h, s, a, p, q);
    FrameCopies(t, h, s, a, o);
  }

  /**
   * On layer 2 a frame that is not a broadcast goes to the peer that its destination address was learned from: only the
   * stream to that peer grows, by this frame, and each known address of that peer gets one copy. Without an entry, or
   * without a destination address, no stream changes and nothing is sent.
   */
  lemma UnicastFrame(t: Topology, h: Headers, s: State, a: Action, p: PeerId, q: PeerId, o: Outgoing)
    requires Inv(t, s) && Enabled(t, s, a) && a.event.input.Local? && s.nodes[a.node].director.Layer2?
    requires h.etherDst(a.event.input.frame) != Some(Mac(0xff, 0xff, 0xff, 0xff, 0xff, 0xff))
    ensures var n, frame := a.node, a.event.input.frame;
            var dest := Lookup(s.nodes[n].director.macTable, h.etherDst(frame));
            && Stream(Perform(h, s, a).streams, p, q)
               == Stream(s.streams, p, q) + (if p == n && dest == Some(q) then [frame] else [])
            && Step(h, s.nodes[n], a.event).sent[o]
               == if dest.Some? && IsFrameCopy(t, s, n, frame, dest.value, o) then 1 else 0
  {
    hide Inv, Perform, Deliverable, Fits, Step, Stream, IsFrameCopy;
    DirectedFrame(t, h, s, a, Lookup(s.nodes[a.node].director.macTable, h.etherDst(a.event.input.frame)), p, q, o);
  }

  /** On layer 3 the same holds of the peer that the destination address is routed to. */
  lemma Layer3Frame(t: Topology, h: Headers, s: State, a: Action, p: PeerId, q: PeerId, o: Outgoing)
    requires Inv(t, s) && Enabled(t, s, a) && a.event.input.Local? && s.nodes[a.node].director.Layer3?
    ensures var n, frame := a.node, a.event.input.frame;
            var dest := Lookup(s.nodes[n].director.routes, h.ipDst(frame));
            && Stream(Perform(h, s, a).streams, p, q)
               == Stream(s.streams, p, q) + (if p == n && dest == Some(q) then [frame] else [])
            && Step(h, s.nodes[n], a.event).sent[o]
               == if dest.Some? && IsFrameCopy(t, s, n, frame, dest.value, o) then 1 else 0
  {
    hide Inv, Perform, Deliverable, Fits, Step, Stream, IsFrameCopy;
    DirectedFrame(t, h, s, a, Lookup(s.nodes[a.node].director.routes, h.ipDst(a.event.input.frame)), p, q, o);
  }

  // ---------- counters never overflow ----------

  lemma {:induction false} StreamsBounded(t: Topology, h: Headers, s: State, acts: seq<Action>, a: PeerId, b: PeerId)
    requires IsExecution(t, h, s, acts)
    ensures |Stream(Exec(t, h, s, acts).streams, a, b)| <= |Stream(s.streams, a, b)| + |acts|
    decreases acts
  {
    if acts != [] {
      RecordStream(h, s.streams, s.nodes[acts[0].node], acts[0].node, acts[0].event, a, b);
      hide Stream, Record, Step;
      StreamsBounded(t, h, Perform(h, s, acts[0]), acts[1..], a, b);
    }
  }

  /** No counter and no cursor exceeds the number of events so far, so 64 bits suffice for 2^64 - 1 events. */
  lemma CountersFit(t: Topology, h: Headers, s: State, acts: seq<Action>, n: PeerId, p: PeerId)
    requires Init(t, s) && IsExecution(t, h, s, acts) && n in t.tunIp
    ensures n in Exec(t, h, s, acts).nodes
    ensures var peers := Exec(t, h, s, acts).nodes[n].peers;
            && TxCounter(peers, p) <= |acts|
            && (p in peers ==> peers[p].sequencer.next <= |acts|)
  {
    assert Stream(s.streams, n, p) == [] && Stream(s.streams, p, n) == [];
    StreamsBounded(t, h, s, acts, n, p);
    StreamsBounded(t, h, s, acts, p, n);
    Reachable(t, h, s, acts);
    hide Init, IsExecution, Exec, Stream, WiresOk, NodeInv;
    NumbersOk(t, Exec(t, h, s, acts), n, p);
  }

  lemma NumbersOk(t: Topology, s: State, n: PeerId, p: PeerId)
    requires Inv(t, s) && n in s.nodes
    ensures var peers := s.nodes[n].peers;
            && TxCounter(peers, p) == |Stream(s.streams, n, p)|
            && (p in peers ==> peers[p].sequencer.next <= |Stream(s.streams, p, n)|)
  {
    assert NodeInv(t, s, n);
    hide Inv, NodeOk, Stream, FromPeer;
  }

  // ---------- routing ----------

  /** Every listed address is owned by its peer; a route for the tunnel address of `x` leads to `x`, a known peer. */
  ghost predicate Routed(t: Topology, m: Manager) {
    && Owned(t, m.peers)
    && (m.director.Layer3? ==>
          forall x :: x in t.tunIp && t.tunIp[x].Some? && t.tunIp[x].value in m.director.routes ==>
            m.director.routes[t.tunIp[x].value] == x && x in m.peers)
  }

  lemma RouteLeads(t: Topology, routes: map<Ipv4Addr, PeerId>, x: PeerId)
    requires TopologyOk(t) && RoutesOk(t, Layer3(routes))
    requires x in t.tunIp && t.tunIp[x].Some? && t.tunIp[x].value in routes
    ensures routes[t.tunIp[x].value] == x
  {
    assert t.tunIp[routes[t.tunIp[x].value]] == t.tunIp[x];
  }

  lemma NodeFacts(t: Topology, s: State, n: PeerId)
    requires Inv(t, s) && n in s.nodes
    ensures var m := s.nodes[n]; TopologyOk(t) && Owned(t, m.peers) && RoutesOk(t, m.director) && NoDangling(m)
  {
    hide Owned, RoutesOk, NoDangling, PeersOk, Past, LinksOk, CountersOk, WiresOk, TopologyOk;
    assert NodeInv(t, s, n);
  }

  lemma TablesOk(t: Topology, s: State, n: PeerId)
    requires Inv(t, s) && n in s.nodes
    ensures Routed(t, s.nodes[n])
  {
    hide Inv, Owned, RoutesOk, TopologyOk;
    NodeFacts(t, s, n);
    var m := s.nodes[n];
    if m.director.Layer3? {
      var routes := m.director.routes;
      forall x | x in t.tunIp && t.tunIp[x].Some? && t.tunIp[x].value in routes
        ensures routes[t.tunIp[x].value] == x && x in m.peers
      {
        RouteLeads(t, routes, x);
      }
    }
  }

  /** In every reachable state addresses are listed under their owners and routes lead to the nodes they name. */
  lemma AddressesAndRoutes(t: Topology, h: Headers, s: State, acts: seq<Action>, n: PeerId)
    requires Init(t, s) && IsExecution(t, h, s, acts) && n in t.tunIp
    ensures n in Exec(t, h, s, acts).nodes
    ensures Routed(t, Exec(t, h, s, acts).nodes[n])
  {
    hide Init, IsExecution, Exec, WiresOk, NodeInv, Routed, TopologyOk;
    Reachable(t, h, s, acts);
    TablesOk(t, Exec(t, h, s, acts), n);
  }

  lemma RoutedSends(t: Topology, h: Headers, m: Manager, e: Event, x: PeerId, o: Outgoing)
    requires Routed(t, m) && m.director.Layer3? && e.input.Local?
    requires x in t.tunIp && t.tunIp[x].Some? && h.ipDst(e.input.frame) == t.tunIp[x]
    requires o in Step(h, m, e).sent
    ensures o.destination in t.owner && t.owner[o.destination] == x
    ensures o.message == Data(Packet(TxCounter(m.peers, x), m.ownId, e.input.frame))
  {
    hide Fanout;
    var targets := Destinations(h, m, e.input.frame, e.input.order);
    FanoutMember(m.peers, targets, DataFor(m, e.input.frame), o);
    assert forall p :: p in targets ==> p == x;
  }

  /**
   * On layer 3 whatever a node sends for a frame to the tunnel address of `x` goes to an address of `x`, under the next
   * number of the stream to `x`.
   */
  lemma RoutedFrame(t: Topology, h: Headers, s: State, a: Action, x: PeerId, o: Outgoing)
    requires Inv(t, s) && Enabled(t, s, a) && a.event.input.Local? && s.nodes[a.node].director.Layer3?
    requires x in t.tunIp && t.tunIp[x].Some? && h.ipDst(a.event.input.frame) == t.tunIp[x]
    requires o in Step(h, s.nodes[a.node], a.event).sent
    ensures o.destination in t.owner && t.owner[o.destination] == x
    ensures o.message == Data(Packet(|Stream(s.streams, a.node, x)|, a.node, a.event.input.frame))
  {
    hide Step, Routed, Stream, Good, LinksOk, WiresOk, Owned, RoutesOk, CountersOk, TopologyOk, Deliverable, Fits;
    TablesOk(t, s, a.node);
    NumbersOk(t, s, a.node, x);
    assert NodeInv(t, s, a.node);
    RoutedSends(t, h, s.nodes[a.node], a.event, x, o);
  }

  /** No unwrap of any node fails in any execution. */
  lemma SystemNeverPanics(t: Topology, h: Headers, s: State, acts: seq<Action>, a: Action)
    requires Init(t, s) && IsExecution(t, h, s, acts) && Enabled(t, Exec(t, h, s, acts), a)
    ensures !Panics(h, Exec(t, h, s, acts).nodes[a.node], a.event)
  {
    Reachable(t, h, s, acts);
    var end := Exec(t, h, s, acts);
    assert NodeInv(t, end, a.node);
    hide Init, IsExecution, Exec, Inv, NodeInv, Panics, Good, Fits, LinksOk, CountersOk;
    StepKeepsGood(h, end.nodes[a.node], end.clocks[a.node], a.event);
  }
}
