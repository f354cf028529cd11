/**
 * N nodes and a hostile network that may drop, duplicate, reorder and delay datagrams at will but does not forge
 * them. The network is a growing set: whatever was sent may be delivered any number of times, at any later point,
 * to the node that owns the destination address.
 */
module System {
  import opened Messages
  import opened ManagerSpec
  import Seq = SequencerSpec
  import opened ManagerRuns

  /**
   * Which node owns an address, the tunnel address of every node (none on layer 2), which node holds a tunnel address, and
   * the peers every node is configured with.
   */
  datatype Topology = Topology(
    owner: map<SocketAddr, PeerId>,
    tunIp: map<PeerId, Option<Ipv4Addr>>,
    holder: map<Ipv4Addr, PeerId>,
    seeds: map<PeerId, seq<PeerConfig>>)

  datatype Wire = Wire(from: PeerId, dest: SocketAddr, message: Message)

  type Streams = map<PeerId, map<PeerId, seq<Bytes>>>

  /**
   * `streams[a][b]` records the frames that `a` addressed to `b`, and `logs[b]` the packets that `b` delivered to
   * its local side; both are history and influence nothing.
   */
  datatype State = State(
    nodes: map<PeerId, Manager>,
    clocks: map<PeerId, nat>,
    net: set<Wire>,
    streams: Streams,
    logs: map<PeerId, seq<Packet>>)

  datatype Action = Action(node: PeerId, event: Event)

  /** Configured addresses belong to the peer they are listed under. */
  ghost predicate SeedsOk(t: Topology, configs: seq<PeerConfig>) {
    forall c, a :: c in configs && a in c.addresses ==> a in t.owner && t.owner[a] == c.id
  }

  /**
   * Ids are unique by construction. Every address belongs to a node, every tunnel address has one holder, so no two nodes
   * share one, and all nodes are configured correctly.
   */
  ghost predicate TopologyOk(t: Topology) {
    && (forall a :: a in t.owner ==> t.owner[a] in t.tunIp)
    && (forall n :: n in t.tunIp && t.tunIp[n].Some? ==> t.tunIp[n].value in t.holder && t.holder[t.tunIp[n].value] == n)
    && (forall n :: n in t.tunIp ==> n in t.seeds && SeedsOk(t, t.seeds[n]))
  }

  function Stream(streams: Streams, a: PeerId, b: PeerId): seq<Bytes> {
    if a in streams && b in streams[a] then streams[a][b] else []
  }

  /** A node as it starts: a peer list seeded with correctly owned addresses and an empty director. */
  ghost predicate Starts(t: Topology, n: PeerId, m: Manager, now: nat)
    requires n in t.tunIp && n in t.seeds
  {
    m == Start(n, t.tunIp[n], t.seeds[n], now)
  }

  ghost predicate SameNodes(t: Topology, s: State) {
    && s.nodes.Keys == t.tunIp.Keys && s.clocks.Keys == t.tunIp.Keys
    && s.streams.Keys == t.tunIp.Keys && s.logs.Keys == t.tunIp.Keys
  }

  ghost predicate Init(t: Topology, s: State) {
    && TopologyOk(t) && SameNodes(t, s) && s.net == {}
    && (forall n :: n in s.nodes ==> Starts(t, n, s.nodes[n], s.clocks[n]) && s.streams[n] == map[] && s.logs[n] == [])
  }

  /** A datagram on its way to `n` that was sent by the owner of `source`. */
  ghost predicate Deliverable(t: Topology, s: State, n: PeerId, source: SocketAddr, message: Message) {
    && source in t.owner
    && exists dest :: dest in t.owner && t.owner[dest] == n && Wire(t.owner[source], dest, message) in s.net
  }

  ghost predicate Enabled(t: Topology, s: State, a: Action) {
    && SameNodes(t, s)
    && a.node in s.nodes && s.clocks[a.node] <= a.event.now && Fits(s.nodes[a.node], a.event)
    && (a.event.input.Udp? && a.event.input.decoded.Some? ==>
          Deliverable(t, s, a.node, a.event.input.source, a.event.input.decoded.value))
  }

  function Append(mine: map<PeerId, seq<Bytes>>, targets: seq<PeerId>, frame: Bytes): map<PeerId, seq<Bytes>> {
    map p | p in mine.Keys + (set q | q in targets) ::
      (if p in mine then mine[p] else []) + (if p in targets then [frame] else [])
  }

  /** A local frame joins the stream to every peer it is addressed to. */
  function Record(h: Headers, streams: Streams, m: Manager, n: PeerId, e: Event): Streams
    requires n in streams
  {
    if e.input.Local? then streams[n := Append(streams[n], Destinations(h, m, e.input.frame, e.input.order), e.input.frame)]
    else streams
  }

  function Wires(n: PeerId, sent: multiset<Outgoing>): set<Wire> {
    set o | o in sent :: Wire(n, o.destination, o.message)
  }

  function Perform(h: Headers, s: State, a: Action): State
    requires a.node in s.nodes && a.node in s.streams && a.node in s.logs
  {
    var m := s.nodes[a.node];
    var r := Step(h, m, a.event);
    State(s.nodes[a.node := r.state],
          s.clocks[a.node := a.event.now],
          s.net + Wires(a.node, r.sent),
          Record(h, s.streams, m, a.node, a.event),
          s.logs[a.node := s.logs[a.node] + r.delivered])
  }

  /** A finite execution: every action is enabled where it happens. */
  ghost predicate IsExecution(t: Topology, h: Headers, s: State, acts: seq<Action>)
    decreases acts
  {
    acts == [] || (Enabled(t, s, acts[0]) && IsExecution(t, h, Perform(h, s, acts[0]), acts[1..]))
  }

  ghost function Exec(t: Topology, h: Headers, s: State, acts: seq<Action>): State
    requires IsExecution(t, h, s, acts)
    decreases acts
  {
    if acts == [] then s else Exec(t, h, Perform(h, s, acts[0]), acts[1..])
  }

  // ---------- the invariant ----------

  /** The packet carries the frame that the stream has at its number. */
  ghost predicate OnStream(stream: seq<Bytes>, p: Packet) {
    p.seqNr < |stream| && stream[p.seqNr] == p.bytes
  }

  /** A stream, the receiver's sequencer for it, and what the receiver delivered from it. */
  ghost predicate LinkOk(stream: seq<Bytes>, s: Seq.State, out: seq<Packet>) {
    && s.next <= |stream|
    && (forall k :: k in s.queue ==> OnStream(stream, s.queue[k]))
    && Seq.Increasing(out)
    && (forall p :: p in out ==> OnStream(stream, p) && p.seqNr < s.next)
  }

  /** Every address listed under a peer is owned by that peer. */
  ghost predicate Owned(t: Topology, peers: Peers) {
    forall p, a :: p in peers && a in peers[p].connections ==> a in t.owner && t.owner[a] == p
  }

  /** Every route leads to the node that has that tunnel address. */
  ghost predicate RoutesOk(t: Topology, d: Director) {
    d.Layer3? ==> forall ip :: ip in d.routes ==> d.routes[ip] in t.tunIp && t.tunIp[d.routes[ip]] == Some(ip)
  }

  ghost predicate NodeOk(t: Topology, n: PeerId, m: Manager, clock: nat) {
    && n in t.tunIp && m.ownId == n && m.ownTunIp == t.tunIp[n] && (m.director.Layer3? <==> m.ownTunIp.Some?)
    && Good(m, clock) && Owned(t, m.peers) && RoutesOk(t, m.director)
  }

  ghost predicate WireOk(t: Topology, streams: Streams, w: Wire) {
    && w.from in t.tunIp && w.dest in t.owner
    && match w.message
       case Data(p) => p.peerId == w.from && OnStream(Stream(streams, w.from, t.owner[w.dest]), p)
       case Alive(k) => k == Keepalive(w.from, t.tunIp[w.from])
  }

  ghost predicate WiresOk(t: Topology, streams: Streams, net: set<Wire>) {
    forall w :: w in net ==> WireOk(t, streams, w)
  }

  /** Each counter is the length of the stream it numbers. */
  ghost predicate CountersOk(streams: Streams, n: PeerId, peers: Peers) {
    forall p: PeerId :: |Stream(streams, n, p)| == TxCounter(peers, p)
  }

  ghost predicate LinksOk(streams: Streams, n: PeerId, peers: Peers, log: seq<Packet>) {
    && (forall q :: q in log ==> q.peerId in peers)
    && (forall p :: p in peers ==> LinkOk(Stream(streams, p, n), peers[p].sequencer, FromPeer(log, p)))
  }

  ghost predicate NodeInv(t: Topology, s: State, n: PeerId)
    requires SameNodes(t, s) && n in s.nodes
  {
    && NodeOk(t, n, s.nodes[n], s.clocks[n])
    && CountersOk(s.streams, n, s.nodes[n].peers)
    && LinksOk(s.streams, n, s.nodes[n].peers, s.logs[n])
  }

  ghost predicate Inv(t: Topology, s: State) {
    && TopologyOk(t) && SameNodes(t, s) && WiresOk(t, s.streams, s.net)
    && (forall n :: n in s.nodes ==> NodeInv(t, s, n))
  }

  // ---------- it holds at the start ----------

  lemma {:induction false} SeedOwned(t: Topology, configs: seq<PeerConfig>, now: nat)
    requires SeedsOk(t, configs)
    ensures Owned(t, Seed(configs, now))
    decreases configs
  {
    if configs != [] {
      SeedOwned(t, configs[..|configs| - 1], now);
      assert configs[|configs| - 1] in configs;
    }
  }

  lemma {:induction false} SeedIds(configs: seq<PeerConfig>, now: nat)
    ensures forall p :: p in Seed(configs, now) <==> exists i :: 0 <= i < |configs| && configs[i].id == p
    decreases configs
  {
    if configs != [] {
      var init := configs[..|configs| - 1];
      SeedIds(init, now);
      assert forall i :: 0 <= i < |init| ==> init[i] == configs[i];
    }
  }

  /**
   * A node starts with the configured ids and no others as peers, each with exactly the addresses of its last entry, under
   * its own id and tunnel address, and with an empty table for its layer.
   */
  lemma StartExactly(own: PeerId, tunIp: Option<Ipv4Addr>, configs: seq<PeerConfig>, now: nat)
    ensures var m := Start(own, tunIp, configs, now);
            && m.ownId == own && m.ownTunIp == tunIp
            && (if tunIp.Some? then m.director.Layer3? && m.director.routes == map[]
                else m.director.Layer2? && m.director.macTable == map[])
            && (forall p :: p in m.peers <==> exists i :: 0 <= i < |configs| && configs[i].id == p)
            && (forall i :: 0 <= i < |configs| && (forall j :: i < j < |configs| ==> configs[j].id != configs[i].id) ==>
                  forall a :: a in Connections(m.peers, configs[i].id) <==> a in configs[i].addresses)
  {
    hide Seed, Connections;
    SeedIds(configs, now);
    forall i | 0 <= i < |configs| && forall j :: i < j < |configs| ==> configs[j].id != configs[i].id
      ensures forall a :: a in Connections(Seed(configs, now), configs[i].id) <==> a in configs[i].addresses
    {
      SeedAddresses(configs, now, i);
    }
  }

  lemma {:induction false} SeedAddresses(configs: seq<PeerConfig>, now: nat, i: nat)
    requires i < |configs| && forall j :: i < j < |configs| ==> configs[j].id != configs[i].id
    ensures forall a :: a in Connections(Seed(configs, now), configs[i].id) <==> a in configs[i].addresses
    decreases configs
  {
    var init := configs[..|configs| - 1];
    if i < |init| {
      assert init[i] == configs[i] && forall j :: 0 <= j < |init| ==> init[j] == configs[j];
      SeedAddresses(init, now, i);
    }
  }

  lemma StartOk(t: Topology, n: PeerId, m: Manager, now: nat, streams: Streams)
    requires TopologyOk(t) && n in t.tunIp && Starts(t, n, m, now)
    requires forall a, b :: Stream(streams, a, b) == []
    ensures NodeOk(t, n, m, now) && CountersOk(streams, n, m.peers) && LinksOk(streams, n, m.peers, [])
  {
    hide Seed, Good;
    StartIsGood(n, t.tunIp[n], t.seeds[n], now);
    SeedOwned(t, t.seeds[n], now);
    assert forall p :: p in m.peers ==> JustSeeded(m.peers[p], now);
  }

  lemma InitOk(t: Topology, s: State)
    requires Init(t, s)
    ensures Inv(t, s)
  {
    forall n | n in s.nodes
      ensures NodeInv(t, s, n)
    {
      StartOk(t, n, s.nodes[n], s.clocks[n], s.streams);
    }
  }

  // ---------- one event of one node ----------

  /** What the network guarantees about a datagram handed to node `n`. */
  ghost predicate Genuine(t: Topology, streams: Streams, n: PeerId, source: SocketAddr, message: Message) {
    && source in t.owner && t.owner[source] in t.tunIp
    && match message
       case Data(p) => p.peerId == t.owner[source] && OnStream(Stream(streams, p.peerId, n), p)
       case Alive(k) => k == Keepalive(t.owner[source], t.tunIp[t.owner[source]])
  }

  ghost predicate GenuineInput(t: Topology, streams: Streams, n: PeerId, e: Event) {
    e.input.Udp? && e.input.decoded.Some? ==> Genuine(t, streams, n, e.input.source, e.input.decoded.value)
  }

  lemma NetworkIsGenuine(t: Topology, s: State, a: Action)
    requires Inv(t, s) && Enabled(t, s, a)
    ensures GenuineInput(t, s.streams, a.node, a.event)
  {
  }

  /** Only a keepalive adds an address, its own source. */
  lemma StepConnections(h: Headers, m: Manager, e: Event, p: PeerId, a: SocketAddr)
    requires a in Connections(Step(h, m, e).state.peers, p)
    ensures || a in Connections(m.peers, p)
            || exists k :: e.input == Udp(Some(Alive(k)), a) && k.peerId == p
  {
    hide Seq.Apply, Fanout, Copies, TickOutput, Destinations, LearnAll;
    match e.input
    case Udp(Some(Alive(k)), source) =>
    case MaintenanceTick =>
    case _ =>
  }

  lemma OwnedStep(t: Topology, h: Headers, n: PeerId, m: Manager, e: Event, streams: Streams)
    requires Owned(t, m.peers) && GenuineInput(t, streams, n, e)
    ensures Owned(t, Step(h, m, e).state.peers)
  {
    hide Step;
    forall p, a | p in Step(h, m, e).state.peers && a in Step(h, m, e).state.peers[p].connections
      ensures a in t.owner && t.owner[a] == p
    {
      StepConnections(h, m, e, p, a);
      assert a in Connections(m.peers, p) ==> p in m.peers && a in m.peers[p].connections;
    }
  }

  lemma RoutesStep(t: Topology, h: Headers, n: PeerId, m: Manager, e: Event, streams: Streams)
    requires RoutesOk(t, m.director) && GenuineInput(t, streams, n, e)
    ensures RoutesOk(t, Step(h, m, e).state.director)
    ensures Step(h, m, e).state.ownId == m.ownId && Step(h, m, e).state.ownTunIp == m.ownTunIp
    ensures Step(h, m, e).state.director.Layer3? == m.director.Layer3?
  {
    hide Seq.Apply, Fanout, Copies, TickOutput, Destinations, LearnTable, AddPeer, Prune, TickState, CountSends;
    match e.input
    case Udp(Some(Alive(k)), source) =>
    case _ =>
  }

  lemma NodeStep(t: Topology, h: Headers, n: PeerId, m: Manager, clock: nat, e: Event, streams: Streams)
    requires NodeOk(t, n, m, clock) && clock <= e.now && Fits(m, e)
    requires GenuineInput(t, streams, n, e)
    ensures NodeOk(t, n, Step(h, m, e).state, e.now)
  {
    hide Step, Good, Owned, RoutesOk;
    StepKeepsGood(h, m, clock, e);
    OwnedStep(t, h, n, m, e, streams);
    RoutesStep(t, h, n, m, e, streams);
  }

  /** Exactly the copies one expects: every address of every listed peer, with that peer's message. */
  lemma {:induction false} FanoutMember(peers: Peers, targets: seq<PeerId>, message: PeerId -> Message, o: Outgoing)
    ensures o in Fanout(peers, targets, message)
            <==> exists p :: p in targets && o.destination in Connections(peers, p) && o.message == message(p)
    decreases targets
  {
    if targets != [] {
      FanoutMember(peers, targets[1..], message, o);
      assert targets == [targets[0]] + targets[1..];
      assert o in Copies(Connections(peers, targets[0]), message(targets[0]))
             <==> o.destination in Connections(peers, targets[0]) && o.message == message(targets[0]);
    }
  }

  lemma AppendStream(mine: map<PeerId, seq<Bytes>>, targets: seq<PeerId>, frame: Bytes, p: PeerId)
    ensures var old' := if p in mine then mine[p] else [];
            var new' := if p in Append(mine, targets, frame) then Append(mine, targets, frame)[p] else [];
            new' == if p in targets then old' + [frame] else old'
  {
  }

  /** Recording extends exactly the streams from `n` to the destinations, each by the frame. */
  lemma RecordStream(h: Headers, streams: Streams, m: Manager, n: PeerId, e: Event, a: PeerId, b: PeerId)
    requires n in streams
    ensures Stream(Record(h, streams, m, n, e), a, b)
            == Stream(streams, a, b)
               + if a == n && e.input.Local? && b in Destinations(h, m, e.input.frame, e.input.order)
                 then [e.input.frame] else []
  {
    if e.input.Local? {
      AppendStream(streams[n], Destinations(h, m, e.input.frame, e.input.order), e.input.frame, b);
    }
    hide Append, Destinations;
  }

  lemma CountersStep(t: Topology, h: Headers, n: PeerId, m: Manager, clock: nat, e: Event, streams: Streams)
    requires NodeOk(t, n, m, clock) && Fits(m, e) && clock <= e.now && n in streams
    requires CountersOk(streams, n, m.peers)
    ensures CountersOk(Record(h, streams, m, n, e), n, Step(h, m, e).state.peers)
  {
    StepKeepsGood(h, m, clock, e);
    forall p: PeerId
      ensures |Stream(Record(h, streams, m, n, e), n, p)| == TxCounter(Step(h, m, e).state.peers, p)
    {
      RecordStream(h, streams, m, n, e, n, p);
      StepCounts(h, m, e, p);
    }
  }

  /** Only local frames consume numbers, one for each destination; no other event touches a counter. */
  lemma StepCounts(h: Headers, m: Manager, e: Event, p: PeerId)
    requires !Panics(h, m, e)
    ensures TxCounter(Step(h, m, e).state.peers, p)
            == TxCounter(m.peers, p)
               + if e.input.Local? && p in Destinations(h, m, e.input.frame, e.input.order) then 1 else 0
  {
    hide Seq.Apply, Fanout, Copies, TickOutput, Destinations, LearnAll;
    match e.input
    case Local(frame, order) =>
    case Udp(Some(Alive(k)), source) =>
    case _ =>
  }

  /** A local frame is sent under the number it has in the stream to its destination, only to owned addresses. */
  lemma LocalSentOk(t: Topology, h: Headers, n: PeerId, m: Manager, clock: nat, e: Event, streams: Streams, o: Outgoing)
    requires NodeOk(t, n, m, clock) && e.input.Local? && n in streams
    requires CountersOk(streams, n, m.peers)
    requires o in Step(h, m, e).sent
    ensures WireOk(t, Record(h, streams, m, n, e), Wire(n, o.destination, o.message))
  {
    hide Destinations, Record, Fanout, Good;
    var targets := Destinations(h, m, e.input.frame, e.input.order);
    FanoutMember(m.peers, targets, DataFor(m, e.input.frame), o);
    var p :| p in targets && o.destination in Connections(m.peers, p) && o.message == DataFor(m, e.input.frame)(p);
    RecordStream(h, streams, m, n, e, n, p);
  }

  lemma KeepaliveSentOk(t: Topology, h: Headers, n: PeerId, m: Manager, clock: nat, e: Event, streams: Streams, o: Outgoing)
    requires NodeOk(t, n, m, clock) && !e.input.Local? && n in streams
    requires Owned(t, Step(h, m, e).state.peers)
    requires o in Step(h, m, e).sent
    ensures o.message == OwnKeepalive(m)
    ensures WireOk(t, streams, Wire(n, o.destination, o.message))
  {
    hide Fanout, Good, Seq.Apply, TickOutput, LearnAll;
    match e.input
    case Udp(Some(Alive(k)), source) =>
    case KeepaliveTick(order) => FanoutMember(m.peers, order, (p: PeerId) => OwnKeepalive(m), o);
    case _ =>
  }

  /** Everything a node sends is genuine. */
  lemma SentOk(t: Topology, h: Headers, n: PeerId, m: Manager, clock: nat, e: Event, streams: Streams)
    requires NodeOk(t, n, m, clock) && clock <= e.now && Fits(m, e) && n in streams
    requires GenuineInput(t, streams, n, e) && CountersOk(streams, n, m.peers)
    ensures WiresOk(t, Record(h, streams, m, n, e), Wires(n, Step(h, m, e).sent))
  {
    hide Step, Good, WireOk;
    OwnedStep(t, h, n, m, e, streams);
    forall o | o in Step(h, m, e).sent
      ensures WireOk(t, Record(h, streams, m, n, e), Wire(n, o.destination, o.message))
    {
      if e.input.Local? {
        LocalSentOk(t, h, n, m, clock, e, streams, o);
      } else {
        KeepaliveSentOk(t, h, n, m, clock, e, streams, o);
      }
    }
  }

  lemma LinkDrain(stream: seq<Bytes>, s: Seq.State, out: seq<Packet>, now: nat)
    requires Seq.Valid(s) && LinkOk(stream, s, out)
    ensures LinkOk(stream, Seq.Drain(s, now).state, out + Seq.Drain(s, now).out)
  {
    var r := Seq.Drain(s, now);
    Seq.DrainFacts(s, now);
    hide Seq.Drain;
    forall p | p in r.out
      ensures OnStream(stream, p) && s.next <= p.seqNr < r.state.next
    {
      var i :| 0 <= i < |r.out| && r.out[i] == p;
    }
    if r.out != [] {
      assert r.out[|r.out| - 1].seqNr == r.state.next - 1;
    }
  }

  /** Receiving genuine packets, or ticking, keeps a link in order. */
  lemma LinkApply(stream: seq<Bytes>, s: Seq.State, out: seq<Packet>, e: Seq.Event)
    requires Seq.Valid(s) && LinkOk(stream, s, out)
    requires e.Arrival? ==> OnStream(stream, e.packet)
    ensures LinkOk(stream, Seq.Apply(s, e).state, out + Seq.Apply(s, e).out)
  {
    hide Seq.Drain;
    match e
    case Arrival(now, p) => LinkDrain(stream, Seq.Insert(s, p), out, now);
    case Tick(now) =>
      assert out + [] == out;
      assert LinkOk(stream, Seq.Advance(s), out);
      LinkDrain(stream, Seq.Advance(s), out, now);
  }

  /** The link of one known peer across one event. */
  lemma LinkStep(h: Headers, m: Manager, e: Event, p: PeerId, stream: seq<Bytes>, out: seq<Packet>)
    requires WellFormed(m) && Fits(m, e) && p in m.peers
    requires LinkOk(stream, m.peers[p].sequencer, out)
    requires forall q, a :: e.input == Udp(Some(Data(q)), a) && q.peerId == p ==> OnStream(stream, q)
    ensures p in Step(h, m, e).state.peers
    ensures LinkOk(stream, Step(h, m, e).state.peers[p].sequencer, out + FromPeer(Step(h, m, e).delivered, p))
  {
    hide Step, Seq.Apply, LinkOk, OnStream;
    var s := m.peers[p].sequencer;
    StepProjects(h, m, e, p);
    var es := Project(p, e);
    if es == [] {
      assert out + [] == out;
    } else {
      RunSingle(s, es[0]);
      LinkApply(stream, s, out, es[0]);
    }
  }

  lemma LinksStep(t: Topology, h: Headers, n: PeerId, m: Manager, clock: nat, e: Event, streams: Streams, log: seq<Packet>)
    requires NodeOk(t, n, m, clock) && clock <= e.now && Fits(m, e)
    requires GenuineInput(t, streams, n, e) && LinksOk(streams, n, m.peers, log)
    ensures LinksOk(streams, n, Step(h, m, e).state.peers, log + Step(h, m, e).delivered)
  {
    var r := Step(h, m, e);
    StepKeepsGood(h, m, clock, e);
    DeliveredKnown(h, m, e);
    hide Step, FromPeer;
    forall p | p in r.state.peers
      ensures LinkOk(Stream(streams, p, n), r.state.peers[p].sequencer, FromPeer(log + r.delivered, p))
    {
      hide LinkOk;
      FromPeerConcat(log, r.delivered, p);
      if p in m.peers {
        LinkStep(h, m, e, p, Stream(streams, p, n), FromPeer(log, p));
      } else {
        NewLink(h, m, e, p, Stream(streams, p, n), log + r.delivered);
      }
    }
  }

  lemma NewLink(h: Headers, m: Manager, e: Event, p: PeerId, stream: seq<Bytes>, log: seq<Packet>)
    requires p !in m.peers && p in Step(h, m, e).state.peers
    requires forall q :: q in log ==> q.peerId in m.peers
    ensures LinkOk(stream, Step(h, m, e).state.peers[p].sequencer, FromPeer(log, p))
  {
    hide Step;
    NewPeerStartsFresh(h, m, e, p);
    FromPeerNone(log, p);
  }

  // ---------- the invariant is kept ----------

  /** Every stream only grows at its end. */
  ghost predicate Grows(before: Streams, after: Streams) {
    forall a, b :: Stream(before, a, b) <= Stream(after, a, b)
  }

  lemma RecordGrows(h: Headers, streams: Streams, m: Manager, n: PeerId, e: Event)
    requires n in streams
    ensures Grows(streams, Record(h, streams, m, n, e))
  {
    hide Record, Stream;
    forall a, b
      ensures Stream(streams, a, b) <= Stream(Record(h, streams, m, n, e), a, b)
    {
      RecordStream(h, streams, m, n, e, a, b);
    }
  }

  lemma WiresGrow(t: Topology, before: Streams, after: Streams, net: set<Wire>)
    requires Grows(before, after) && WiresOk(t, before, net)
    ensures WiresOk(t, after, net)
  {
    hide Stream;
  }

  lemma LinksGrow(before: Streams, after: Streams, n: PeerId, peers: Peers, log: seq<Packet>)
    requires Grows(before, after) && LinksOk(before, n, peers, log)
    ensures LinksOk(after, n, peers, log)
  {
    hide Stream, FromPeer;
    forall p | p in peers
      ensures LinkOk(Stream(after, p, n), peers[p].sequencer, FromPeer(log, p))
    {
      assert LinkOk(Stream(before, p, n), peers[p].sequencer, FromPeer(log, p));
    }
  }

  lemma SameNodesStep(t: Topology, h: Headers, s: State, a: Action)
    requires Enabled(t, s, a)
    ensures SameNodes(t, Perform(h, s, a))
  {
    hide Step, Deliverable, Wires, Fits, Append;
  }

  /** What one action does to node `b` and its log. */
  lemma PerformNode(t: Topology, h: Headers, s: State, act: Action, b: PeerId)
    requires Enabled(t, s, act) && b in s.nodes
    ensures b in Perform(h, s, act).nodes && b in Perform(h, s, act).logs
    ensures Perform(h, s, act).nodes[b] == if act.node == b then Step(h, s.nodes[b], act.event).state else s.nodes[b]
    ensures Perform(h, s, act).logs[b] == s.logs[b] + if act.node == b then Step(h, s.nodes[b], act.event).delivered else []
  {
    hide Step, Wires, Record, Fits, Deliverable;
  }

  /** The node that acts. */
  lemma ActorStep(t: Topology, h: Headers, s: State, a: Action)
    requires Inv(t, s) && Enabled(t, s, a)
    ensures SameNodes(t, Perform(h, s, a)) && NodeInv(t, Perform(h, s, a), a.node)
  {
    SameNodesStep(t, h, s, a);
    NetworkIsGenuine(t, s, a);
    assert NodeInv(t, s, a.node);
    hide Step, NodeOk, WiresOk, GenuineInput, Deliverable, LinksOk, CountersOk, Record, Wires, Fits, Inv;
    var n, m := a.node, s.nodes[a.node];
    NodeStep(t, h, n, m, s.clocks[n], a.event, s.streams);
    CountersStep(t, h, n, m, s.clocks[n], a.event, s.streams);
    LinksStep(t, h, n, m, s.clocks[n], a.event, s.streams, s.logs[n]);
    RecordGrows(h, s.streams, m, n, a.event);
    LinksGrow(s.streams, Record(h, s.streams, m, n, a.event), n, Step(h, m, a.event).state.peers,
              s.logs[n] + Step(h, m, a.event).delivered);
  }

  /** A node that does not act. */
  lemma BystanderStep(t: Topology, h: Headers, s: State, a: Action, n: PeerId)
    requires Inv(t, s) && Enabled(t, s, a) && n in s.nodes && n != a.node
    ensures SameNodes(t, Perform(h, s, a)) && NodeInv(t, Perform(h, s, a), n)
  {
    SameNodesStep(t, h, s, a);
    assert NodeInv(t, s, n);
    hide Step, NodeOk, WiresOk, Deliverable, LinksOk, CountersOk, Record, Wires, Fits, Inv;
    var m := s.nodes[a.node];
    RecordGrows(h, s.streams, m, a.node, a.event);
    LinksGrow(s.streams, Record(h, s.streams, m, a.node, a.event), n, s.nodes[n].peers, s.logs[n]);
    CountersElsewhere(h, s.streams, m, a.node, a.event, n, s.nodes[n].peers);
  }

  lemma CountersElsewhere(h: Headers, streams: Streams, m: Manager, actor: PeerId, e: Event, n: PeerId, peers: Peers)
    requires actor in streams && n != actor && CountersOk(streams, n, peers)
    ensures CountersOk(Record(h, streams, m, actor, e), n, peers)
  {
    hide Record, Stream;
    forall p: PeerId
      ensures |Stream(Record(h, streams, m, actor, e), n, p)| == TxCounter(peers, p)
    {
      RecordStream(h, streams, m, actor, e, n, p);
    }
  }

  lemma WiresStep(t: Topology, h: Headers, s: State, a: Action)
    requires Inv(t, s) && Enabled(t, s, a)
    ensures WiresOk(t, Perform(h, s, a).streams, Perform(h, s, a).net)
  {
    NetworkIsGenuine(t, s, a);
    hide Step, NodeOk, WireOk, GenuineInput, Deliverable, LinksOk, CountersOk, Stream, Wires, Record, Fits;
    var m := s.nodes[a.node];
    assert NodeInv(t, s, a.node);
    RecordGrows(h, s.streams, m, a.node, a.event);
    WiresGrow(t, s.streams, Record(h, s.streams, m, a.node, a.event), s.net);
    SentOk(t, h, a.node, m, s.clocks[a.node], a.event, s.streams);
  }

  /** Every action of every node keeps the invariant. */
  lemma InvStep(t: Topology, h: Headers, s: State, a: Action)
    requires Inv(t, s) && Enabled(t, s, a)
    ensures Inv(t, Perform(h, s, a))
  {
    hide Perform, NodeInv, WiresOk, Deliverable, Fits;
    WiresStep(t, h, s, a);
    ActorStep(t, h, s, a);
    forall n | n in s.nodes && n != a.node
      ensures NodeInv(t, Perform(h, s, a), n)
    {
      BystanderStep(t, h, s, a, n);
    }
  }

  lemma {:induction false} ExecOk(t: Topology, h: Headers, s: State, acts: seq<Action>)
    requires Inv(t, s) && IsExecution(t, h, s, acts)
    ensures Inv(t, Exec(t, h, s, acts))
    decreases acts
  {
    hide Inv, Perform;
    if acts != [] {
      InvStep(t, h, s, acts[0]);
      ExecOk(t, h, Perform(h, s, acts[0]), acts[1..]);
    }
  }
}
