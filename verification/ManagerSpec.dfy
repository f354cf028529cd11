/**
 * One node on values: the peer list, the traffic director and the reaction of the connection manager to
 * every event of its loop. Hash-map iteration order is an input of the events that iterate.
 */
module ManagerSpec {
  import opened Messages
  import Seq = SequencerSpec

  /** Time is in nanoseconds. */
  const DEADLINE: nat := 3_000_000
  const STALE_LIMIT: nat := 30_000_000_000

  /** What the packet parser extracts from a frame, or nothing when it cannot. */
  datatype Headers = Headers(
    etherSrc: Bytes -> Option<Mac>,
    etherDst: Bytes -> Option<Mac>,
    ipDst: Bytes -> Option<Ipv4Addr>)

  datatype Peer = Peer(connections: map<SocketAddr, nat>, txCounter: nat, sequencer: Seq.State)
  type Peers = map<PeerId, Peer>

  datatype Path = Broadcast | ToPeer(id: PeerId)
  datatype Director = Layer2(macTable: map<Mac, PeerId>) | Layer3(routes: map<Ipv4Addr, PeerId>)

  datatype Manager = Manager(ownId: PeerId, ownTunIp: Option<Ipv4Addr>, peers: Peers, director: Director)

  /** The state after an event, the datagrams it sent and the packets it delivered to the local side. */
  datatype Outcome = Outcome(state: Manager, sent: multiset<Outgoing>, delivered: seq<Packet>)

  datatype PeerConfig = PeerConfig(id: PeerId, addresses: seq<SocketAddr>)

  datatype Input =
    | Udp(decoded: Option<Message>, source: SocketAddr)
    | Local(frame: Bytes, order: seq<PeerId>)
    | SequencerTick(order: seq<PeerId>)
    | MaintenanceTick
    | KeepaliveTick(order: seq<PeerId>)

  datatype Event = Event(now: nat, input: Input)

  /** `order` lists `keys`, each once. */
  ghost predicate IsOrder(order: seq<PeerId>, keys: set<PeerId>) {
    && (forall p :: p in order <==> p in keys)
    && (forall i, j :: 0 <= i < j < |order| ==> order[i] != order[j])
  }

  // ---------- peer list ----------

  function NewPeer(now: nat): Peer {
    Peer(map[], 0, Seq.Fresh(DEADLINE, now))
  }

  function SeedConnections(addresses: seq<SocketAddr>, now: nat): map<SocketAddr, nat> {
    map a | a in addresses :: now
  }

  function Seed(configs: seq<PeerConfig>, now: nat): Peers {
    if configs == [] then map[]
    else
      var c := configs[|configs| - 1];
      Seed(configs[..|configs| - 1], now)[c.id := NewPeer(now).(connections := SeedConnections(c.addresses, now))]
  }

  /** A keepalive from `address` refreshes, extends or creates the entry of `id`. */
  function AddPeer(peers: Peers, id: PeerId, address: SocketAddr, now: nat): Peers {
    var peer := if id in peers then peers[id] else NewPeer(now);
    peers[id := peer.(connections := peer.connections[address := now])]
  }

  function Connections(peers: Peers, id: PeerId): set<SocketAddr> {
    if id in peers then peers[id].connections.Keys else {}
  }

  function TxCounter(peers: Peers, id: PeerId): nat {
    if id in peers then peers[id].txCounter else 0
  }

  predicate IsFresh(lastSeen: nat, now: nat) {
    now - lastSeen < STALE_LIMIT
  }

  function FreshOnly(connections: map<SocketAddr, nat>, now: nat): map<SocketAddr, nat> {
    map a | a in connections && IsFresh(connections[a], now) :: connections[a]
  }

  function Prune(peers: Peers, now: nat): Peers {
    map p | p in peers :: peers[p].(connections := FreshOnly(peers[p].connections, now))
  }

  // ---------- traffic director ----------

  function Learn(h: Headers, table: map<Mac, PeerId>, id: PeerId, frame: Bytes): map<Mac, PeerId> {
    match h.etherSrc(frame)
    case Some(mac) => if mac in table then table else table[mac := id]
    case None => table
  }

  function LearnTable(h: Headers, table: map<Mac, PeerId>, ps: seq<Packet>): map<Mac, PeerId>
    decreases ps
  {
    if ps == [] then table else LearnTable(h, Learn(h, table, ps[0].peerId, ps[0].bytes), ps[1..])
  }

  function LearnAll(h: Headers, d: Director, ps: seq<Packet>): Director {
    match d
    case Layer2(table) => Layer2(LearnTable(h, table, ps))
    case Layer3(_) => d
  }

  function GetPath(h: Headers, table: map<Mac, PeerId>, frame: Bytes): Option<Path> {
    match h.etherDst(frame)
    case None => None
    case Some(mac) =>
      if mac == BROADCAST_MAC then Some(Broadcast)
      else if mac in table then Some(ToPeer(table[mac]))
      else None
  }

  function GetRoute(h: Headers, routes: map<Ipv4Addr, PeerId>, frame: Bytes): Option<PeerId> {
    match h.ipDst(frame)
    case None => None
    case Some(ip) => if ip in routes then Some(routes[ip]) else None
  }

  // ---------- sending ----------

  /** One copy of a message for every address. */
  function Copies(addresses: set<SocketAddr>, message: Message): multiset<Outgoing> {
    multiset(set a | a in addresses :: Outgoing(a, message))
  }

  /** For every listed peer, one copy of its message for every address of that peer. */
  function Fanout(peers: Peers, targets: seq<PeerId>, message: PeerId -> Message): multiset<Outgoing> {
    if targets == [] then multiset{}
    else Copies(Connections(peers, targets[0]), message(targets[0])) + Fanout(peers, targets[1..], message)
  }

  function OwnKeepalive(m: Manager): Message {
    Alive(Keepalive(m.ownId, m.ownTunIp))
  }

  /** The packet that carries `frame` to peer `p`, numbered with the peer's current counter. */
  function DataFor(m: Manager, frame: Bytes): PeerId -> Message {
    (p: PeerId) => Data(Packet(TxCounter(m.peers, p), m.ownId, frame))
  }

  /** Where a local frame goes: one peer, all of them, or nowhere. */
  function Destinations(h: Headers, m: Manager, frame: Bytes, order: seq<PeerId>): seq<PeerId> {
    match m.director
    case Layer2(table) =>
      (match GetPath(h, table, frame)
       case None => []
       case Some(Broadcast) => order
       case Some(ToPeer(id)) => [id])
    case Layer3(routes) =>
      (match GetRoute(h, routes, frame)
       case None => []
       case Some(id) => [id])
  }

  function CountSends(peers: Peers, targets: seq<PeerId>): Peers {
    map p | p in peers :: if p in targets then peers[p].(txCounter := peers[p].txCounter + 1) else peers[p]
  }

  // ---------- the handlers ----------

  function SetSequencer(peers: Peers, id: PeerId, s: Seq.State): Peers
    requires id in peers
  {
    peers[id := peers[id].(sequencer := s)]
  }

  function HandlePacket(h: Headers, m: Manager, p: Packet, now: nat): Outcome {
    if p.peerId !in m.peers then Outcome(m, multiset{}, [])
    else
      var r := Seq.Apply(m.peers[p.peerId].sequencer, Seq.Arrival(now, p));
      Outcome(m.(peers := SetSequencer(m.peers, p.peerId, r.state), director := LearnAll(h, m.director, r.out)),
              multiset{}, r.out)
  }

  /** Does this keepalive bring a route the director does not have yet? */
  predicate BringsRoute(m: Manager, k: Keepalive) {
    m.director.Layer3? && k.tunIp.Some? && k.tunIp.value !in m.director.routes
  }

  /** A new route is answered at once with a burst of keepalives to the peer it came from. */
  function HandleKeepalive(m: Manager, k: Keepalive, source: SocketAddr, now: nat): Outcome {
    var m' := m.(peers := AddPeer(m.peers, k.peerId, source, now));
    if BringsRoute(m, k) then
      Outcome(m'.(director := Layer3(m.director.routes[k.tunIp.value := k.peerId])),
              Copies(Connections(m'.peers, k.peerId), OwnKeepalive(m)), [])
    else Outcome(m', multiset{}, [])
  }

  function HandleLocal(h: Headers, m: Manager, frame: Bytes, order: seq<PeerId>): Outcome {
    var targets := Destinations(h, m, frame, order);
    Outcome(m.(peers := CountSends(m.peers, targets)), Fanout(m.peers, targets, DataFor(m, frame)), [])
  }

  function TickState(peers: Peers, now: nat): Peers {
    map p | p in peers :: peers[p].(sequencer := Seq.Apply(peers[p].sequencer, Seq.Tick(now)).state)
  }

  function TickOutput(peers: Peers, order: seq<PeerId>, now: nat): seq<Packet> {
    if order == [] then []
    else (if order[0] in peers then Seq.Apply(peers[order[0]].sequencer, Seq.Tick(now)).out else [])
         + TickOutput(peers, order[1..], now)
  }

  /** The reaction of a node to one event. */
  function Step(h: Headers, m: Manager, e: Event): Outcome {
    match e.input
    case Udp(None, _) => Outcome(m, multiset{}, [])
    case Udp(Some(Data(p)), _) => HandlePacket(h, m, p, e.now)
    case Udp(Some(Alive(k)), source) => HandleKeepalive(m, k, source, e.now)
    case Local(frame, order) => HandleLocal(h, m, frame, order)
    case SequencerTick(order) =>
      Outcome(m.(peers := TickState(m.peers, e.now)), multiset{}, TickOutput(m.peers, order, e.now))
    case MaintenanceTick => Outcome(m.(peers := Prune(m.peers, e.now)), multiset{}, [])
    case KeepaliveTick(order) => Outcome(m, Fanout(m.peers, order, (p: PeerId) => OwnKeepalive(m)), [])
  }

  /** The iteration orders in an event fit the state it happens in. */
  ghost predicate Fits(m: Manager, e: Event) {
    match e.input
    case Udp(_, _) => true
    case Local(_, order) => IsOrder(order, m.peers.Keys)
    case SequencerTick(order) => IsOrder(order, m.peers.Keys)
    case MaintenanceTick => true
    case KeepaliveTick(order) => IsOrder(order, m.peers.Keys)
  }

  function Run(h: Headers, m: Manager, es: seq<Event>): Outcome
    decreases es
  {
    if es == [] then Outcome(m, multiset{}, [])
    else
      var first := Step(h, m, es[0]);
      var rest := Run(h, first.state, es[1..]);
      Outcome(rest.state, first.sent + rest.sent, first.delivered + rest.delivered)
  }

  /** Events fit the states they happen in, and the clock starts at `t` and never goes back. */
  ghost predicate IsRun(h: Headers, m: Manager, t: nat, es: seq<Event>)
    decreases es
  {
    es == [] || (t <= es[0].now && Fits(m, es[0]) && IsRun(h, Step(h, m, es[0]).state, es[0].now, es[1..]))
  }

  /** A node as it starts: a seeded peer list and an empty director, layer 3 exactly if it has a tunnel address. */
  function Start(id: PeerId, tunIp: Option<Ipv4Addr>, configs: seq<PeerConfig>, now: nat): Manager {
    Manager(id, tunIp, Seed(configs, now), if tunIp.Some? then Layer3(map[]) else Layer2(map[]))
  }

  // ---------- invariant ----------

  /** A peer's sequencer between events: valid, nothing deliverable, and only that peer's packets. */
  ghost predicate PeerOk(id: PeerId, s: Seq.State) {
    && Seq.Valid(s) && Seq.Quiescent(s) && s.deadline == DEADLINE
    && (forall k :: k in s.queue ==> s.queue[k].peerId == id)
  }

  ghost predicate PeersOk(peers: Peers) {
    forall p :: p in peers ==> PeerOk(p, peers[p].sequencer)
  }

  /** Every table entry names a known peer. */
  ghost predicate NoDangling(m: Manager) {
    match m.director
    case Layer2(table) => forall mac :: mac in table ==> table[mac] in m.peers
    case Layer3(routes) => forall ip :: ip in routes ==> routes[ip] in m.peers
  }

  ghost predicate WellFormed(m: Manager) {
    PeersOk(m.peers) && NoDangling(m)
  }

  /** No time stamp lies in the future. */
  ghost predicate Past(m: Manager, t: nat) {
    forall p :: p in m.peers ==>
      && m.peers[p].sequencer.lastUpdate <= t
      && (forall a :: a in m.peers[p].connections ==> m.peers[p].connections[a] <= t)
  }

  /** One of the unwraps in the handlers fails: an unknown destination, or a time stamp in the future. */
  ghost predicate Panics(h: Headers, m: Manager, e: Event) {
    match e.input
    case Udp(_, _) => false
    case Local(frame, order) => exists p :: p in Destinations(h, m, frame, order) && p !in m.peers
    case SequencerTick(_) => exists p :: p in m.peers && e.now < m.peers[p].sequencer.lastUpdate
    case MaintenanceTick =>
      exists p, a :: p in m.peers && a in m.peers[p].connections && e.now < m.peers[p].connections[a]
    case KeepaliveTick(_) => false
  }
}
