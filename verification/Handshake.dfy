/** The keepalive exchange: what one keepalive achieves, and why keepalives that trigger keepalives die out. */
module Handshake {
  import opened Messages
  import opened ManagerSpec
  import Seq = SequencerSpec
  import opened ManagerRuns
  import opened System
  import opened SystemSafety

  // ---------- the keepalive handshake terminates ----------

  /** An action that makes a node send although it is neither a local frame nor the keepalive timer. */
  ghost predicate Bursts(h: Headers, s: State, act: Action)
    requires act.node in s.nodes
  {
    && !act.event.input.Local? && !act.event.input.KeepaliveTick?
    && Step(h, s.nodes[act.node], act.event).sent != multiset{}
  }

  ghost function BurstCount(t: Topology, h: Headers, s: State, acts: seq<Action>): nat
    requires IsExecution(t, h, s, acts)
    decreases acts
  {
    if acts == [] then 0
    else (if Bursts(h, s, acts[0]) then 1 else 0) + BurstCount(t, h, Perform(h, s, acts[0]), acts[1..])
  }

  /** A keepalive with a tunnel address the receiver has no route for. */
  predicate IsNews(m: Manager, e: Event) {
    e.input.Udp? && e.input.decoded.Some? && e.input.decoded.value.Alive? && BringsRoute(m, e.input.decoded.value.keepalive)
  }

  /**
   * Apart from local frames and the keepalive timer, an event makes a node send if and only if it brings a route, and then
   * one own keepalive to each address of its sender.
   */
  lemma AnsweredExactly(h: Headers, m: Manager, e: Event)
    requires !e.input.Local? && !e.input.KeepaliveTick?
    ensures Step(h, m, e).sent != multiset{} <==> IsNews(m, e)
    ensures IsNews(m, e) ==>
              Step(h, m, e).sent
              == Copies(Connections(Step(h, m, e).state.peers, e.input.decoded.value.keepalive.peerId), OwnKeepalive(m))
  {
    hide Seq.Apply, LearnAll;
    if IsNews(m, e) {
      var k := e.input.decoded.value.keepalive;
      assert e.input.source in Connections(AddPeer(m.peers, k.peerId, e.input.source, e.now), k.peerId);
      assert Outgoing(e.input.source, OwnKeepalive(m)) in Step(h, m, e).sent;
    }
  }

  type RouteMap = map<Ipv4Addr, PeerId>

  ghost function WithRoute(routes: RouteMap, ip: Ipv4Addr, p: PeerId): RouteMap {
    routes[ip := p]
  }

  ghost function Routes(m: Manager): RouteMap {
    if m.director.Layer3? then m.director.routes else map[]
  }

  ghost function Pairs(table: map<PeerId, RouteMap>): set<(PeerId, Ipv4Addr)> {
    set n, ip | n in table && ip in table[n] :: (n, ip)
  }

  lemma PairsGrow(table: map<PeerId, RouteMap>, n: PeerId, ip: Ipv4Addr, p: PeerId)
    requires n in table && ip !in table[n]
    ensures |Pairs(table[n := WithRoute(table[n], ip, p)])| == |Pairs(table)| + 1
  {
    assert Pairs(table[n := WithRoute(table[n], ip, p)]) == Pairs(table) + {(n, ip)};
  }

  /** The routes of every node. */
  ghost function RouteTable(s: State): map<PeerId, RouteMap> {
    map n | n in s.nodes :: Routes(s.nodes[n])
  }

  ghost function RoutePairs(s: State): set<(PeerId, Ipv4Addr)> {
    Pairs(RouteTable(s))
  }

  ghost function TunIps(t: Topology): set<Ipv4Addr> {
    set n | n in t.tunIp && t.tunIp[n].Some? :: t.tunIp[n].value
  }

  /** News enters one new route at the node it reaches; no other event changes the routes. */
  lemma StepRoutes(h: Headers, m: Manager, e: Event)
    ensures Routes(Step(h, m, e).state)
            == if IsNews(m, e)
               then WithRoute(Routes(m), e.input.decoded.value.keepalive.tunIp.value, e.input.decoded.value.keepalive.peerId)
               else Routes(m)
    ensures IsNews(m, e) ==> e.input.decoded.value.keepalive.tunIp.value !in Routes(m)
  {
    hide Seq.Apply, Fanout, Copies, TickOutput, Destinations, LearnTable, AddPeer, Prune, TickState, CountSends;
    match e.input
    case Udp(Some(Alive(k)), source) =>
    case _ =>
  }

  lemma RouteTableStep(t: Topology, h: Headers, s: State, act: Action)
    requires Enabled(t, s, act)
    ensures RouteTable(Perform(h, s, act))
            == RouteTable(s)[act.node := Routes(Step(h, s.nodes[act.node], act.event).state)]
  {
    hide Step, Deliverable, Fits, Routes, Wires, Record;
  }

  /**
   * An action that makes a node send unasked goes with exactly one new route, of that node, to the sender of the keepalive
   * that arrived; no other action changes any route of any node.
   */
  lemma BurstPays(t: Topology, h: Headers, s: State, act: Action)
    requires Enabled(t, s, act)
    ensures var table, after := RouteTable(s), RouteTable(Perform(h, s, act));
            if Bursts(h, s, act) then
              exists k, source ::
                && act.event.input == Udp(Some(Alive(k)), source) && k.tunIp.Some?
                && k.tunIp.value !in table[act.node]
                && after == table[act.node := WithRoute(table[act.node], k.tunIp.value, k.peerId)]
            else after == table
    ensures |RoutePairs(Perform(h, s, act))| == |RoutePairs(s)| + if Bursts(h, s, act) then 1 else 0
  {
    var n, m, input := act.node, s.nodes[act.node], act.event.input;
    hide Perform, Step, Deliverable, Fits, Routes, Pairs;
    RouteTableStep(t, h, s, act);
    StepRoutes(h, m, act.event);
    if !input.Local? && !input.KeepaliveTick? {
      AnsweredExactly(h, m, act.event);
    }
    if Bursts(h, s, act) {
      var k := input.decoded.value.keepalive;
      assert input == Udp(Some(Alive(k)), input.source);
      PairsGrow(RouteTable(s), n, k.tunIp.value, k.peerId);
    } else {
      assert RouteTable(s)[n := Routes(m)] == RouteTable(s);
    }
  }

  lemma {:induction false} BurstsPay(t: Topology, h: Headers, s: State, acts: seq<Action>)
    requires IsExecution(t, h, s, acts)
    ensures |RoutePairs(Exec(t, h, s, acts))| == |RoutePairs(s)| + BurstCount(t, h, s, acts)
    decreases acts
  {
    if acts != [] {
      hide RoutePairs, Bursts;
      BurstPays(t, h, s, acts[0]);
      BurstsPay(t, h, Perform(h, s, acts[0]), acts[1..]);
    }
  }

  function Product(xs: set<PeerId>, ys: set<Ipv4Addr>): set<(PeerId, Ipv4Addr)> {
    set x, y | x in xs && y in ys :: (x, y)
  }

  lemma {:induction false} ProductSize(xs: set<PeerId>, ys: set<Ipv4Addr>)
    ensures |Product(xs, ys)| == |xs| * |ys|
    decreases xs
  {
    if xs == {} {
      assert Product(xs, ys) == {};
    } else {
      var x :| x in xs;
      ProductSize(xs - {x}, ys);
      RowSize(x, ys);
      ProductSplit(xs, ys, x);
      assert |xs| * |ys| == |xs - {x}| * |ys| + |ys| by { assert |xs| == |xs - {x}| + 1; }
    }
  }

  lemma ProductSplit(xs: set<PeerId>, ys: set<Ipv4Addr>, x: PeerId)
    requires x in xs
    ensures |Product(xs, ys)| == |Product(xs - {x}, ys)| + |set y | y in ys :: (x, y)|
  {
    assert Product(xs, ys) == Product(xs - {x}, ys) + set y | y in ys :: (x, y);
  }

  lemma {:induction false} RowSize(x: PeerId, ys: set<Ipv4Addr>)
    ensures |set y | y in ys :: (x, y)| == |ys|
    decreases ys
  {
    if ys != {} {
      var y :| y in ys;
      RowSize(x, ys - {y});
      assert (set z | z in ys :: (x, z)) == (set z | z in ys - {y} :: (x, z)) + {(x, y)};
    }
  }

  lemma {:induction false} SubsetSize(a: set<(PeerId, Ipv4Addr)>, b: set<(PeerId, Ipv4Addr)>)
    requires a <= b
    ensures |a| <= |b|
  {
    assert b == a + (b - a);
  }

  lemma RoutesBounded(t: Topology, s: State)
    requires Inv(t, s)
    ensures RoutePairs(s) <= Product(t.tunIp.Keys, TunIps(t))
  {
    forall n, ip | n in s.nodes && ip in Routes(s.nodes[n])
      ensures ip in TunIps(t)
    {
      assert NodeInv(t, s, n);
      var d := s.nodes[n].director;
      assert t.tunIp[d.routes[ip]] == Some(ip);
    }
  }

  /**
   * The exchange of keepalives that trigger keepalives dies out: over a whole execution, however long, the number of
   * actions, other than local frames and keepalive timers, that make a node send anything at all is the number of routes
   * learned, at most one for each node and distinct tunnel address.
   */
  lemma HandshakeTerminates(t: Topology, h: Headers, s: State, acts: seq<Action>)
    requires Init(t, s) && IsExecution(t, h, s, acts)
    ensures BurstCount(t, h, s, acts) == |RoutePairs(Exec(t, h, s, acts))| <= |t.tunIp| * |TunIps(t)|
  {
    assert RoutePairs(s) == {};
    Reachable(t, h, s, acts);
    hide Init, Inv, IsExecution, Exec, BurstCount, RoutePairs, Product, TunIps;
    BurstsPay(t, h, s, acts);
    RoutesBounded(t, Exec(t, h, s, acts));
    ProductSize(t.tunIp.Keys, TunIps(t));
    SubsetSize(RoutePairs(Exec(t, h, s, acts)), Product(t.tunIp.Keys, TunIps(t)));
  }

  // ---------- what a keepalive achieves ----------

  ghost function Ids(ids: seq<PeerId>): set<PeerId> {
    set p | p in ids
  }

  /** The peers in `ids` that list an address. */
  ghost function Listers(peers: Peers, ids: set<PeerId>, address: SocketAddr): set<PeerId> {
    set p | p in ids && p in peers && address in peers[p].connections
  }

  lemma {:induction false} FanoutListers(peers: Peers, ids: seq<PeerId>, f: PeerId -> Message, message: Message, o: Outgoing)
    requires forall i, j :: 0 <= i < j < |ids| ==> ids[i] != ids[j]
    requires forall p :: f(p) == message
    ensures Fanout(peers, ids, f)[o] == if o.message == message then |Listers(peers, Ids(ids), o.destination)| else 0
    decreases ids
  {
    hide Copies, Connections, Listers;
    if ids == [] {
      assert Ids(ids) == {};
      NoListers(peers, o.destination);
    } else {
      FanoutListers(peers, ids[1..], f, message, o);
      CopyCount(Connections(peers, ids[0]), message, o);
      assert Ids(ids) == Ids(ids[1..]) + {ids[0]};
      ListersGrow(peers, Ids(ids[1..]), ids[0], o.destination);
    }
  }

  lemma CopyCount(addresses: set<SocketAddr>, message: Message, o: Outgoing)
    ensures Copies(addresses, message)[o] == if o.message == message && o.destination in addresses then 1 else 0
  {
  }

  lemma NoListers(peers: Peers, address: SocketAddr)
    ensures Listers(peers, {}, address) == {}
  {
  }

  lemma ListersGrow(peers: Peers, ids: set<PeerId>, id: PeerId, address: SocketAddr)
    requires id !in ids
    ensures |Listers(peers, ids + {id}, address)|
            == |Listers(peers, ids, address)| + if address in Connections(peers, id) then 1 else 0
  {
    var before, after := Listers(peers, ids, address), Listers(peers, ids + {id}, address);
    assert after == if address in Connections(peers, id) then before + {id} else before;
  }

  /**
   * The keepalive tick sends the own keepalive to an address as often as there are peers that list the address, and sends
   * nothing else.
   */
  lemma KeepalivesReachAll(h: Headers, m: Manager, e: Event, o: Outgoing)
    requires e.input.KeepaliveTick? && Fits(m, e)
    ensures Step(h, m, e).sent[o]
            == if o.message == Alive(Keepalive(m.ownId, m.ownTunIp)) then |Listers(m.peers, m.peers.Keys, o.destination)| else 0
  {
    hide Fanout, Listers;
    FanoutListers(m.peers, e.input.order, (p: PeerId) => OwnKeepalive(m), OwnKeepalive(m), o);
    assert Ids(e.input.order) == m.peers.Keys;
  }

  /** In every reachable state that is exactly once for every known address, since nobody else lists it. */
  lemma KeepaliveCopies(t: Topology, h: Headers, s: State, a: Action, o: Outgoing)
    requires Inv(t, s) && Enabled(t, s, a) && a.event.input.KeepaliveTick?
    ensures a.node in t.tunIp
    ensures var known := s.nodes[a.node].peers;
            Step(h, s.nodes[a.node], a.event).sent[o]
            == if && o.message == Alive(Keepalive(a.node, t.tunIp[a.node]))
                  && exists p :: p in known && o.destination in known[p].connections then 1 else 0
  {
    var m := s.nodes[a.node];
    assert NodeInv(t, s, a.node);
    hide Inv, NodeInv, Deliverable, Good, LinksOk, CountersOk, RoutesOk, Step, TopologyOk, Owned, Fits;
    KeepalivesReachAll(h, m, a.event, o);
    OneLister(t, m.peers, o.destination);
  }

  lemma OneLister(t: Topology, peers: Peers, address: SocketAddr)
    requires Owned(t, peers)
    ensures |Listers(peers, peers.Keys, address)|
            == if exists p :: p in peers && address in peers[p].connections then 1 else 0
  {
    var all := Listers(peers, peers.Keys, address);
    if p :| p in peers && address in peers[p].connections {
      assert p in all;
      forall q | q in all
        ensures q == p
      {
        assert t.owner[address] == q;
      }
      assert all == {p};
    } else {
      assert all == {};
    }
  }

  lemma IntroducesAt(h: Headers, m: Manager, e: Event, k: Keepalive, source: SocketAddr)
    requires e.input == Udp(Some(Alive(k)), source)
    ensures var m' := Step(h, m, e).state;
            && source in Connections(m'.peers, k.peerId)
            && m'.director.Layer3? == m.director.Layer3?
            && (m'.director.Layer3? && k.tunIp.Some? ==> k.tunIp.value in m'.director.routes)
            && (BringsRoute(m, k) ==> Outgoing(source, OwnKeepalive(m)) in Step(h, m, e).sent)
  {
  }

  lemma AliveIsGenuine(t: Topology, s: State, act: Action, k: Keepalive, source: SocketAddr)
    requires Inv(t, s) && Enabled(t, s, act) && act.event.input == Udp(Some(Alive(k)), source)
    ensures source in t.owner && t.owner[source] == k.peerId && k.peerId in t.tunIp && k.tunIp == t.tunIp[k.peerId]
  {
    hide Inv, Enabled, OnStream;
    NetworkIsGenuine(t, s, act);
  }

  /** After a keepalive its sender is known at the source address, and on layer 3 its tunnel address is routed to it. */
  lemma KeepaliveIntroduces(t: Topology, h: Headers, s: State, act: Action, k: Keepalive, source: SocketAddr)
    requires Inv(t, s) && Enabled(t, s, act) && act.event.input == Udp(Some(Alive(k)), source)
    ensures act.node in Perform(h, s, act).nodes
    ensures var m := Perform(h, s, act).nodes[act.node];
            && source in Connections(m.peers, k.peerId) && t.owner[source] == k.peerId
            && (m.director.Layer3? && k.tunIp.Some? ==>
                  k.tunIp.value in m.director.routes && m.director.routes[k.tunIp.value] == k.peerId)
  {
    hide Step, Perform, Inv, Fits, Deliverable, Owned, Connections, NodeInv, WiresOk, TopologyOk;
    AliveIsGenuine(t, s, act, k, source);
    InvStep(t, h, s, act);
    PerformNode(t, h, s, act, act.node);
    TablesOk(t, Perform(h, s, act), act.node);
    IntroducesAt(h, s.nodes[act.node], act.event, k, source);
  }

  /**
   * A keepalive that brings a new route is answered: a keepalive of the receiver is on its way to the very address it
   * came from, and the sender can receive it from any address of the receiver.
   */
  lemma NewRouteIsAnswered(t: Topology, h: Headers, s: State, act: Action, k: Keepalive,
                           source: SocketAddr, mine: SocketAddr)
    requires Inv(t, s) && Enabled(t, s, act) && act.event.input == Udp(Some(Alive(k)), source)
    requires BringsRoute(s.nodes[act.node], k) && mine in t.owner && t.owner[mine] == act.node
    ensures Deliverable(t, Perform(h, s, act), k.peerId, mine, Alive(Keepalive(act.node, t.tunIp[act.node])))
  {
    var n, m := act.node, s.nodes[act.node];
    AliveIsGenuine(t, s, act, k, source);
    assert NodeInv(t, s, n);
    hide Step, Inv, NodeInv, Fits, Good, LinksOk, BringsRoute, Connections, Owned, RoutesOk, CountersOk, Record, WiresOk;
    IntroducesAt(h, m, act.event, k, source);
    assert Wire(n, source, OwnKeepalive(m)) in Perform(h, s, act).net;
  }

  // ---------- the handshake completes ----------

  /** Node `n` routes the tunnel address of `x` to `x`. */
  ghost predicate RoutesTo(t: Topology, s: State, n: PeerId, x: PeerId) {
    && n in s.nodes && x in t.tunIp && t.tunIp[x].Some?
    && t.tunIp[x].value in Routes(s.nodes[n]) && Routes(s.nodes[n])[t.tunIp[x].value] == x
  }

  /** Moreover it knows an address of `x`. */
  ghost predicate Reaches(t: Topology, s: State, n: PeerId, x: PeerId) {
    RoutesTo(t, s, n, x) && Connections(s.nodes[n].peers, x) != {}
  }

  lemma LayerOf(t: Topology, s: State, n: PeerId)
    requires Inv(t, s) && n in s.nodes
    ensures n in t.tunIp && (s.nodes[n].director.Layer3? <==> t.tunIp[n].Some?)
  {
    assert NodeInv(t, s, n);
    hide LinksOk, CountersOk, Good, Owned, RoutesOk;
  }

  /** On layer 3 a keepalive makes its receiver reach its sender. */
  lemma KeepaliveReaches(t: Topology, h: Headers, s: State, act: Action, k: Keepalive, source: SocketAddr)
    requires Inv(t, s) && Enabled(t, s, act) && act.event.input == Udp(Some(Alive(k)), source)
    requires t.tunIp[act.node].Some? && k.tunIp.Some?
    ensures Inv(t, Perform(h, s, act)) && Reaches(t, Perform(h, s, act), act.node, k.peerId)
  {
    hide Inv, Perform, Fits, Deliverable, Connections;
    AliveIsGenuine(t, s, act, k, source);
    InvStep(t, h, s, act);
    KeepaliveIntroduces(t, h, s, act, k, source);
    LayerOf(t, Perform(h, s, act), act.node);
  }

  /** The answer to `act`, handed to the sender of the keepalive at time `now` from address `mine` of the receiver. */
  ghost function Answer(t: Topology, act: Action, sender: PeerId, mine: SocketAddr, now: nat): Action
    requires act.node in t.tunIp
  {
    Action(sender, Event(now, Udp(Some(Alive(Keepalive(act.node, t.tunIp[act.node]))), mine)))
  }

  /** What was sent can still be delivered at the end of any execution. */
  lemma {:induction false} StaysDeliverable(t: Topology, h: Headers, s: State, acts: seq<Action>,
                                            n: PeerId, source: SocketAddr, message: Message)
    requires IsExecution(t, h, s, acts) && Deliverable(t, s, n, source, message)
    ensures Deliverable(t, Exec(t, h, s, acts), n, source, message)
    decreases acts
  {
    hide Step, Record, Wires, Fits;
    if acts != [] {
      StaysDeliverable(t, h, Perform(h, s, acts[0]), acts[1..], n, source, message);
    }
  }

  /** Only maintenance can end reachability, and nothing can end a route. */
  lemma StillReaches(t: Topology, h: Headers, s: State, act: Action, n: PeerId, x: PeerId)
    requires Enabled(t, s, act)
    ensures RoutesTo(t, s, n, x) ==> RoutesTo(t, Perform(h, s, act), n, x)
    ensures Reaches(t, s, n, x) && !(act.node == n && act.event.input.MaintenanceTick?) ==> Reaches(t, Perform(h, s, act), n, x)
  {
    hide Perform, Step, Fits, Deliverable, Connections, Routes;
    if RoutesTo(t, s, n, x) {
      PerformNode(t, h, s, act, n);
      if act.node == n {
        StepRoutes(h, s.nodes[n], act.event);
        if !act.event.input.MaintenanceTick? {
          AddressesStay(h, s.nodes[n], act.event, x);
        }
      }
    }
  }

  ghost predicate NeverMaintained(acts: seq<Action>, n: PeerId) {
    forall act :: act in acts ==> !(act.node == n && act.event.input.MaintenanceTick?)
  }

  /** Routes are for ever, and without maintenance so is reachability. */
  lemma {:induction false} RoutesPersist(t: Topology, h: Headers, s: State, acts: seq<Action>, n: PeerId, x: PeerId)
    requires IsExecution(t, h, s, acts)
    ensures RoutesTo(t, s, n, x) ==> RoutesTo(t, Exec(t, h, s, acts), n, x)
    ensures Reaches(t, s, n, x) && NeverMaintained(acts, n) ==> Reaches(t, Exec(t, h, s, acts), n, x)
    decreases acts
  {
    hide Perform, RoutesTo, Reaches;
    if acts != [] {
      StillReaches(t, h, s, acts[0], n, x);
      RoutesPersist(t, h, Perform(h, s, acts[0]), acts[1..], n, x);
    }
  }

  lemma AnswerEnabled(t: Topology, s: State, act: Action, x: PeerId, mine: SocketAddr, now: nat)
    requires SameNodes(t, s) && x in s.clocks && s.clocks[x] <= now && act.node in t.tunIp
    requires Deliverable(t, s, x, mine, Alive(Keepalive(act.node, t.tunIp[act.node])))
    ensures Enabled(t, s, Answer(t, act, x, mine, now))
  {
    hide Deliverable;
  }

  /**
   * One delivered keepalive each way is enough: when a keepalive brings a new route, its answer can be delivered to the
   * sender, from any address of the receiver, after whatever else happens in between; and once it is, the sender
   * reaches the receiver, the receiver routes to the sender, and unless it dropped stale addresses meanwhile reaches it.
   */
  lemma HandshakeCompletes(t: Topology, h: Headers, s: State, act: Action, k: Keepalive, source: SocketAddr,
                           acts: seq<Action>, mine: SocketAddr, now: nat)
    requires Inv(t, s) && Enabled(t, s, act) && act.event.input == Udp(Some(Alive(k)), source)
    requires BringsRoute(s.nodes[act.node], k) && mine in t.owner && t.owner[mine] == act.node
    requires IsExecution(t, h, Perform(h, s, act), acts)
    requires var end := Exec(t, h, Perform(h, s, act), acts); k.peerId in end.clocks && end.clocks[k.peerId] <= now
    ensures act.node in t.tunIp
    ensures var end, answer := Exec(t, h, Perform(h, s, act), acts), Answer(t, act, k.peerId, mine, now);
            && Enabled(t, end, answer)
            && Reaches(t, Perform(h, end, answer), k.peerId, act.node)
            && RoutesTo(t, Perform(h, end, answer), act.node, k.peerId)
            && (NeverMaintained(acts, act.node) ==> Reaches(t, Perform(h, end, answer), act.node, k.peerId))
  {
    hide Perform, Exec, IsExecution, Fits, Deliverable, NeverMaintained, TopologyOk, WiresOk, NodeInv;
    LayerOf(t, s, act.node);
    AliveIsGenuine(t, s, act, k, source);
    NewRouteIsAnswered(t, h, s, act, k, source, mine);
    KeepaliveReaches(t, h, s, act, k, source);
    hide RoutesTo;
    var mid := Perform(h, s, act);
    var end, answer := Exec(t, h, mid, acts), Answer(t, act, k.peerId, mine, now);
    StaysDeliverable(t, h, mid, acts, k.peerId, mine, Alive(Keepalive(act.node, t.tunIp[act.node])));
    ExecOk(t, h, mid, acts);
    RoutesPersist(t, h, mid, acts, act.node, k.peerId);
    AnswerEnabled(t, end, act, k.peerId, mine, now);
    KeepaliveReaches(t, h, end, answer, Keepalive(act.node, t.tunIp[act.node]), mine);
    StillReaches(t, h, end, answer, act.node, k.peerId);
  }

  lemma AddressesStay(h: Headers, m: Manager, e: Event, x: PeerId)
    requires !e.input.MaintenanceTick?
    ensures Connections(m.peers, x) <= Connections(Step(h, m, e).state.peers, x)
  {
    hide Seq.Apply, Fanout, Copies, TickOutput, Destinations, LearnAll;
    match e.input
    case Udp(Some(Alive(k)), source) =>
    case _ =>
  }

  lemma RouteIsDestination(h: Headers, m: Manager, e: Event, x: PeerId, ip: Ipv4Addr)
    requires e.input.Local? && h.ipDst(e.input.frame) == Some(ip) && ip in Routes(m) && Routes(m)[ip] == x
    ensures x in Destinations(h, m, e.input.frame, e.input.order)
  {
  }

  lemma AddressIsOwned(t: Topology, s: State, n: PeerId, x: PeerId, address: SocketAddr)
    requires Inv(t, s) && n in s.nodes && address in Connections(s.nodes[n].peers, x)
    ensures address in t.owner && t.owner[address] == x
  {
    hide Inv, TopologyOk, RoutesOk, NoDangling;
    NodeFacts(t, s, n);
  }

  /** What reachability is for: a local frame to the tunnel address of `x` goes, once, to every known address of `x`. */
  lemma ReachableFrameIsSent(t: Topology, h: Headers, s: State, act: Action, x: PeerId, address: SocketAddr)
    requires Inv(t, s) && Enabled(t, s, act) && act.event.input.Local? && Reaches(t, s, act.node, x)
    requires h.ipDst(act.event.input.frame) == t.tunIp[x] && address in Connections(s.nodes[act.node].peers, x)
    ensures var n, frame := act.node, act.event.input.frame;
            && Step(h, s.nodes[n], act.event).sent[Outgoing(address, Data(Packet(|Stream(s.streams, n, x)|, n, frame)))] == 1
            && Stream(Perform(h, s, act).streams, n, x) == Stream(s.streams, n, x) + [frame]
  {
    var n, frame := act.node, act.event.input.frame;
    var o := Outgoing(address, Data(Packet(|Stream(s.streams, n, x)|, n, frame)));
    hide Inv, Perform, Fits, Deliverable, Step, Destinations, Stream, Connections, Routes;
    RouteIsDestination(h, s.nodes[n], act.event, x, t.tunIp[x].value);
    AddressIsOwned(t, s, n, x, address);
    assert IsFrameCopy(t, s, n, frame, x, o);
    hide IsFrameCopy;
    FrameCopies(t, h, s, act, o);
    PerformStream(t, h, s, act, n, x);
  }
}
