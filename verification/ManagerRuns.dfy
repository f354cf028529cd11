/**
 * What one node guarantees over whole runs: no unwrap fails, nothing deliverable is left behind, and every
 * peer's stream behaves like a sequencer of its own.
 */
module ManagerRuns {
  import opened Messages
  import opened ManagerSpec
  import Seq = SequencerSpec
  import SequencerRuns

  // ---------- one sequencer inside the peer list ----------

  /** An event of peer `id` keeps its sequencer in order and delivers only packets of `id`. */
  lemma PeerApply(id: PeerId, s: Seq.State, e: Seq.Event)
    requires PeerOk(id, s)
    requires e.Arrival? ==> e.packet.peerId == id
    ensures PeerOk(id, Seq.Apply(s, e).state)
    ensures forall p :: p in Seq.Apply(s, e).out ==> p.peerId == id
    ensures var x := Seq.Apply(s, e).state; x.lastUpdate == s.lastUpdate || x.lastUpdate == e.now
  {
    var before := if e.Arrival? then Seq.Insert(s, e.packet) else Seq.Advance(s);
    Seq.DrainFacts(before, e.now);
    hide Seq.Slice, Seq.From, Seq.Mex;
  }

  // ---------- the invariant ----------

  lemma {:induction false} LearnTableValues(h: Headers, table: map<Mac, PeerId>, ps: seq<Packet>, known: set<PeerId>)
    requires forall mac :: mac in table ==> table[mac] in known
    requires forall p :: p in ps ==> p.peerId in known
    ensures forall mac :: mac in LearnTable(h, table, ps) ==> LearnTable(h, table, ps)[mac] in known
    decreases ps
  {
    if ps != [] {
      LearnTableValues(h, Learn(h, table, ps[0].peerId, ps[0].bytes), ps[1..], known);
    }
  }

  /** Between events every node has valid, idle, unmixed queues, no dangling table entry and no future time stamp. */
  ghost predicate Good(m: Manager, t: nat) {
    WellFormed(m) && Past(m, t)
  }

  /** A sequencer as it starts: nothing pending, waiting for number 0, its deadline of 3 ms counted from now. */
  ghost predicate Unused(s: Seq.State, now: nat) {
    s.queue == map[] && s.next == 0 && s.deadline == 3_000_000 && s.lastUpdate == now
  }

  /** A peer as it starts: counter 0, an unused sequencer, and every address seen just now. */
  ghost predicate JustSeeded(p: Peer, now: nat) {
    && p.txCounter == 0 && Unused(p.sequencer, now)
    && (forall a :: a in p.connections ==> p.connections[a] == now)
  }

  lemma {:induction false} SeedIsFresh(configs: seq<PeerConfig>, now: nat)
    ensures forall p :: p in Seed(configs, now) ==> JustSeeded(Seed(configs, now)[p], now)
    decreases configs
  {
    if configs != [] {
      SeedIsFresh(configs[..|configs| - 1], now);
    }
  }

  /** A node starts in order, whatever it is configured with: every peer with counter 0 and an unused sequencer. */
  lemma StartIsGood(id: PeerId, tunIp: Option<Ipv4Addr>, configs: seq<PeerConfig>, now: nat)
    ensures Good(Start(id, tunIp, configs, now), now)
    ensures forall p :: p in Start(id, tunIp, configs, now).peers ==>
              JustSeeded(Start(id, tunIp, configs, now).peers[p], now)
  {
    SeedIsFresh(configs, now);
    hide Seed;
    forall p | p in Seed(configs, now)
      ensures PeerOk(p, Seed(configs, now)[p].sequencer)
    {
      assert JustSeeded(Seed(configs, now)[p], now);
    }
  }

  lemma GoodParts(m: Manager, t: nat, now: nat)
    requires Good(m, t) && t <= now
    ensures NoDangling(m) && Past(m, now)
  {
  }

  lemma GoodPeer(m: Manager, t: nat, id: PeerId)
    requires Good(m, t) && id in m.peers
    ensures var s := m.peers[id].sequencer;
            Seq.Valid(s) && Seq.Quiescent(s) && s.deadline == 3_000_000 && s.lastUpdate <= t
  {
  }

  lemma PacketKeepsGood(h: Headers, m: Manager, p: Packet, t: nat, now: nat)
    requires Good(m, t) && t <= now
    ensures Good(HandlePacket(h, m, p, now).state, now)
    ensures HandlePacket(h, m, p, now).state.peers.Keys == m.peers.Keys
  {
    hide Seq.Apply;
    if p.peerId in m.peers {
      var s := m.peers[p.peerId].sequencer;
      PeerApply(p.peerId, s, Seq.Arrival(now, p));
      if m.director.Layer2? {
        LearnTableValues(h, m.director.macTable, Seq.Apply(s, Seq.Arrival(now, p)).out, m.peers.Keys);
      }
    }
  }

  lemma TickKeepsGood(m: Manager, t: nat, now: nat)
    requires Good(m, t) && t <= now
    ensures Good(m.(peers := TickState(m.peers, now)), now)
  {
    hide Seq.Apply;
    forall p | p in m.peers
      ensures PeerOk(p, TickState(m.peers, now)[p].sequencer)
      ensures TickState(m.peers, now)[p].sequencer.lastUpdate <= now
    {
      PeerApply(p, m.peers[p].sequencer, Seq.Tick(now));
    }
  }

  lemma KeepaliveKeepsGood(m: Manager, k: Keepalive, source: SocketAddr, t: nat, now: nat)
    requires Good(m, t) && t <= now
    ensures Good(HandleKeepalive(m, k, source, now).state, now)
    ensures m.peers.Keys <= HandleKeepalive(m, k, source, now).state.peers.Keys
  {
    hide Copies, Connections, PeerOk;
    NewPeerOk(k.peerId, now);
  }

  lemma NewPeerOk(id: PeerId, now: nat)
    ensures PeerOk(id, NewPeer(now).sequencer)
  {
  }

  lemma LocalKeepsGood(h: Headers, m: Manager, frame: Bytes, order: seq<PeerId>, t: nat, now: nat)
    requires Good(m, t) && t <= now && IsOrder(order, m.peers.Keys)
    ensures Good(HandleLocal(h, m, frame, order).state, now)
    ensures forall p :: p in Destinations(h, m, frame, order) ==> p in m.peers
  {
  }

  lemma PruneKeepsGood(m: Manager, t: nat, now: nat)
    requires Good(m, t) && t <= now
    ensures Good(m.(peers := Prune(m.peers, now)), now)
  {
  }

  /** Every event keeps a node in order, forgets no peer, and none of its unwraps fails. */
  lemma StepKeepsGood(h: Headers, m: Manager, t: nat, e: Event)
    requires Good(m, t) && t <= e.now && Fits(m, e)
    ensures Good(Step(h, m, e).state, e.now)
    ensures m.peers.Keys <= Step(h, m, e).state.peers.Keys
    ensures !Panics(h, m, e)
  {
    hide HandlePacket, HandleKeepalive, WellFormed, Destinations;
    match e.input
    case Udp(None, _) =>
    case Udp(Some(Data(p)), _) => PacketKeepsGood(h, m, p, t, e.now);
    case Udp(Some(Alive(k)), source) => KeepaliveKeepsGood(m, k, source, t, e.now);
    case Local(frame, order) => LocalKeepsGood(h, m, frame, order, t, e.now);
    case SequencerTick(order) => TickKeepsGood(m, t, e.now);
    case MaintenanceTick => PruneKeepsGood(m, t, e.now);
    case KeepaliveTick(order) =>
  }

  /** Everything a node goes through, at every point of every run. */
  lemma {:induction false} RunKeepsGood(h: Headers, m: Manager, t: nat, es: seq<Event>)
    requires Good(m, t) && IsRun(h, m, t, es)
    ensures WellFormed(Run(h, m, es).state)
    ensures m.peers.Keys <= Run(h, m, es).state.peers.Keys
    decreases es
  {
    if es != [] {
      StepKeepsGood(h, m, t, es[0]);
      RunKeepsGood(h, Step(h, m, es[0]).state, es[0].now, es[1..]);
    }
  }

  lemma {:induction false} RunPrefix(h: Headers, m: Manager, t: nat, es: seq<Event>, i: nat) returns (t': nat)
    requires Good(m, t) && IsRun(h, m, t, es) && i < |es|
    ensures var x := Run(h, m, es[..i]).state; Good(x, t') && t' <= es[i].now && Fits(x, es[i])
    decreases es
  {
    if i == 0 {
      t' := t;
    } else {
      StepKeepsGood(h, m, t, es[0]);
      t' := RunPrefix(h, Step(h, m, es[0]).state, es[0].now, es[1..], i - 1);
      assert es[..i][1..] == es[1..][..i - 1];
    }
  }

  /** No event of any run fails an unwrap. */
  lemma NoPanic(h: Headers, m: Manager, t: nat, es: seq<Event>, i: nat)
    requires Good(m, t) && IsRun(h, m, t, es) && i < |es|
    ensures !Panics(h, Run(h, m, es[..i]).state, es[i])
  {
    var t' := RunPrefix(h, m, t, es, i);
    StepKeepsGood(h, Run(h, m, es[..i]).state, t', es[i]);
  }

  /** Between events nothing is deliverable: every pending number is strictly above its peer's cursor. */
  lemma Quiescence(h: Headers, m: Manager, t: nat, es: seq<Event>, p: PeerId)
    requires Good(m, t) && IsRun(h, m, t, es) && p in Run(h, m, es).state.peers
    ensures var s := Run(h, m, es).state.peers[p].sequencer; forall k :: k in s.queue ==> s.next < k
  {
    hide Run, IsRun;
    RunKeepsGood(h, m, t, es);
  }

  // ---------- isolation ----------

  /** The packets of one peer, in order. */
  function FromPeer(ps: seq<Packet>, id: PeerId): seq<Packet> {
    if ps == [] then []
    else (if ps[0].peerId == id then [ps[0]] else []) + FromPeer(ps[1..], id)
  }

  lemma {:induction false} FromPeerConcat(a: seq<Packet>, b: seq<Packet>, id: PeerId)
    ensures FromPeer(a + b, id) == FromPeer(a, id) + FromPeer(b, id)
  {
    if a == [] {
      assert a + b == b;
    } else {
      var first := if a[0].peerId == id then [a[0]] else [];
      assert (a + b)[0] == a[0] && (a + b)[1..] == a[1..] + b;
      FromPeerConcat(a[1..], b, id);
      assert FromPeer(a + b, id) == first + FromPeer(a[1..] + b, id);
      assert first + (FromPeer(a[1..], id) + FromPeer(b, id)) == first + FromPeer(a[1..], id) + FromPeer(b, id);
    }
  }

  lemma {:induction false} FromPeerAll(ps: seq<Packet>, id: PeerId)
    requires forall p :: p in ps ==> p.peerId == id
    ensures FromPeer(ps, id) == ps
  {
    if ps != [] {
      FromPeerAll(ps[1..], id);
    }
  }

  lemma {:induction false} FromPeerNone(ps: seq<Packet>, id: PeerId)
    requires forall p :: p in ps ==> p.peerId != id
    ensures FromPeer(ps, id) == []
  {
    if ps != [] {
      FromPeerNone(ps[1..], id);
    }
  }

  lemma {:induction false} FromPeerCount(ps: seq<Packet>, q: Packet)
    ensures multiset(FromPeer(ps, q.peerId))[q] == multiset(ps)[q]
  {
    if ps != [] {
      FromPeerCount(ps[1..], q);
      assert ps == [ps[0]] + ps[1..];
    }
  }

  /** What an event means to the sequencer of one peer, if anything. */
  function Project(id: PeerId, e: Event): seq<Seq.Event> {
    match e.input
    case Udp(Some(Data(p)), _) => if p.peerId == id then [Seq.Arrival(e.now, p)] else []
    case SequencerTick(_) => [Seq.Tick(e.now)]
    case _ => []
  }

  function ProjectAll(id: PeerId, es: seq<Event>): seq<Seq.Event> {
    if es == [] then [] else Project(id, es[0]) + ProjectAll(id, es[1..])
  }

  /** Whatever the iteration order, a tick delivers for each peer exactly what that peer's sequencer releases. */
  lemma {:induction false} TickOutputOf(peers: Peers, order: seq<PeerId>, now: nat, id: PeerId)
    requires PeersOk(peers)
    requires forall i, j :: 0 <= i < j < |order| ==> order[i] != order[j]
    requires id in peers
    ensures FromPeer(TickOutput(peers, order, now), id)
            == if id in order then Seq.Apply(peers[id].sequencer, Seq.Tick(now)).out else []
    decreases order
  {
    hide Seq.Apply, FromPeer, PeerOk;
    if order == [] {
      FromPeerNone([], id);
    } else {
      var p := order[0];
      var out := if p in peers then Seq.Apply(peers[p].sequencer, Seq.Tick(now)).out else [];
      TickOutputOf(peers, order[1..], now, id);
      FromPeerConcat(out, TickOutput(peers, order[1..], now), id);
      if p in peers {
        PeerApply(p, peers[p].sequencer, Seq.Tick(now));
      }
      if p == id {
        FromPeerAll(out, id);
      } else {
        FromPeerNone(out, id);
      }
    }
  }

  lemma RunSingle(s: Seq.State, e: Seq.Event)
    ensures Seq.Run(s, [e]) == Seq.Apply(s, e)
  {
    hide Seq.Apply;
    assert [e][1..] == [];
    assert Seq.Run(Seq.Apply(s, e).state, []) == Seq.Result(Seq.Apply(s, e).state, []);
  }

  /** One event seen from one peer. */
  lemma StepProjects(h: Headers, m: Manager, e: Event, id: PeerId)
    requires WellFormed(m) && Fits(m, e) && id in m.peers
    ensures id in Step(h, m, e).state.peers
    ensures var r := Seq.Run(m.peers[id].sequencer, Project(id, e));
            && Step(h, m, e).state.peers[id].sequencer == r.state
            && FromPeer(Step(h, m, e).delivered, id) == r.out
  {
    hide Seq.Apply;
    var s := m.peers[id].sequencer;
    match e.input
    case Udp(Some(Data(p)), _) =>
      RunSingle(s, Seq.Arrival(e.now, p));
      if p.peerId in m.peers {
        var r := Seq.Apply(m.peers[p.peerId].sequencer, Seq.Arrival(e.now, p));
        PeerApply(p.peerId, m.peers[p.peerId].sequencer, Seq.Arrival(e.now, p));
        if p.peerId == id {
          FromPeerAll(r.out, id);
        } else {
          FromPeerNone(r.out, id);
        }
      }
    case SequencerTick(order) =>
      RunSingle(s, Seq.Tick(e.now));
      TickOutputOf(m.peers, order, e.now, id);
    case _ =>
  }

  /**
   * The run of a node, seen from one peer, is the run of a sequencer of its own, fed with that peer's packets
   * and the ticks and nothing else: same cursor, queue and time stamp, and its output is that peer's share of
   * the local output. No other peer and no iteration order has any influence.
   */
  lemma {:induction false} Isolation(h: Headers, m: Manager, t: nat, es: seq<Event>, id: PeerId)
    requires Good(m, t) && IsRun(h, m, t, es) && id in m.peers
    ensures id in Run(h, m, es).state.peers
    ensures var r := Seq.Run(m.peers[id].sequencer, ProjectAll(id, es));
            && Run(h, m, es).state.peers[id].sequencer == r.state
            && FromPeer(Run(h, m, es).delivered, id) == r.out
    decreases es
  {
    hide Seq.Apply;
    if es != [] {
      var first := Step(h, m, es[0]);
      var s := m.peers[id].sequencer;
      StepKeepsGood(h, m, t, es[0]);
      StepProjects(h, m, es[0], id);
      Isolation(h, first.state, es[0].now, es[1..], id);
      SequencerRuns.RunConcat(s, Project(id, es[0]), ProjectAll(id, es[1..]));
      FromPeerConcat(first.delivered, Run(h, first.state, es[1..]).delivered, id);
    }
  }

  lemma {:induction false} TickOutputKnown(peers: Peers, order: seq<PeerId>, now: nat)
    requires PeersOk(peers)
    ensures forall q :: q in TickOutput(peers, order, now) ==> q.peerId in peers
    decreases order
  {
    hide Seq.Apply;
    if order != [] {
      TickOutputKnown(peers, order[1..], now);
      if order[0] in peers {
        PeerApply(order[0], peers[order[0]].sequencer, Seq.Tick(now));
      }
    }
  }

  /** Only known peers' packets reach the local side. */
  lemma DeliveredKnown(h: Headers, m: Manager, e: Event)
    requires WellFormed(m)
    ensures forall q :: q in Step(h, m, e).delivered ==> q.peerId in m.peers
  {
    hide Seq.Apply, Fanout, Copies, LearnAll, Destinations;
    match e.input
    case Udp(Some(Data(p)), _) =>
      if p.peerId in m.peers {
        PeerApply(p.peerId, m.peers[p.peerId].sequencer, Seq.Arrival(e.now, p));
      }
    case SequencerTick(order) => TickOutputKnown(m.peers, order, e.now);
    case _ =>
  }

  lemma {:induction false} RunDeliversKnown(h: Headers, m: Manager, t: nat, es: seq<Event>)
    requires Good(m, t) && IsRun(h, m, t, es)
    ensures forall q :: q in Run(h, m, es).delivered ==> q.peerId in Run(h, m, es).state.peers
    decreases es
  {
    hide Step, WellFormed;
    if es != [] {
      var first := Step(h, m, es[0]);
      StepKeepsGood(h, m, t, es[0]);
      DeliveredKnown(h, m, es[0]);
      RunKeepsGood(h, first.state, es[0].now, es[1..]);
      RunDeliversKnown(h, first.state, es[0].now, es[1..]);
    }
  }

  /** The share of every peer, also of one that becomes known during the run, is in increasing order. */
  lemma {:induction false} ShareIsOrdered(h: Headers, m: Manager, t: nat, es: seq<Event>, id: PeerId)
    requires Good(m, t) && IsRun(h, m, t, es)
    ensures Seq.Increasing(FromPeer(Run(h, m, es).delivered, id))
    decreases es
  {
    hide Step, WellFormed, Seq.Run;
    if id in m.peers {
      Isolation(h, m, t, es, id);
      GoodPeer(m, t, id);
      SequencerRuns.RunOrderly(m.peers[id].sequencer, ProjectAll(id, es));
    } else if es != [] {
      var first := Step(h, m, es[0]);
      StepKeepsGood(h, m, t, es[0]);
      DeliveredKnown(h, m, es[0]);
      FromPeerNone(first.delivered, id);
      FromPeerConcat(first.delivered, Run(h, first.state, es[1..]).delivered, id);
      ShareIsOrdered(h, first.state, es[0].now, es[1..], id);
    }
  }

  lemma {:induction false} IncreasingOnce(ps: seq<Packet>, q: Packet)
    requires Seq.Increasing(ps)
    ensures multiset(ps)[q] <= 1
  {
    if ps != [] {
      assert ps == [ps[0]] + ps[1..];
      IncreasingOnce(ps[1..], q);
      if q == ps[0] {
        assert q !in ps[1..];
      }
    }
  }

  /**
   * The local output of a run is a merge of the shares and nothing else: every delivered packet belongs to a known peer,
   * occurs in that peer's share as often as in the whole, and occurs once.
   */
  lemma ShareIsComplete(h: Headers, m: Manager, t: nat, es: seq<Event>, q: Packet)
    requires Good(m, t) && IsRun(h, m, t, es)
    ensures var r := Run(h, m, es);
            && (q in r.delivered ==> q.peerId in r.state.peers)
            && multiset(FromPeer(r.delivered, q.peerId))[q] == multiset(r.delivered)[q] <= 1
  {
    hide Run, IsRun, Good;
    RunDeliversKnown(h, m, t, es);
    ShareIsOrdered(h, m, t, es, q.peerId);
    FromPeerCount(Run(h, m, es).delivered, q);
    IncreasingOnce(FromPeer(Run(h, m, es).delivered, q.peerId), q);
  }

  /** A peer that becomes known starts with an unused sequencer: cursor 0, nothing pending, the timer just started. */
  lemma NewPeerStartsFresh(h: Headers, m: Manager, e: Event, id: PeerId)
    requires id !in m.peers && id in Step(h, m, e).state.peers
    ensures Unused(Step(h, m, e).state.peers[id].sequencer, e.now)
    ensures Step(h, m, e).state.peers[id].txCounter == 0
    ensures exists k, source :: e.input == Udp(Some(Alive(k)), source) && k.peerId == id
  {
    match e.input
    case Udp(Some(Alive(k)), source) => assert k.peerId == id;
    case _ =>
  }

  // ---------- bounded waiting at a node ----------

  /** Sequencer ticks are at most `period` apart: no event lies more than that after the latest one (or the start). */
  predicate TicksEvery(period: nat, latest: nat, es: seq<Event>)
    decreases es
  {
    es == []
    || (&& es[0].now <= latest + period
        && TicksEvery(period, if es[0].input.SequencerTick? then es[0].now else latest, es[1..]))
  }

  /** The peer's share of the first `i` events, followed by a tick at the time of event `i`, has the same spacing. */
  lemma {:induction false} SpacingProjects(id: PeerId, period: nat, latest: nat, es: seq<Event>, i: nat)
    requires TicksEvery(period, latest, es) && i < |es|
    ensures SequencerRuns.TicksEvery(period, latest, ProjectAll(id, es[..i]) + [Seq.Tick(es[i].now)])
    decreases i
  {
    var tick := [Seq.Tick(es[i].now)];
    if i == 0 {
      assert ProjectAll(id, es[..0]) + tick == tick;
      assert tick[1..] == [];
    } else {
      var rest := ProjectAll(id, es[1..][..i - 1]);
      SpacingProjects(id, period, if es[0].input.SequencerTick? then es[0].now else latest, es[1..], i - 1);
      assert es[..i][1..] == es[1..][..i - 1];
      assert ProjectAll(id, es[..i]) == Project(id, es[0]) + rest;
      if Project(id, es[0]) == [] {
        assert Project(id, es[0]) + rest + tick == rest + tick;
      } else {
        assert (Project(id, es[0]) + rest + tick)[1..] == rest + tick;
      }
    }
  }

  lemma {:induction false} IsRunPrefix(h: Headers, m: Manager, t: nat, es: seq<Event>, i: nat)
    requires IsRun(h, m, t, es) && i <= |es|
    ensures IsRun(h, m, t, es[..i])
    decreases es
  {
    hide Step;
    if i > 0 {
      assert es[..i][1..] == es[1..][..i - 1];
      IsRunPrefix(h, Step(h, m, es[0]).state, es[0].now, es[1..], i - 1);
    }
  }

  /**
   * A packet numbered `k` that is pending for peer `id` reaches the local side within
   * (k - cursor) * (3 ms + period), whatever else happens at the node: no event, of any kind, that happens while it
   * is still waiting lies beyond that bound.
   */
  lemma NodeBoundedWait(h: Headers, m: Manager, t: nat, es: seq<Event>, i: nat, id: PeerId, k: nat, period: nat)
    requires Good(m, t) && IsRun(h, m, t, es) && i < |es| && TicksEvery(period, t, es)
    requires id in m.peers && k in m.peers[id].sequencer.queue
    requires k !in Seq.SeqNrs(FromPeer(Run(h, m, es[..i]).delivered, id))
    ensures es[i].now <= t + (k - m.peers[id].sequencer.next) * (3_000_000 + period)
  {
    hide *;
    var s := m.peers[id].sequencer;
    var share := ProjectAll(id, es[..i]);
    GoodPeer(m, t, id);
    IsRunPrefix(h, m, t, es, i);
    Isolation(h, m, t, es[..i], id);
    SpacingProjects(id, period, t, es, i);
    assert (share + [Seq.Tick(es[i].now)])[..|share|] == share;
    SequencerRuns.BoundedWait(s, share + [Seq.Tick(es[i].now)], |share|, k, t, period);
  }

  // ---------- patience with a new peer ----------

  /** A tick moves the cursor of peer `id` over a hole. */
  predicate FlushesAt(m: Manager, e: Event, id: PeerId) {
    id in m.peers && e.input.SequencerTick? && Seq.Flushes(m.peers[id].sequencer, Seq.Tick(e.now))
  }

  /** How many flushes of peer `id` take effect during a run. */
  function NodeFlushes(h: Headers, m: Manager, es: seq<Event>, id: PeerId): nat
    decreases es
  {
    if es == [] then 0
    else (if FlushesAt(m, es[0], id) then 1 else 0) + NodeFlushes(h, Step(h, m, es[0]).state, es[1..], id)
  }

  /** When peer `id` became known: at the start `t`, or at the event that entered it. */
  function CreatedAt(h: Headers, m: Manager, t: nat, es: seq<Event>, id: PeerId): Option<nat>
    decreases es
  {
    if id in m.peers then Some(t)
    else if es == [] then None
    else CreatedAt(h, Step(h, m, es[0]).state, es[0].now, es[1..], id)
  }

  /** The time stamp of a known peer across one event: it moves to the present or stays, and a flush needs 3 ms. */
  lemma StampStep(h: Headers, m: Manager, t: nat, e: Event, id: PeerId)
    requires Good(m, t) && t <= e.now && Fits(m, e) && id in m.peers
    ensures id in Step(h, m, e).state.peers
    ensures var before, after := m.peers[id].sequencer.lastUpdate, Step(h, m, e).state.peers[id].sequencer.lastUpdate;
            && before <= t && (after == before || after == e.now)
            && (FlushesAt(m, e, id) ==> after == e.now && e.now > before + 3_000_000)
  {
    StepProjects(h, m, e, id);
    GoodPeer(m, t, id);
    hide Step, Seq.Apply, FromPeer, Good, WellFormed;
    var s, es := m.peers[id].sequencer, Project(id, e);
    if es != [] {
      RunSingle(s, es[0]);
      SequencerRuns.ApplyTime(s, es[0]);
    }
  }

  lemma {:induction false} NodeFlushesCostTime(h: Headers, m: Manager, t: nat, es: seq<Event>, id: PeerId)
    requires Good(m, t) && IsRun(h, m, t, es) && id in m.peers && NodeFlushes(h, m, es, id) > 0
    ensures SequencerRuns.Times(NodeFlushes(h, m, es, id), 3_000_000) < EndTime(t, es) - m.peers[id].sequencer.lastUpdate
    decreases es
  {
    hide Step, Good, FlushesAt;
    var x := Step(h, m, es[0]).state;
    StepKeepsGood(h, m, t, es[0]);
    StampStep(h, m, t, es[0], id);
    EndTimeRest(t, es);
    IsRunEnds(h, x, es[0].now, es[1..]);
    if NodeFlushes(h, x, es[1..], id) > 0 {
      NodeFlushesCostTime(h, x, es[0].now, es[1..], id);
    }
  }

  lemma {:induction false} IsRunEnds(h: Headers, m: Manager, t: nat, es: seq<Event>)
    requires IsRun(h, m, t, es)
    ensures t <= EndTime(t, es)
    decreases es
  {
    hide Step, Fits;
    if es != [] {
      EndTimeRest(t, es);
      IsRunEnds(h, Step(h, m, es[0]).state, es[0].now, es[1..]);
    }
  }

  lemma EndTimeRest(t: nat, es: seq<Event>)
    requires es != []
    ensures EndTime(t, es) == EndTime(es[0].now, es[1..])
  {
  }

  lemma {:induction false} FlushRateFrom(h: Headers, m: Manager, t: nat, es: seq<Event>, id: PeerId)
    requires Good(m, t) && IsRun(h, m, t, es) && NodeFlushes(h, m, es, id) > 0
    requires id in m.peers ==> m.peers[id].sequencer.lastUpdate == t
    ensures var c := CreatedAt(h, m, t, es, id);
            c.Some? && SequencerRuns.Times(NodeFlushes(h, m, es, id), 3_000_000) < EndTime(t, es) - c.value
    decreases es
  {
    hide Step, Good;
    if id in m.peers {
      NodeFlushesCostTime(h, m, t, es, id);
    } else {
      var x := Step(h, m, es[0]).state;
      StepKeepsGood(h, m, t, es[0]);
      EndTimeRest(t, es);
      if id in x.peers {
        NewPeerStartsFresh(h, m, es[0], id);
      }
      FlushRateFrom(h, x, es[0].now, es[1..], id);
    }
  }

  /**
   * The skip rate counted from creation. In every run of a node from its start, a peer that was created at time c, by
   * the configuration or by a keepalive, has suffered fewer than (end - c) / 3 ms effective flushes.
   */
  lemma FlushRate(own: PeerId, tunIp: Option<Ipv4Addr>, configs: seq<PeerConfig>, now: nat, h: Headers, es: seq<Event>,
                  id: PeerId)
    requires IsRun(h, Start(own, tunIp, configs, now), now, es)
    ensures var m := Start(own, tunIp, configs, now);
            var n, c := NodeFlushes(h, m, es, id), CreatedAt(h, m, now, es, id);
            n > 0 ==> c.Some? && n * 3_000_000 < EndTime(now, es) - c.value
  {
    var m := Start(own, tunIp, configs, now);
    StartIsGood(own, tunIp, configs, now);
    hide Start, IsRun, Good, NodeFlushes, CreatedAt;
    if NodeFlushes(h, m, es, id) > 0 {
      FlushRateFrom(h, m, now, es, id);
      SequencerRuns.TimesIsProduct(NodeFlushes(h, m, es, id), 3_000_000);
    }
  }

  lemma {:induction false} FlushNeedsTime(h: Headers, m: Manager, t: nat, es: seq<Event>, i: nat, id: PeerId)
    requires Good(m, t) && IsRun(h, m, t, es) && i < |es| && id in m.peers
    requires FlushesAt(Run(h, m, es[..i]).state, es[i], id)
    ensures es[i].now > m.peers[id].sequencer.lastUpdate + 3_000_000
    decreases es
  {
    hide Step, Good, FlushesAt;
    StampStep(h, m, t, es[0], id);
    if i == 0 {
      assert es[..0] == [];
    } else {
      StepKeepsGood(h, m, t, es[0]);
      assert es[..i][1..] == es[1..][..i - 1];
      FlushNeedsTime(h, Step(h, m, es[0]).state, es[0].now, es[1..], i - 1, id);
    }
  }

  lemma {:induction false} NoEarlyFlushFrom(h: Headers, m: Manager, t: nat, es: seq<Event>, i: nat, id: PeerId)
    requires Good(m, t) && IsRun(h, m, t, es) && i < |es|
    requires id in m.peers ==> m.peers[id].sequencer.lastUpdate == t
    requires FlushesAt(Run(h, m, es[..i]).state, es[i], id)
    ensures var c := CreatedAt(h, m, t, es, id); c.Some? && es[i].now > c.value + 3_000_000
    decreases es
  {
    hide Step, Good;
    if id in m.peers {
      FlushNeedsTime(h, m, t, es, i, id);
    } else {
      var x := Step(h, m, es[0]).state;
      StepKeepsGood(h, m, t, es[0]);
      assert i > 0 by { assert es[..0] == []; }
      assert es[..i][1..] == es[1..][..i - 1];
      if id in x.peers {
        NewPeerStartsFresh(h, m, es[0], id);
      }
      NoEarlyFlushFrom(h, x, es[0].now, es[1..], i - 1, id);
    }
  }

  /** In every run of a node from its start, no flush of a peer takes effect within 3 ms of the peer's creation. */
  lemma NoEarlyFlush(own: PeerId, tunIp: Option<Ipv4Addr>, configs: seq<PeerConfig>, now: nat, h: Headers, es: seq<Event>,
                     i: nat, id: PeerId)
    requires IsRun(h, Start(own, tunIp, configs, now), now, es) && i < |es|
    requires FlushesAt(Run(h, Start(own, tunIp, configs, now), es[..i]).state, es[i], id)
    ensures var c := CreatedAt(h, Start(own, tunIp, configs, now), now, es, id);
            c.Some? && es[i].now > c.value + 3_000_000
  {
    StartIsGood(own, tunIp, configs, now);
    hide Start, IsRun, Good, Run, FlushesAt, CreatedAt;
    NoEarlyFlushFrom(h, Start(own, tunIp, configs, now), now, es, i, id);
  }

  // ---------- runs one event longer ----------

  lemma {:induction false} RunSnoc(h: Headers, m: Manager, es: seq<Event>, e: Event)
    ensures var x := Run(h, m, es);
            var r := Step(h, x.state, e);
            Run(h, m, es + [e]) == Outcome(r.state, x.sent + r.sent, x.delivered + r.delivered)
    decreases es
  {
    hide Step;
    if es == [] {
      assert es + [e] == [e];
      assert [e][1..] == [];
      assert Run(h, Step(h, m, e).state, []) == Outcome(Step(h, m, e).state, multiset{}, []);
    } else {
      assert (es + [e])[1..] == es[1..] + [e];
      RunSnoc(h, Step(h, m, es[0]).state, es[1..], e);
    }
  }

  function EndTime(t: nat, es: seq<Event>): nat {
    if es == [] then t else es[|es| - 1].now
  }

  lemma {:induction false} IsRunSnoc(h: Headers, m: Manager, t: nat, es: seq<Event>, e: Event)
    requires IsRun(h, m, t, es) && Fits(Run(h, m, es).state, e) && EndTime(t, es) <= e.now
    ensures IsRun(h, m, t, es + [e])
    decreases es
  {
    hide Step, Fits;
    if es == [] {
      assert es + [e] == [e];
      assert [e][1..] == [];
    } else {
      assert (es + [e])[1..] == es[1..] + [e];
      IsRunSnoc(h, Step(h, m, es[0]).state, es[0].now, es[1..], e);
    }
  }
}
