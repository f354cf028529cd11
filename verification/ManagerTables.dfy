/** Over whole runs of a node: how long addresses stay known, and what the layer 2 director learns. */
module ManagerTables {
  import opened Messages
  import opened ManagerSpec
  import Seq = SequencerSpec

  // ---------- connection freshness ----------

  /** When was `a` last seen as an address of peer `id`, if it is known at all? */
  function LastSeen(m: Manager, id: PeerId, a: SocketAddr): Option<nat> {
    if id in m.peers && a in m.peers[id].connections then Some(m.peers[id].connections[a]) else None
  }

  /** A keepalive of peer `id` from address `a`. */
  predicate Refreshes(e: Event, id: PeerId, a: SocketAddr) {
    && e.input.Udp? && e.input.source == a
    && e.input.decoded.Some? && e.input.decoded.value.Alive? && e.input.decoded.value.keepalive.peerId == id
  }

  /** One address seen on its own: refreshed by its keepalives, dropped by a maintenance tick 30 seconds or more later. */
  function Age(seen: Option<nat>, e: Event, id: PeerId, a: SocketAddr): Option<nat> {
    if Refreshes(e, id, a) then Some(e.now)
    else if e.input.MaintenanceTick? && seen.Some? && e.now - seen.value >= 30_000_000_000 then None
    else seen
  }

  lemma StepAges(h: Headers, m: Manager, e: Event, id: PeerId, a: SocketAddr)
    ensures LastSeen(Step(h, m, e).state, id, a) == Age(LastSeen(m, id, a), e, id, a)
  {
    hide Seq.Apply, Fanout, Copies, LearnAll, TickOutput, Destinations;
    match e.input
    case Udp(Some(Alive(k)), source) =>
    case MaintenanceTick =>
    case _ =>
  }

  /** At every maintenance tick the latest refresh is less than 30 seconds ago. */
  predicate RefreshedInTime(lastSeen: nat, es: seq<Event>, id: PeerId, a: SocketAddr)
    decreases es
  {
    es == []
    || (if Refreshes(es[0], id, a) then RefreshedInTime(es[0].now, es[1..], id, a)
        else (es[0].input.MaintenanceTick? ==> es[0].now - lastSeen < 30_000_000_000)
             && RefreshedInTime(lastSeen, es[1..], id, a))
  }

  predicate AlwaysKnown(h: Headers, m: Manager, es: seq<Event>, id: PeerId, a: SocketAddr)
    decreases es
  {
    LastSeen(m, id, a).Some? && (es == [] || AlwaysKnown(h, Step(h, m, es[0]).state, es[1..], id, a))
  }

  /** A known address stays known throughout a run exactly when its refreshes keep up with the maintenance ticks. */
  lemma {:induction false} SurvivesExactly(h: Headers, m: Manager, es: seq<Event>, id: PeerId, a: SocketAddr)
    requires LastSeen(m, id, a).Some?
    ensures AlwaysKnown(h, m, es, id, a) <==> RefreshedInTime(LastSeen(m, id, a).value, es, id, a)
    decreases es
  {
    hide Step;
    if es != [] {
      StepAges(h, m, es[0], id, a);
      if LastSeen(Step(h, m, es[0]).state, id, a).Some? {
        SurvivesExactly(h, Step(h, m, es[0]).state, es[1..], id, a);
      }
    }
  }

  /** No event lies more than `period` after the latest maintenance tick (or the start), nor before it. */
  predicate MaintainedEvery(period: nat, latest: nat, es: seq<Event>)
    decreases es
  {
    es == []
    || (&& latest <= es[0].now <= latest + period
        && MaintainedEvery(period, if es[0].input.MaintenanceTick? then es[0].now else latest, es[1..]))
  }

  /** With maintenance every 5 seconds, an address that is still known was refreshed less than 35 seconds ago. */
  lemma {:induction false} StaleIsGone(h: Headers, m: Manager, es: seq<Event>, i: nat, id: PeerId, a: SocketAddr,
                                       latest: nat)
    requires MaintainedEvery(5_000_000_000, latest, es) && i < |es|
    requires LastSeen(m, id, a).Some? ==> latest < LastSeen(m, id, a).value + 30_000_000_000
    ensures var seen := LastSeen(Run(h, m, es[..i]).state, id, a);
            seen.Some? ==> es[i].now < seen.value + 35_000_000_000
    decreases es
  {
    hide Step;
    if i > 0 {
      StepAges(h, m, es[0], id, a);
      assert es[..i][1..] == es[1..][..i - 1];
      StaleIsGone(h, Step(h, m, es[0]).state, es[1..], i - 1, id, a,
                  if es[0].input.MaintenanceTick? then es[0].now else latest);
    }
  }

  // ---------- what maintenance costs ----------

  ghost predicate TrimmedPeer(p: Peer, q: Peer) {
    && p.txCounter == q.txCounter && p.sequencer == q.sequencer
    && (forall a :: a in p.connections ==> a in q.connections && q.connections[a] == p.connections[a])
  }

  ghost predicate TrimmedPeers(peers: Peers, others: Peers) {
    peers.Keys == others.Keys && forall p :: p in peers ==> TrimmedPeer(peers[p], others[p])
  }

  /** `m` is `x`, except that some addresses may be missing. */
  ghost predicate Trimmed(m: Manager, x: Manager) {
    m.ownId == x.ownId && m.ownTunIp == x.ownTunIp && m.director == x.director && TrimmedPeers(m.peers, x.peers)
  }

  lemma CopiesTrims(few: set<SocketAddr>, many: set<SocketAddr>, message: Message)
    requires few <= many
    ensures Copies(few, message) <= Copies(many, message)
  {
  }

  lemma {:induction false} FanoutTrims(peers: Peers, others: Peers, targets: seq<PeerId>, f: PeerId -> Message, g: PeerId -> Message)
    requires TrimmedPeers(peers, others) && forall p :: f(p) == g(p)
    ensures Fanout(peers, targets, f) <= Fanout(others, targets, g)
    decreases targets
  {
    hide Copies;
    if targets != [] {
      FanoutTrims(peers, others, targets[1..], f, g);
      CopiesTrims(Connections(peers, targets[0]), Connections(others, targets[0]), f(targets[0]));
    }
  }

  lemma {:induction false} TickOutputTrims(peers: Peers, others: Peers, order: seq<PeerId>, now: nat)
    requires TrimmedPeers(peers, others)
    ensures TickOutput(peers, order, now) == TickOutput(others, order, now)
    decreases order
  {
    hide Seq.Apply;
    if order != [] {
      TickOutputTrims(peers, others, order[1..], now);
    }
  }

  lemma PacketTrims(h: Headers, m: Manager, x: Manager, p: Packet, now: nat)
    requires Trimmed(m, x)
    ensures Trimmed(HandlePacket(h, m, p, now).state, HandlePacket(h, x, p, now).state)
    ensures HandlePacket(h, m, p, now).delivered == HandlePacket(h, x, p, now).delivered
    ensures HandlePacket(h, m, p, now).sent == HandlePacket(h, x, p, now).sent
  {
    hide Seq.Apply, LearnAll;
  }

  lemma LocalTrims(h: Headers, m: Manager, x: Manager, frame: Bytes, order: seq<PeerId>)
    requires Trimmed(m, x)
    ensures Trimmed(HandleLocal(h, m, frame, order).state, HandleLocal(h, x, frame, order).state)
    ensures HandleLocal(h, m, frame, order).sent <= HandleLocal(h, x, frame, order).sent
    ensures HandleLocal(h, m, frame, order).delivered == HandleLocal(h, x, frame, order).delivered
  {
    hide Fanout;
    FanoutTrims(m.peers, x.peers, Destinations(h, m, frame, order), DataFor(m, frame), DataFor(x, frame));
  }

  lemma KeepaliveTrims(m: Manager, x: Manager, k: Keepalive, source: SocketAddr, now: nat)
    requires Trimmed(m, x)
    ensures Trimmed(HandleKeepalive(m, k, source, now).state, HandleKeepalive(x, k, source, now).state)
    ensures HandleKeepalive(m, k, source, now).sent <= HandleKeepalive(x, k, source, now).sent
    ensures HandleKeepalive(m, k, source, now).delivered == HandleKeepalive(x, k, source, now).delivered
  {
    hide Copies;
    var few, many := AddPeer(m.peers, k.peerId, source, now), AddPeer(x.peers, k.peerId, source, now);
    assert TrimmedPeer(few[k.peerId], many[k.peerId]);
    CopiesTrims(Connections(few, k.peerId), Connections(many, k.peerId), OwnKeepalive(m));
  }

  /** The same event at a trimmed node delivers the same, sends no more, and keeps the rest equal. */
  lemma StepTrims(h: Headers, m: Manager, x: Manager, e: Event)
    requires Trimmed(m, x) && !e.input.MaintenanceTick?
    ensures Trimmed(Step(h, m, e).state, Step(h, x, e).state)
    ensures Step(h, m, e).delivered == Step(h, x, e).delivered
    ensures Step(h, m, e).sent <= Step(h, x, e).sent
  {
    hide Seq.Apply, HandlePacket, HandleLocal, HandleKeepalive, Fanout, TickOutput;
    match e.input
    case Udp(None, _) =>
    case Udp(Some(Data(p)), _) => PacketTrims(h, m, x, p, e.now);
    case Udp(Some(Alive(k)), source) => KeepaliveTrims(m, x, k, source, e.now);
    case Local(frame, order) => LocalTrims(h, m, x, frame, order);
    case SequencerTick(order) => TickOutputTrims(m.peers, x.peers, order, e.now);
    case KeepaliveTick(order) =>
      FanoutTrims(m.peers, x.peers, order, (p: PeerId) => OwnKeepalive(m), (p: PeerId) => OwnKeepalive(x));
  }

  lemma PruneTrims(h: Headers, m: Manager, x: Manager, e: Event)
    requires Trimmed(m, x) && e.input.MaintenanceTick?
    ensures Trimmed(Step(h, m, e).state, x) && Step(h, m, e).sent == multiset{} && Step(h, m, e).delivered == []
  {
  }

  function WithoutMaintenance(es: seq<Event>): seq<Event> {
    if es == [] then []
    else (if es[0].input.MaintenanceTick? then [] else [es[0]]) + WithoutMaintenance(es[1..])
  }

  lemma {:induction false} RunTrims(h: Headers, m: Manager, x: Manager, es: seq<Event>)
    requires Trimmed(m, x)
    ensures Trimmed(Run(h, m, es).state, Run(h, x, WithoutMaintenance(es)).state)
    ensures Run(h, m, es).delivered == Run(h, x, WithoutMaintenance(es)).delivered
    ensures Run(h, m, es).sent <= Run(h, x, WithoutMaintenance(es)).sent
    decreases es
  {
    hide Step, Trimmed;
    if es != [] {
      var e, rest := es[0], WithoutMaintenance(es[1..]);
      if e.input.MaintenanceTick? {
        PruneTrims(h, m, x, e);
        assert [] + rest == rest;
        RunTrims(h, Step(h, m, e).state, x, es[1..]);
      } else {
        StepTrims(h, m, x, e);
        assert ([e] + rest)[1..] == rest;
        RunTrims(h, Step(h, m, e).state, Step(h, x, e).state, es[1..]);
      }
    }
  }

  /**
   * Maintenance costs addresses and nothing else. The same run without its maintenance ticks delivers the same packets in
   * the same order and ends with the same peers, counters, sequencers and tables; with them a node sends a part of the
   * same datagrams and knows a part of the same addresses, under the same time stamps.
   */
  lemma MaintenanceOnlyTrims(h: Headers, m: Manager, es: seq<Event>)
    ensures Trimmed(Run(h, m, es).state, Run(h, m, WithoutMaintenance(es)).state)
    ensures Run(h, m, es).delivered == Run(h, m, WithoutMaintenance(es)).delivered
    ensures Run(h, m, es).sent <= Run(h, m, WithoutMaintenance(es)).sent
  {
    RunTrims(h, m, m, es);
  }

  // ---------- learned paths ----------

  /** The packets delivered on the arrival path, in order; a flush is not part of it. */
  function ArrivalLog(h: Headers, m: Manager, es: seq<Event>): seq<Packet>
    decreases es
  {
    if es == [] then []
    else (if es[0].input.Udp? then Step(h, m, es[0]).delivered else []) + ArrivalLog(h, Step(h, m, es[0]).state, es[1..])
  }

  lemma {:induction false} LearnTableConcat(h: Headers, table: map<Mac, PeerId>, a: seq<Packet>, b: seq<Packet>)
    ensures LearnTable(h, table, a + b) == LearnTable(h, LearnTable(h, table, a), b)
    decreases a
  {
    if a == [] {
      assert a + b == b;
    } else {
      assert (a + b)[1..] == a[1..] + b;
      LearnTableConcat(h, Learn(h, table, a[0].peerId, a[0].bytes), a[1..], b);
    }
  }

  lemma StepLearns(h: Headers, m: Manager, e: Event)
    requires m.director.Layer2?
    ensures Step(h, m, e).state.director
            == Layer2(LearnTable(h, m.director.macTable, if e.input.Udp? then Step(h, m, e).delivered else []))
  {
  }

  lemma {:induction false} TableFollowsLog(h: Headers, m: Manager, es: seq<Event>)
    requires m.director.Layer2?
    ensures Run(h, m, es).state.director == Layer2(LearnTable(h, m.director.macTable, ArrivalLog(h, m, es)))
    decreases es
  {
    hide Step;
    if es != [] {
      var first := Step(h, m, es[0]);
      StepLearns(h, m, es[0]);
      TableFollowsLog(h, first.state, es[1..]);
      LearnTableConcat(h, m.director.macTable, if es[0].input.Udp? then first.delivered else [],
                       ArrivalLog(h, first.state, es[1..]));
    }
  }

  /** Packet `i` is the first of `ps` whose source address is `mac`. */
  ghost predicate IsFirstFrom(h: Headers, ps: seq<Packet>, mac: Mac, i: int) {
    && 0 <= i < |ps| && h.etherSrc(ps[i].bytes) == Some(mac)
    && forall j :: 0 <= j < i ==> h.etherSrc(ps[j].bytes) != Some(mac)
  }

  lemma {:induction false} LearnTableExactly(h: Headers, table: map<Mac, PeerId>, ps: seq<Packet>, mac: Mac)
    ensures var after := LearnTable(h, table, ps);
            && (mac in table ==> mac in after && after[mac] == table[mac])
            && (mac !in table && mac in after ==> exists i :: IsFirstFrom(h, ps, mac, i) && after[mac] == ps[i].peerId)
            && (mac !in after ==> forall i :: 0 <= i < |ps| ==> h.etherSrc(ps[i].bytes) != Some(mac))
    decreases ps
  {
    if ps != [] {
      var table1, rest := Learn(h, table, ps[0].peerId, ps[0].bytes), ps[1..];
      LearnTableExactly(h, table1, rest, mac);
      var after := LearnTable(h, table, ps);
      assert forall i :: 0 < i < |ps| ==> ps[i] == rest[i - 1];
      if mac !in table && mac in after {
        if mac in table1 {
          assert IsFirstFrom(h, ps, mac, 0);
        } else {
          var i :| IsFirstFrom(h, rest, mac, i) && after[mac] == rest[i].peerId;
          assert IsFirstFrom(h, ps, mac, i + 1);
        }
      }
    }
  }

  /**
   * In every run an entry that was there stays as it was; a new entry names the sender of the first frame with
   * that source address delivered on the arrival path; and an address without an entry was not the source of any
   * such frame.
   */
  lemma PathsAreFirstLearned(h: Headers, m: Manager, es: seq<Event>, mac: Mac)
    requires m.director.Layer2?
    ensures Run(h, m, es).state.director.Layer2?
    ensures var before, after, log := m.director.macTable, Run(h, m, es).state.director.macTable, ArrivalLog(h, m, es);
            && (mac in before ==> mac in after && after[mac] == before[mac])
            && (mac !in before && mac in after ==> exists i :: IsFirstFrom(h, log, mac, i) && after[mac] == log[i].peerId)
            && (mac !in after ==> forall i :: 0 <= i < |log| ==> h.etherSrc(log[i].bytes) != Some(mac))
  {
    hide Run, ArrivalLog, LearnTable;
    TableFollowsLog(h, m, es);
    LearnTableExactly(h, m.director.macTable, ArrivalLog(h, m, es), mac);
  }

  lemma LearnedIsSent(h: Headers, m: Manager, e: Event, mac: Mac)
    requires m.director.Layer2? && mac in m.director.macTable && mac != Mac(0xff, 0xff, 0xff, 0xff, 0xff, 0xff)
    requires e.input.Local? && h.etherDst(e.input.frame) == Some(mac)
    ensures var id := m.director.macTable[mac];
            Step(h, m, e).sent
            == Copies(Connections(m.peers, id), Data(Packet(TxCounter(m.peers, id), m.ownId, e.input.frame)))
  {
    hide Copies, Connections;
    var id, f := m.director.macTable[mac], DataFor(m, e.input.frame);
    assert Fanout(m.peers, [id], f) == Copies(Connections(m.peers, id), f(id)) by {
      assert [id][1..] == [];
      assert Fanout(m.peers, [], f) == multiset{};
    }
  }

  /**
   * Once an address has an entry, whatever happens, every frame to it goes to the addresses of that same peer and
   * nowhere else, under that peer's current number.
   */
  lemma PathNeverChanges(h: Headers, m: Manager, es: seq<Event>, e: Event, mac: Mac)
    requires m.director.Layer2? && mac in m.director.macTable && mac != Mac(0xff, 0xff, 0xff, 0xff, 0xff, 0xff)
    requires e.input.Local? && h.etherDst(e.input.frame) == Some(mac)
    ensures var x, id := Run(h, m, es).state, m.director.macTable[mac];
            Step(h, x, e).sent
            == Copies(Connections(x.peers, id), Data(Packet(TxCounter(x.peers, id), x.ownId, e.input.frame)))
  {
    hide Run, ArrivalLog, LearnTable, Step;
    PathsAreFirstLearned(h, m, es, mac);
    LearnedIsSent(h, Run(h, m, es).state, e, mac);
  }
}
