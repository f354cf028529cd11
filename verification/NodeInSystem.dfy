/**
 * A node inside an execution of the whole system: its part of the execution is a run of that node, so everything proved
 * about runs holds there. This carries end-to-end delivery to the bytes on the local channel, and layer 2 forwarding to
 * the frames a path was learned from.
 */
module NodeInSystem {
  import opened Messages
  import opened ManagerSpec
  import Seq = SequencerSpec
  import opened ManagerRuns
  import opened ManagerTables
  import opened System
  import opened SystemSafety

  /** The events of node `n`, in order. */
  function EventsOf(acts: seq<Action>, n: PeerId): seq<Event> {
    if acts == [] then []
    else (if acts[0].node == n then [acts[0].event] else []) + EventsOf(acts[1..], n)
  }

  lemma EventsNone(n: PeerId)
    ensures EventsOf([], n) == []
  {
  }

  lemma EventsFirst(acts: seq<Action>, n: PeerId)
    requires acts != []
    ensures EventsOf(acts, n)
            == if acts[0].node == n then [acts[0].event] + EventsOf(acts[1..], n) else EventsOf(acts[1..], n)
  {
  }

  lemma Assoc(a: seq<Packet>, b: seq<Packet>, c: seq<Packet>)
    ensures a + b + c == a + (b + c)
  {
  }

  lemma RunFirst(h: Headers, m: Manager, t: nat, e: Event, es: seq<Event>)
    ensures var first, rest := Step(h, m, e), Run(h, Step(h, m, e).state, es);
            Run(h, m, [e] + es) == Outcome(rest.state, first.sent + rest.sent, first.delivered + rest.delivered)
    ensures IsRun(h, m, t, [e] + es) <==> t <= e.now && Fits(m, e) && IsRun(h, Step(h, m, e).state, e.now, es)
  {
    hide Step, Fits;
    assert ([e] + es)[1..] == es;
  }

  /**
   * The part of node `n` in an execution is a run of that node, with the same final state, and what it delivered is its
   * log.
   */
  lemma {:induction false} NodeRun(t: Topology, h: Headers, s: State, acts: seq<Action>, n: PeerId)
    requires SameNodes(t, s) && IsExecution(t, h, s, acts) && n in s.nodes
    ensures var end, es := Exec(t, h, s, acts), EventsOf(acts, n);
            && IsRun(h, s.nodes[n], s.clocks[n], es)
            && n in end.nodes && end.nodes[n] == Run(h, s.nodes[n], es).state
            && n in end.logs && end.logs[n] == s.logs[n] + Run(h, s.nodes[n], es).delivered
    decreases acts
  {
    hide Perform, Step, Run, IsRun, Deliverable, Fits, EventsOf;
    EventsNone(n);
    if acts == [] {
      NoEvents(h, s.nodes[n], s.clocks[n], n);
    } else {
      var a, rest := acts[0], EventsOf(acts[1..], n);
      var mid := Perform(h, s, a);
      SameNodesStep(t, h, s, a);
      PerformNode(t, h, s, a, n);
      EventsFirst(acts, n);
      NodeRun(t, h, mid, acts[1..], n);
      PerformClock(t, h, s, a, n);
      if a.node == n {
        RunFirst(h, s.nodes[n], s.clocks[n], a.event, rest);
        Assoc(s.logs[n], Step(h, s.nodes[n], a.event).delivered, Run(h, mid.nodes[n], rest).delivered);
      }
    }
  }

  /** The datagrams on the network that come from node `n` are the ones that run sends. */
  lemma {:induction false} NodeSends(t: Topology, h: Headers, s: State, acts: seq<Action>, n: PeerId, w: Wire)
    requires SameNodes(t, s) && IsExecution(t, h, s, acts) && n in s.nodes && w.from == n
    ensures w in Exec(t, h, s, acts).net <==> w in s.net || w in Wires(n, Run(h, s.nodes[n], EventsOf(acts, n)).sent)
    decreases acts
  {
    hide Perform, Step, Run, IsRun, Deliverable, Fits, Wires, EventsOf;
    EventsNone(n);
    if acts == [] {
      NoEvents(h, s.nodes[n], s.clocks[n], n);
    } else {
      var a, rest := acts[0], EventsOf(acts[1..], n);
      var mid := Perform(h, s, a);
      SameNodesStep(t, h, s, a);
      PerformNode(t, h, s, a, n);
      EventsFirst(acts, n);
      NodeSends(t, h, mid, acts[1..], n, w);
      PerformNet(t, h, s, a, n, w);
      if a.node == n {
        RunFirst(h, s.nodes[n], s.clocks[n], a.event, rest);
        WiresSum(n, Step(h, s.nodes[n], a.event).sent, Run(h, mid.nodes[n], rest).sent);
      }
    }
  }

  lemma NoEvents(h: Headers, m: Manager, t: nat, n: PeerId)
    ensures IsRun(h, m, t, []) && Run(h, m, []) == Outcome(m, multiset{}, []) && Wires(n, multiset{}) == {}
  {
  }

  lemma WiresSum(n: PeerId, a: multiset<Outgoing>, b: multiset<Outgoing>)
    ensures Wires(n, a + b) == Wires(n, a) + Wires(n, b)
  {
  }

  lemma PerformClock(t: Topology, h: Headers, s: State, a: Action, n: PeerId)
    requires Enabled(t, s, a) && n in s.nodes
    ensures n in Perform(h, s, a).clocks
    ensures Perform(h, s, a).clocks[n] == if a.node == n then a.event.now else s.clocks[n]
  {
    hide Step, Record, Deliverable, Fits, Wires;
  }

  lemma PerformNet(t: Topology, h: Headers, s: State, a: Action, n: PeerId, w: Wire)
    requires Enabled(t, s, a) && n in s.nodes && w.from == n
    ensures w in Perform(h, s, a).net
            <==> w in s.net || (a.node == n && w in Wires(n, Step(h, s.nodes[n], a.event).sent))
  {
    hide Step, Record, Deliverable, Fits;
  }

  /** The same from the start of the system: the node starts from its configuration with an empty log. */
  lemma NodeFromStart(t: Topology, h: Headers, s: State, acts: seq<Action>, n: PeerId)
    requires Init(t, s) && IsExecution(t, h, s, acts) && n in t.tunIp
    ensures var end, es := Exec(t, h, s, acts), EventsOf(acts, n);
            var start := Start(n, t.tunIp[n], t.seeds[n], s.clocks[n]);
            && s.nodes[n] == start && IsRun(h, start, s.clocks[n], es)
            && n in end.nodes && end.nodes[n] == Run(h, start, es).state
            && n in end.logs && end.logs[n] == Run(h, start, es).delivered
  {
    assert Starts(t, n, s.nodes[n], s.clocks[n]);
    hide IsExecution, Exec, Run, IsRun, Start;
    NodeRun(t, h, s, acts, n);
  }

  // ---------- the bytes on the local channel ----------

  /** Where a frame on the local channel comes from: which sender, and which place of its stream. */
  datatype Origin = Origin(sender: PeerId, number: nat)

  /**
   * Every frame on the channel is, byte for byte, the frame its origin names in the sender's stream to `b`, and the frames
   * of one sender come in the order of its stream, none twice.
   */
  ghost predicate Explained(streams: Streams, b: PeerId, channel: seq<Bytes>, origins: seq<Origin>) {
    && |origins| == |channel|
    && (forall i :: 0 <= i < |channel| ==>
          var stream := Stream(streams, origins[i].sender, b);
          origins[i].number < |stream| && channel[i] == stream[origins[i].number])
    && (forall i, j :: 0 <= i < j < |channel| && origins[i].sender == origins[j].sender ==>
          origins[i].number < origins[j].number)
  }

  /** The positions of two packets of one peer are kept by the selection of that peer's packets. */
  lemma {:induction false} FromPeerPositions(ps: seq<Packet>, i: nat, j: nat)
    requires i < j < |ps| && ps[i].peerId == ps[j].peerId
    requires Seq.Increasing(FromPeer(ps, ps[i].peerId))
    ensures ps[i].seqNr < ps[j].seqNr
    decreases ps
  {
    hide FromPeer;
    var id, rest := ps[i].peerId, ps[1..];
    var mine, others := FromPeer(ps, id), FromPeer(rest, id);
    FromPeerFirst(ps, id);
    if i > 0 {
      assert ps[0].peerId == id ==> forall k :: 0 <= k < |others| ==> others[k] == mine[k + 1];
      FromPeerPositions(rest, i - 1, j - 1);
    } else {
      FromPeerMember(rest, rest[j - 1]);
      var k :| 0 <= k < |others| && others[k] == ps[j];
      assert mine[0] == ps[0] && mine[k + 1] == ps[j];
    }
  }

  lemma FromPeerFirst(ps: seq<Packet>, id: PeerId)
    requires ps != []
    ensures FromPeer(ps, id) == if ps[0].peerId == id then [ps[0]] + FromPeer(ps[1..], id) else FromPeer(ps[1..], id)
  {
  }

  lemma FromPeerMember(ps: seq<Packet>, q: Packet)
    requires q in ps
    ensures q in FromPeer(ps, q.peerId)
  {
    FromPeerCount(ps, q);
    assert multiset(FromPeer(ps, q.peerId))[q] > 0;
  }

  function OriginsOf(ps: seq<Packet>): seq<Origin> {
    seq(|ps|, i requires 0 <= i < |ps| => Origin(ps[i].peerId, ps[i].seqNr))
  }

  /**
   * End to end, down to the bytes: in every execution the frames that node `b` hands to its local side, as the run of its
   * part of the execution delivers them, are explained by the frames that the other nodes addressed to `b`.
   */
  lemma ChannelEndToEnd(t: Topology, h: Headers, s: State, acts: seq<Action>, b: PeerId, channel: seq<Bytes>)
    requires Init(t, s) && IsExecution(t, h, s, acts) && b in t.tunIp
    requires var out := Run(h, Start(b, t.tunIp[b], t.seeds[b], s.clocks[b]), EventsOf(acts, b)).delivered;
             |channel| == |out| && forall i :: 0 <= i < |out| ==> channel[i] == out[i].bytes
    ensures exists origins :: Explained(Exec(t, h, s, acts).streams, b, channel, origins)
  {
    hide Inv, IsExecution, Exec, Run, Start, FromPeer, Stream, OnStream, TopologyOk, Starts;
    NodeFromStart(t, h, s, acts, b);
    Reachable(t, h, s, acts);
    var end := Exec(t, h, s, acts);
    LogExplains(t, end, b, channel);
  }

  lemma LogExplains(t: Topology, s: State, b: PeerId, channel: seq<Bytes>)
    requires Inv(t, s) && b in s.nodes && b in s.logs
    requires |channel| == |s.logs[b]| && forall i :: 0 <= i < |channel| ==> channel[i] == s.logs[b][i].bytes
    ensures Explained(s.streams, b, channel, OriginsOf(s.logs[b]))
  {
    hide Inv, FromPeer, Stream;
    var out := s.logs[b];
    forall i | 0 <= i < |out|
      ensures out[i].seqNr < |Stream(s.streams, out[i].peerId, b)|
      ensures out[i].bytes == Stream(s.streams, out[i].peerId, b)[out[i].seqNr]
    {
      LoggedIsOnStream(t, s, b, out[i]);
    }
    forall i, j | 0 <= i < j < |out| && out[i].peerId == out[j].peerId
      ensures out[i].seqNr < out[j].seqNr
    {
      LogIsOrdered(t, s, b, out[i].peerId);
      FromPeerPositions(out, i, j);
    }
  }

  lemma LoggedIsOnStream(t: Topology, s: State, b: PeerId, q: Packet)
    requires Inv(t, s) && b in s.nodes && b in s.logs && q in s.logs[b]
    ensures q.seqNr < |Stream(s.streams, q.peerId, b)| && q.bytes == Stream(s.streams, q.peerId, b)[q.seqNr]
  {
    hide Inv, FromPeer, Stream, LinkOk;
    DeliveriesOk(t, s, q.peerId, b);
    FromPeerMember(s.logs[b], q);
  }

  lemma LogIsOrdered(t: Topology, s: State, b: PeerId, a: PeerId)
    requires Inv(t, s) && b in s.nodes && b in s.logs
    ensures Seq.Increasing(FromPeer(s.logs[b], a))
  {
    hide Inv, FromPeer, Stream, LinkOk;
    DeliveriesOk(t, s, a, b);
  }

  // ---------- layer 2 forwarding ----------

  /** The peer whose frame was the first one from `mac` that was delivered on the arrival path, if there was one. */
  ghost predicate LearnedFrom(h: Headers, log: seq<Packet>, mac: Mac, dest: Option<PeerId>) {
    match dest
    case Some(id) => exists i :: IsFirstFrom(h, log, mac, i) && log[i].peerId == id
    case None => forall i :: 0 <= i < |log| ==> h.etherSrc(log[i].bytes) != Some(mac)
  }

  /**
   * On layer 2, in every execution, a local frame to an address that is not broadcast goes to the peer whose frame was the
   * first one from that address delivered on the arrival path: only the stream to that peer grows, by this frame, and
   * every known address of the peer gets one copy. If no such frame was delivered the frame is dropped.
   */
  lemma UnicastFollowsFirstFrame(t: Topology, h: Headers, s: State, acts: seq<Action>, a: Action, mac: Mac,
                                 p: PeerId, q: PeerId, o: Outgoing) returns (dest: Option<PeerId>)
    requires Init(t, s) && IsExecution(t, h, s, acts) && Enabled(t, Exec(t, h, s, acts), a) && a.event.input.Local?
    requires a.node in t.tunIp && t.tunIp[a.node].None?
    requires h.etherDst(a.event.input.frame) == Some(mac) && mac != Mac(0xff, 0xff, 0xff, 0xff, 0xff, 0xff)
    ensures a.node in s.nodes && LearnedFrom(h, ArrivalLog(h, s.nodes[a.node], EventsOf(acts, a.node)), mac, dest)
    ensures var end, n, frame := Exec(t, h, s, acts), a.node, a.event.input.frame;
            && Stream(Perform(h, end, a).streams, p, q)
               == Stream(end.streams, p, q) + (if p == n && dest == Some(q) then [frame] else [])
            && Step(h, end.nodes[n], a.event).sent[o]
               == if dest.Some? && IsFrameCopy(t, end, n, frame, dest.value, o) then 1 else 0
  {
    hide Inv, IsExecution, Exec, Run, IsRun, Stream, Perform, Deliverable, Fits, Step, IsFrameCopy, ArrivalLog, Seed;
    hide TopologyOk, Starts, IsFirstFrom;
    var end, n := Exec(t, h, s, acts), a.node;
    NodeFromStart(t, h, s, acts, n);
    Reachable(t, h, s, acts);
    PathsAreFirstLearned(h, s.nodes[n], EventsOf(acts, n), mac);
    dest := Lookup(end.nodes[n].director.macTable, Some(mac));
    UnicastFrame(t, h, end, a, p, q, o);
  }
}
