/** When the receiver's output has no gap, and how copies over several paths make up for lost datagrams. */
module LossMasking {
  import opened Messages
  import opened ManagerSpec
  import Seq = SequencerSpec
  import SequencerRuns
  import opened ManagerRuns
  import opened System
  import opened SystemSafety

  // ---------- jumps, copies and output ----------

  /** A deadline flush at `b` moves the cursor of its sequencer for `a` over a hole. */
  ghost predicate JumpsAt(s: State, act: Action, a: PeerId, b: PeerId)
    requires b in s.nodes
  {
    && act.node == b && act.event.input.SequencerTick? && a in s.nodes[b].peers
    && Seq.Flushes(s.nodes[b].peers[a].sequencer, Seq.Tick(act.event.now))
  }

  ghost predicate NeverJumps(t: Topology, h: Headers, s: State, acts: seq<Action>, a: PeerId, b: PeerId)
    requires IsExecution(t, h, s, acts) && b in s.nodes
    decreases acts
  {
    acts == [] || (!JumpsAt(s, acts[0], a, b) && NeverJumps(t, h, Perform(h, s, acts[0]), acts[1..], a, b))
  }

  /** The number that this action brings to `b` from `a`, provided `b` knows `a`. */
  ghost predicate Brings(s: State, act: Action, a: PeerId, b: PeerId, k: nat)
    requires b in s.nodes
  {
    && act.node == b && a in s.nodes[b].peers
    && exists p, source :: act.event.input == Udp(Some(Data(p)), source) && p.peerId == a && p.seqNr == k
  }

  /** A copy of number `k` of `a` reaches `b` after `b` knows `a`. */
  ghost predicate Arrives(t: Topology, h: Headers, s: State, acts: seq<Action>, a: PeerId, b: PeerId, k: nat)
    requires IsExecution(t, h, s, acts) && b in s.nodes
    decreases acts
  {
    acts != [] && (Brings(s, acts[0], a, b, k) || Arrives(t, h, Perform(h, s, acts[0]), acts[1..], a, b, k))
  }

  /** What `b` delivered from `a`, and the cursor that goes with it (0 while `b` does not know `a`). */
  ghost function Output(s: State, a: PeerId, b: PeerId): seq<Packet> {
    if b in s.logs then FromPeer(s.logs[b], a) else []
  }

  ghost function Cursor(s: State, a: PeerId, b: PeerId): nat {
    if b in s.nodes && a in s.nodes[b].peers then s.nodes[b].peers[a].sequencer.next else 0
  }

  /** Exactly the numbers below the cursor were delivered, in order, without a gap. */
  ghost predicate Dense(out: seq<Packet>, next: nat) {
    |out| == next && forall i :: 0 <= i < next ==> out[i].seqNr == i
  }

  lemma DenseApply(s: Seq.State, e: Seq.Event, out: seq<Packet>)
    requires Seq.Valid(s) && Seq.Quiescent(s) && Dense(out, s.next) && !Seq.Flushes(s, e)
    ensures Dense(out + Seq.Apply(s, e).out, Seq.Apply(s, e).state.next)
  {
    match e
    case Arrival(now, p) =>
      Seq.DrainFacts(Seq.Insert(s, p), now);
      hide Seq.Drain;
    case Tick(now) =>
      Seq.DrainIdle(s, now);
      hide Seq.Drain;
  }

  /** One event at the receiver. */
  lemma DenseStep(h: Headers, m: Manager, e: Event, a: PeerId, out: seq<Packet>)
    requires WellFormed(m) && Fits(m, e) && a in m.peers && Dense(out, m.peers[a].sequencer.next)
    requires e.input.SequencerTick? ==> !Seq.Flushes(m.peers[a].sequencer, Seq.Tick(e.now))
    ensures a in Step(h, m, e).state.peers
    ensures Dense(out + FromPeer(Step(h, m, e).delivered, a), Step(h, m, e).state.peers[a].sequencer.next)
  {
    var s := m.peers[a].sequencer;
    StepProjects(h, m, e, a);
    hide Step, Seq.Apply, FromPeer;
    var es := Project(a, e);
    if es == [] {
      assert out + [] == out;
    } else {
      RunSingle(s, es[0]);
      DenseApply(s, es[0], out);
    }
  }

  /** What `b` delivered from `a`, and its cursor, across one action of `b`. */
  lemma DenseActor(h: Headers, m: Manager, e: Event, a: PeerId, log: seq<Packet>)
    requires WellFormed(m) && Fits(m, e)
    requires forall q :: q in log ==> q.peerId in m.peers
    requires Dense(FromPeer(log, a), if a in m.peers then m.peers[a].sequencer.next else 0)
    requires a in m.peers && e.input.SequencerTick? ==> !Seq.Flushes(m.peers[a].sequencer, Seq.Tick(e.now))
    ensures var r := Step(h, m, e);
            Dense(FromPeer(log + r.delivered, a), if a in r.state.peers then r.state.peers[a].sequencer.next else 0)
  {
    DeliveredKnown(h, m, e);
    hide Step, FromPeer;
    var r := Step(h, m, e);
    if a in m.peers {
      FromPeerConcat(log, r.delivered, a);
      DenseStep(h, m, e, a, FromPeer(log, a));
    } else {
      FromPeerNone(log + r.delivered, a);
      if a in r.state.peers {
        NewPeerStartsFresh(h, m, e, a);
      }
    }
  }

  lemma DensePerform(t: Topology, h: Headers, s: State, act: Action, a: PeerId, b: PeerId)
    requires Inv(t, s) && Enabled(t, s, act) && b in s.nodes
    requires Dense(Output(s, a, b), Cursor(s, a, b)) && !JumpsAt(s, act, a, b)
    ensures Dense(Output(Perform(h, s, act), a, b), Cursor(Perform(h, s, act), a, b))
  {
    hide Perform, Step, FromPeer, Dense, Deliverable, Fits, WiresOk, CountersOk;
    PerformNode(t, h, s, act, b);
    assert NodeInv(t, s, b);
    if act.node == b {
      DenseActor(h, s.nodes[b], act.event, a, s.logs[b]);
    } else {
      assert Perform(h, s, act).logs[b] == s.logs[b];
    }
  }

  lemma {:induction false} DenseExec(t: Topology, h: Headers, s: State, acts: seq<Action>, a: PeerId, b: PeerId)
    requires Inv(t, s) && IsExecution(t, h, s, acts) && b in s.nodes
    requires Dense(Output(s, a, b), Cursor(s, a, b)) && NeverJumps(t, h, s, acts, a, b)
    ensures Dense(Output(Exec(t, h, s, acts), a, b), Cursor(Exec(t, h, s, acts), a, b))
    decreases acts
  {
    hide Inv, Dense, Output, Cursor, JumpsAt, Perform;
    if acts != [] {
      InvStep(t, h, s, acts[0]);
      DensePerform(t, h, s, acts[0], a, b);
      PerformNode(t, h, s, acts[0], b);
      DenseExec(t, h, Perform(h, s, acts[0]), acts[1..], a, b);
    }
  }

  // ---------- the fate of one number ----------

  /** A number of a stream at its receiver: not seen yet, pending or delivered, or passed by without being delivered. */
  datatype Fate = ToCome | Held | Lost

  ghost function FateOf(x: Seq.State, out: seq<Packet>, k: nat): Fate {
    if k in x.queue || k in Seq.SeqNrs(out) then Held else if x.next <= k then ToCome else Lost
  }

  /** Only a number that is still to come has its fate before it: its first copy or a jump decides. */
  function Decide(f: Fate, brings: bool, jumps: bool): Fate {
    if f != ToCome then f else if brings then Held else if jumps then Lost else ToCome
  }

  lemma FateApply(x: Seq.State, e: Seq.Event, out: seq<Packet>, k: nat)
    requires Seq.Valid(x) && Seq.Quiescent(x)
    requires forall p :: p in out ==> p.seqNr < x.next
    ensures FateOf(Seq.Apply(x, e).state, out + Seq.Apply(x, e).out, k)
            == Decide(FateOf(x, out, k), e.Arrival? && e.packet.seqNr == k, SequencerRuns.JumpsOver(x, e, k))
  {
    hide Seq.Apply;
    var r := Seq.Apply(x, e);
    Seq.ApplyOrderly(x, e);
    SequencerRuns.ApplyQueue(x, e);
    SequencerRuns.SeqNrsConcat(out, r.out);
    if FateOf(x, out, k) == ToCome && !(e.Arrival? && e.packet.seqNr == k) {
      if SequencerRuns.JumpsOver(x, e, k) {
        Seq.FlushDelivers(x, e);
      } else {
        SequencerRuns.StillToCome(x, e, k);
      }
    }
  }

  /** The sequencer for `a`, or the one `a` would start with. */
  ghost function Receiver(m: Manager, a: PeerId): Seq.State {
    if a in m.peers then m.peers[a].sequencer else Seq.Fresh(DEADLINE, 0)
  }

  ghost predicate BringsTo(m: Manager, e: Event, a: PeerId, k: nat) {
    a in m.peers && exists p, source :: e.input == Udp(Some(Data(p)), source) && p.peerId == a && p.seqNr == k
  }

  ghost predicate JumpsIn(m: Manager, e: Event, a: PeerId, k: nat) {
    a in m.peers && e.input.SequencerTick? && SequencerRuns.JumpsOver(m.peers[a].sequencer, Seq.Tick(e.now), k)
  }

  lemma FateProjected(m: Manager, e: Event, a: PeerId, out: seq<Packet>, k: nat)
    requires WellFormed(m) && a in m.peers && forall p :: p in out ==> p.seqNr < m.peers[a].sequencer.next
    ensures var x := m.peers[a].sequencer;
            var r := Seq.Run(x, Project(a, e));
            FateOf(r.state, out + r.out, k) == Decide(FateOf(x, out, k), BringsTo(m, e, a, k), JumpsIn(m, e, a, k))
  {
    hide Seq.Apply, FateOf;
    var x, es := m.peers[a].sequencer, Project(a, e);
    if es == [] {
      assert out + [] == out;
    } else {
      RunSingle(x, es[0]);
      FateApply(x, es[0], out, k);
      assert e.input.SequencerTick? ==> es[0] == Seq.Tick(e.now);
      assert BringsTo(m, e, a, k) <==> es[0].Arrival? && es[0].packet.seqNr == k;
      assert JumpsIn(m, e, a, k) <==> SequencerRuns.JumpsOver(x, es[0], k);
    }
  }

  /** One event at the receiver. */
  lemma FateStep(h: Headers, m: Manager, e: Event, a: PeerId, log: seq<Packet>, k: nat)
    requires WellFormed(m) && Fits(m, e)
    requires forall q :: q in log ==> q.peerId in m.peers
    requires a in m.peers ==> forall p :: p in FromPeer(log, a) ==> p.seqNr < m.peers[a].sequencer.next
    ensures FateOf(Receiver(Step(h, m, e).state, a), FromPeer(log + Step(h, m, e).delivered, a), k)
            == Decide(FateOf(Receiver(m, a), FromPeer(log, a), k), BringsTo(m, e, a, k), JumpsIn(m, e, a, k))
  {
    var r := Step(h, m, e);
    if a in m.peers {
      hide Step, FromPeer, FateOf, Seq.Run, WellFormed, BringsTo, JumpsIn, Project;
      StepProjects(h, m, e, a);
      FromPeerConcat(log, r.delivered, a);
      FateProjected(m, e, a, FromPeer(log, a), k);
    } else {
      DeliveredKnown(h, m, e);
      FromPeerNone(log, a);
      FromPeerNone(log + r.delivered, a);
      hide Step, FromPeer, WellFormed, Fits;
      if a in r.state.peers {
        NewPeerStartsFresh(h, m, e, a);
      }
    }
  }

  ghost function FateAt(s: State, a: PeerId, b: PeerId, k: nat): Fate
  {
    if b in s.nodes then FateOf(Receiver(s.nodes[b], a), Output(s, a, b), k) else ToCome
  }

  /** A flush of `b` moves the cursor of its sequencer for `a` over `k`. */
  ghost predicate JumpsNumber(s: State, act: Action, a: PeerId, b: PeerId, k: nat)
    requires b in s.nodes
  {
    act.node == b && JumpsIn(s.nodes[b], act.event, a, k)
  }

  lemma FatePerform(t: Topology, h: Headers, s: State, act: Action, a: PeerId, b: PeerId, k: nat)
    requires Inv(t, s) && Enabled(t, s, act) && b in s.nodes
    ensures b in Perform(h, s, act).nodes
    ensures FateAt(Perform(h, s, act), a, b, k)
            == Decide(FateAt(s, a, b, k), Brings(s, act, a, b, k), JumpsNumber(s, act, a, b, k))
  {
    assert NodeInv(t, s, b);
    hide Inv, Perform, Step, FromPeer, FateOf, Receiver, JumpsIn, Deliverable, Fits, OnStream, CountersOk;
    PerformNode(t, h, s, act, b);
    if act.node == b {
      assert WellFormed(s.nodes[b]);
      hide Good;
      FateStep(h, s.nodes[b], act.event, a, s.logs[b], k);
    } else {
      assert Perform(h, s, act).logs[b] == s.logs[b];
    }
  }

  /** A flush of `b` moves the cursor over number `k` of `a` before a copy of it reaches `b`. */
  ghost predicate SkippedFirst(t: Topology, h: Headers, s: State, acts: seq<Action>, a: PeerId, b: PeerId, k: nat)
    requires IsExecution(t, h, s, acts) && b in s.nodes
    decreases acts
  {
    && acts != [] && !Brings(s, acts[0], a, b, k)
    && (JumpsNumber(s, acts[0], a, b, k) || SkippedFirst(t, h, Perform(h, s, acts[0]), acts[1..], a, b, k))
  }

  lemma {:induction false} FateExec(t: Topology, h: Headers, s: State, acts: seq<Action>, a: PeerId, b: PeerId, k: nat)
    requires Inv(t, s) && IsExecution(t, h, s, acts) && b in s.nodes
    ensures FateAt(Exec(t, h, s, acts), a, b, k)
            == Decide(FateAt(s, a, b, k), !SkippedFirst(t, h, s, acts, a, b, k) && Arrives(t, h, s, acts, a, b, k),
                      SkippedFirst(t, h, s, acts, a, b, k))
    decreases acts
  {
    hide Inv, FateAt, Brings, JumpsNumber, Perform;
    if acts != [] {
      InvStep(t, h, s, acts[0]);
      FatePerform(t, h, s, acts[0], a, b, k);
      FateExec(t, h, Perform(h, s, acts[0]), acts[1..], a, b, k);
    }
  }

  /**
   * The exact loss condition end to end, at every point of every execution: number `k` of `a` was passed by at `b` without
   * being delivered exactly when a flush of `b` jumped it before a first copy reached `b`; otherwise it is delivered or
   * pending exactly when a copy reached `b` after `b` knew `a`. No later copy changes that.
   */
  lemma NumberFate(t: Topology, h: Headers, s: State, acts: seq<Action>, a: PeerId, b: PeerId, k: nat)
    requires Init(t, s) && IsExecution(t, h, s, acts) && b in s.nodes
    ensures FateAt(Exec(t, h, s, acts), a, b, k)
            == if SkippedFirst(t, h, s, acts, a, b, k) then Lost
               else if Arrives(t, h, s, acts, a, b, k) then Held else ToCome
  {
    StartsToCome(t, s, a, b, k);
    InitOk(t, s);
    hide Init, Inv, IsExecution, Exec, FateAt, SkippedFirst, Arrives;
    FateExec(t, h, s, acts, a, b, k);
  }

  lemma StartsToCome(t: Topology, s: State, a: PeerId, b: PeerId, k: nat)
    requires Init(t, s) && b in s.nodes
    ensures FateAt(s, a, b, k) == ToCome
  {
    assert Starts(t, b, s.nodes[b], s.clocks[b]);
    StartIsGood(b, t.tunIp[b], t.seeds[b], s.clocks[b]);
    hide Seed, Good;
    assert a in s.nodes[b].peers ==> JustSeeded(s.nodes[b].peers[a], s.clocks[b]);
  }

  // ---------- loss masking ----------

  /** The cursor has passed every number below `n` if none is still to come, since nothing pending is deliverable. */
  lemma CursorReaches(t: Topology, s: State, a: PeerId, b: PeerId, n: nat)
    requires Inv(t, s) && b in s.nodes
    requires forall k :: 0 <= k < n ==> FateAt(s, a, b, k) != ToCome
    ensures n <= Cursor(s, a, b)
  {
    hide Inv, Faithful, FromPeer, OnStream, FateOf, NodeInv, Stream;
    DeliveriesOk(t, s, a, b);
    if a in s.nodes[b].peers {
      LinkQuiescent(t, s, a, b);
    }
    CursorToCome(Receiver(s.nodes[b], a), Output(s, a, b));
    assert FateAt(s, a, b, Cursor(s, a, b)) == ToCome;
  }

  lemma LinkQuiescent(t: Topology, s: State, a: PeerId, b: PeerId)
    requires Inv(t, s) && b in s.nodes && a in s.nodes[b].peers
    ensures Seq.Quiescent(s.nodes[b].peers[a].sequencer)
  {
    assert NodeInv(t, s, b);
    hide Inv, LinksOk, CountersOk, RoutesOk, Owned;
    GoodPeer(s.nodes[b], s.clocks[b], a);
  }

  lemma CursorToCome(x: Seq.State, out: seq<Packet>)
    requires Seq.Quiescent(x) && forall p :: p in out ==> p.seqNr < x.next
    ensures FateOf(x, out, x.next) == ToCome
  {
  }

  /**
   * Loss masking: if no deadline flush of `b` skips a number of `a`, the output of `b` from `a` is a gap-free prefix of
   * the stream; and if at least one copy of each of the first `n` packets arrives after `b` knows `a`, in any order and
   * multiplicity and over any path, that prefix contains the first `n` frames.
   */
  lemma CopiesMaskLoss(t: Topology, h: Headers, s: State, acts: seq<Action>, a: PeerId, b: PeerId, n: nat)
    requires Init(t, s) && IsExecution(t, h, s, acts) && b in s.nodes
    requires NeverJumps(t, h, s, acts, a, b)
    requires forall k :: 0 <= k < n ==> Arrives(t, h, s, acts, a, b, k)
    ensures var out, stream := Output(Exec(t, h, s, acts), a, b), Stream(Exec(t, h, s, acts).streams, a, b);
            && n <= |out| <= |stream|
            && (forall i :: 0 <= i < |out| ==> out[i].bytes == stream[i])
  {
    hide Inv, IsExecution, Exec, Output, Cursor, FateAt, NeverJumps, Arrives, SkippedFirst, Starts, Dense, TopologyOk;
    InitOk(t, s);
    StartsEmpty(t, s, a, b);
    DenseExec(t, h, s, acts, a, b);
    ExecOk(t, h, s, acts);
    forall k | 0 <= k < n
      ensures FateAt(Exec(t, h, s, acts), a, b, k) != ToCome
    {
      FateExec(t, h, s, acts, a, b, k);
    }
    PrefixFrom(t, Exec(t, h, s, acts), a, b, n);
  }

  lemma StartsEmpty(t: Topology, s: State, a: PeerId, b: PeerId)
    requires Init(t, s) && b in s.nodes
    ensures Dense(Output(s, a, b), Cursor(s, a, b))
  {
    assert Starts(t, b, s.nodes[b], s.clocks[b]);
    StartIsGood(b, t.tunIp[b], t.seeds[b], s.clocks[b]);
    hide Seed, Good;
    assert a in s.nodes[b].peers ==> JustSeeded(s.nodes[b].peers[a], s.clocks[b]);
  }

  lemma PrefixFrom(t: Topology, s: State, a: PeerId, b: PeerId, n: nat)
    requires Inv(t, s) && Dense(Output(s, a, b), Cursor(s, a, b))
    requires b in t.tunIp && forall k :: 0 <= k < n ==> FateAt(s, a, b, k) != ToCome
    ensures var out, stream := Output(s, a, b), Stream(s.streams, a, b);
            && n <= |out| <= |stream|
            && (forall i :: 0 <= i < |out| ==> out[i].bytes == stream[i])
  {
    hide FateAt, WiresOk, NodeInv, FromPeer, Stream, LinkOk, Faithful, Dense;
    CursorReaches(t, s, a, b, n);
    DeliveriesOk(t, s, a, b);
    DenseIsPrefix(a, Output(s, a, b), Cursor(s, a, b), Stream(s.streams, a, b));
  }

  lemma DenseIsPrefix(a: PeerId, out: seq<Packet>, next: nat, stream: seq<Bytes>)
    requires Dense(out, next) && Faithful(a, out, stream)
    ensures next == |out| <= |stream| && forall i :: 0 <= i < |out| ==> out[i].bytes == stream[i]
  {
    if out != [] {
      assert out[|out| - 1].seqNr == |out| - 1;
    }
  }

  // ---------- a skip is never made up for ----------

  /** Some number below the cursor was never delivered. */
  ghost predicate Sparse(out: seq<Packet>, next: nat) {
    |out| < next
  }

  lemma SparseApply(s: Seq.State, e: Seq.Event, out: seq<Packet>)
    requires Seq.Valid(s) && Seq.Quiescent(s) && |out| <= s.next
    requires |out| < s.next || Seq.Flushes(s, e)
    ensures Sparse(out + Seq.Apply(s, e).out, Seq.Apply(s, e).state.next)
  {
    var before := if e.Arrival? then Seq.Insert(s, e.packet) else Seq.Advance(s);
    Seq.DrainFacts(before, e.now);
    hide Seq.Drain;
  }

  lemma SparseActor(h: Headers, m: Manager, e: Event, a: PeerId, log: seq<Packet>)
    requires WellFormed(m) && Fits(m, e) && a in m.peers
    requires |FromPeer(log, a)| <= m.peers[a].sequencer.next
    requires || |FromPeer(log, a)| < m.peers[a].sequencer.next
             || (e.input.SequencerTick? && Seq.Flushes(m.peers[a].sequencer, Seq.Tick(e.now)))
    ensures a in Step(h, m, e).state.peers
    ensures Sparse(FromPeer(log + Step(h, m, e).delivered, a), Step(h, m, e).state.peers[a].sequencer.next)
  {
    StepProjects(h, m, e, a);
    FromPeerConcat(log, Step(h, m, e).delivered, a);
    hide Step, Seq.Apply, FromPeer;
    var es := Project(a, e);
    if es != [] {
      RunSingle(m.peers[a].sequencer, es[0]);
      SparseApply(m.peers[a].sequencer, es[0], FromPeer(log, a));
    }
  }

  lemma SparsePerform(t: Topology, h: Headers, s: State, act: Action, a: PeerId, b: PeerId)
    requires Inv(t, s) && Enabled(t, s, act) && b in s.nodes
    requires Sparse(Output(s, a, b), Cursor(s, a, b)) || (|Output(s, a, b)| <= Cursor(s, a, b) && JumpsAt(s, act, a, b))
    ensures Sparse(Output(Perform(h, s, act), a, b), Cursor(Perform(h, s, act), a, b))
  {
    hide Perform, Step, FromPeer, Deliverable, Fits, WiresOk, CountersOk;
    PerformNode(t, h, s, act, b);
    assert NodeInv(t, s, b);
    if act.node == b {
      SparseActor(h, s.nodes[b], act.event, a, s.logs[b]);
    } else {
      assert Perform(h, s, act).logs[b] == s.logs[b];
    }
  }

  lemma {:induction false} SparseExec(t: Topology, h: Headers, s: State, acts: seq<Action>, a: PeerId, b: PeerId)
    requires Inv(t, s) && IsExecution(t, h, s, acts) && b in s.nodes
    requires || Sparse(Output(s, a, b), Cursor(s, a, b))
             || (Dense(Output(s, a, b), Cursor(s, a, b)) && !NeverJumps(t, h, s, acts, a, b))
    ensures Sparse(Output(Exec(t, h, s, acts), a, b), Cursor(Exec(t, h, s, acts), a, b))
    decreases acts
  {
    hide Inv, Output, Cursor, JumpsAt, Perform;
    if acts != [] {
      InvStep(t, h, s, acts[0]);
      if Sparse(Output(s, a, b), Cursor(s, a, b)) || JumpsAt(s, acts[0], a, b) {
        SparsePerform(t, h, s, acts[0], a, b);
      } else {
        DensePerform(t, h, s, acts[0], a, b);
      }
      PerformNode(t, h, s, acts[0], b);
      SparseExec(t, h, Perform(h, s, acts[0]), acts[1..], a, b);
    }
  }

  /** The output of `b` from `a` is gap-free exactly when no deadline flush of `b` ever jumped a hole of `a`. */
  lemma GapFreeExactly(t: Topology, h: Headers, s: State, acts: seq<Action>, a: PeerId, b: PeerId)
    requires Init(t, s) && IsExecution(t, h, s, acts) && b in s.nodes
    ensures Dense(Output(Exec(t, h, s, acts), a, b), Cursor(Exec(t, h, s, acts), a, b)) <==> NeverJumps(t, h, s, acts, a, b)
  {
    InitOk(t, s);
    StartsEmpty(t, s, a, b);
    hide Init, Inv, IsExecution, Exec, Output, Cursor, NeverJumps;
    if NeverJumps(t, h, s, acts, a, b) {
      DenseExec(t, h, s, acts, a, b);
    } else {
      SparseExec(t, h, s, acts, a, b);
    }
  }
}
