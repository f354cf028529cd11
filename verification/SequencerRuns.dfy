/**
 * What the sequencer guarantees over whole runs, whatever arrives: conservation and the exact loss
 * condition, flush behaviour, skip rate and bounded waiting.
 */
module SequencerRuns {
  import opened Messages
  import opened SequencerSpec

  // ---------- conservation ----------

  /** The packet an event files, if any: an arrival that is neither late nor a copy of a pending one. */
  function Filed(s: State, e: Event): set<Packet> {
    if e.Arrival? && s.next <= e.packet.seqNr && e.packet.seqNr !in s.queue then {e.packet} else {}
  }

  /** The packets filed during a run. */
  function Accepted(s: State, es: seq<Event>): set<Packet>
    decreases es
  {
    if es == [] then {} else Filed(s, es[0]) + Accepted(Apply(s, es[0]).state, es[1..])
  }

  function PacketSet(ps: seq<Packet>): set<Packet> {
    set p | p in ps
  }

  /** One event conserves packets: what was pending or is filed is pending or delivered afterwards, unaltered. */
  lemma ApplyQueue(s: State, e: Event)
    requires Valid(s) && Quiescent(s)
    ensures var r := Apply(s, e);
            && s.queue.Values + Filed(s, e) == r.state.queue.Values + PacketSet(r.out)
            && (forall k :: k in r.state.queue || k in SeqNrs(r.out) <==>
                  k in s.queue || (e.Arrival? && k == e.packet.seqNr && s.next <= k))
  {
    match e
    case Arrival(now, p) =>
      DrainContent(Insert(s, p), now);
      hide Drain, SeqNrs, PacketSet;
      if Filed(s, e) == {p} {
        FiledContent(s.queue, p);
      }
    case Tick(now) =>
      DrainContent(Advance(s), now);
      hide Drain, SeqNrs;
  }

  lemma FiledContent(q: map<nat, Packet>, p: Packet)
    requires p.seqNr !in q
    ensures q[p.seqNr := p].Values == q.Values + {p}
  {
    var q' := q[p.seqNr := p];
    forall x | x in q.Values + {p}
      ensures x in q'.Values
    {
      if x in q.Values {
        var k :| k in q && q[k] == x;
        assert q'[k] == x;
      } else {
        assert q'[p.seqNr] == x;
      }
    }
  }

  lemma DrainContent(s: State, now: nat)
    requires Valid(s) && forall k :: k in s.queue ==> s.next <= k
    ensures var r := Drain(s, now);
            && s.queue.Values == r.state.queue.Values + PacketSet(r.out)
            && (forall k :: k in r.state.queue || k in SeqNrs(r.out) <==> k in s.queue)
  {
    var r := Drain(s, now);
    DrainFacts(s, now);
    hide Drain;
    forall p | p in s.queue.Values
      ensures p in r.state.queue.Values + PacketSet(r.out)
    {
      var k :| k in s.queue && s.queue[k] == p;
      assert k < r.state.next ==> r.out[k - s.next] == p;
    }
  }

  lemma SeqNrsConcat(a: seq<Packet>, b: seq<Packet>)
    ensures SeqNrs(a + b) == SeqNrs(a) + SeqNrs(b)
  {
    forall k | k in SeqNrs(a) + SeqNrs(b)
      ensures k in SeqNrs(a + b)
    {
      var p :| (p in a || p in b) && p.seqNr == k;
      assert p in a + b;
    }
  }

  /** The facts of one event hold of a whole run. */
  lemma {:induction false} RunOrderly(s: State, es: seq<Event>)
    requires Valid(s) && Quiescent(s)
    ensures var r := Run(s, es);
            && Valid(r.state) && Quiescent(r.state) && r.state.deadline == s.deadline
            && s.next <= r.state.next
            && Increasing(r.out)
            && (forall p :: p in r.out ==> s.next <= p.seqNr < r.state.next)
    decreases es
  {
    hide Apply;
    if es != [] {
      ApplyOrderly(s, es[0]);
      RunOrderly(Apply(s, es[0]).state, es[1..]);
    }
  }

  /**
   * At every point of every run the packets pending at the start and the ones filed since are, unaltered, the
   * disjoint union of the pending and the delivered ones: nothing is lost and nothing comes from nowhere. What is
   * filed was not pending at the start; what is pending is above the cursor, what was delivered is below it, and
   * deliveries are in increasing order without repetition.
   */
  lemma Conservation(s: State, es: seq<Event>)
    requires Valid(s) && Quiescent(s)
    ensures s.queue.Values + Accepted(s, es) == Run(s, es).state.queue.Values + PacketSet(Run(s, es).out)
    ensures forall p :: p in Accepted(s, es) ==> s.next <= p.seqNr && p.seqNr !in s.queue
    ensures var r := Run(s, es);
            && r.state.queue.Keys !! SeqNrs(r.out)
            && (forall k :: k in r.state.queue ==> r.state.next < k)
            && (forall k :: k in SeqNrs(r.out) ==> s.next <= k < r.state.next)
            && Increasing(r.out)
  {
    hide Apply, Run, Accepted;
    PacketsConserved(s, es);
    AcceptedIsNew(s, es);
    RunOrderly(s, es);
  }

  lemma {:induction false} PacketsConserved(s: State, es: seq<Event>)
    requires Valid(s) && Quiescent(s)
    ensures s.queue.Values + Accepted(s, es) == Run(s, es).state.queue.Values + PacketSet(Run(s, es).out)
    decreases es
  {
    hide Apply, Filed;
    if es != [] {
      var first := Apply(s, es[0]);
      ApplyOrderly(s, es[0]);
      ApplyQueue(s, es[0]);
      var last := Run(first.state, es[1..]);
      PacketsConserved(first.state, es[1..]);
      assert PacketSet(first.out + last.out) == PacketSet(first.out) + PacketSet(last.out);
    }
  }

  lemma {:induction false} AcceptedIsNew(s: State, es: seq<Event>)
    requires Valid(s) && Quiescent(s)
    ensures forall p :: p in Accepted(s, es) ==> s.next <= p.seqNr && p.seqNr !in s.queue
    decreases es
  {
    hide Apply;
    if es != [] {
      ApplyOrderly(s, es[0]);
      AcceptedIsNew(Apply(s, es[0]).state, es[1..]);
    }
  }

  // ---------- exact loss condition ----------

  /** Does a copy of number `k` arrive during the run? */
  predicate Arrives(es: seq<Event>, k: nat) {
    exists i :: 0 <= i < |es| && es[i].Arrival? && es[i].packet.seqNr == k
  }

  /** A deadline flush that moves the cursor over `k`. */
  predicate JumpsOver(s: State, e: Event, k: nat) {
    Flushes(s, e) && s.next <= k < MinKey(s.queue)
  }

  /** Some flush before the first copy of `k` moves the cursor over `k`. */
  predicate SkippedBeforeFirstCopy(s: State, es: seq<Event>, k: nat)
    decreases es
  {
    es != []
    && !(es[0].Arrival? && es[0].packet.seqNr == k)
    && (JumpsOver(s, es[0], k) || SkippedBeforeFirstCopy(Apply(s, es[0]).state, es[1..], k))
  }

  /** A number the cursor has passed without delivering it is never delivered or queued later. */
  lemma PassedIsGone(s: State, es: seq<Event>, k: nat)
    requires Valid(s) && Quiescent(s) && k < s.next
    ensures k !in Run(s, es).state.queue && k !in SeqNrs(Run(s, es).out)
  {
    RunOrderly(s, es);
  }

  /** A pending number stays pending until it is delivered. */
  lemma PendingIsKept(s: State, es: seq<Event>, k: nat)
    requires Valid(s) && Quiescent(s) && k in s.queue
    ensures k in Run(s, es).state.queue || k in SeqNrs(Run(s, es).out)
  {
    Conservation(s, es);
    RunOrderly(s, es);
    assert s.queue[k] in Run(s, es).state.queue.Values + PacketSet(Run(s, es).out);
  }

  /** One event that neither brings `k` nor jumps over it leaves `k` still to come. */
  lemma StillToCome(s: State, e: Event, k: nat)
    requires Valid(s) && Quiescent(s) && s.next <= k && k !in s.queue
    requires !(e.Arrival? && e.packet.seqNr == k) && !JumpsOver(s, e, k)
    ensures var r := Apply(s, e); r.state.next <= k && k !in r.state.queue && k !in SeqNrs(r.out)
  {
    var before := if e.Arrival? then Insert(s, e.packet) else Advance(s);
    DrainFacts(before, e.now);
    assert k !in before.queue;
    assert e.Tick? && DeadlineExceeded(s, e.now) ==> before.next <= k;
  }

  /**
   * A number that is still to come and does reach the sequencer goes missing exactly when a flush moved
   * the cursor over it before its first copy arrived; otherwise it is delivered or pending.
   */
  lemma {:induction false} LossExactly(s: State, es: seq<Event>, k: nat)
    requires Valid(s) && Quiescent(s) && s.next <= k && k !in s.queue
    requires Arrives(es, k)
    ensures k !in Run(s, es).state.queue && k !in SeqNrs(Run(s, es).out) <==> SkippedBeforeFirstCopy(s, es, k)
    decreases es
  {
    hide Apply;
    var e, rest := es[0], es[1..];
    var first := Apply(s, e);
    ApplyOrderly(s, e);
    ApplyQueue(s, e);
    SeqNrsConcat(first.out, Run(first.state, rest).out);
    if e.Arrival? && e.packet.seqNr == k {
      if k in first.state.queue {
        PendingIsKept(first.state, rest, k);
      }
    } else if JumpsOver(s, e, k) {
      FlushDelivers(s, e);
      PassedIsGone(first.state, rest, k);
    } else {
      StillToCome(s, e, k);
      var i :| 0 <= i < |es| && es[i].Arrival? && es[i].packet.seqNr == k;
      assert rest[i - 1] == es[i];
      LossExactly(first.state, rest, k);
    }
  }

  // ---------- what a flush releases ----------

  predicate StartsRun(keys: set<nat>, k: nat) {
    k in keys && (k == 0 || k - 1 !in keys)
  }

  /** The first numbers of the maximal contiguous runs of `keys`; there are as many as there are runs. */
  function RunStarts(keys: set<nat>): set<nat> {
    set k | k in keys && StartsRun(keys, k)
  }

  /** How many flushes take effect during a run. */
  function FlushCount(s: State, es: seq<Event>): nat
    decreases es
  {
    if es == [] then 0
    else (if Flushes(s, es[0]) then 1 else 0) + FlushCount(Apply(s, es[0]).state, es[1..])
  }

  /**
   * A flush delivers the maximal contiguous run that starts at the smallest pending number, all of it and
   * nothing else, and lowers the number of pending runs by exactly one.
   */
  lemma FlushReleasesFirstRun(s: State, e: Event)
    requires Valid(s) && Quiescent(s) && Flushes(s, e)
    ensures var r, k := Apply(s, e), MinKey(s.queue);
            && r.out != [] && r.state.next == k + |r.out|
            && (forall i :: 0 <= i < |r.out| ==> k + i in s.queue && r.out[i] == s.queue[k + i])
            && k + |r.out| !in s.queue
            && r.state.queue.Keys == s.queue.Keys - SeqNrs(r.out)
            && RunStarts(r.state.queue.Keys) == RunStarts(s.queue.Keys) - {k}
            && |RunStarts(r.state.queue.Keys)| == |RunStarts(s.queue.Keys)| - 1
  {
    var r, k := Apply(s, e), MinKey(s.queue);
    DrainFacts(Advance(s), e.now);
    FlushDelivers(s, e);
    assert k in RunStarts(s.queue.Keys);
    forall j | j in RunStarts(s.queue.Keys) && j != k
      ensures j in RunStarts(r.state.queue.Keys)
    {
      assert j < r.state.next ==> j - 1 in s.queue;
    }
    forall j | j in RunStarts(r.state.queue.Keys)
      ensures j in RunStarts(s.queue.Keys) && j != k
    {
      assert j != r.state.next;
    }
    assert RunStarts(r.state.queue.Keys) == RunStarts(s.queue.Keys) - {k};
  }

  lemma TickKeepsContent(s: State, e: Event)
    requires Valid(s) && Quiescent(s) && e.Tick?
    ensures forall p :: p in Apply(s, e).out ==> p.seqNr in s.queue && p == s.queue[p.seqNr]
  {
    DrainFacts(Advance(s), e.now);
  }

  /** One tick removes one run if it flushes and does nothing at all otherwise. */
  lemma TickRuns(s: State, e: Event)
    requires Valid(s) && Quiescent(s) && e.Tick?
    ensures |RunStarts(Apply(s, e).state.queue.Keys)| == |RunStarts(s.queue.Keys)| - if Flushes(s, e) then 1 else 0
  {
    if Flushes(s, e) {
      FlushReleasesFirstRun(s, e);
    } else {
      assert From(s.queue, s.next) == s.queue;
    }
  }

  lemma {:induction false} FlushesRemoveRuns(s: State, es: seq<Event>)
    requires Valid(s) && Quiescent(s)
    requires forall i :: 0 <= i < |es| ==> es[i].Tick?
    ensures |RunStarts(Run(s, es).state.queue.Keys)| == |RunStarts(s.queue.Keys)| - FlushCount(s, es)
    decreases es
  {
    hide Apply;
    if es != [] {
      TickRuns(s, es[0]);
      ApplyOrderly(s, es[0]);
      FlushesRemoveRuns(Apply(s, es[0]).state, es[1..]);
    }
  }

  lemma {:induction false} TicksKeepContent(s: State, es: seq<Event>)
    requires Valid(s) && Quiescent(s)
    requires forall i :: 0 <= i < |es| ==> es[i].Tick?
    ensures forall p :: p in Run(s, es).out ==> p.seqNr in s.queue && p == s.queue[p.seqNr]
    decreases es
  {
    hide Apply;
    if es != [] {
      TickKeepsContent(s, es[0]);
      ApplyOrderly(s, es[0]);
      ApplyQueue(s, es[0]);
      TicksKeepContent(Apply(s, es[0]).state, es[1..]);
    }
  }

  /**
   * Without arrivals, every effective flush removes one run; as many flushes as there are runs, and no
   * fewer, empty the queue, and then the output is the whole queue in increasing order.
   */
  lemma FlushesEmptyQueue(s: State, es: seq<Event>)
    requires Valid(s) && Quiescent(s)
    requires forall i :: 0 <= i < |es| ==> es[i].Tick?
    ensures |RunStarts(Run(s, es).state.queue.Keys)| == |RunStarts(s.queue.Keys)| - FlushCount(s, es)
    ensures Run(s, es).state.queue == map[] <==> FlushCount(s, es) == |RunStarts(s.queue.Keys)|
    ensures Increasing(Run(s, es).out)
    ensures forall p :: p in Run(s, es).out ==> p.seqNr in s.queue && p == s.queue[p.seqNr]
    ensures Run(s, es).state.queue == map[] ==> SeqNrs(Run(s, es).out) == s.queue.Keys
  {
    FlushesRemoveRuns(s, es);
    TicksKeepContent(s, es);
    Conservation(s, es);
    TicksAcceptNothing(s, es);
    hide Run, FlushCount, Accepted;
    var q := Run(s, es).state.queue;
    if q == map[] {
      SameNumbers(s.queue, Run(s, es).out);
    } else {
      assert StartsRun(q.Keys, MinKey(q));
      assert MinKey(q) in RunStarts(q.Keys);
    }
  }

  lemma SameNumbers(q: map<nat, Packet>, out: seq<Packet>)
    requires q.Values == PacketSet(out) && forall k :: k in q ==> q[k].seqNr == k
    ensures SeqNrs(out) == q.Keys
  {
    forall k | k in q
      ensures k in SeqNrs(out)
    {
      assert q[k] in PacketSet(out);
    }
    forall p | p in out
      ensures p.seqNr in q
    {
      assert p in q.Values;
    }
  }

  lemma {:induction false} TicksAcceptNothing(s: State, es: seq<Event>)
    requires Valid(s) && Quiescent(s)
    requires forall i :: 0 <= i < |es| ==> es[i].Tick?
    ensures Accepted(s, es) == {}
    decreases es
  {
    hide Apply;
    if es != [] {
      ApplyOrderly(s, es[0]);
      ApplyQueue(s, es[0]);
      TicksAcceptNothing(Apply(s, es[0]).state, es[1..]);
    }
  }

  // ---------- time ----------

  /** `n` times `d`, by repeated addition. */
  function Times(n: nat, d: nat): nat {
    if n == 0 then 0 else d + Times(n - 1, d)
  }

  lemma {:induction false} TimesIsProduct(n: nat, d: nat)
    ensures Times(n, d) == n * d
  {
    if n > 0 {
      TimesIsProduct(n - 1, d);
      assert n * d == (n - 1) * d + d;
    }
  }

  lemma {:induction false} TimesMonotone(m: nat, n: nat, d: nat)
    requires m <= n
    ensures Times(m, d) <= Times(n, d)
  {
    if m < n {
      TimesMonotone(m, n - 1, d);
    }
  }

  /** The clock starts at `t` and never goes back. */
  predicate Clocked(t: nat, es: seq<Event>)
    decreases es
  {
    es == [] || (t <= es[0].now && Clocked(es[0].now, es[1..]))
  }

  /** Ticks are at most `period` apart: no event lies more than `period` after the latest tick (or the start). */
  predicate TicksEvery(period: nat, latestTick: nat, es: seq<Event>)
    decreases es
  {
    es == []
    || (&& es[0].now <= latestTick + period
        && TicksEvery(period, if es[0].Tick? then es[0].now else latestTick, es[1..]))
  }

  lemma {:induction false} RunConcat(s: State, a: seq<Event>, b: seq<Event>)
    ensures Run(s, a + b).state == Run(Run(s, a).state, b).state
    ensures Run(s, a + b).out == Run(s, a).out + Run(Run(s, a).state, b).out
    decreases a
  {
    hide Apply;
    if a == [] {
      assert a + b == b;
    } else {
      var first := Apply(s, a[0]);
      var mid := Run(first.state, a[1..]);
      assert (a + b)[1..] == a[1..] + b;
      RunConcat(first.state, a[1..], b);
      assert first.out + (mid.out + Run(mid.state, b).out) == first.out + mid.out + Run(mid.state, b).out;
    }
  }

  /** The part of an event that concerns time. */
  lemma ApplyTime(s: State, e: Event)
    requires Valid(s) && Quiescent(s)
    ensures var x := Apply(s, e).state;
            && Valid(x) && Quiescent(x) && x.deadline == s.deadline
            && (x.lastUpdate == s.lastUpdate || x.lastUpdate == e.now)
            && (Flushes(s, e) ==> x.lastUpdate == e.now && e.now > s.lastUpdate + s.deadline)
  {
    ApplyOrderly(s, e);
    if Flushes(s, e) {
      FlushDelivers(s, e);
    }
  }

  lemma {:induction false} TimeStampMonotone(s: State, t: nat, es: seq<Event>)
    requires Valid(s) && Quiescent(s) && s.lastUpdate <= t && Clocked(t, es)
    ensures s.lastUpdate <= Run(s, es).state.lastUpdate
    decreases es
  {
    hide Apply;
    if es != [] {
      ApplyTime(s, es[0]);
      TimeStampMonotone(Apply(s, es[0]).state, es[0].now, es[1..]);
    }
  }

  lemma {:induction false} ClockedSlice(t: nat, es: seq<Event>, i: nat, j: nat)
    requires Clocked(t, es) && i < j <= |es|
    ensures t <= es[i].now && Clocked(es[i].now, es[i + 1..j])
    decreases es
  {
    if i > 0 {
      ClockedSlice(es[0].now, es[1..], i - 1, j - 1);
      assert es[1..][i..j - 1] == es[i + 1..j];
    } else {
      ClockedPrefix(es[0].now, es[1..], j - 1);
      assert es[1..][..j - 1] == es[1..j];
    }
  }

  lemma {:induction false} ClockedPrefix(t: nat, es: seq<Event>, j: nat)
    requires Clocked(t, es) && j <= |es|
    ensures Clocked(t, es[..j])
    decreases es
  {
    if j > 0 {
      ClockedPrefix(es[0].now, es[1..], j - 1);
      assert es[1..][..j - 1] == es[..j][1..];
    }
  }

  /** Two effective flushes of one sequencer are more than a deadline apart. */
  lemma SkipSpacing(s: State, t: nat, es: seq<Event>, i: nat, j: nat)
    requires Valid(s) && Quiescent(s) && Clocked(t, es) && i < j < |es|
    requires Flushes(Run(s, es[..i]).state, es[i])
    requires Flushes(Run(s, es[..j]).state, es[j])
    ensures es[j].now - es[i].now > s.deadline
  {
    hide Apply;
    var before := Run(s, es[..i]).state;
    var after := Apply(before, es[i]).state;
    RunOrderly(s, es[..i]);
    RunOrderly(s, es[..j]);
    ApplyTime(before, es[i]);
    ClockedSlice(t, es, i, j);
    TimeStampMonotone(after, es[i].now, es[i + 1..j]);
    assert Run(s, es[..j]).state == Run(after, es[i + 1..j]).state by {
      assert es[..j] == es[..i] + es[i..j];
      RunConcat(s, es[..i], es[i..j]);
      assert es[i..j][1..] == es[i + 1..j];
    }
  }

  /** Flushes are paid for by time that passed since the last delivery. */
  lemma {:induction false} FlushesCostTime(s: State, t: nat, es: seq<Event>, end: nat)
    requires Valid(s) && Quiescent(s) && Clocked(t, es) && s.lastUpdate <= t
    requires forall i :: 0 <= i < |es| ==> es[i].now <= end
    requires FlushCount(s, es) > 0
    ensures Times(FlushCount(s, es), s.deadline) < end - s.lastUpdate
    decreases es
  {
    hide Apply;
    var x := Apply(s, es[0]).state;
    ApplyTime(s, es[0]);
    var n := FlushCount(x, es[1..]);
    if n > 0 {
      FlushesCostTime(x, es[0].now, es[1..], end);
    }
  }

  /** All flushes but the first one are paid for by time inside the run. */
  lemma {:induction false} LaterFlushesCostTime(s: State, t: nat, es: seq<Event>, end: nat)
    requires Valid(s) && Quiescent(s) && Clocked(t, es) && s.lastUpdate <= t <= end
    requires forall i :: 0 <= i < |es| ==> es[i].now <= end
    requires FlushCount(s, es) > 0
    ensures Times(FlushCount(s, es) - 1, s.deadline) <= end - t
    decreases es
  {
    hide Apply;
    var x := Apply(s, es[0]).state;
    ApplyTime(s, es[0]);
    if !Flushes(s, es[0]) {
      LaterFlushesCostTime(x, es[0].now, es[1..], end);
    } else if FlushCount(x, es[1..]) > 0 {
      FlushesCostTime(x, es[0].now, es[1..], end);
    }
  }

  /** A stretch of time of length `end - t` sees at most (end - t) / deadline + 1 flushes. */
  lemma SkipRate(s: State, t: nat, es: seq<Event>, end: nat)
    requires Valid(s) && Quiescent(s) && Clocked(t, es) && s.lastUpdate <= t <= end
    requires forall i :: 0 <= i < |es| ==> es[i].now <= end
    requires s.deadline > 0
    ensures FlushCount(s, es) <= (end - t) / s.deadline + 1
  {
    hide FlushCount;
    if FlushCount(s, es) > 0 {
      LaterFlushesCostTime(s, t, es, end);
      TimesBound(FlushCount(s, es) - 1, s.deadline, end - t);
    }
  }

  lemma TimesBound(n: nat, d: nat, x: nat)
    requires d > 0 && Times(n, d) <= x
    ensures n <= x / d
  {
    TimesIsProduct(n, d);
    TimesIsProduct(x / d + 1, d);
    if x / d < n {
      TimesMonotone(x / d + 1, n, d);
    }
  }

  // ---------- bounded waiting ----------

  /**
   * While `k` waits it stays pending. The state after the first event either has a cursor closer to `k` and
   * the time of that event as its time stamp, or is as before in both, and then a tick was not overdue.
   */
  lemma StillWaiting(s: State, es: seq<Event>, i: nat, k: nat) returns (x: State)
    requires Valid(s) && Quiescent(s) && k in s.queue && 0 < i < |es|
    requires k !in SeqNrs(Run(s, es[..i]).out)
    ensures Valid(x) && Quiescent(x) && k in x.queue && x.deadline == s.deadline
    ensures k !in SeqNrs(Run(x, es[1..][..i - 1]).out)
    ensures || (x.next > s.next && x.lastUpdate == es[0].now)
            || (x.next == s.next && x.lastUpdate == s.lastUpdate
                && (es[0].Tick? ==> es[0].now <= s.lastUpdate + s.deadline))
  {
    var r := Apply(s, es[0]);
    x := r.state;
    ApplyOrderly(s, es[0]);
    assert es[..i][1..] == es[1..][..i - 1];
    SeqNrsConcat(r.out, Run(x, es[1..][..i - 1]).out);
    if Flushes(s, es[0]) {
      FlushDelivers(s, es[0]);
    }
  }

  lemma {:induction false} WaitFrom(s: State, es: seq<Event>, i: nat, k: nat, period: nat, base: nat, latestTick: nat)
    requires Valid(s) && Quiescent(s) && k in s.queue && i < |es|
    requires s.lastUpdate <= base && latestTick <= base + s.deadline
    requires TicksEvery(period, latestTick, es)
    requires k !in SeqNrs(Run(s, es[..i]).out)
    ensures es[i].now <= base + Times(k - s.next, s.deadline + period)
    decreases es
  {
    hide Run;
    var e, missing, step := es[0], k - s.next, s.deadline + period;
    assert e.now <= base + step <= base + Times(missing, step);
    if i > 0 {
      var x := StillWaiting(s, es, i, k);
      var base' := if x.next == s.next || e.now < base then base else e.now;
      WaitFrom(x, es[1..], i - 1, k, period, base', if e.Tick? then e.now else latestTick);
      if x.next > s.next {
        TimesMonotone(k - x.next, missing - 1, step);
      }
    }
  }

  /**
   * With ticks at most `period` apart, a pending packet numbered `k` is delivered within
   * (k - cursor) * (deadline + period), whatever else arrives: no event that happens while it is still
   * waiting, the one that delivers it included, lies beyond that bound.
   */
  lemma BoundedWait(s: State, es: seq<Event>, i: nat, k: nat, start: nat, period: nat)
    requires Valid(s) && Quiescent(s) && k in s.queue && i < |es|
    requires s.lastUpdate <= start && TicksEvery(period, start, es)
    requires k !in SeqNrs(Run(s, es[..i]).out)
    ensures es[i].now <= start + (k - s.next) * (s.deadline + period)
  {
    hide Run;
    WaitFrom(s, es, i, k, period, start, start);
    TimesIsProduct(k - s.next, s.deadline + period);
  }
}
