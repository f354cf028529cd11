/**
 * Between flushes the sequencer refines a set specification: what it delivers, keeps and waits for depends
 * only on which packets arrived, not on their order, grouping or multiplicity.
 */
module SequencerOrder {
  import opened Messages
  import opened SequencerSpec

  /** All arrivals filed first, with no delivery in between. */
  function InsertAll(s: State, es: seq<Event>): State
    decreases es
  {
    if es == [] then s
    else InsertAll(if es[0].Arrival? then Insert(s, es[0].packet) else s, es[1..])
  }

  ghost predicate ArrivalsOnly(es: seq<Event>) {
    forall e :: e in es ==> e.Arrival?
  }

  function Packets(es: seq<Event>): set<Packet> {
    set e | e in es && e.Arrival? :: e.packet
  }

  /** Equal numbers mean equal packets, among the pending ones and the arrivals together. */
  ghost predicate Consistent(s: State, ps: set<Packet>) {
    forall p, q :: p in s.queue.Values + ps && q in s.queue.Values + ps && p.seqNr == q.seqNr ==> p == q
  }

  lemma {:induction false} InsertAllKeeps(s: State, es: seq<Event>)
    requires Valid(s)
    ensures Valid(InsertAll(s, es)) && InsertAll(s, es).next == s.next
    ensures forall k :: k in s.queue ==> k in InsertAll(s, es).queue && InsertAll(s, es).queue[k] == s.queue[k]
    decreases es
  {
    if es != [] {
      InsertAllKeeps(if es[0].Arrival? then Insert(s, es[0].packet) else s, es[1..]);
    }
  }

  /** Delivering the packets below `m` early makes no difference to what later insertions leave above `m`. */
  lemma {:induction false} InsertAllAbove(s: State, x: State, es: seq<Event>)
    requires Valid(s) && Valid(x) && s.next <= x.next
    requires forall k :: s.next <= k < x.next ==> k in s.queue
    requires x.queue == From(s.queue, x.next)
    ensures InsertAll(x, es).queue == From(InsertAll(s, es).queue, x.next)
    decreases es
  {
    if es != [] {
      var s' := if es[0].Arrival? then Insert(s, es[0].packet) else s;
      var x' := if es[0].Arrival? then Insert(x, es[0].packet) else x;
      assert x'.queue == From(s'.queue, x.next);
      InsertAllAbove(s', x', es[1..]);
    }
  }

  /** Draining twice, around later insertions, is draining once after all of them. */
  lemma DrainSplits(q: map<nat, Packet>, all: map<nat, Packet>, n: nat, mid: nat)
    requires mid == Mex(q.Keys, n)
    requires forall k :: k in q ==> k in all && all[k] == q[k]
    ensures var rest := From(all, mid);
            var m := Mex(rest.Keys, mid);
            && Mex(all.Keys, n) == m
            && From(rest, m) == From(all, m)
            && Slice(q, n, mid) + Slice(rest, mid, m) == Slice(all, n, m)
  {
    var rest := From(all, mid);
    var m := Mex(rest.Keys, mid);
    forall k | n <= k < m
      ensures k in all
    {
      assert k < mid ==> k in q;
      assert k >= mid ==> k in rest;
    }
    assert m !in all;
    MexUnique(all.Keys, n, m);
  }

  /**
   * Refinement: after any arrivals the cursor is the least number that is neither pending at the start nor
   * among the arrivals, the output is everything below it in order, and the queue is the rest.
   */
  lemma {:induction false} ArrivalsRefineMex(s: State, es: seq<Event>)
    requires Valid(s) && Quiescent(s) && ArrivalsOnly(es)
    ensures var all := InsertAll(s, es).queue;
            var m := Mex(all.Keys, s.next);
            && Run(s, es).state.next == m
            && Run(s, es).state.queue == From(all, m)
            && Run(s, es).out == Slice(all, s.next, m)
    decreases es
  {
    if es == [] {
      assert From(s.queue, s.next) == s.queue;
    } else {
      var rest := es[1..];
      var s1 := Insert(s, es[0].packet);
      var x := Apply(s, es[0]).state;
      assert es[0] in es;
      DrainFacts(s1, es[0].now);
      ArrivalsRefineMex(x, rest);
      InsertAllAbove(s1, x, rest);
      InsertAllKeeps(s1, rest);
      DrainSplits(s1.queue, InsertAll(s1, rest).queue, s.next, x.next);
    }
  }

  /** Which numbers end up filed, and with which packets. */
  lemma {:induction false} InsertAllContents(s: State, es: seq<Event>)
    requires Valid(s) && ArrivalsOnly(es)
    ensures var q := InsertAll(s, es).queue;
            && (forall k :: k in q ==> q[k] in s.queue.Values + Packets(es))
            && (forall p :: p in Packets(es) && s.next <= p.seqNr ==> p.seqNr in q)
    decreases es
  {
    if es != [] {
      assert es[0] in es;
      var s1 := Insert(s, es[0].packet);
      InsertAllContents(s1, es[1..]);
      InsertAllKeeps(s1, es[1..]);
      assert Packets(es) == {es[0].packet} + Packets(es[1..]) by {
        assert es == [es[0]] + es[1..];
      }
      assert s1.queue.Values <= s.queue.Values + {es[0].packet};
    }
  }

  lemma SameKeys(s: State, a: seq<Event>, b: seq<Event>)
    requires Valid(s) && ArrivalsOnly(a) && ArrivalsOnly(b)
    requires Packets(a) == Packets(b)
    ensures InsertAll(s, a).queue.Keys <= InsertAll(s, b).queue.Keys
  {
    InsertAllContents(s, a);
    InsertAllContents(s, b);
    InsertAllKeeps(s, a);
    InsertAllKeeps(s, b);
    forall k | k in InsertAll(s, a).queue
      ensures k in InsertAll(s, b).queue
    {
      var p := InsertAll(s, a).queue[k];
      assert p.seqNr == k && p in s.queue.Values + Packets(a);
    }
  }

  /**
   * Any two arrival sequences that bring the same set of packets, with equal numbers meaning equal packets,
   * end with the same cursor, the same queue and the same output.
   */
  lemma OrderInsensitive(s: State, a: seq<Event>, b: seq<Event>)
    requires Valid(s) && Quiescent(s) && ArrivalsOnly(a) && ArrivalsOnly(b)
    requires Packets(a) == Packets(b) && Consistent(s, Packets(a))
    ensures Run(s, a).state.next == Run(s, b).state.next
    ensures Run(s, a).state.queue == Run(s, b).state.queue
    ensures Run(s, a).out == Run(s, b).out
  {
    hide Run;
    var qa, qb := InsertAll(s, a).queue, InsertAll(s, b).queue;
    SameKeys(s, a, b);
    SameKeys(s, b, a);
    InsertAllContents(s, a);
    InsertAllContents(s, b);
    InsertAllKeeps(s, a);
    InsertAllKeeps(s, b);
    assert qa == qb by {
      forall k | k in qa
        ensures qa[k] == qb[k]
      {
        assert qa[k].seqNr == k && qb[k].seqNr == k;
      }
    }
    ArrivalsRefineMex(s, a);
    ArrivalsRefineMex(s, b);
  }

  function Numbers(ps: set<Packet>): set<nat> {
    set p | p in ps :: p.seqNr
  }

  /**
   * The same result without naming any insertion order: the cursor is the least missing number among what was pending
   * and what arrived, the numbers above it are the ones that stay pending, and, given that equal numbers mean equal
   * packets, every packet that was pending or arrived is delivered at its own place below the cursor and pending
   * under its own number above it.
   */
  lemma CursorIsLeastMissing(s: State, es: seq<Event>)
    requires Valid(s) && Quiescent(s) && ArrivalsOnly(es)
    ensures var r, known := Run(s, es), s.queue.Keys + Numbers(Packets(es));
            && r.state.next == Mex(known, s.next)
            && |r.out| == r.state.next - s.next
            && r.state.queue.Keys == (set k | k in known && r.state.next < k)
            && (Consistent(s, Packets(es)) ==>
                  forall p :: p in s.queue.Values + Packets(es) && s.next <= p.seqNr ==>
                    if p.seqNr < r.state.next then r.out[p.seqNr - s.next] == p
                    else p.seqNr in r.state.queue && r.state.queue[p.seqNr] == p)
  {
    hide Run, InsertAll, Packets, Numbers, Consistent, From;
    ArrivalsRefineMex(s, es);
    FiledNumbers(s, es);
    SplitAtMex(InsertAll(s, es).queue, s.queue.Keys + Numbers(Packets(es)), s.next);
    if Consistent(s, Packets(es)) {
      FiledPackets(s, es);
      forall p | p in s.queue.Values + Packets(es) && s.next <= p.seqNr
        ensures if p.seqNr < Run(s, es).state.next then Run(s, es).out[p.seqNr - s.next] == p
                else p.seqNr in Run(s, es).state.queue && Run(s, es).state.queue[p.seqNr] == p
      {
        assert p.seqNr in InsertAll(s, es).queue;
      }
    }
  }

  lemma SplitAtMex(all: map<nat, Packet>, known: set<nat>, n: nat)
    requires forall k :: n <= k ==> (k in all <==> k in known)
    ensures var m := Mex(all.Keys, n);
            && m == Mex(known, n)
            && From(all, m).Keys == (set k | k in known && m < k)
            && (forall k :: k in all && m <= k ==> k in From(all, m) && From(all, m)[k] == all[k])
  {
    MexUnique(known, n, Mex(all.Keys, n));
  }

  lemma FiledNumbers(s: State, es: seq<Event>)
    requires Valid(s) && ArrivalsOnly(es)
    ensures forall k :: s.next <= k ==> (k in InsertAll(s, es).queue <==> k in s.queue.Keys + Numbers(Packets(es)))
  {
    InsertAllContents(s, es);
    InsertAllKeeps(s, es);
    hide InsertAll, Packets;
    var all := InsertAll(s, es).queue;
    forall k | k in all
      ensures k in s.queue.Keys + Numbers(Packets(es))
    {
      assert all[k].seqNr == k && all[k] in s.queue.Values + Packets(es);
    }
  }

  lemma FiledPackets(s: State, es: seq<Event>)
    requires Valid(s) && ArrivalsOnly(es) && Consistent(s, Packets(es))
    ensures var all := InsertAll(s, es).queue;
            forall p :: p in s.queue.Values + Packets(es) && s.next <= p.seqNr ==> p.seqNr in all && all[p.seqNr] == p
  {
    InsertAllContents(s, es);
    InsertAllKeeps(s, es);
    hide InsertAll, Packets;
    var all := InsertAll(s, es).queue;
    forall p | p in s.queue.Values + Packets(es) && s.next <= p.seqNr
      ensures p.seqNr in all && all[p.seqNr] == p
    {
      assert all[p.seqNr].seqNr == p.seqNr;
    }
  }
}
