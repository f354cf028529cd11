/** The sequencer on values: what one arrival and one deadline tick do, stated through sets of sequence numbers. */
module SequencerSpec {
  import opened Messages

  /** Pending packets by number, the cursor, the deadline and the time of the last delivery. */
  datatype State = State(queue: map<nat, Packet>, next: nat, deadline: nat, lastUpdate: nat)

  datatype Result = Result(state: State, out: seq<Packet>)

  /** Nothing older than the cursor is pending, and every packet is filed under its own number. */
  ghost predicate Valid(s: State) {
    forall k :: k in s.queue ==> s.next <= k && s.queue[k].seqNr == k
  }

  /** Nothing can be delivered without a further arrival or a deadline flush. */
  predicate Quiescent(s: State) {
    s.next !in s.queue
  }

  function Fresh(deadline: nat, now: nat): State {
    State(map[], 0, deadline, now)
  }

  /** The least number from `n` on that is missing from `keys`. */
  function Mex(keys: set<nat>, n: nat): (m: nat)
    ensures n <= m && m !in keys
    ensures forall k :: n <= k < m ==> k in keys
    decreases |keys|
  {
    if n in keys then
      var m := Mex(keys - {n}, n + 1);
      assert forall k :: n <= k < m && k !in keys ==> k in keys - {n};
      m
    else n
  }

  predicate IsLeast(s: set<nat>, k: nat) {
    k in s && forall j :: j in s ==> k <= j
  }

  lemma {:induction false} LeastExists(s: set<nat>)
    requires s != {}
    ensures exists k :: IsLeast(s, k)
  {
    var x :| x in s;
    if s == {x} {
      assert IsLeast(s, x);
    } else {
      LeastExists(s - {x});
      var y :| IsLeast(s - {x}, y);
      assert forall j :: j in s ==> j == x || j in s - {x};
      assert IsLeast(s, if x < y then x else y);
    }
  }

  /** The smallest pending number (the first entry of the ordered map). */
  function MinKey(q: map<nat, Packet>): (k: nat)
    requires q != map[]
    ensures k in q && forall j :: j in q ==> k <= j
  {
    LeastExists(q.Keys);
    var k :| IsLeast(q.Keys, k);
    k
  }

  /** The packets of `q` numbered `lo`, `lo + 1`, ..., `hi - 1`. */
  function Slice(q: map<nat, Packet>, lo: nat, hi: nat): (r: seq<Packet>)
    requires lo <= hi
    requires forall k :: lo <= k < hi ==> k in q
    ensures |r| == hi - lo
    ensures forall i :: 0 <= i < |r| ==> r[i] == q[lo + i]
  {
    seq(hi - lo, i requires 0 <= i < hi - lo => q[lo + i])
  }

  /** The pending packets numbered `lo` or more. */
  function From(q: map<nat, Packet>, lo: nat): map<nat, Packet> {
    map k | k in q && lo <= k :: q[k]
  }

  /** Keep a packet unless it is late or a copy of a pending one. */
  function Insert(s: State, p: Packet): State {
    if p.seqNr < s.next || p.seqNr in s.queue then s else s.(queue := s.queue[p.seqNr := p])
  }

  /** Move the cursor to the first pending packet. */
  function Advance(s: State): State {
    if s.queue == map[] then s else s.(next := MinKey(s.queue))
  }

  /** Release the contiguous run at the cursor, in one go. */
  function Drain(s: State, now: nat): Result {
    var m := Mex(s.queue.Keys, s.next);
    Result(s.(queue := From(s.queue, m), next := m, lastUpdate := if s.next < m then now else s.lastUpdate),
           Slice(s.queue, s.next, m))
  }

  predicate DeadlineExceeded(s: State, now: nat) {
    now - s.lastUpdate > s.deadline
  }

  datatype Event = Arrival(now: nat, packet: Packet) | Tick(now: nat)

  /** One event: an arrival followed by a drain, or a tick that may flush. */
  function Apply(s: State, e: Event): Result {
    match e
    case Arrival(now, p) => Drain(Insert(s, p), now)
    case Tick(now) => if DeadlineExceeded(s, now) then Drain(Advance(s), now) else Result(s, [])
  }

  /** A whole run: the final state and everything delivered, in order. */
  function Run(s: State, es: seq<Event>): Result
    decreases es
  {
    if es == [] then Result(s, [])
    else
      var first := Apply(s, es[0]);
      var rest := Run(first.state, es[1..]);
      Result(rest.state, first.out + rest.out)
  }

  /** Does this event move the cursor over a hole? */
  predicate Flushes(s: State, e: Event) {
    e.Tick? && DeadlineExceeded(s, e.now) && s.queue != map[]
  }

  /** The sequence numbers of a list of packets. */
  function SeqNrs(ps: seq<Packet>): set<nat> {
    set p | p in ps :: p.seqNr
  }

  /** Numbers strictly increase, hence no number occurs twice. */
  ghost predicate Increasing(ps: seq<Packet>) {
    forall i, j :: 0 <= i < j < |ps| ==> ps[i].seqNr < ps[j].seqNr
  }

  // ---------- facts about one event ----------

  lemma MexUnique(keys: set<nat>, n: nat, m: nat)
    requires n <= m && m !in keys && forall k :: n <= k < m ==> k in keys
    ensures Mex(keys, n) == m
  {
  }

  /** What a drain delivers and keeps, from any valid state. */
  lemma DrainFacts(s: State, now: nat)
    requires Valid(s)
    ensures var r := Drain(s, now);
            && Valid(r.state) && Quiescent(r.state)
            && s.next <= r.state.next
            && |r.out| == r.state.next - s.next
            && (forall i :: 0 <= i < |r.out| ==> s.next + i in s.queue && r.out[i] == s.queue[s.next + i])
            && (forall i :: 0 <= i < |r.out| ==> r.out[i].seqNr == s.next + i)
            && Increasing(r.out)
            && (forall k :: s.next <= k < r.state.next <==> k in SeqNrs(r.out))
            && (forall k :: s.next <= k < r.state.next ==> k in s.queue)
            && (forall k :: k in r.state.queue <==> k in s.queue && r.state.next <= k)
            && (forall k :: k in r.state.queue ==> r.state.queue[k] == s.queue[k])
  {
    var r := Drain(s, now);
    forall k | s.next <= k < r.state.next
      ensures k in SeqNrs(r.out)
    {
      assert r.out[k - s.next].seqNr == k;
    }
  }

  /** What every event guarantees, given the state before it and its result. */
  ghost predicate Orderly(s: State, now: nat, r: Result) {
    && Valid(r.state) && Quiescent(r.state)
    && r.state.deadline == s.deadline
    && s.next <= r.state.next
    && Increasing(r.out)
    && (forall p :: p in r.out ==> s.next <= p.seqNr < r.state.next)
    && (r.out == [] ==> r.state.next == s.next && r.state.lastUpdate == s.lastUpdate)
    && (r.out != [] ==> r.state.next > s.next && r.state.lastUpdate == now)
    && (forall k :: k in s.queue ==> k in r.state.queue || k in SeqNrs(r.out))
    && (forall k :: k in s.queue && k in r.state.queue ==> r.state.queue[k] == s.queue[k])
  }

  lemma DrainOrderly(s: State, now: nat)
    requires Valid(s)
    ensures Orderly(s, now, Drain(s, now))
  {
    DrainFacts(s, now);
  }

  /**
   * Every event keeps the state valid and leaves nothing deliverable behind; it delivers increasing
   * numbers between the old and the new cursor, and a cursor that did not move means no output and no
   * change of the time stamp. Nothing pending is dropped or altered.
   */
  lemma ApplyOrderly(s: State, e: Event)
    requires Valid(s) && Quiescent(s)
    ensures Orderly(s, e.now, Apply(s, e))
  {
    match e
    case Arrival(now, p) =>
      DrainOrderly(Insert(s, p), now);
    case Tick(now) =>
      if DeadlineExceeded(s, now) {
        DrainOrderly(Advance(s), now);
        if s.queue != map[] {
          DrainFacts(Advance(s), now);
        }
      }
  }

  /** A flush delivers at least the first pending packet. */
  lemma FlushDelivers(s: State, e: Event)
    requires Valid(s) && Quiescent(s) && Flushes(s, e)
    ensures Apply(s, e).out != [] && Apply(s, e).out[0] == s.queue[MinKey(s.queue)]
    ensures Apply(s, e).state.lastUpdate == e.now && s.next < MinKey(s.queue) < Apply(s, e).state.next
  {
    DrainFacts(Advance(s), e.now);
  }

  /** A copy of something pending, and anything older than the cursor, changes nothing at all. */
  lemma ReplayChangesNothing(s: State, p: Packet, now: nat)
    requires Valid(s) && Quiescent(s)
    requires p.seqNr < s.next || p.seqNr in s.queue
    ensures Apply(s, Arrival(now, p)) == Result(s, [])
  {
    assert From(s.queue, s.next) == s.queue;
  }

  /** Taking one deliverable packet off the front is the first step of a drain. */
  lemma DrainStep(s: State, now: nat)
    requires Valid(s) && s.next in s.queue
    ensures var s' := s.(queue := s.queue - {s.next}, next := s.next + 1, lastUpdate := now);
            && Valid(s')
            && Drain(s, now).state == Drain(s', now).state
            && Drain(s, now).out == [s.queue[s.next]] + Drain(s', now).out
  {
    var s' := s.(queue := s.queue - {s.next}, next := s.next + 1, lastUpdate := now);
    var m := Mex(s.queue.Keys, s.next);
    forall k | s'.next <= k < m
      ensures k in s'.queue
    {
      assert k in s.queue.Keys;
    }
    MexUnique(s'.queue.Keys, s'.next, m);
    assert From(s.queue, m) == From(s'.queue, m);
  }

  /** With nothing at the cursor a drain does nothing. */
  lemma DrainIdle(s: State, now: nat)
    requires Valid(s) && Quiescent(s)
    ensures Drain(s, now) == Result(s, [])
  {
    assert From(s.queue, s.next) == s.queue;
  }
}
