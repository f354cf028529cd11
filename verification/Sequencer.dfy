/** The sequencer object: an ordered queue, a cursor and a time stamp updated in place. */
module Sequencers {
  import opened Messages
  import Spec = SequencerSpec

  class Sequencer {
    var packetQueue: map<nat, Packet>
    var nextSeq: nat
    const deadline: nat
    var lastUpdate: nat

    ghost function View(): Spec.State
      reads this
    {
      Spec.State(packetQueue, nextSeq, deadline, lastUpdate)
    }

    ghost predicate Valid()
      reads this
    {
      Spec.Valid(View())
    }

    constructor (deadline: nat, now: nat)
      ensures Valid() && Spec.Quiescent(View())
      ensures packetQueue == map[] && nextSeq == 0 && this.deadline == deadline && lastUpdate == now
      ensures View() == Spec.Fresh(deadline, now)
    {
      packetQueue := map[];
      nextSeq := 0;
      this.deadline := deadline;
      lastUpdate := now;
    }

    /** Hand out the packet at the cursor, if the first entry is that packet. */
    method GetNextPacket(now: nat) returns (r: Option<Packet>)
      requires Valid()
      modifies this
      ensures Valid()
      ensures r.Some? <==> old(nextSeq) in old(packetQueue)
      ensures r.Some? ==> r.value == old(packetQueue)[old(nextSeq)]
      ensures r.Some? ==>
                View() == old(View()).(queue := old(packetQueue) - {old(nextSeq)},
                                       next := old(nextSeq) + 1,
                                       lastUpdate := now)
      ensures r.None? ==> View() == old(View())
    {
      r := None;
      if packetQueue != map[] {
        var first := Spec.MinKey(packetQueue);
        if first == nextSeq {
          nextSeq := nextSeq + 1;
          r := Some(packetQueue[first]);
          packetQueue := packetQueue - {first};
          lastUpdate := now;
        }
      }
    }

    method InsertPacket(p: Packet)
      requires Valid()
      modifies this`packetQueue
      ensures Valid() && View() == Spec.Insert(old(View()), p)
    {
      if p.seqNr >= nextSeq {
        if p.seqNr !in packetQueue {
          packetQueue := packetQueue[p.seqNr := p];
        }
      }
    }

    method AdvanceQueue()
      requires Valid()
      modifies this`nextSeq
      ensures Valid() && View() == Spec.Advance(old(View()))
    {
      if packetQueue != map[] {
        nextSeq := Spec.MinKey(packetQueue);
      }
    }

    /** True exactly when the packet at the cursor is pending, so exactly when GetNextPacket yields one. */
    method HaveNextPacket() returns (b: bool)
      requires Valid()
      ensures b <==> nextSeq in packetQueue
    {
      if packetQueue == map[] {
        b := false;
      } else {
        b := Spec.MinKey(packetQueue) == nextSeq;
      }
    }

    /** The clock must not have gone back behind the last update. */
    method IsDeadlineExceeded(now: nat) returns (b: bool)
      requires lastUpdate <= now
      ensures b <==> Spec.DeadlineExceeded(View(), now)
    {
      b := now - lastUpdate > deadline;
    }
  }
}
