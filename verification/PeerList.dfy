/**
 * The peer list: a map of entries that is updated in place. An entry lives in the map by value; its sequencer is an
 * object of its own, which the connection manager drains through a reference.
 */
module PeerLists {
  import opened Messages
  import opened Sequencers
  import Spec = ManagerSpec
  import Seq = SequencerSpec

  datatype Entry = Entry(connections: map<SocketAddr, nat>, txCounter: nat, sequencer: Sequencer)

  /** The addresses of the listed peers, with repetitions. */
  ghost function AllAddresses(peers: Spec.Peers, ids: seq<PeerId>): multiset<SocketAddr> {
    if ids == [] then multiset{} else multiset(Spec.Connections(peers, ids[0])) + AllAddresses(peers, ids[1..])
  }

  lemma {:induction false} AllAddressesSnoc(peers: Spec.Peers, ids: seq<PeerId>, id: PeerId)
    ensures AllAddresses(peers, []) == multiset{}
    ensures AllAddresses(peers, ids + [id]) == AllAddresses(peers, ids) + multiset(Spec.Connections(peers, id))
    decreases ids
  {
    hide Spec.Connections;
    if ids == [] {
      assert ids + [id] == [id];
      assert [id][1..] == [];
    } else {
      assert (ids + [id])[1..] == ids[1..] + [id];
      AllAddressesSnoc(peers, ids[1..], id);
    }
  }

  /** Pruning in progress: the peers in `rest` are still to be done. */
  ghost function PrunedBut(peers: Spec.Peers, rest: set<PeerId>, now: nat): Spec.Peers {
    map p | p in peers ::
      if p in rest then peers[p] else peers[p].(connections := Spec.FreshOnly(peers[p].connections, now))
  }

  lemma PruneOneMore(peers: Spec.Peers, rest: set<PeerId>, now: nat, id: PeerId)
    requires id in rest && id in peers
    ensures PrunedBut(peers, rest, now)[id := peers[id].(connections := Spec.FreshOnly(peers[id].connections, now))]
            == PrunedBut(peers, rest - {id}, now)
    ensures id in PrunedBut(peers, rest, now) && PrunedBut(peers, rest, now)[id] == peers[id]
  {
    hide Spec.FreshOnly;
  }

  lemma PruneEnds(peers: Spec.Peers, now: nat)
    ensures PrunedBut(peers, peers.Keys, now) == peers
    ensures PrunedBut(peers, {}, now) == Spec.Prune(peers, now)
  {
    hide Spec.FreshOnly;
  }

  class PeerList {
    var peers: map<PeerId, Entry>

    ghost var objects: set<Sequencer>  // the sequencers in use

    /** No two peers share a sequencer, and every sequencer is in order. */
    ghost predicate Valid()
      reads this, objects
    {
      && (forall p :: p in peers ==> peers[p].sequencer in objects && peers[p].sequencer.Valid())
      && (forall p, q :: p in peers && q in peers && p != q ==> peers[p].sequencer != peers[q].sequencer)
    }

    static ghost function EntryView(e: Entry): Spec.Peer
      reads e.sequencer
    {
      Spec.Peer(e.connections, e.txCounter, e.sequencer.View())
    }

    ghost function View(): Spec.Peers
      requires Valid()
      reads this, objects
    {
      map p | p in peers :: EntryView(peers[p])
    }

    /** The view of one id. */
    lemma ViewAt(id: PeerId)
      requires Valid()
      ensures id in View() <==> id in peers
      ensures id in peers ==>
                View()[id] == EntryView(peers[id]) && peers[id].sequencer in objects && peers[id].sequencer.Valid()
    {
      hide Seq.Valid;
    }

    lemma ViewKeys()
      requires Valid()
      ensures View().Keys == peers.Keys
    {
      hide Seq.Valid;
    }

    /** What the view becomes when somebody used the sequencer of `id`, and no other. */
    twostate lemma SequencerUsed(id: PeerId)
      requires old(Valid()) && unchanged(this) && id in peers
      requires peers[id].sequencer.Valid()
      requires forall s :: s in objects && s != peers[id].sequencer ==> unchanged(s)
      ensures Valid()
      ensures id in old(View())
      ensures View() == Spec.SetSequencer(old(View()), id, peers[id].sequencer.View())
    {
      hide Seq.Valid;
    }

    /** Insert or replace one entry, with its old sequencer or a new one; nothing else changes. */
    method Put(id: PeerId, e: Entry)
      requires Valid() && e.sequencer.Valid()
      requires (id in peers && e.sequencer == peers[id].sequencer) || e.sequencer !in objects
      modifies this
      ensures Valid() && peers == old(peers)[id := e] && objects == old(objects) + {e.sequencer}
      ensures View() == old(View())[id := EntryView(e)]
    {
      hide Seq.Valid;
      peers := peers[id := e];
      objects := objects + {e.sequencer};
    }

    /** Seed the list; a repeated id replaces the earlier entry. */
    constructor (configs: seq<Spec.PeerConfig>, now: nat)
      ensures Valid() && fresh(objects)
      ensures View() == Spec.Seed(configs, now)
    {
      peers := map[];
      objects := {};
      new;
      assert configs[..0] == [];
      for i := 0 to |configs|
        invariant Valid() && fresh(objects)
        invariant View() == Spec.Seed(configs[..i], now)
      {
        Configure(configs[i], now);
        assert configs[..i + 1][..i] == configs[..i];
      }
      assert configs[..|configs|] == configs;
    }

    /** One seeded peer: a fresh entry with all its configured addresses. */
    method Configure(c: Spec.PeerConfig, now: nat)
      requires Valid()
      modifies this
      ensures Valid() && old(objects) <= objects && fresh(objects - old(objects))
      ensures View() == old(View())[c.id := Spec.NewPeer(now).(connections := Spec.SeedConnections(c.addresses, now))]
    {
      hide Valid, View, Seq.Valid;
      var connections := map[];
      for j := 0 to |c.addresses|
        invariant connections == Spec.SeedConnections(c.addresses[..j], now)
      {
        connections := connections[c.addresses[j] := now];
      }
      assert c.addresses[..|c.addresses|] == c.addresses;
      var sequencer := new Sequencer(Spec.DEADLINE, now);
      Put(c.id, Entry(connections, 0, sequencer));
    }

    method AddPeer(id: PeerId, address: SocketAddr, now: nat)
      requires Valid()
      modifies this
      ensures Valid() && old(objects) <= objects && fresh(objects - old(objects))
      ensures View() == Spec.AddPeer(old(View()), id, address, now)
    {
      hide Valid, View, Seq.Valid;
      ViewAt(id);
      if id in peers {
        Put(id, peers[id].(connections := peers[id].connections[address := now]));
      } else {
        var sequencer := new Sequencer(Spec.DEADLINE, now);
        Put(id, Entry(map[address := now], 0, sequencer));
      }
    }

    method GetPeerIds() returns (ids: seq<PeerId>)
      ensures Spec.IsOrder(ids, peers.Keys)
    {
      ids := [];
      var rest := peers.Keys;
      while rest != {}
        invariant Spec.IsOrder(ids, peers.Keys - rest) && rest <= peers.Keys
        decreases |rest|
      {
        var p :| p in rest;
        ids := ids + [p];
        rest := rest - {p};
      }
      assert peers.Keys - rest == peers.Keys;
    }

    /** The addresses of a peer, each once, in some order; none for an unknown peer. */
    method GetPeerConnections(id: PeerId) returns (addresses: seq<SocketAddr>)
      requires Valid()
      ensures multiset(addresses) == multiset(Spec.Connections(View(), id))
    {
      addresses := [];
      if id in peers {
        var all := peers[id].connections.Keys;
        var rest := all;
        while rest != {}
          invariant rest <= all && multiset(addresses) == multiset(all - rest)
          decreases |rest|
        {
          var a :| a in rest;
          addresses := addresses + [a];
          rest := rest - {a};
        }
        assert all - rest == all;
      }
    }

    /** Every address of every peer, as often as it is listed, in some order. */
    method GetAllConnections() returns (addresses: seq<SocketAddr>, ghost order: seq<PeerId>)
      requires Valid()
      ensures Spec.IsOrder(order, peers.Keys)
      ensures multiset(addresses) == AllAddresses(View(), order)
    {
      hide Valid, View, Seq.Valid, Spec.Connections, AllAddresses, Spec.IsOrder;
      var ids := GetPeerIds();
      order := ids;
      addresses := [];
      AllAddressesSnoc(View(), [], 0);
      for i := 0 to |ids|
        invariant multiset(addresses) == AllAddresses(View(), ids[..i])
      {
        var more := GetPeerConnections(ids[i]);
        addresses := addresses + more;
        assert ids[..i + 1] == ids[..i] + [ids[i]];
        AllAddressesSnoc(View(), ids[..i], ids[i]);
      }
      assert ids[..|ids|] == ids;
    }

    method GetPeerSequencer(id: PeerId) returns (s: Sequencer?)
      ensures id in peers ==> s == peers[id].sequencer
      ensures id !in peers ==> s == null
    {
      s := if id in peers then peers[id].sequencer else null;
    }

    method IncrementPeerTxCounter(id: PeerId)
      requires Valid()
      modifies this
      ensures Valid() && objects == old(objects) && peers.Keys == old(peers.Keys)
      ensures View() == Spec.CountSends(old(View()), [id])
    {
      hide Valid, View, Seq.Valid;
      ViewAt(id);
      if id in peers {
        Put(id, peers[id].(txCounter := peers[id].txCounter + 1));
      }
    }

    /** Demands a known peer: the lookup is unwrapped. */
    method GetPeerTxCounter(id: PeerId) returns (n: nat)
      requires Valid() && id in peers
      ensures n == Spec.TxCounter(View(), id)
    {
      n := peers[id].txCounter;
    }

    method PruneOne(id: PeerId, now: nat)
      requires Valid() && id in View()
      modifies this
      ensures Valid() && objects == old(objects) && peers.Keys == old(peers.Keys)
      ensures View() == old(View())[id := old(View()[id]).(connections := Spec.FreshOnly(old(View()[id].connections), now))]
    {
      hide Valid, View, Seq.Valid, Spec.FreshOnly;
      ViewAt(id);
      Put(id, peers[id].(connections := Spec.FreshOnly(peers[id].connections, now)));
    }

    /** Drop every address that was not seen recently; demands that no time stamp lies in the future. */
    method PruneStalePeers(now: nat)
      requires Valid()
      requires forall p, a :: p in peers && a in peers[p].connections ==> peers[p].connections[a] <= now
      modifies this
      ensures Valid() && objects == old(objects) && peers.Keys == old(peers.Keys)
      ensures View() == Spec.Prune(old(View()), now)
    {
      hide *;
      ghost var before := View();
      ViewKeys();
      PruneEnds(before, now);
      var rest := peers.Keys;
      while rest != {}
        invariant Valid() && rest <= before.Keys && objects == old(objects)
        invariant peers.Keys == old(peers.Keys) == before.Keys
        invariant View() == PrunedBut(before, rest, now)
        decreases |rest|
      {
        var p :| p in rest;
        PruneOneMore(before, rest, now, p);
        PruneOne(p, now);
        rest := rest - {p};
      }
    }
  }
}
