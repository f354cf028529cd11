/** The layer 2 and layer 3 directors: tables that learn in place and are consulted for every local frame. */
module TrafficDirectors {
  import opened Messages
  import Spec = ManagerSpec

  class Layer2Director {
    var macTable: map<Mac, PeerId>

    constructor ()
      ensures macTable == map[]
    {
      macTable := map[];
    }

    /** Remember the sender of the first frame seen from a source address. */
    method LearnPath(headers: Spec.Headers, id: PeerId, frame: Bytes)
      modifies this
      ensures macTable == Spec.Learn(headers, old(macTable), id, frame)
    {
      var source := headers.etherSrc(frame);
      if source.Some? {
        if source.value !in macTable {
          macTable := macTable[source.value := id];
        }
      }
    }

    method GetPath(headers: Spec.Headers, frame: Bytes) returns (path: Option<Spec.Path>)
      ensures path == Spec.GetPath(headers, macTable, frame)
    {
      var destination := headers.etherDst(frame);
      if destination.Some? {
        if destination.value == BROADCAST_MAC {
          path := Some(Spec.Broadcast);
        } else if destination.value in macTable {
          path := Some(Spec.ToPeer(macTable[destination.value]));
        } else {
          path := None;
        }
      } else {
        path := None;
      }
    }
  }

  class Layer3Director {
    var routingTable: map<Ipv4Addr, PeerId>

    constructor ()
      ensures routingTable == map[]
    {
      routingTable := map[];
    }

    /** A route is never replaced; the answer tells whether it is new. */
    method InsertRoute(id: PeerId, address: Ipv4Addr) returns (isNew: bool)
      modifies this
      ensures isNew <==> address !in old(routingTable)
      ensures routingTable == if isNew then old(routingTable)[address := id] else old(routingTable)
    {
      if address in routingTable {
        isNew := false;
      } else {
        routingTable := routingTable[address := id];
        isNew := true;
      }
    }

    method GetRoute(headers: Spec.Headers, frame: Bytes) returns (route: Option<PeerId>)
      ensures route == Spec.GetRoute(headers, routingTable, frame)
    {
      var destination := headers.ipDst(frame);
      if destination.Some? && destination.value in routingTable {
        route := Some(routingTable[destination.value]);
      } else {
        route := None;
      }
    }
  }

  datatype DirectorType = Layer2(l2: Layer2Director) | Layer3(l3: Layer3Director) {
    ghost function Object(): object {
      if Layer2? then l2 else l3
    }

    ghost function View(): Spec.Director
      reads Object()
    {
      match this
      case Layer2(l2) => Spec.Layer2(l2.macTable)
      case Layer3(l3) => Spec.Layer3(l3.routingTable)
    }
  }
}
