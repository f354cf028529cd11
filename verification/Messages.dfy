/** Values shared by every layer: identifiers, addresses and the messages that cross the network. */
module Messages {

  datatype Option<+T> = None | Some(value: T)

  type Byte = x: int | 0 <= x < 256
  type Bytes = seq<Byte>

  type U16 = x: int | 0 <= x < 0x1_0000
  type U32 = x: int | 0 <= x < 0x1_0000_0000

  /** A peer id is a u16. */
  type PeerId = U16

  datatype Ipv4Addr = Ipv4Addr(a: Byte, b: Byte, c: Byte, d: Byte)
  datatype Ipv6Addr = Ipv6Addr(a: U16, b: U16, c: U16, d: U16, e: U16, f: U16, g: U16, h: U16)

  datatype SocketAddr =
    | SocketAddrV4(ipv4: Ipv4Addr, port: U16)
    | SocketAddrV6(ipv6: Ipv6Addr, port: U16, flowInfo: U32, scopeId: U32)

  /** An Ethernet address. */
  datatype Mac = Mac(a: Byte, b: Byte, c: Byte, d: Byte, e: Byte, f: Byte)

  const BROADCAST_MAC: Mac := Mac(0xff, 0xff, 0xff, 0xff, 0xff, 0xff)

  /** A numbered frame. `peerId` is the sender's id, `seqNr` its number in the sender's stream to the receiver. */
  datatype Packet = Packet(seqNr: nat, peerId: PeerId, bytes: Bytes)

  datatype Keepalive = Keepalive(peerId: PeerId, tunIp: Option<Ipv4Addr>)

  datatype Message = Data(packet: Packet) | Alive(keepalive: Keepalive)

  /** A datagram handed to the transport, with its destination. */
  datatype Outgoing = Outgoing(destination: SocketAddr, message: Message)
}
