/**
 * The bytes of a message as the serializer lays them out with its variable-length integers, and the fields that the
 * Wireshark dissector reads back from them.
 */
module WireFormat {
  import opened Messages

  // ---------- the serializer's layout ----------

  function Pow256(k: nat): nat {
    if k == 0 then 1 else 256 * Pow256(k - 1)
  }

  function LittleEndian(n: nat, k: nat): (r: Bytes)
    ensures |r| == k
    decreases k
  {
    if k == 0 then [] else [n % 256] + LittleEndian(n / 256, k - 1)
  }

  function FromLittleEndian(b: Bytes): nat {
    if b == [] then 0 else b[0] + 256 * FromLittleEndian(b[1..])
  }

  lemma {:induction false} LittleEndianRoundTrip(n: nat, k: nat)
    requires n < Pow256(k)
    ensures FromLittleEndian(LittleEndian(n, k)) == n
    decreases k
  {
    if k > 0 {
      LittleEndianRoundTrip(n / 256, k - 1);
      assert LittleEndian(n, k)[1..] == LittleEndian(n / 256, k - 1);
    }
  }

  const TWO_16: nat := 0x1_0000
  const TWO_32: nat := 0x1_0000_0000
  const TWO_64: nat := 0x1_0000_0000_0000_0000

  lemma Powers()
    ensures Pow256(1) == 256 && Pow256(2) == TWO_16 && Pow256(4) == TWO_32 && Pow256(8) == TWO_64
  {
    assert Pow256(3) == 0x100_0000;
    assert Pow256(5) == 0x100_0000_0000 && Pow256(6) == 0x1_0000_0000_0000 && Pow256(7) == 0x100_0000_0000_0000;
  }

  /** Small numbers take one byte; larger ones a marker byte and 2, 4 or 8 bytes, least significant first. */
  function Varint(n: nat): Bytes {
    if n < 251 then [n]
    else if n < TWO_16 then [251] + LittleEndian(n, 2)
    else if n < TWO_32 then [252] + LittleEndian(n, 4)
    else [253] + LittleEndian(n, 8)
  }

  /** The bytes of a number, tier by tier. */
  lemma VarintBytes(n: nat)
    requires n < TWO_64
    ensures n < 251 ==> Varint(n) == [n]
    ensures 251 <= n < TWO_16 ==> Varint(n) == [251, n % 256, n / 256]
    ensures TWO_16 <= n < TWO_32 ==> Varint(n) == [252, n % 256, n / 256 % 256, n / 0x1_0000 % 256, n / 0x100_0000]
    ensures TWO_32 <= n ==>
              Varint(n) == [253, n % 256, n / 256 % 256, n / 0x1_0000 % 256, n / 0x100_0000 % 256, n / TWO_32 % 256,
                            n / 0x100_0000_0000 % 256, n / 0x1_0000_0000_0000 % 256, n / 0x100_0000_0000_0000]
  {
    hide LittleEndian;
    if n < TWO_16 {
      TwoBytes(n);
    } else if n < TWO_32 {
      FourBytes(n);
    } else {
      EightBytes(n);
    }
  }

  lemma TwoBytes(n: nat)
    ensures LittleEndian(n, 2) == [n % 256, n / 256 % 256]
  {
    assert LittleEndian(n / 256, 1) == [n / 256 % 256] + LittleEndian(n / 256 / 256, 0);
  }

  lemma FourBytes(n: nat)
    ensures LittleEndian(n, 4) == [n % 256, n / 256 % 256, n / 0x1_0000 % 256, n / 0x100_0000 % 256]
  {
    var m := n / 256 / 256;
    assert LittleEndian(n, 4) == [n % 256] + ([n / 256 % 256] + LittleEndian(m, 2)) by {
      assert LittleEndian(n / 256, 3) == [n / 256 % 256] + LittleEndian(m, 2);
    }
    hide LittleEndian;
    TwoBytes(m);
    assert m == n / 0x1_0000 && m / 256 == n / 0x100_0000;
  }

  lemma EightBytes(n: nat)
    ensures LittleEndian(n, 8) == [n % 256, n / 256 % 256, n / 0x1_0000 % 256, n / 0x100_0000 % 256, n / TWO_32 % 256,
                                   n / 0x100_0000_0000 % 256, n / 0x1_0000_0000_0000 % 256, n / 0x100_0000_0000_0000 % 256]
  {
    LittleEndianSplit(n, 4, 4);
    ShiftedFour(n);
    hide LittleEndian;
    FourBytes(n);
    var m := n / TWO_32;
    FourBytes(m);
    assert m / 256 == n / 0x100_0000_0000;
    assert m / 0x1_0000 == n / 0x1_0000_0000_0000;
    assert m / 0x100_0000 == n / 0x100_0000_0000_0000;
  }

  /** What is left of a number after its `j` least significant bytes. */
  function Shifted(n: nat, j: nat): nat
    decreases j
  {
    if j == 0 then n else Shifted(n / 256, j - 1)
  }

  lemma {:induction false} LittleEndianSplit(n: nat, j: nat, k: nat)
    ensures LittleEndian(n, j + k) == LittleEndian(n, j) + LittleEndian(Shifted(n, j), k)
    decreases j
  {
    if j > 0 {
      LittleEndianSplit(n / 256, j - 1, k);
    }
  }

  lemma ShiftedFour(n: nat)
    ensures Shifted(n, 4) == n / TWO_32
  {
    assert Shifted(n, 4) == Shifted(n / 256, 3) == Shifted(n / 256 / 256, 2);
    assert Shifted(n / 256 / 256, 2) == n / 256 / 256 / 256 / 256;
  }

  function EncodeIp(ip: Option<Ipv4Addr>): Bytes {
    match ip
    case None => [0]
    case Some(ip) => [1, ip.a, ip.b, ip.c, ip.d]
  }

  function Encode(m: Message): Bytes {
    match m
    case Data(p) => [0] + Varint(p.seqNr) + Varint(p.peerId) + Varint(|p.bytes|) + p.bytes
    case Alive(k) => [1] + Varint(k.peerId) + EncodeIp(k.tunIp)
  }

  // ---------- the dissector ----------

  /** A range of a buffer; outside the buffer the dissector aborts. */
  function Range(b: Bytes, pos: nat, len: nat): Option<Bytes> {
    if pos + len <= |b| then Some(b[pos..pos + len]) else None
  }

  datatype Field = Field(length: nat, value: nat)

  /** The number of bytes a variable-length integer takes, and its value; other markers abort. */
  function Unzigzag(w: Bytes): Option<Field> {
    if w == [] then None
    else if w[0] < 251 then Some(Field(1, w[0]))
    else if w[0] == 251 then Number(3, Range(w, 1, 2))
    else if w[0] == 252 then Number(5, Range(w, 1, 4))
    else if w[0] == 253 then Number(9, Range(w, 1, 8))
    else None
  }

  function Number(length: nat, digits: Option<Bytes>): Option<Field> {
    match digits
    case None => None
    case Some(b) => Some(Field(length, FromLittleEndian(b)))
  }

  /** A variable-length integer read through a window of `len` bytes. */
  function ReadField(b: Bytes, pos: nat, len: nat): Option<Field> {
    match Range(b, pos, len)
    case None => None
    case Some(w) => Unzigzag(w)
  }

  datatype Dissected =
    | PacketFields(seqNr: nat, peerId: nat, length: nat, payload: Bytes, asIp: bool)
    | KeepaliveFields(peerId: nat, tunIp: Option<Ipv4Addr>)

  function DissectPacket(b: Bytes): Option<Dissected> {
    match ReadField(b, 1, 8)
    case None => None
    case Some(seqNr) =>
      var peerIdPos := 1 + seqNr.length;
      match ReadField(b, peerIdPos, 3)
      case None => None
      case Some(peerId) =>
        var lengthPos := peerIdPos + peerId.length;
        match ReadField(b, lengthPos, 8)
        case None => None
        case Some(length) =>
          var payloadPos := lengthPos + length.length;
          match Range(b, payloadPos, 1)
          case None => None
          case Some(first) =>
            Some(PacketFields(seqNr.value, peerId.value, length.value, b[payloadPos..], first[0] == 0x45))
  }

  function DissectKeepalive(b: Bytes): Option<Dissected> {
    match ReadField(b, 1, if |b| - 1 < 3 then 2 else 3)
    case None => None
    case Some(peerId) =>
      var optionPos := 1 + peerId.length;
      match Range(b, optionPos, 1)
      case None => None
      case Some(option) =>
        if option[0] == 1 then
          match Range(b, optionPos + 1, 4)
          case None => None
          case Some(ip) => Some(KeepaliveFields(peerId.value, Some(Ipv4Addr(ip[0], ip[1], ip[2], ip[3]))))
        else Some(KeepaliveFields(peerId.value, None))
  }

  function Dissect(b: Bytes): Option<Dissected> {
    if b == [] then None
    else if b[0] == 0 then DissectPacket(b)
    else DissectKeepalive(b)
  }

  // ---------- the round trip ----------

  /** `b` continues with `field` at `pos`. */
  ghost predicate HoldsAt(b: Bytes, pos: nat, field: Bytes) {
    pos + |field| <= |b| && b[pos..pos + |field|] == field
  }

  lemma UnzigzagReads(w: Bytes, n: nat)
    requires n < TWO_64 && Varint(n) <= w
    ensures Unzigzag(w) == Some(Field(|Varint(n)|, n))
  {
    Powers();
    hide Pow256;
    assert w[0] == Varint(n)[0];
    if 251 <= n {
      var k := |Varint(n)| - 1;
      LittleEndianRoundTrip(n, k);
      assert w[1..1 + k] == Varint(n)[1..] == LittleEndian(n, k);
    }
  }

  /** A window that holds the whole field yields it. */
  lemma FieldReads(b: Bytes, pos: nat, len: nat, n: nat)
    requires n < TWO_64 && HoldsAt(b, pos, Varint(n)) && |Varint(n)| <= len && pos + len <= |b|
    ensures ReadField(b, pos, len) == Some(Field(|Varint(n)|, n))
  {
    var w := b[pos..pos + len];
    assert w[..|Varint(n)|] == b[pos..pos + |Varint(n)|];
    UnzigzagReads(w, n);
    hide Unzigzag, Varint;
  }

  /** A window shorter than the field, or past the end of the buffer, aborts. */
  lemma FieldAborts(b: Bytes, pos: nat, len: nat, n: nat)
    requires HoldsAt(b, pos, Varint(n)) && 0 < len
    requires len < |Varint(n)| || |b| < pos + len
    ensures ReadField(b, pos, len) == None
  {
    if pos + len <= |b| {
      assert b[pos..pos + len][0] == b[pos..pos + |Varint(n)|][0] == Varint(n)[0];
    }
  }

  /** A packet is its tag, its number, its sender and its length, one after the other, and the frame as it is. */
  lemma Layout(p: Packet)
    ensures var b, s, i, n := Encode(Data(p)), Varint(p.seqNr), Varint(p.peerId), Varint(|p.bytes|);
            && b != [] && b[0] == 0
            && HoldsAt(b, 1, s) && HoldsAt(b, 1 + |s|, i) && HoldsAt(b, 1 + |s| + |i|, n)
            && b[1 + |s| + |i| + |n|..] == p.bytes
            && |b| == 1 + |s| + |i| + |n| + |p.bytes|
  {
    hide Varint;
  }

  /** The bytes of a keepalive: its tag, the id in one or three bytes, and the option byte with the address, if any. */
  lemma KeepaliveBytes(id: PeerId, a: Byte, b: Byte, c: Byte, d: Byte)
    ensures id < 251 ==>
              && Encode(Alive(Keepalive(id, None))) == [1, id, 0]
              && Encode(Alive(Keepalive(id, Some(Ipv4Addr(a, b, c, d))))) == [1, id, 1, a, b, c, d]
    ensures 251 <= id ==>
              && Encode(Alive(Keepalive(id, None))) == [1, 251, id % 256, id / 256, 0]
              && Encode(Alive(Keepalive(id, Some(Ipv4Addr(a, b, c, d))))) == [1, 251, id % 256, id / 256, 1, a, b, c, d]
  {
    VarintBytes(id);
    hide Varint;
  }

  /** The packets whose every field lies in the window through which the dissector reads it. */
  predicate Readable(p: Packet) {
    p.seqNr < TWO_32 && 7 <= |p.bytes| < TWO_32
  }

  /**
   * For every packet that the 64-bit fields can carry, the dissector recovers exactly the number, the sender, the length
   * and the payload when the number is below 2^32 and the payload has at least 7 bytes and fewer than 2^32; for every
   * other packet it aborts.
   */
  lemma PacketRoundTrip(p: Packet)
    requires p.seqNr < TWO_64 && |p.bytes| < TWO_64
    ensures Dissect(Encode(Data(p)))
            == if Readable(p) then Some(PacketFields(p.seqNr, p.peerId, |p.bytes|, p.bytes, p.bytes[0] == 0x45)) else None
  {
    var b, s, i, n := Encode(Data(p)), Varint(p.seqNr), Varint(p.peerId), Varint(|p.bytes|);
    Layout(p);
    VarintLength(p.seqNr);
    VarintLength(p.peerId);
    VarintLength(|p.bytes|);
    hide Encode, ReadField, HoldsAt, Varint, Range, DissectPacket;
    if |s| > 8 || |b| < 9 {
      FieldAborts(b, 1, 8, p.seqNr);
      NoNumber(b);
    } else {
      FieldReads(b, 1, 8, p.seqNr);
      FieldReads(b, 1 + |s|, 3, p.peerId);
      DissectRest(p, b, 1 + |s| + |i|);
      Assemble(b, Field(|s|, p.seqNr), Field(|i|, p.peerId));
    }
  }

  lemma NoNumber(b: Bytes)
    requires ReadField(b, 1, 8) == None
    ensures DissectPacket(b) == None
  {
  }

  /** What the dissector makes of a packet whose number and sender it could read. */
  lemma Assemble(b: Bytes, s: Field, i: Field)
    requires ReadField(b, 1, 8) == Some(s) && ReadField(b, 1 + s.length, 3) == Some(i)
    ensures var n := ReadField(b, 1 + s.length + i.length, 8);
            && (n == None ==> DissectPacket(b) == None)
            && (n.Some? ==>
                  var pos := 1 + s.length + i.length + n.value.length;
                  Range(b, pos, 1).Some? ==>
                    && pos < |b|
                    && DissectPacket(b)
                       == Some(PacketFields(s.value, i.value, n.value.value, b[pos..], Range(b, pos, 1).value[0] == 0x45)))
  {
    hide ReadField;
  }

  lemma VarintLength(n: nat)
    ensures |Varint(n)| == if n < 251 then 1 else if n < TWO_16 then 3 else if n < TWO_32 then 5 else 9
  {
  }

  /** The length field and the payload. */
  lemma DissectRest(p: Packet, b: Bytes, pos: nat)
    requires |p.bytes| < TWO_64
    requires HoldsAt(b, pos, Varint(|p.bytes|)) && b[pos + |Varint(|p.bytes|)|..] == p.bytes
    requires |b| == pos + |Varint(|p.bytes|)| + |p.bytes|
    ensures 7 <= |p.bytes| < TWO_32 ==>
              && ReadField(b, pos, 8) == Some(Field(|Varint(|p.bytes|)|, |p.bytes|))
              && Range(b, pos + |Varint(|p.bytes|)|, 1) == Some([p.bytes[0]])
    ensures !(7 <= |p.bytes| < TWO_32) ==> ReadField(b, pos, 8) == None
  {
    VarintLength(|p.bytes|);
    var rest := pos + |Varint(|p.bytes|)|;
    if 7 <= |p.bytes| < TWO_32 {
      FieldReads(b, pos, 8, |p.bytes|);
      assert b[rest..rest + 1] == [b[rest..][0]];
    } else {
      FieldAborts(b, pos, 8, |p.bytes|);
    }
    hide ReadField, HoldsAt, Varint;
  }

  /** Every keepalive is read back exactly, with or without a tunnel address. */
  lemma KeepaliveRoundTrip(k: Keepalive)
    ensures Dissect(Encode(Alive(k))) == Some(KeepaliveFields(k.peerId, k.tunIp))
  {
    var b, i := Encode(Alive(k)), Varint(k.peerId);
    assert HoldsAt(b, 1, i) && b[1 + |i|..] == EncodeIp(k.tunIp);
    assert b[1 + |i|] == EncodeIp(k.tunIp)[0];
    FieldReads(b, 1, if |b| - 1 < 3 then 2 else 3, k.peerId);
    hide ReadField, HoldsAt, Varint;
    if k.tunIp.Some? {
      assert b[1 + |i| + 1..1 + |i| + 5] == EncodeIp(k.tunIp)[1..];
    }
  }
}
