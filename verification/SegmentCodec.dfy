/**
  Transport headers as the standards lay them out (section 3.1 of RFC 9293, RFC 768), and their parsers as the exact
  inverses: what is encoded is read back, and whatever is accepted is an encoding.
 */
module SegmentCodec {
  import opened Prelude
  import opened Packets
  import opened Frames

  /** `rest` follows `part`. */
  lemma Follows(part: Bytes, rest: Bytes, i: nat)
    requires i + 2 <= |part|
    ensures Be16(part + rest, i) == Be16(part, i)
  {
  }

  lemma Bytes16OfBe16(data: Bytes, i: nat)
    requires i + 2 <= |data|
    ensures Bytes16(Be16(data, i)) == data[i..i + 2]
  {
  }

  lemma Bytes32OfBe32(data: Bytes, i: nat)
    requires i + 4 <= |data|
    ensures Bytes32(Be32(data, i)) == data[i..i + 4]
  {
    Bytes16OfBe16(data, i);
    Bytes16OfBe16(data, i + 2);
  }

  // TCP

  datatype Flags = Flags(ns: bool, cwr: bool, ece: bool, urg: bool, ack: bool, psh: bool, rst: bool, syn: bool,
                         fin: bool)

  datatype Segment = Segment(
    srcPort: u16,
    dstPort: u16,
    seqNo: u32,
    ackNo: u32,
    reserved: nat,
    flags: Flags,
    window: u16,
    checksum: u16,
    urgent: u16,
    options: Bytes,
    data: Bytes)

  /** The data offset counts words of 32 bits in four bits. */
  predicate SegmentOk(s: Segment) {
    s.reserved < 8 && |s.options| % 4 == 0 && |s.options| <= 40
  }

  function If(set_: bool, weight: nat): nat {
    if set_ then weight else 0
  }

  /** The byte of flags, from CWR down to FIN. */
  function FlagByte(f: Flags): u8 {
    If(f.cwr, 128) + If(f.ece, 64) + If(f.urg, 32) + If(f.ack, 16) + If(f.psh, 8) + If(f.rst, 4) + If(f.syn, 2)
    + If(f.fin, 1)
  }

  /** Data offset, three reserved bits and the ninth flag. */
  function OffsetByte(s: Segment): u8
    requires SegmentOk(s)
  {
    (5 + |s.options| / 4) * 16 + s.reserved * 2 + If(s.flags.ns, 1)
  }

  function FixedHeader(s: Segment): (r: Bytes)
    requires SegmentOk(s)
    ensures |r| == 20
  {
    Bytes16(s.srcPort) + Bytes16(s.dstPort) + Bytes32(s.seqNo) + Bytes32(s.ackNo) + [OffsetByte(s), FlagByte(s.flags)]
    + Bytes16(s.window) + Bytes16(s.checksum) + Bytes16(s.urgent)
  }

  function EncodeSegment(s: Segment): (r: Bytes)
    requires SegmentOk(s)
    ensures |r| >= 20
  {
    FixedHeader(s) + (s.options + s.data)
  }

  /** The flags as one number of nine bits. */
  function FlagWord(f: Flags): nat {
    If(f.ns, 256) + FlagByte(f)
  }

  lemma FixedFields(s: Segment)
    requires SegmentOk(s)
    ensures var h := FixedHeader(s);
            && h[0..2] == Bytes16(s.srcPort) && h[2..4] == Bytes16(s.dstPort)
            && h[12] == OffsetByte(s) && h[13] == FlagByte(s.flags)
  {
  }

  lemma SegmentFields(s: Segment)
    requires SegmentOk(s)
    ensures var data := EncodeSegment(s);
            && Be16(data, 0) == s.srcPort && Be16(data, 2) == s.dstPort
            && data[12] == OffsetByte(s) && data[13] == FlagByte(s.flags)
            && data[20..20 + |s.options|] == s.options
  {
    hide FixedHeader, OffsetByte, FlagByte, Bytes16, Be16;
    FixedFields(s);
    var h, data := FixedHeader(s), EncodeSegment(s);
    assert data[12] == h[12] && data[13] == h[13];
    assert data[0..2] == h[0..2] && data[2..4] == h[2..4];
    Be16Encoded(data, 0, s.srcPort);
    Be16Encoded(data, 2, s.dstPort);
  }

  lemma OffsetParts(s: Segment)
    requires SegmentOk(s)
    ensures High(OffsetByte(s)) * 4 == 20 + |s.options| && OffsetByte(s) % 2 == If(s.flags.ns, 1)
  {
  }

  /** Every segment is read back: ports, and all nine flags. */
  lemma SegmentReadsBack(v: View, s: Segment)
    requires SegmentOk(s)
    ensures TcpView(v, EncodeSegment(s)) == v.(transport := Tcp(s.srcPort, s.dstPort, FlagWord(s.flags)))
  {
    SegmentFields(s);
    OffsetParts(s);
    hide FixedHeader, OffsetByte, FlagByte, Be16;
  }

  lemma LowBit(n: nat, high: nat, bit: nat)
    requires n == 2 * high + bit && bit <= 1
    ensures n / 2 == high && n % 2 == bit
  {
  }

  lemma Halves(n: nat)
    ensures n / 2 / 2 == n / 4 && n / 4 / 2 == n / 8 && n / 8 / 2 == n / 16 && n / 16 / 2 == n / 32
  {
  }

  lemma HighHalves(n: nat)
    ensures n / 32 / 2 == n / 64 && n / 64 / 2 == n / 128 && n / 128 / 2 == n / 256
  {
  }

  /** The five lowest bits of a number. */
  lemma FiveBits(n: nat, above: nat, b4: nat, b3: nat, b2: nat, b1: nat, b0: nat)
    requires b0 <= 1 && b1 <= 1 && b2 <= 1 && b3 <= 1 && b4 <= 1
    requires n == 2 * (2 * (2 * (2 * (2 * above + b4) + b3) + b2) + b1) + b0
    ensures n / 1 % 2 == b0 && n / 2 % 2 == b1 && n / 4 % 2 == b2 && n / 16 % 2 == b4
  {
    var h3 := 2 * above + b4;
    var h2 := 2 * h3 + b3;
    var h1 := 2 * h2 + b2;
    var h0 := 2 * h1 + b1;
    Halves(n);
    LowBit(n, h0, b0);
    LowBit(h0, h1, b1);
    LowBit(h1, h2, b2);
    LowBit(h2, h3, b3);
    LowBit(h3, above, b4);
  }

  function One(set_: bool): (r: nat)
    ensures r <= 1
  {
    if set_ then 1 else 0
  }

  lemma HighWeights(f: Flags)
    ensures If(f.ns, 256) == 256 * One(f.ns) && If(f.cwr, 128) == 128 * One(f.cwr) && If(f.ece, 64) == 64 * One(f.ece)
    ensures If(f.urg, 32) == 32 * One(f.urg)
  {
  }

  lemma LowWeights(f: Flags)
    ensures If(f.ack, 16) == 16 * One(f.ack) && If(f.psh, 8) == 8 * One(f.psh) && If(f.rst, 4) == 4 * One(f.rst)
    ensures If(f.syn, 2) == 2 * One(f.syn) && If(f.fin, 1) == One(f.fin)
  {
  }

  lemma WordOfFlags(f: Flags)
    ensures FlagWord(f) == If(f.ns, 256) + (If(f.cwr, 128) + If(f.ece, 64) + If(f.urg, 32) + If(f.ack, 16)
                                            + If(f.psh, 8) + If(f.rst, 4) + If(f.syn, 2) + If(f.fin, 1))
  {
    hide If;
  }

  lemma NineBits(b8: int, b7: int, b6: int, b5: int, b4: int, b3: int, b2: int, b1: int, b0: int)
    ensures 256 * b8 + (128 * b7 + 64 * b6 + 32 * b5 + 16 * b4 + 8 * b3 + 4 * b2 + 2 * b1 + b0)
         == 2 * (2 * (2 * (2 * (2 * (8 * b8 + 4 * b7 + 2 * b6 + b5) + b4) + b3) + b2) + b1) + b0
  {
  }

  /** The flag word, bit by bit. */
  lemma FlagSum(f: Flags, n: nat, above: nat)
    requires n == FlagWord(f) && above == 8 * One(f.ns) + 4 * One(f.cwr) + 2 * One(f.ece) + One(f.urg)
    ensures n == 2 * (2 * (2 * (2 * (2 * above + One(f.ack)) + One(f.psh)) + One(f.rst)) + One(f.syn)) + One(f.fin)
  {
    hide *;
    WordOfFlags(f);
    HighWeights(f);
    LowWeights(f);
    NineBits(One(f.ns), One(f.cwr), One(f.ece), One(f.urg), One(f.ack), One(f.psh), One(f.rst), One(f.syn), One(f.fin));
  }

  lemma BitMeans(n: nat, weight: nat, set_: bool)
    requires weight > 0 && n / weight % 2 == One(set_)
    ensures Bit(n, weight) == set_
  {
  }

  lemma FlagTests(n: nat)
    ensures Fin(n) == Bit(n, 1) && Syn(n) == Bit(n, 2) && Rst(n) == Bit(n, 4) && Ack(n) == Bit(n, 16)
  {
  }

  /** FIN, SYN, RST and ACK are the flags of weight 1, 2, 4 and 16. */
  lemma FlagBits(f: Flags)
    ensures Fin(FlagWord(f)) == f.fin && Syn(FlagWord(f)) == f.syn && Rst(FlagWord(f)) == f.rst
    ensures Ack(FlagWord(f)) == f.ack
  {
    hide *;
    var n, above := FlagWord(f), 8 * One(f.ns) + 4 * One(f.cwr) + 2 * One(f.ece) + One(f.urg);
    FlagSum(f, n, above);
    FiveBits(n, above, One(f.ack), One(f.psh), One(f.rst), One(f.syn), One(f.fin));
    BitMeans(n, 1, f.fin);
    BitMeans(n, 2, f.syn);
    BitMeans(n, 4, f.rst);
    BitMeans(n, 16, f.ack);
    FlagTests(n);
  }

  predicate IsSet(b: nat, weight: nat)
    requires weight > 0
  {
    b / weight % 2 == 1
  }

  function FlagsIn(offset: u8, b: u8): Flags {
    Flags(IsSet(offset, 1), IsSet(b, 128), IsSet(b, 64), IsSet(b, 32), IsSet(b, 16), IsSet(b, 8), IsSet(b, 4),
          IsSet(b, 2), IsSet(b, 1))
  }

  lemma SetBit(b: nat, weight: nat)
    requires weight > 0
    ensures If(IsSet(b, weight), weight) == weight * (b / weight % 2)
  {
  }

  lemma OddOrEven(n: nat)
    ensures n == 2 * (n / 2) + n % 2
  {
  }

  lemma EightBits(n: int, h1: int, h2: int, h3: int, h4: int, h5: int, h6: int, h7: int, b0: int, b1: int, b2: int,
                  b3: int, b4: int, b5: int, b6: int, b7: int)
    requires n == 2 * h1 + b0 && h1 == 2 * h2 + b1 && h2 == 2 * h3 + b2 && h3 == 2 * h4 + b3
    requires h4 == 2 * h5 + b4 && h5 == 2 * h6 + b5 && h6 == 2 * h7 + b6 && h7 == b7
    ensures n == 128 * b7 + 64 * b6 + 32 * b5 + 16 * b4 + 8 * b3 + 4 * b2 + 2 * b1 + b0
  {
  }

  /** The digits of a byte, with `/ 1` written out. */
  lemma LowDigits(b: u8)
    ensures b == 2 * (b / 2) + b / 1 % 2 && b / 2 == 2 * (b / 4) + b / 2 % 2
    ensures b / 4 == 2 * (b / 8) + b / 4 % 2 && b / 8 == 2 * (b / 16) + b / 8 % 2
  {
    Halves(b);
  }

  lemma HighDigits(b: u8)
    ensures b / 16 == 2 * (b / 32) + b / 16 % 2 && b / 32 == 2 * (b / 64) + b / 32 % 2
    ensures b / 64 == 2 * (b / 128) + b / 64 % 2 && b / 128 == b / 128 % 2
  {
    Halves(b);
    HighHalves(b);
  }

  lemma BinaryOf(b: u8)
    ensures b == 128 * (b / 128 % 2) + 64 * (b / 64 % 2) + 32 * (b / 32 % 2) + 16 * (b / 16 % 2) + 8 * (b / 8 % 2)
                 + 4 * (b / 4 % 2) + 2 * (b / 2 % 2) + b / 1 % 2
  {
    LowDigits(b);
    HighDigits(b);
    EightBits(b, b / 2, b / 4, b / 8, b / 16, b / 32, b / 64, b / 128, b / 1 % 2, b / 2 % 2, b / 4 % 2, b / 8 % 2,
              b / 16 % 2, b / 32 % 2, b / 64 % 2, b / 128 % 2);
  }

  lemma ByteOfFlags(f: Flags)
    ensures FlagByte(f) == If(f.cwr, 128) + If(f.ece, 64) + If(f.urg, 32) + If(f.ack, 16) + If(f.psh, 8) + If(f.rst, 4)
                           + If(f.syn, 2) + If(f.fin, 1)
  {
    hide If;
  }

  lemma FlagsInAre(offset: u8, b: u8)
    ensures var f := FlagsIn(offset, b);
            && f.ns == IsSet(offset, 1) && f.cwr == IsSet(b, 128) && f.ece == IsSet(b, 64) && f.urg == IsSet(b, 32)
            && f.ack == IsSet(b, 16) && f.psh == IsSet(b, 8) && f.rst == IsSet(b, 4) && f.syn == IsSet(b, 2)
            && f.fin == IsSet(b, 1)
  {
    hide IsSet;
  }

  lemma FlagByteOf(offset: u8, b: u8)
    ensures FlagByte(FlagsIn(offset, b)) == b
  {
    hide *;
    BinaryOf(b);
    ByteOfFlags(FlagsIn(offset, b));
    FlagsInAre(offset, b);
    SetBit(b, 128);
    SetBit(b, 64);
    SetBit(b, 32);
    SetBit(b, 16);
    SetBit(b, 8);
    SetBit(b, 4);
    SetBit(b, 2);
    SetBit(b, 1);
  }

  /** The segment in bytes that are accepted. */
  function SegmentIn(data: Bytes): Segment
    requires |data| >= 20 && 5 <= High(data[12]) && High(data[12]) * 4 <= |data|
  {
    var end := High(data[12]) * 4;
    Segment(Be16(data, 0), Be16(data, 2), Be32(data, 4), Be32(data, 8), data[12] / 2 % 8, FlagsIn(data[12], data[13]),
            Be16(data, 14), Be16(data, 16), Be16(data, 18), data[20..end], data[end..])
  }

  lemma SegmentEncodes(data: Bytes)
    requires |data| >= 20 && 5 <= High(data[12]) && High(data[12]) * 4 <= |data|
    ensures SegmentOk(SegmentIn(data)) && EncodeSegment(SegmentIn(data)) == data
  {
    hide Bytes16, Bytes32, Be16, Be32, FlagByte, FlagsIn;
    var s := SegmentIn(data);
    Bytes16OfBe16(data, 0);
    Bytes16OfBe16(data, 2);
    Bytes32OfBe32(data, 4);
    Bytes32OfBe32(data, 8);
    Bytes16OfBe16(data, 14);
    Bytes16OfBe16(data, 16);
    Bytes16OfBe16(data, 18);
    FlagByteOf(data[12], data[13]);
    OffsetByteOf(data[12], data[13], s);
    assert FixedHeader(s) == data[..20];
    assert s.options + s.data == data[20..];
  }

  lemma SixteenthOf(n: nat)
    ensures n / 2 / 8 == n / 16
  {
  }

  lemma EightsOf(n: nat)
    ensures n == 8 * (n / 8) + n % 8
  {
  }

  lemma OffsetDigits(offset: u8)
    ensures offset == offset / 16 * 16 + offset / 2 % 8 * 2 + offset % 2
  {
    SixteenthOf(offset);
    EightsOf(offset / 2);
    OddOrEven(offset);
  }

  lemma OffsetByteOf(offset: u8, b: u8, s: Segment)
    requires SegmentOk(s) && s.reserved == offset / 2 % 8 && s.flags == FlagsIn(offset, b)
    requires |s.options| == High(offset) * 4 - 20
    ensures OffsetByte(s) == offset
  {
    OffsetDigits(offset);
    assert s.flags.ns == IsSet(offset, 1);
    hide FlagsIn;
  }

  /** Bytes are accepted if and only if they are the encoding of a segment. */
  lemma SegmentAcceptedIff(v: View, data: Bytes)
    requires !v.malformed
    ensures !TcpView(v, data).malformed <==> exists s :: SegmentOk(s) && data == EncodeSegment(s)
  {
    if !TcpView(v, data).malformed {
      SegmentEncodes(data);
    }
    forall s | SegmentOk(s) && data == EncodeSegment(s) ensures !TcpView(v, data).malformed {
      SegmentReadsBack(v, s);
    }
  }

  // UDP

  /** `trailing` lies beyond the datagram's own length. */
  datatype Datagram = Datagram(srcPort: u16, dstPort: u16, checksum: u16, data: Bytes, trailing: Bytes)

  predicate DatagramOk(d: Datagram) {
    8 + |d.data| < 0x1_0000
  }

  function EncodeDatagram(d: Datagram): (r: Bytes)
    requires DatagramOk(d)
    ensures |r| >= 8
  {
    Bytes16(d.srcPort) + Bytes16(d.dstPort) + Bytes16(8 + |d.data|) + Bytes16(d.checksum) + (d.data + d.trailing)
  }

  lemma DatagramReadsBack(v: View, d: Datagram)
    requires DatagramOk(d)
    ensures UdpView(v, EncodeDatagram(d)) == v.(transport := Udp(d.srcPort, d.dstPort))
  {
    hide Bytes16, Be16;
    var data := EncodeDatagram(d);
    assert At(data, 0, Bytes16(d.srcPort)) && At(data, 2, Bytes16(d.dstPort)) && At(data, 4, Bytes16(8 + |d.data|));
    Be16Encoded(data, 0, d.srcPort);
    Be16Encoded(data, 2, d.dstPort);
    Be16Encoded(data, 4, 8 + |d.data|);
  }

  lemma DatagramAcceptedIff(v: View, data: Bytes)
    requires !v.malformed
    ensures !UdpView(v, data).malformed <==> exists d :: DatagramOk(d) && data == EncodeDatagram(d)
  {
    hide Bytes16, Be16;
    if !UdpView(v, data).malformed {
      var end := Be16(data, 4);
      var d := Datagram(Be16(data, 0), Be16(data, 2), Be16(data, 6), data[8..end], data[end..]);
      Bytes16OfBe16(data, 0);
      Bytes16OfBe16(data, 2);
      Bytes16OfBe16(data, 4);
      Bytes16OfBe16(data, 6);
      assert DatagramOk(d) && data == EncodeDatagram(d);
    }
    forall d | DatagramOk(d) && data == EncodeDatagram(d) ensures !UdpView(v, data).malformed {
      DatagramReadsBack(v, d);
    }
  }
}
