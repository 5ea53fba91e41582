/**
  Frames as their senders lay them out (RFC 791, RFC 8200, RFC 826, IEEE 802.1Q and 802.1X): the parser reads back
  the addresses, ports and flags of each, whatever its other fields are.
 */
module FrameCodec {
  import opened Prelude
  import opened Packets
  import opened Frames
  import opened SegmentCodec
  import Ipv6Chain

  // Upper layers

  datatype Upper =
    | TcpUpper(segment: Segment)
    | UdpUpper(datagram: Datagram)
    | IcmpUpper(protocol: u8, message: Bytes)
    | OtherUpper(protocol: u8, data: Bytes)

  /** An ICMP message has a type, a code and a checksum; other protocols are not looked into. */
  predicate UpperOk(u: Upper) {
    match u
    case TcpUpper(s) => SegmentOk(s)
    case UdpUpper(d) => DatagramOk(d)
    case IcmpUpper(protocol, message) => protocol in {1, 58} && |message| >= 4
    case OtherUpper(protocol, _) => protocol !in {1, 6, 17, 58}
  }

  function ProtocolOf(u: Upper): u8 {
    match u
    case TcpUpper(_) => 6
    case UdpUpper(_) => 17
    case IcmpUpper(protocol, _) => protocol
    case OtherUpper(protocol, _) => protocol
  }

  function EncodeUpper(u: Upper): Bytes
    requires UpperOk(u)
  {
    match u
    case TcpUpper(s) => EncodeSegment(s)
    case UdpUpper(d) => EncodeDatagram(d)
    case IcmpUpper(_, message) => message
    case OtherUpper(_, data) => data
  }

  function TransportOf(u: Upper): Transport {
    match u
    case TcpUpper(s) => Tcp(s.srcPort, s.dstPort, FlagWord(s.flags))
    case UdpUpper(d) => Udp(d.srcPort, d.dstPort)
    case IcmpUpper(_, _) => Icmp
    case OtherUpper(_, _) => NoTransport
  }

  lemma UpperReadsBack(v: View, u: Upper)
    requires UpperOk(u) && v.transport == NoTransport
    ensures TransportView(v, ProtocolOf(u), EncodeUpper(u)) == v.(transport := TransportOf(u))
  {
    hide EncodeSegment, EncodeDatagram, TcpView, UdpView, FlagWord;
    match u
    case TcpUpper(s) => SegmentReadsBack(v, s);
    case UdpUpper(d) => DatagramReadsBack(v, d);
    case _ =>
  }

  /** An ICMP message, of either version, is accepted if and only if it has type, code and checksum. */
  lemma IcmpAcceptedIff(v: View, protocol: u8, data: Bytes)
    requires protocol in {1, 58} && !v.malformed
    ensures !TransportView(v, protocol, data).malformed
       <==> exists kind: u8, code: u8, checksum, rest :: data == [kind, code] + Bytes16(checksum) + rest
  {
    hide Bytes16;
    if |data| >= 4 {
      Bytes16OfBe16(data, 2);
      assert data == [data[0], data[1]] + Bytes16(Be16(data, 2)) + data[4..];
    }
  }

  // IPv4

  datatype Ipv4Header = Ipv4Header(tos: u8, ident: u16, fragment: u16, ttl: u8, checksum: u16, src: u32, dst: u32,
                                   options: Bytes)

  /** The header length counts words of 32 bits in four bits. */
  predicate Ipv4Ok(h: Ipv4Header) {
    |h.options| % 4 == 0 && |h.options| <= 40
  }

  function Ipv4Fixed(h: Ipv4Header, protocol: u8, total: u16): (r: Bytes)
    requires Ipv4Ok(h)
    ensures |r| == 20
  {
    [4 * 16 + 5 + |h.options| / 4, h.tos] + Bytes16(total) + Bytes16(h.ident) + Bytes16(h.fragment)
    + [h.ttl, protocol] + Bytes16(h.checksum) + Bytes32(h.src) + Bytes32(h.dst)
  }

  function EncodeIpv4(h: Ipv4Header, protocol: u8, total: u16, rest: Bytes): (r: Bytes)
    requires Ipv4Ok(h)
    ensures |r| == 20 + |h.options| + |rest|
  {
    Ipv4Fixed(h, protocol, total) + (h.options + rest)
  }

  lemma Ipv4FixedFields(h: Ipv4Header, protocol: u8, total: u16)
    requires Ipv4Ok(h)
    ensures var f := Ipv4Fixed(h, protocol, total);
            && f[0] == 4 * 16 + 5 + |h.options| / 4 && f[9] == protocol
            && f[2..4] == Bytes16(total) && f[12..16] == Bytes32(h.src) && f[16..20] == Bytes32(h.dst)
  {
    hide Bytes16, Bytes32;
  }

  lemma Ipv4Fields(h: Ipv4Header, protocol: u8, total: u16, rest: Bytes)
    requires Ipv4Ok(h)
    ensures var data := EncodeIpv4(h, protocol, total, rest);
            && Low(data[0]) * 4 == 20 + |h.options| && High(data[0]) == 4 && data[9] == protocol
            && Be16(data, 2) == total && Be32(data, 12) == h.src && Be32(data, 16) == h.dst
            && data[20 + |h.options|..] == rest
  {
    hide Ipv4Fixed, Bytes16, Bytes32, Be16, Be32;
    var f, data := Ipv4Fixed(h, protocol, total), EncodeIpv4(h, protocol, total, rest);
    Ipv4FixedFields(h, protocol, total);
    assert data[0] == f[0] && data[9] == f[9];
    assert data[2..4] == f[2..4] && data[12..16] == f[12..16] && data[16..20] == f[16..20];
    Be16Encoded(data, 2, total);
    Be32Encoded(data, 12, h.src);
    Be32Encoded(data, 16, h.dst);
  }

  /** Addresses and protocol are read back, and what follows the header up to the total length or the end at hand. */
  lemma Ipv4ReadsBack(v: View, h: Ipv4Header, protocol: u8, total: u16, rest: Bytes)
    requires Ipv4Ok(h)
    ensures var start := 20 + |h.options|;
            Ipv4View(v, EncodeIpv4(h, protocol, total, rest))
            == if total < start then Malformed(v)
               else TransportView(v.(network := Ipv4(h.src, h.dst)), protocol, rest[..Min(|rest|, total - start)])
  {
    hide EncodeIpv4, TransportView, Be16, Be32;
    Ipv4Fields(h, protocol, total, rest);
    var data, start := EncodeIpv4(h, protocol, total, rest), 20 + |h.options|;
    if total >= start {
      assert data[start..Ipv4End(data)] == data[start..][..Min(|rest|, total - start)];
    }
  }

  lemma TransportKeepsNetwork(v: View, protocol: u8, data: Bytes)
    ensures TransportView(v, protocol, data).network == v.network
  {
  }

  lemma Ipv4Encodes(data: Bytes)
    requires Ipv4HeaderOk(data)
    ensures var end := Low(data[0]) * 4;
            var h := Ipv4Header(data[1], Be16(data, 4), Be16(data, 6), data[8], Be16(data, 10), Be32(data, 12),
                                Be32(data, 16), data[20..end]);
            Ipv4Ok(h) && data == EncodeIpv4(h, data[9], Be16(data, 2), data[end..])
  {
    hide Bytes16, Bytes32, Be16, Be32;
    var end := Low(data[0]) * 4;
    var h := Ipv4Header(data[1], Be16(data, 4), Be16(data, 6), data[8], Be16(data, 10), Be32(data, 12), Be32(data, 16),
                        data[20..end]);
    Bytes16OfBe16(data, 2);
    Bytes16OfBe16(data, 4);
    Bytes16OfBe16(data, 6);
    Bytes16OfBe16(data, 10);
    Bytes32OfBe32(data, 12);
    Bytes32OfBe32(data, 16);
    assert 4 * 16 + 5 + |h.options| / 4 == data[0];
    assert Ipv4Fixed(h, data[9], Be16(data, 2)) == data[..20];
    assert h.options + data[end..] == data[20..];
  }

  /** Addresses are taken from exactly the encodings whose total length covers their header. */
  lemma Ipv4AcceptedIff(v: View, data: Bytes)
    requires v.network == NoNetwork
    ensures Ipv4View(v, data).network.Ipv4?
       <==> exists h, protocol, total: u16, rest ::
              Ipv4Ok(h) && total >= 20 + |h.options| && data == EncodeIpv4(h, protocol, total, rest)
  {
    hide EncodeIpv4, TransportView, Be16, Be32;
    if Ipv4View(v, data).network.Ipv4? {
      Ipv4Encodes(data);
      var end := Low(data[0]) * 4;
      var h := Ipv4Header(data[1], Be16(data, 4), Be16(data, 6), data[8], Be16(data, 10), Be32(data, 12),
                          Be32(data, 16), data[20..end]);
      assert Be16(data, 2) >= 20 + |h.options|;
      assert data == EncodeIpv4(h, data[9], Be16(data, 2), data[end..]);
    }
    forall h, protocol, total: u16, rest
      | Ipv4Ok(h) && total >= 20 + |h.options| && data == EncodeIpv4(h, protocol, total, rest)
      ensures Ipv4View(v, data).network.Ipv4?
    {
      Ipv4ReadsBack(v, h, protocol, total, rest);
      TransportKeepsNetwork(v.(network := Ipv4(h.src, h.dst)), protocol,
                            rest[..Min(|rest|, total - (20 + |h.options|))]);
    }
  }

  // IPv6

  /** A number in `n` bytes, most significant first. */
  function NatBytes(v: nat, n: nat): (r: Bytes)
    ensures |r| == n
  {
    if n == 0 then [] else NatBytes(v / 0x100, n - 1) + [v % 0x100]
  }

  function Power256(n: nat): (r: nat)
    ensures r >= 1
  {
    if n == 0 then 1 else 0x100 * Power256(n - 1)
  }

  lemma {:induction false} NatReadsBack(v: nat, n: nat)
    requires v < Power256(n)
    ensures BeNat(NatBytes(v, n)) == v
    decreases n
  {
    if n == 0 {
    } else {
      NatReadsBack(v / 0x100, n - 1);
      assert NatBytes(v, n)[..n - 1] == NatBytes(v / 0x100, n - 1);
    }
  }

  datatype Ipv6Header = Ipv6Header(trafficClass: u8, flowLabel: nat, hopLimit: u8, src: nat, dst: nat)

  predicate Ipv6Ok(h: Ipv6Header) {
    h.flowLabel < 0x10_0000 && h.src < Power256(16) && h.dst < Power256(16)
  }

  function Ipv6First(h: Ipv6Header, next: u8, length: u16): (r: Bytes)
    requires Ipv6Ok(h)
    ensures |r| == 8
  {
    [6 * 16 + h.trafficClass / 16, h.trafficClass % 16 * 16 + h.flowLabel / 0x1_0000] + Bytes16(h.flowLabel % 0x1_0000)
    + Bytes16(length) + [next, h.hopLimit]
  }

  function EncodeIpv6(h: Ipv6Header, next: u8, length: u16, rest: Bytes): (r: Bytes)
    requires Ipv6Ok(h)
    ensures |r| == 40 + |rest|
  {
    Ipv6First(h, next, length) + NatBytes(h.src, 16) + NatBytes(h.dst, 16) + rest
  }

  lemma Ipv6FirstFields(h: Ipv6Header, next: u8, length: u16)
    requires Ipv6Ok(h)
    ensures var f := Ipv6First(h, next, length);
            High(f[0]) == 6 && f[6] == next && f[4..6] == Bytes16(length)
  {
    hide Bytes16;
  }

  lemma Ipv6Fields(h: Ipv6Header, next: u8, length: u16, rest: Bytes)
    requires Ipv6Ok(h)
    ensures var data := EncodeIpv6(h, next, length, rest);
            && High(data[0]) == 6 && data[6] == next && Be16(data, 4) == length
            && BeNat(data[8..24]) == h.src && BeNat(data[24..40]) == h.dst
            && data[40..] == rest
  {
    hide Ipv6First, NatBytes, Bytes16, Be16, BeNat, Power256;
    var f, data := Ipv6First(h, next, length), EncodeIpv6(h, next, length, rest);
    Ipv6FirstFields(h, next, length);
    assert data[0] == f[0] && data[6] == f[6] && data[4..6] == f[4..6];
    Be16Encoded(data, 4, length);
    assert data[8..24] == NatBytes(h.src, 16) && data[24..40] == NatBytes(h.dst, 16);
    NatReadsBack(h.src, 16);
    NatReadsBack(h.dst, 16);
  }

  lemma {:induction false} NatEncodes(data: Bytes)
    ensures BeNat(data) < Power256(|data|) && NatBytes(BeNat(data), |data|) == data
    decreases |data|
  {
    if data == [] {
    } else {
      var init, last := data[..|data| - 1], data[|data| - 1];
      NatEncodes(init);
      assert BeNat(data) / 0x100 == BeNat(init) && BeNat(data) % 0x100 == last;
      assert data == init + [last];
    }
  }

  lemma Ipv6Encodes(data: Bytes)
    requires |data| >= 40 && High(data[0]) == 6
    ensures var h := Ipv6Header(data[0] % 16 * 16 + data[1] / 16, data[1] % 16 * 0x1_0000 + Be16(data, 2), data[7],
                                BeNat(data[8..24]), BeNat(data[24..40]));
            Ipv6Ok(h) && data == EncodeIpv6(h, data[6], Be16(data, 4), data[40..])
  {
    hide Bytes16, Be16, BeNat, NatBytes, Power256;
    var h := Ipv6Header(data[0] % 16 * 16 + data[1] / 16, data[1] % 16 * 0x1_0000 + Be16(data, 2), data[7],
                        BeNat(data[8..24]), BeNat(data[24..40]));
    NatEncodes(data[8..24]);
    NatEncodes(data[24..40]);
    Bytes16OfBe16(data, 2);
    Bytes16OfBe16(data, 4);
    assert Ipv6First(h, data[6], Be16(data, 4)) == data[..8];
  }

  /** Addresses are taken from exactly the encodings. */
  lemma Ipv6AcceptedIff(v: View, data: Bytes)
    requires v.network == NoNetwork
    ensures Ipv6View(v, data).network.Ipv6?
       <==> exists h, next, length, rest :: Ipv6Ok(h) && data == EncodeIpv6(h, next, length, rest)
  {
    hide EncodeIpv6, TransportView, Be16, BeNat, Ipv6Ok, Ipv6Chain.Walk;
    if Ipv6View(v, data).network.Ipv6? {
      Ipv6Encodes(data);
      var h := Ipv6Header(data[0] % 16 * 16 + data[1] / 16, data[1] % 16 * 0x1_0000 + Be16(data, 2), data[7],
                          BeNat(data[8..24]), BeNat(data[24..40]));
      assert data == EncodeIpv6(h, data[6], Be16(data, 4), data[40..]);
    }
    forall h, next, length, rest | Ipv6Ok(h) && data == EncodeIpv6(h, next, length, rest)
      ensures Ipv6View(v, data).network.Ipv6?
    {
      Ipv6Fields(h, next, length, rest);
      var end := Min(|data|, 40 + Be16(data, 4) as int);
      var c := Ipv6Chain.Walk(data, end, data[6], 40);
      TransportKeepsNetwork(v.(network := Ipv6(h.src, h.dst)), c.final, data[c.payloadAt..end]);
    }
  }

  /** An extension header without its first two bytes, which name the next header and give the length. */
  datatype Extension = Extension(kind: u8, body: Bytes)

  /** Hop-by-hop, routing, fragment, destination options and mobility, in units of eight octets. */
  predicate ExtensionOk(x: Extension) {
    x.kind in {0, 43, 44, 60, 135} && |x.body| % 8 == 6 && |x.body| <= 2046
  }

  predicate ExtensionsOk(xs: seq<Extension>) {
    forall i :: 0 <= i < |xs| ==> ExtensionOk(xs[i])
  }

  function FirstKind(xs: seq<Extension>, protocol: u8): u8 {
    if xs == [] then protocol else xs[0].kind
  }

  function EncodeExtension(x: Extension, next: u8): (r: Bytes)
    requires ExtensionOk(x)
    ensures |r| == 2 + |x.body|
  {
    [next, |x.body| / 8] + x.body
  }

  function EncodeExtensions(xs: seq<Extension>, protocol: u8): Bytes
    requires ExtensionsOk(xs)
  {
    if xs == [] then []
    else EncodeExtension(xs[0], FirstKind(xs[1..], protocol)) + EncodeExtensions(xs[1..], protocol)
  }

  function HeadersOf(xs: seq<Extension>, protocol: u8): seq<Ipv6Chain.ExtHeader>
    requires ExtensionsOk(xs)
  {
    if xs == [] then []
    else
      [Ipv6Chain.ExtHeader(xs[0].kind, EncodeExtension(xs[0], FirstKind(xs[1..], protocol)))]
      + HeadersOf(xs[1..], protocol)
  }

  lemma ExtensionIsHeader(x: Extension, next: u8)
    requires ExtensionOk(x)
    ensures Ipv6Chain.IsHeader(Ipv6Chain.ExtHeader(x.kind, EncodeExtension(x, next)))
    ensures EncodeExtension(x, next)[0] == next
  {
  }

  lemma {:induction false} HeadersAreLinked(xs: seq<Extension>, protocol: u8)
    requires ExtensionsOk(xs)
    ensures Ipv6Chain.Linked(FirstKind(xs, protocol), HeadersOf(xs, protocol), protocol)
    ensures Ipv6Chain.Flatten(HeadersOf(xs, protocol)) == EncodeExtensions(xs, protocol)
    decreases |xs|
  {
    if xs == [] {
    } else {
      hide EncodeExtension, Ipv6Chain.IsHeader, ExtensionOk;
      HeadersAreLinked(xs[1..], protocol);
      ExtensionIsHeader(xs[0], FirstKind(xs[1..], protocol));
      assert HeadersOf(xs, protocol)[1..] == HeadersOf(xs[1..], protocol);
    }
  }

  /** Protocols other than those five end the chain, and add no header to it. */
  lemma UpperEndsChain(data: Bytes, end: nat, protocol: u8, off: nat)
    requires off <= end <= |data| && protocol !in {0, 43, 44, 60, 135}
    ensures Ipv6Chain.Walk(data, end, protocol, off) == Ipv6Chain.Chain([], protocol, off)
  {
  }

  /** Any chain of these headers is walked to its upper protocol, header by header. */
  lemma ChainReadsBack(data: Bytes, end: nat, off: nat, xs: seq<Extension>, protocol: u8)
    requires ExtensionsOk(xs) && protocol !in {0, 43, 44, 60, 135}
    requires end <= |data| && off + |EncodeExtensions(xs, protocol)| <= end
    requires At(data, off, EncodeExtensions(xs, protocol))
    ensures Ipv6Chain.Walk(data, end, FirstKind(xs, protocol), off)
         == Ipv6Chain.Chain(HeadersOf(xs, protocol), protocol, off + |EncodeExtensions(xs, protocol)|)
  {
    HeadersAreLinked(xs, protocol);
    Ipv6Chain.WalkUndoesEncoding(data, end, off, FirstKind(xs, protocol), HeadersOf(xs, protocol), protocol);
  }

  /** Addresses are read back, and the upper layer behind any chain of extension headers. */
  lemma Ipv6ReadsBack(v: View, h: Ipv6Header, xs: seq<Extension>, protocol: u8, upper: Bytes, padding: Bytes)
    requires Ipv6Ok(h) && ExtensionsOk(xs) && protocol !in {0, 43, 44, 60, 135}
    requires |EncodeExtensions(xs, protocol)| + |upper| < 0x1_0000
    ensures var chain := EncodeExtensions(xs, protocol);
            Ipv6View(v, EncodeIpv6(h, FirstKind(xs, protocol), |chain| + |upper|, chain + upper + padding))
            == TransportView(v.(network := Ipv6(h.src, h.dst)), protocol, upper)
  {
    hide EncodeIpv6, EncodeExtensions, TransportView, Be16, BeNat, Ipv6Chain.Walk, Ipv6Ok, ExtensionsOk, HeadersOf,
         FirstKind;
    var chain := EncodeExtensions(xs, protocol);
    var length, rest := |chain| + |upper|, chain + upper + padding;
    var data := EncodeIpv6(h, FirstKind(xs, protocol), length, rest);
    Ipv6Fields(h, FirstKind(xs, protocol), length, rest);
    var end := 40 + length;
    assert At(data, 40, chain) && data[40 + |chain|..end] == upper by {
      assert data[40..][..|chain|] == chain && data[40..][|chain|..length] == upper;
    }
    ChainReadsBack(data, end, 40, xs, protocol);
  }
  // ARP and EAPOL

  datatype ArpMessage = ArpMessage(hardware: u16, protocol: u16, hardwareLen: u8, protocolLen: u8, operation: u16,
                                   senderMac: Mac, senderIp: u32, targetMac: Mac, targetIp: u32)

  function EncodeArp(a: ArpMessage, padding: Bytes): Bytes {
    Bytes16(a.hardware) + Bytes16(a.protocol) + [a.hardwareLen, a.protocolLen] + Bytes16(a.operation)
    + a.senderMac + Bytes32(a.senderIp) + a.targetMac + Bytes32(a.targetIp) + padding
  }

  /** Only Ethernet and IPv4 addresses are taken. */
  function NetworkOfArp(a: ArpMessage): Network {
    if a.hardware == 1 && a.protocol == 0x0800 && a.hardwareLen == 6 && a.protocolLen == 4
    then Arp(a.senderIp, a.targetIp)
    else NoNetwork
  }

  lemma ArpReadsBack(v: View, a: ArpMessage, padding: Bytes)
    requires v.network == NoNetwork
    ensures ArpView(v, EncodeArp(a, padding)) == v.(network := NetworkOfArp(a))
  {
    hide Bytes16, Bytes32, Be16, Be32;
    var data := EncodeArp(a, padding);
    assert At(data, 0, Bytes16(a.hardware)) && At(data, 2, Bytes16(a.protocol));
    assert At(data, 14, Bytes32(a.senderIp)) && At(data, 24, Bytes32(a.targetIp));
    assert data[4] == a.hardwareLen && data[5] == a.protocolLen;
    Be16Encoded(data, 0, a.hardware);
    Be16Encoded(data, 2, a.protocol);
    Be32Encoded(data, 14, a.senderIp);
    Be32Encoded(data, 24, a.targetIp);
  }

  /** An IEEE 802.1X packet: version, type, length of the body, body, and what follows it. */
  function EncodeEapol(version: u8, kind: u8, body: Bytes, padding: Bytes): Bytes
    requires |body| < 0x1_0000
  {
    [version, kind] + Bytes16(|body|) + (body + padding)
  }

  /** A packet of type 3 with at least 97 bytes is a key exchange. */
  lemma EapolReadsBack(v: View, version: u8, kind: u8, body: Bytes, padding: Bytes)
    requires |body| < 0x1_0000 && !v.eapol
    ensures EapolView(v, EncodeEapol(version, kind, body, padding)) == v.(eapol := kind == 3 && |body| >= 97)
  {
    hide Bytes16, Be16;
    var data := EncodeEapol(version, kind, body, padding);
    assert At(data, 2, Bytes16(|body|));
    Be16Encoded(data, 2, |body|);
  }

  lemma EapolAcceptedIff(v: View, data: Bytes)
    requires !v.malformed
    ensures !EapolView(v, data).malformed
       <==> exists version, kind, body, padding ::
              |body| < 0x1_0000 && data == EncodeEapol(version, kind, body, padding)
  {
    hide Bytes16, Be16;
    if !EapolView(v, data).malformed {
      var end := 4 + Be16(data, 2) as int;
      Bytes16OfBe16(data, 2);
      assert data == EncodeEapol(data[0], data[1], data[4..end], data[end..]);
    }
    forall version, kind, body, padding | |body| < 0x1_0000 && data == EncodeEapol(version, kind, body, padding)
      ensures !EapolView(v, data).malformed
    {
      assert At(data, 2, Bytes16(|body|));
      Be16Encoded(data, 2, |body|);
    }
  }

  lemma ArpAcceptedIff(v: View, data: Bytes)
    requires !v.malformed
    ensures !ArpView(v, data).malformed <==> exists a, padding :: data == EncodeArp(a, padding)
  {
    hide Bytes16, Bytes32, Be16, Be32;
    if |data| >= 28 {
      var a := ArpMessage(Be16(data, 0), Be16(data, 2), data[4], data[5], Be16(data, 6), data[8..14], Be32(data, 14),
                          data[18..24], Be32(data, 24));
      Bytes16OfBe16(data, 0);
      Bytes16OfBe16(data, 2);
      Bytes16OfBe16(data, 6);
      Bytes32OfBe32(data, 14);
      Bytes32OfBe32(data, 24);
      assert data == EncodeArp(a, data[28..]);
    }
  }

  // Frames

  datatype Payload =
    | Ipv4Payload(v4: Ipv4Header, upper4: Upper, padding4: Bytes)
    | Ipv6Payload(v6: Ipv6Header, extensions: seq<Extension>, upper6: Upper, padding6: Bytes)
    | ArpPayload(arp: ArpMessage, paddingArp: Bytes)
    | EapolPayload(version: u8, kind: u8, body: Bytes, paddingEapol: Bytes)
    | OtherPayload(etherType: u16, data: Bytes)

  /** `outer` is a service tag with its type, `inner` an 802.1Q tag; either may be missing. */
  datatype Frame = Frame(dst: Mac, src: Mac, outer: Option<(u16, u16)>, inner: Option<u16>, payload: Payload)

  predicate PayloadOk(p: Payload) {
    match p
    case Ipv4Payload(h, u, _) => Ipv4Ok(h) && UpperOk(u) && 20 + |h.options| + |EncodeUpper(u)| < 0x1_0000
    case Ipv6Payload(h, xs, u, _) =>
      && Ipv6Ok(h) && ExtensionsOk(xs) && UpperOk(u) && ProtocolOf(u) !in {0, 43, 44, 60, 135}
      && |EncodeExtensions(xs, ProtocolOf(u))| + |EncodeUpper(u)| < 0x1_0000
    case ArpPayload(_, _) => true
    case EapolPayload(_, _, body, _) => |body| < 0x1_0000
    case OtherPayload(etherType, data) =>
      etherType !in {0x0800, 0x86DD, 0x0806, 0x888E, 0x8100, 0x88A8, 0x9100} && data != []
  }

  predicate FrameOk(f: Frame) {
    (f.outer.Some? ==> f.outer.value.0 in {0x88A8, 0x9100}) && PayloadOk(f.payload)
  }

  function EtherTypeOf(p: Payload): u16 {
    match p
    case Ipv4Payload(_, _, _) => 0x0800
    case Ipv6Payload(_, _, _, _) => 0x86DD
    case ArpPayload(_, _) => 0x0806
    case EapolPayload(_, _, _, _) => 0x888E
    case OtherPayload(etherType, _) => etherType
  }

  function EncodePayload(p: Payload): Bytes
    requires PayloadOk(p)
  {
    match p
    case Ipv4Payload(h, u, padding) =>
      EncodeIpv4(h, ProtocolOf(u), 20 + |h.options| + |EncodeUpper(u)|, EncodeUpper(u) + padding)
    case Ipv6Payload(h, xs, u, padding) =>
      var chain, upper := EncodeExtensions(xs, ProtocolOf(u)), EncodeUpper(u);
      EncodeIpv6(h, FirstKind(xs, ProtocolOf(u)), |chain| + |upper|, chain + upper + padding)
    case ArpPayload(a, padding) => EncodeArp(a, padding)
    case EapolPayload(version, kind, body, padding) => EncodeEapol(version, kind, body, padding)
    case OtherPayload(_, data) => data
  }

  function OuterBytes(f: Frame): Bytes {
    match f.outer
    case Some((tagType, tci)) => Bytes16(tagType) + Bytes16(tci)
    case None => []
  }

  function InnerBytes(f: Frame): Bytes {
    match f.inner
    case Some(tci) => Bytes16(0x8100) + Bytes16(tci)
    case None => []
  }

  function EncodeFrame(f: Frame): Bytes
    requires FrameOk(f)
  {
    f.dst + f.src + OuterBytes(f) + InnerBytes(f) + Bytes16(EtherTypeOf(f.payload)) + EncodePayload(f.payload)
  }

  /** A frame up to its type, without any payload. */
  function HeaderOnly(f: Frame): Bytes {
    f.dst + f.src + OuterBytes(f) + InnerBytes(f) + Bytes16(EtherTypeOf(f.payload))
  }

  /** Fewer than fourteen bytes, or a frame that ends with its type, are malformed and name no one. */
  lemma NoPayloadIsMalformed(f: Frame, data: Bytes)
    requires FrameOk(f)
    ensures var v := FrameView(HeaderOnly(f)); v.malformed && v.network == NoNetwork && v.transport == NoTransport
    ensures |data| < 14 ==> FrameView(data) == View(ZERO_MAC, ZERO_MAC, NoNetwork, NoTransport, false, true)
  {
    hide Bytes16, Be16, PayloadOk, EtherTypeOf, PayloadView;
    TypeIsPlain(f.payload);
    var head, etherType := HeaderOnly(f), EtherTypeOf(f.payload);
    var o := 12 + |OuterBytes(f)|;
    var i := o + |InnerBytes(f)|;
    assert head[12..o] == OuterBytes(f) && head[o..i] == InnerBytes(f) && At(head, i, Bytes16(etherType));
    Be16Encoded(head, i, etherType);
    if f.inner.Some? {
      assert head[o..o + 2] == head[o..i][..2] == Bytes16(0x8100);
      Be16Encoded(head, o, 0x8100);
    }
    if f.outer.Some? {
      assert head[12..14] == head[12..o][..2] == Bytes16(f.outer.value.0);
      Be16Encoded(head, 12, f.outer.value.0);
    }
  }

  function NetworkOf(p: Payload): Network {
    match p
    case Ipv4Payload(h, _, _) => Ipv4(h.src, h.dst)
    case Ipv6Payload(h, _, _, _) => Ipv6(h.src, h.dst)
    case ArpPayload(a, _) => NetworkOfArp(a)
    case _ => NoNetwork
  }

  function TransportIn(p: Payload): Transport {
    match p
    case Ipv4Payload(_, u, _) => TransportOf(u)
    case Ipv6Payload(_, _, u, _) => TransportOf(u)
    case _ => NoTransport
  }

  predicate IsKeyExchange(p: Payload) {
    p.EapolPayload? && p.kind == 3 && |p.body| >= 97
  }

  lemma PayloadReadsBack(v: View, p: Payload)
    requires PayloadOk(p) && v.network == NoNetwork && v.transport == NoTransport && !v.eapol
    ensures PayloadView(v, EtherTypeOf(p), EncodePayload(p))
         == v.(network := NetworkOf(p), transport := TransportIn(p), eapol := IsKeyExchange(p))
    ensures EncodePayload(p) != []
  {
    hide EncodeUpper, TransportView, EncodeIpv4, EncodeIpv6, EncodeExtensions, Ipv4View, Ipv6View, ArpView, EapolView,
         UpperOk, Ipv4Ok, Ipv6Ok, ExtensionsOk, FirstKind, ProtocolOf, TransportOf, NetworkOfArp, Bytes16, Bytes32;
    match p
    case Ipv4Payload(h, u, padding) =>
      var upper, start := EncodeUpper(u), 20 + |h.options|;
      Ipv4ReadsBack(v, h, ProtocolOf(u), start + |upper|, upper + padding);
      assert (upper + padding)[..|upper|] == upper;
      UpperReadsBack(v.(network := Ipv4(h.src, h.dst)), u);
    case Ipv6Payload(h, xs, u, padding) =>
      Ipv6ReadsBack(v, h, xs, ProtocolOf(u), EncodeUpper(u), padding);
      UpperReadsBack(v.(network := Ipv6(h.src, h.dst)), u);
    case ArpPayload(a, padding) => ArpReadsBack(v, a, padding);
    case EapolPayload(version, kind, body, padding) => EapolReadsBack(v, version, kind, body, padding);
    case OtherPayload(_, _) =>
  }

  /** Where the payload starts, after the tags. */
  function PayloadStart(f: Frame): nat {
    14 + |OuterBytes(f)| + |InnerBytes(f)|
  }

  lemma TypeIsPlain(p: Payload)
    requires PayloadOk(p)
    ensures EtherTypeOf(p) !in {0x8100, 0x88A8, 0x9100}
  {
  }

  /** Two tags at most are skipped, in their order. */
  lemma TagsReadBack(f: Frame)
    requires FrameOk(f)
    ensures var data := EncodeFrame(f);
            && |data| >= PayloadStart(f) && AfterTags(data) == (EtherTypeOf(f.payload), PayloadStart(f))
            && data[PayloadStart(f)..] == EncodePayload(f.payload)
            && data[..6] == f.dst && data[6..12] == f.src
  {
    hide EncodePayload, Bytes16, Be16, PayloadOk, EtherTypeOf;
    TypeIsPlain(f.payload);
    var data, etherType := EncodeFrame(f), EtherTypeOf(f.payload);
    var o := 12 + |OuterBytes(f)|;
    var i := o + |InnerBytes(f)|;
    assert At(data, i, Bytes16(etherType));
    Be16Encoded(data, i, etherType);
    if f.inner.Some? {
      assert At(data, o, Bytes16(0x8100));
      Be16Encoded(data, o, 0x8100);
    }
    if f.outer.Some? {
      assert At(data, 12, Bytes16(f.outer.value.0));
      Be16Encoded(data, 12, f.outer.value.0);
    }
  }

  /**
    Every frame, tagged or not, is read back: hardware and network addresses, the upper layer behind any options or
    extension headers with its ports and flags, and whether it is a key exchange.
   */
  lemma FrameReadsBack(f: Frame)
    requires FrameOk(f)
    ensures FrameView(EncodeFrame(f))
         == View(f.src, f.dst, NetworkOf(f.payload), TransportIn(f.payload), IsKeyExchange(f.payload), false)
  {
    hide EncodeFrame, EncodePayload, PayloadView, AfterTags, NetworkOf, TransportIn, IsKeyExchange, PayloadOk;
    TagsReadBack(f);
    PayloadReadsBack(BLANK.(dstMac := f.dst, srcMac := f.src), f.payload);
  }
}
