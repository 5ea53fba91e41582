/** Ethernet, IPv4, IPv6 and transport parsing into the fields the engine reads. */
module Frames {
  import opened Prelude
  import opened Packets
  import Ipv6Chain
  import TcpOptions

  function High(b: u8): u8 {
    b / 16
  }

  function Low(b: u8): u8 {
    b % 16
  }

  /** Big-endian value of any number of bytes. */
  function BeNat(data: Bytes): nat {
    if data == [] then 0 else BeNat(data[..|data| - 1]) * 0x100 + data[|data| - 1]
  }

  /** What parsing produced so far. */
  datatype View = View(srcMac: Mac, dstMac: Mac, network: Network, transport: Transport, eapol: bool, malformed: bool)

  const BLANK := View(ZERO_MAC, ZERO_MAC, NoNetwork, NoTransport, false, false)

  function Malformed(v: View): View {
    v.(malformed := true)
  }

  // Specification: what each parser adds to the view

  /** The nine flag bits: the low bit of the data-offset byte, then the flag byte. */
  function TcpFlags(data: Bytes): nat
    requires |data| >= 14
  {
    var ns: int := data[12] % 2;
    ns * 0x100 + data[13]
  }

  function TcpView(v: View, data: Bytes): View {
    if |data| < 20 || High(data[12]) < 5 || High(data[12]) * 4 > |data| then Malformed(v)
    else v.(transport := Tcp(Be16(data, 0), Be16(data, 2), TcpFlags(data)))
  }

  function UdpView(v: View, data: Bytes): View {
    if |data| < 8 || Be16(data, 4) < 8 || Be16(data, 4) > |data| then Malformed(v)
    else v.(transport := Udp(Be16(data, 0), Be16(data, 2)))
  }

  function TransportView(v: View, proto: u8, data: Bytes): View {
    if proto == 6 then TcpView(v, data)
    else if proto == 17 then UdpView(v, data)
    else if proto == 1 || proto == 58 then if |data| < 4 then Malformed(v) else v.(transport := Icmp)
    else v
  }

  predicate Ipv4HeaderOk(data: Bytes) {
    |data| >= 20 && High(data[0]) == 4 && Low(data[0]) >= 5 && Low(data[0]) * 4 <= |data|
  }

  /** The end of the datagram: the total length, or the bytes at hand if fewer. */
  function Ipv4End(data: Bytes): nat
    requires Ipv4HeaderOk(data)
  {
    Min(|data|, Be16(data, 2))
  }

  function Ipv4View(v: View, data: Bytes): View {
    if !Ipv4HeaderOk(data) || Ipv4End(data) < Low(data[0]) * 4 then Malformed(v)
    else
      TransportView(v.(network := Ipv4(Be32(data, 12), Be32(data, 16))), data[9],
                    data[Low(data[0]) * 4..Ipv4End(data)])
  }

  function Ipv6View(v: View, data: Bytes): View {
    if |data| < 40 || High(data[0]) != 6 then Malformed(v)
    else
      var end := Min(|data|, 40 + Be16(data, 4) as int);
      var c := Ipv6Chain.Walk(data, end, data[6], 40);
      TransportView(v.(network := Ipv6(BeNat(data[8..24]), BeNat(data[24..40]))), c.final, data[c.payloadAt..end])
  }

  function ArpView(v: View, data: Bytes): View {
    if |data| < 28 then Malformed(v)
    else if Be16(data, 0) == 1 && Be16(data, 2) == 0x0800 && data[4] == 6 && data[5] == 4 then
      v.(network := Arp(Be32(data, 14), Be32(data, 24)))
    else v
  }

  function EapolView(v: View, data: Bytes): View {
    if |data| < 4 || 4 + Be16(data, 2) as int > |data| then Malformed(v)
    else v.(eapol := v.eapol || (data[1] == 3 && Be16(data, 2) >= 97))
  }

  function PayloadView(v: View, ethType: u16, payload: Bytes): View {
    if ethType == 0x0800 then Ipv4View(v, payload)
    else if ethType == 0x86DD then Ipv6View(v, payload)
    else if ethType == 0x0806 then ArpView(v, payload)
    else if ethType == 0x888E then EapolView(v, payload)
    else v
  }

  /** The EtherType and its payload's offset after at most one outer and one inner VLAN tag. */
  function AfterTags(data: Bytes): (r: (u16, nat))
    requires |data| >= 14
    ensures 14 <= r.1 <= |data|
  {
    var outer := Be16(data, 12);
    var (t1, o1) := if (outer == 0x88A8 || outer == 0x9100) && |data| >= 18 then (Be16(data, 16), 18) else (outer, 14);
    if t1 == 0x8100 && |data| >= o1 + 4 then (Be16(data, o1 + 2), o1 + 4) else (t1, o1)
  }

  function FrameView(data: Bytes): View {
    if |data| < 14 then Malformed(BLANK)
    else
      var v := BLANK.(dstMac := data[..6], srcMac := data[6..12]);
      var (ethType, offset) := AfterTags(data);
      if offset < |data| then PayloadView(v, ethType, data[offset..]) else Malformed(v)
  }

  /** A fragment whose reserved byte is one, carrying UDP from port 53 to port 54. */
  const FRAGMENT: Bytes := [0x60, 0, 0, 0, 0, 32, 44, 64] + seq(32, _ => 0)
                           + [17, 1, 0, 0, 0, 0, 0, 0] + [0, 53, 0, 54, 0, 24, 0, 0]
                           + [0, 80, 0, 81, 0, 16, 0, 0] + seq(8, _ => 0)

  lemma FragmentBytes()
    ensures |FRAGMENT| == 72 && FRAGMENT[0] == 0x60 && Be16(FRAGMENT, 4) == 32 && FRAGMENT[6] == 44
    ensures FRAGMENT[40] == 17 && FRAGMENT[41] == 1
    ensures Be16(FRAGMENT, 48) == 53 && Be16(FRAGMENT, 50) == 54 && Be16(FRAGMENT, 52) == 24
    ensures Be16(FRAGMENT, 56) == 80 && Be16(FRAGMENT, 58) == 81 && Be16(FRAGMENT, 60) == 16
  {
  }

  /** The walk takes sixteen octets for the fragment header, the standard eight. */
  lemma FragmentWalks()
    ensures |FRAGMENT| == 72
    ensures var c := Ipv6Chain.Walk(FRAGMENT, 72, 44, 40); c.final == 17 && c.payloadAt == 56
    ensures var c := Ipv6Chain.StandardWalk(FRAGMENT, 72, 44, 40); c.final == 17 && c.payloadAt == 48
  {
    FragmentBytes();
    hide FRAGMENT, Be16;
    Ipv6Chain.WalkNext(FRAGMENT, 72, 44, 40);
    Ipv6Chain.WalkStops(FRAGMENT, 72, 17, 56);
    Ipv6Chain.StandardNext(FRAGMENT, 72, 44, 40);
    assert Ipv6Chain.StandardWalk(FRAGMENT, 72, 17, 48) == Ipv6Chain.Chain([], 17, 48);
  }

  lemma UdpInSlice(v: View, data: Bytes, from: nat)
    requires from + 8 <= |data| && 8 <= Be16(data, from + 4) <= |data| - from
    ensures TransportView(v, 17, data[from..|data|]) == v.(transport := Udp(Be16(data, from), Be16(data, from + 2)))
  {
    var payload := data[from..|data|];
    assert Be16(payload, 0) == Be16(data, from) && Be16(payload, 2) == Be16(data, from + 2);
    assert Be16(payload, 4) == Be16(data, from + 4);
  }

  /**
    Such a datagram is accepted and misread: the first eight bytes of its payload are taken for header, so the
    ports reported are those of the bytes after the real UDP header.
   */
  lemma ReservedByteMisread()
    ensures |FRAGMENT| == 72
    ensures Ipv6View(BLANK, FRAGMENT).transport == Udp(80, 81) && !Ipv6View(BLANK, FRAGMENT).malformed
    ensures var c := Ipv6Chain.StandardWalk(FRAGMENT, 72, FRAGMENT[6], 40);
            TransportView(BLANK, c.final, FRAGMENT[c.payloadAt..72]).transport == Udp(53, 54)
  {
    FragmentBytes();
    FragmentWalks();
    hide FRAGMENT, Be16, TransportView, Ipv6Chain.Walk, Ipv6Chain.StandardWalk, BeNat;
    var network := Ipv6(BeNat(FRAGMENT[8..24]), BeNat(FRAGMENT[24..40]));
    UdpInSlice(BLANK.(network := network), FRAGMENT, 56);
    UdpInSlice(BLANK, FRAGMENT, 48);
  }

  /** The engine's view of a parsed Ethernet frame. */
  function PacketOf(v: View): Packet {
    Packet(v.srcMac, v.dstMac, None, None, None, v.network, v.transport, v.eapol)
  }

  /** A UDP datagram from 10.0.0.1 port 9 to the given port of 10.0.0.2. */
  function UdpDatagram(port: u8): Bytes {
    [0x45, 0, 0, 28, 0, 0, 0, 0, 64, 17, 0, 0] + [10, 0, 0, 1, 10, 0, 0, 2] + [0, 9, 0, port, 0, 8, 0, 0]
  }

  function UdpFrame(port: u8): Bytes {
    [2, 0, 0, 0, 0, 1, 2, 0, 0, 0, 0, 2, 0x08, 0x00] + UdpDatagram(port)
  }

  lemma UdpDatagramBytes(port: u8)
    ensures var ip := UdpDatagram(port);
            && |ip| == 28 && ip[0] == 0x45 && Be16(ip, 2) == 28 && ip[9] == 17
            && Be32(ip, 12) == 0x0A00_0001 && Be32(ip, 16) == 0x0A00_0002
            && Be16(ip, 20) == 9 && Be16(ip, 22) == port && Be16(ip, 24) == 8
  {
  }

  lemma UdpFrameView(port: u8)
    ensures FrameView(UdpFrame(port)).network == Ipv4(0x0A00_0001, 0x0A00_0002)
    ensures FrameView(UdpFrame(port)).transport == Udp(9, port)
  {
    var data, ip := UdpFrame(port), UdpDatagram(port);
    UdpDatagramBytes(port);
    assert |data| == 42 && Be16(data, 12) == 0x0800 && data[14..] == ip;
    hide UdpFrame, UdpDatagram, Be16, Be32, TransportView;
    UdpInSlice(BLANK.(dstMac := data[..6], srcMac := data[6..12], network := Ipv4(0x0A00_0001, 0x0A00_0002)), ip, 20);
  }

  // The parsers, filling in a packet record

  class ParsedPacket {
    var srcMac: Mac
    var dstMac: Mac
    var network: Network
    var transport: Transport
    var options: Option<TcpOptions.Options>
    var headers: seq<Ipv6Chain.ExtHeader>
    var eapol: bool
    var malformed: bool

    ghost function Fields(): View
      reads this
    {
      View(srcMac, dstMac, network, transport, eapol, malformed)
    }

    constructor ()
      ensures Fields() == BLANK && options == None && headers == []
    {
      srcMac, dstMac, network, transport := ZERO_MAC, ZERO_MAC, NoNetwork, NoTransport;
      options, headers, eapol, malformed := None, [], false, false;
    }

    /** Accepted headers have their options parsed; a report never exceeds four selective-acknowledgement blocks. */
    method ParseTcp(data: Bytes)
      modifies this
      ensures Fields() == TcpView(old(Fields()), data)
      ensures headers == old(headers)
      ensures options == if |data| < 20 || High(data[12]) < 5 || High(data[12]) * 4 > |data| then old(options)
                         else Some(TcpOptions.Parse(data[20..High(data[12]) * 4], 0, TcpOptions.NO_OPTIONS))
      ensures options != old(options) ==> options.Some? && |options.value.sackBlocks| <= 4
    {
      if |data| < 20 {
        malformed := true;
        return;
      }
      var dataOffset: int := High(data[12]);
      if dataOffset < 5 || dataOffset * 4 > |data| {
        malformed := true;
        return;
      }
      var parsed := TcpOptions.ParseTcpOptions(data[20..dataOffset * 4]);
      TcpOptions.AtMostFourBlocks(data[20..dataOffset * 4]);
      options := Some(parsed);
      transport := Tcp(Be16(data, 0), Be16(data, 2), TcpFlags(data));
    }

    method ParseUdp(data: Bytes)
      modifies this
      ensures Fields() == UdpView(old(Fields()), data)
      ensures headers == old(headers) && options == old(options)
    {
      if |data| < 8 {
        malformed := true;
        return;
      }
      var len := Be16(data, 4);
      if len < 8 || len > |data| {
        malformed := true;
        return;
      }
      transport := Udp(Be16(data, 0), Be16(data, 2));
    }

    method ParseTransport(proto: u8, data: Bytes)
      modifies this
      ensures Fields() == TransportView(old(Fields()), proto, data)
      ensures headers == old(headers)
    {
      if proto == 6 {
        ParseTcp(data);
      } else if proto == 17 {
        ParseUdp(data);
      } else if proto == 1 || proto == 58 {
        if |data| < 4 {
          malformed := true;
        } else {
          transport := Icmp;
        }
      }
    }

    method ParseIpv4(data: Bytes)
      modifies this
      ensures Fields() == Ipv4View(old(Fields()), data)
    {
      if |data| < 20 {
        malformed := true;
        return;
      }
      var version, ihl: int := High(data[0]), Low(data[0]);
      if version != 4 || ihl < 5 || ihl * 4 > |data| {
        malformed := true;
        return;
      }
      var headerLen, packetLen := ihl * 4, Min(|data|, Be16(data, 2));
      if packetLen < headerLen {
        malformed := true;
        return;
      }
      network := Ipv4(Be32(data, 12), Be32(data, 16));
      ParseTransport(data[9], data[headerLen..packetLen]);
    }

    /**
      The extension headers, in order, followed by the bytes handed to the transport parser are exactly
      the datagram after its fixed header; a chain cut short yields no transport.
     */
    method ParseIpv6(data: Bytes)
      modifies this
      ensures Fields() == Ipv6View(old(Fields()), data)
      ensures |data| >= 40 && High(data[0]) == 6 ==>
                var end := Min(|data|, 40 + Be16(data, 4) as int);
                var c := Ipv6Chain.Walk(data, end, data[6], 40);
                && headers == c.headers
                && Ipv6Chain.Flatten(headers) + data[c.payloadAt..end] == data[40..end]
                && (Ipv6Chain.IsExtension(c.final) ==> transport == old(transport))
    {
      if |data| < 40 {
        malformed := true;
        return;
      }
      if High(data[0]) != 6 {
        malformed := true;
        return;
      }
      var end := Min(|data|, 40 + Be16(data, 4) as int);
      var chain := Ipv6Chain.WalkChain(data, end, data[6], 40);
      Ipv6Chain.WalkConserves(data, end, data[6], 40);
      headers := chain.headers;
      network := Ipv6(BeNat(data[8..24]), BeNat(data[24..40]));
      ParseTransport(chain.final, data[chain.payloadAt..end]);
    }

    method ParseArp(data: Bytes)
      modifies this
      ensures Fields() == ArpView(old(Fields()), data)
    {
      if |data| < 28 {
        malformed := true;
        return;
      }
      if Be16(data, 0) == 1 && Be16(data, 2) == 0x0800 && data[4] == 6 && data[5] == 4 {
        network := Arp(Be32(data, 14), Be32(data, 24));
      }
    }

    method ParseEapol(data: Bytes)
      modifies this
      ensures Fields() == EapolView(old(Fields()), data)
    {
      if |data| < 4 {
        malformed := true;
        return;
      }
      var len: int := Be16(data, 2);
      if 4 + len > |data| {
        malformed := true;
        return;
      }
      if data[1] == 3 && len >= 97 {
        eapol := true;
      }
    }

    method ParseEthernetPayload(ethType: u16, payload: Bytes)
      modifies this
      ensures Fields() == PayloadView(old(Fields()), ethType, payload)
    {
      match ethType {
        case 0x0800 => ParseIpv4(payload);
        case 0x86DD => ParseIpv6(payload);
        case 0x0806 => ParseArp(payload);
        case 0x888E => ParseEapol(payload);
        case _ =>
      }
    }

    method ParseEthernetFrame(data: Bytes)
      requires Fields() == BLANK
      modifies this
      ensures Fields() == FrameView(data)
    {
      if |data| < 14 {
        malformed := true;
        return;
      }
      dstMac := data[..6];
      srcMac := data[6..12];
      var ethType, offset: nat := Be16(data, 12), 14;
      if (ethType == 0x88A8 || ethType == 0x9100) && |data| >= offset + 4 {
        ethType := Be16(data, offset + 2);
        offset := offset + 4;
      }
      if ethType == 0x8100 && |data| >= offset + 4 {
        ethType := Be16(data, offset + 2);
        offset := offset + 4;
      }
      if offset < |data| {
        ParseEthernetPayload(ethType, data[offset..]);
      } else {
        malformed := true;
      }
    }
  }

  /** Parses a frame on an Ethernet link. */
  method ParsePacket(data: Bytes) returns (pkt: ParsedPacket)
    ensures fresh(pkt) && pkt.Fields() == FrameView(data)
  {
    pkt := new ParsedPacket();
    if |data| == 0 {
      pkt.malformed := true;
      return;
    }
    pkt.ParseEthernetFrame(data);
  }
}
