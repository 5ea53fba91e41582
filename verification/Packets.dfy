/** What the detection engine reads of a parsed packet. */
module Packets {
  import opened Prelude

  type Mac = m: Bytes | |m| == 6 witness [0, 0, 0, 0, 0, 0]

  const ZERO_MAC: Mac := [0, 0, 0, 0, 0, 0]
  const BROADCAST_MAC: Mac := [0xFF, 0xFF, 0xFF, 0xFF, 0xFF, 0xFF]

  /** An address as the engine prints it; the three printed forms never coincide. */
  datatype Addr = V4(bits: nat) | V6(bits: nat) | MacText(mac: Mac)

  datatype Network =
    | NoNetwork
    | Arp(senderIp: nat, targetIp: nat)
    | Ipv4(srcV4: nat, dstV4: nat)
    | Ipv6(srcV6: nat, dstV6: nat)

  datatype Transport =
    | NoTransport
    | Icmp
    | Tcp(tcpSrc: u16, tcpDst: u16, flags: nat)
    | Udp(udpSrc: u16, udpDst: u16)

  datatype Mgmt = Mgmt(subtype: u8, ssid: Option<string>, channel: Option<nat>, rsn: bool)

  datatype Packet = Packet(
    srcMac: Mac,
    dstMac: Mac,
    bssid: Option<Mac>,
    signalDbm: Option<int>,
    mgmt: Option<Mgmt>,
    network: Network,
    transport: Transport,
    eapol: bool)

  // Flag bits of a TCP header: FIN, SYN, RST and ACK are bits 0, 1, 2 and 4.

  predicate Bit(flags: nat, weight: nat)
    requires weight > 0
  {
    (flags / weight) % 2 == 1
  }

  predicate Fin(flags: nat) { Bit(flags, 0x001) }

  predicate Syn(flags: nat) { Bit(flags, 0x002) }

  predicate Rst(flags: nat) { Bit(flags, 0x004) }

  predicate Ack(flags: nat) { Bit(flags, 0x010) }

  function SrcAddr(pkt: Packet): Addr {
    match pkt.network
    case Ipv4(src, _) => V4(src)
    case Ipv6(src, _) => V6(src)
    case Arp(sender, _) => V4(sender)
    case NoNetwork => MacText(pkt.srcMac)
  }

  function DstAddr(pkt: Packet): Addr {
    match pkt.network
    case Ipv4(_, dst) => V4(dst)
    case Ipv6(_, dst) => V6(dst)
    case Arp(_, target) => V4(target)
    case NoNetwork => MacText(pkt.dstMac)
  }

  // TCP connections

  datatype ConnKey = ConnKey(src: Addr, srcPort: u16, dst: Addr, dstPort: u16)

  datatype ConnState = New | Established | Closing

  datatype Conn = Conn(state: ConnState, lastSeen: real)

  type ConnTable = map<ConnKey, Conn>

  function Reverse(k: ConnKey): ConnKey {
    ConnKey(k.dst, k.dstPort, k.src, k.srcPort)
  }

  function KeyOf(pkt: Packet): ConnKey
    requires pkt.transport.Tcp?
  {
    ConnKey(SrcAddr(pkt), pkt.transport.tcpSrc, DstAddr(pkt), pkt.transport.tcpDst)
  }

  predicate IsOpening(pkt: Packet) {
    pkt.transport.Tcp? && Syn(pkt.transport.flags) && !Ack(pkt.transport.flags)
  }

  predicate IsSynAck(pkt: Packet) {
    pkt.transport.Tcp? && Syn(pkt.transport.flags) && Ack(pkt.transport.flags)
  }

  predicate IsTeardown(pkt: Packet) {
    pkt.transport.Tcp? && !Syn(pkt.transport.flags) && (Fin(pkt.transport.flags) || Rst(pkt.transport.flags))
  }

  /** The connection table after one packet; only a SYN-ACK establishes, and only the opener's SYN creates. */
  function UpdateConns(conns: ConnTable, pkt: Packet, now: real): ConnTable {
    if !pkt.transport.Tcp? then conns
    else
      var key := KeyOf(pkt);
      if IsOpening(pkt) then conns[key := Conn(New, now)]
      else if IsSynAck(pkt) then conns[Reverse(key) := Conn(Established, now)][key := Conn(Established, now)]
      else if key !in conns then conns
      else if IsTeardown(pkt) then conns[key := Conn(Closing, now)]
      else conns[key := conns[key].(lastSeen := now)]
  }
}
