/** Configured rules and when a packet matches one. */
module Rules {
  import opened Prelude
  import opened Packets

  datatype Direction = Ingress | Egress | AnyDirection

  /** A rule's address field; a literal that is no printed address matches nothing. */
  datatype AddrField = AnyAddr | SelfAddr | LiteralAddr(addr: Option<Addr>)

  datatype FlowState = AnyState | NewState | EstablishedState

  datatype Class = ArpClass | EapolClass | TcpClass | UdpClass | OtherClass

  datatype Protocol =
    | ArpProto | EapolProto | TcpProto | UdpProto
    | Http | Https | Ssh | Rdp | Smb | Ftp
    | AnyProto | OtherProto

  /** A rule's port field: the wildcard, a number given as text or number, or anything else. */
  datatype PortField = AnyPort | Port(number: nat) | NoPort

  datatype Per = PerSrc | PerDst

  datatype ConnLimit = ConnLimit(per: Per, connections: u32, interval: real)

  datatype Rule = Rule(
    id: u32,
    scope: seq<string>,
    direction: Direction,
    srcIp: AddrField,
    dstIp: AddrField,
    ipVersions: set<nat>,
    flowState: FlowState,
    class_: Class,
    protocols: seq<Protocol>,
    srcPort: PortField,
    dstPort: PortField,
    maxConnRate: Option<ConnLimit>,
    maxRps: Option<u32>)

  datatype Config = Config(iface: string, selfIps: set<Addr>, rules: seq<Rule>)

  predicate AddrMatches(field: AddrField, a: Addr, selfIps: set<Addr>) {
    match field
    case AnyAddr => true
    case SelfAddr => !a.MacText? && a in selfIps
    case LiteralAddr(literal) => literal == Some(a)
  }

  predicate PortMatches(field: PortField, port: u16) {
    match field
    case AnyPort => true
    case Port(number) => number == port
    case NoPort => false
  }

  predicate DirectionMatches(direction: Direction, pkt: Packet, selfIps: set<Addr>) {
    match direction
    case Ingress => AddrMatches(SelfAddr, DstAddr(pkt), selfIps)
    case Egress => AddrMatches(SelfAddr, SrcAddr(pkt), selfIps)
    case AnyDirection => true
  }

  predicate NetworkMatches(rule: Rule, pkt: Packet, selfIps: set<Addr>) {
    match pkt.network
    case NoNetwork => rule.srcIp.AnyAddr? && rule.dstIp.AnyAddr?
    case _ =>
      && (pkt.network.Ipv4? ==> 4 in rule.ipVersions)
      && (pkt.network.Ipv6? ==> 6 in rule.ipVersions)
      && AddrMatches(rule.srcIp, SrcAddr(pkt), selfIps)
      && AddrMatches(rule.dstIp, DstAddr(pkt), selfIps)
  }

  predicate FlowStateMatches(state: FlowState, pkt: Packet, conns: ConnTable) {
    match state
    case AnyState => true
    case NewState => IsOpening(pkt)
    case EstablishedState =>
      pkt.transport.Tcp? && KeyOf(pkt) in conns && conns[KeyOf(pkt)].state == Established
  }

  predicate ClassMatches(c: Class, pkt: Packet) {
    match c
    case ArpClass => pkt.network.Arp?
    case EapolClass => pkt.eapol
    case TcpClass => pkt.transport.Tcp?
    case UdpClass => pkt.transport.Udp?
    case OtherClass => false
  }

  predicate OnPort(pkt: Packet, ports: set<u16>) {
    pkt.transport.Tcp? && (pkt.transport.tcpSrc in ports || pkt.transport.tcpDst in ports)
  }

  predicate ProtocolMatches(p: Protocol, pkt: Packet) {
    match p
    case ArpProto => pkt.network.Arp?
    case EapolProto => pkt.eapol
    case TcpProto => pkt.transport.Tcp?
    case UdpProto => pkt.transport.Udp?
    case Http => OnPort(pkt, {80, 8080, 8081})
    case Https => OnPort(pkt, {443})
    case Ssh => OnPort(pkt, {22})
    case Rdp => OnPort(pkt, {3389})
    case Smb => OnPort(pkt, {445})
    case Ftp => OnPort(pkt, {20, 21})
    case AnyProto => true
    case OtherProto => false
  }

  predicate PortsMatch(rule: Rule, pkt: Packet) {
    match pkt.transport
    case Tcp(src, dst, _) => PortMatches(rule.srcPort, src) && PortMatches(rule.dstPort, dst)
    case Udp(src, dst) => PortMatches(rule.srcPort, src) && PortMatches(rule.dstPort, dst)
    case _ => true
  }

  predicate Matches(cfg: Config, rule: Rule, pkt: Packet, conns: ConnTable) {
    && ("any" in rule.scope || cfg.iface in rule.scope)
    && DirectionMatches(rule.direction, pkt, cfg.selfIps)
    && NetworkMatches(rule, pkt, cfg.selfIps)
    && FlowStateMatches(rule.flowState, pkt, conns)
    && (ClassMatches(rule.class_, pkt) || exists p :: p in rule.protocols && ProtocolMatches(p, pkt))
    && PortsMatch(rule, pkt)
  }

  /** The protocol list scan: stops at the first entry that matches. */
  method ScanProtocols(protocols: seq<Protocol>, pkt: Packet) returns (matched: bool)
    ensures matched <==> exists p :: p in protocols && ProtocolMatches(p, pkt)
  {
    matched := false;
    for i := 0 to |protocols|
      invariant !matched
      invariant forall p :: p in protocols[..i] ==> !ProtocolMatches(p, pkt)
    {
      if ProtocolMatches(protocols[i], pkt) {
        return true;
      }
    }
  }

  /** The early-return chain decides exactly the conjunction `Matches`. */
  method MatchesRule(cfg: Config, rule: Rule, pkt: Packet, conns: ConnTable) returns (r: bool)
    ensures r == Matches(cfg, rule, pkt, conns)
  {
    if !("any" in rule.scope || cfg.iface in rule.scope) {
      return false;
    }
    if !DirectionMatches(rule.direction, pkt, cfg.selfIps) {
      return false;
    }
    if !NetworkMatches(rule, pkt, cfg.selfIps) {
      return false;
    }
    if !FlowStateMatches(rule.flowState, pkt, conns) {
      return false;
    }
    var matched := ClassMatches(rule.class_, pkt);
    if !matched {
      matched := ScanProtocols(rule.protocols, pkt);
    }
    if !matched {
      return false;
    }
    return PortsMatch(rule, pkt);
  }

  /** The tracker key: the destination if the connection limit counts per destination, else the source. */
  function TrackingKey(rule: Rule, pkt: Packet): Addr {
    if rule.maxConnRate.Some? && rule.maxConnRate.value.per == PerDst then DstAddr(pkt) else SrcAddr(pkt)
  }

  /** A fresh connection for rate purposes: a bare SYN, or any packet that is not TCP. */
  predicate IsFresh(pkt: Packet) {
    pkt.transport.Tcp? ==> IsOpening(pkt)
  }
}
