/**
  What each field of a rule asks of a packet, in terms of the packet's own fields, and what the alerts of a run say
  about the packets behind them.
 */
module RuleFields {
  import opened Prelude
  import opened Packets
  import opened Rules
  import opened EngineSpec

  /** A rule that asks nothing. */
  function Open(): Rule {
    Rule(0, ["any"], AnyDirection, AnyAddr, AnyAddr, {4, 6}, AnyState, OtherClass, [AnyProto], AnyPort, AnyPort, None,
         None)
  }

  /** The rule that asks of a packet what `rule` asks in one respect only. */
  function ScopeOf(rule: Rule): Rule { Open().(scope := rule.scope) }

  function DirectionOf(rule: Rule): Rule { Open().(direction := rule.direction) }

  function AddressesOf(rule: Rule): Rule {
    Open().(srcIp := rule.srcIp, dstIp := rule.dstIp, ipVersions := rule.ipVersions)
  }

  function FlowStateOf(rule: Rule): Rule { Open().(flowState := rule.flowState) }

  function KindOf(rule: Rule): Rule { Open().(class_ := rule.class_, protocols := rule.protocols) }

  function PortsOf(rule: Rule): Rule { Open().(srcPort := rule.srcPort, dstPort := rule.dstPort) }

  lemma OpenParts(pkt: Packet, selfIps: set<Addr>, conns: ConnTable)
    ensures DirectionMatches(AnyDirection, pkt, selfIps) && FlowStateMatches(AnyState, pkt, conns)
    ensures NetworkMatches(Open(), pkt, selfIps) && PortsMatch(Open(), pkt)
    ensures AnyProto in Open().protocols && ProtocolMatches(AnyProto, pkt) && "any" in Open().scope
  {
  }

  lemma OnlyAddresses(rule: Rule, pkt: Packet, selfIps: set<Addr>)
    ensures NetworkMatches(AddressesOf(rule), pkt, selfIps) <==> NetworkMatches(rule, pkt, selfIps)
    ensures PortsMatch(PortsOf(rule), pkt) <==> PortsMatch(rule, pkt)
  {
  }

  lemma SameAddresses(rule: Rule, rule': Rule, pkt: Packet, selfIps: set<Addr>)
    requires rule.srcIp == rule'.srcIp && rule.dstIp == rule'.dstIp && rule.ipVersions == rule'.ipVersions
    ensures NetworkMatches(rule, pkt, selfIps) <==> NetworkMatches(rule', pkt, selfIps)
  {
  }

  lemma SamePorts(rule: Rule, rule': Rule, pkt: Packet)
    requires rule.srcPort == rule'.srcPort && rule.dstPort == rule'.dstPort
    ensures PortsMatch(rule, pkt) <==> PortsMatch(rule', pkt)
  {
  }

  /** Each such rule tests one part of `Matches`. */
  lemma OnePart(cfg: Config, rule: Rule, pkt: Packet, conns: ConnTable)
    ensures Matches(cfg, ScopeOf(rule), pkt, conns) <==> "any" in rule.scope || cfg.iface in rule.scope
    ensures Matches(cfg, DirectionOf(rule), pkt, conns) <==> DirectionMatches(rule.direction, pkt, cfg.selfIps)
    ensures Matches(cfg, AddressesOf(rule), pkt, conns) <==> NetworkMatches(rule, pkt, cfg.selfIps)
    ensures Matches(cfg, FlowStateOf(rule), pkt, conns) <==> FlowStateMatches(rule.flowState, pkt, conns)
    ensures Matches(cfg, KindOf(rule), pkt, conns)
       <==> ClassMatches(rule.class_, pkt) || exists p :: p in rule.protocols && ProtocolMatches(p, pkt)
    ensures Matches(cfg, PortsOf(rule), pkt, conns) <==> PortsMatch(rule, pkt)
  {
    hide ProtocolMatches, FlowStateMatches, ClassMatches, DirectionMatches, NetworkMatches, PortsMatch;
    OpenParts(pkt, cfg.selfIps, conns);
    OnlyAddresses(rule, pkt, cfg.selfIps);
    SameAddresses(Open(), ScopeOf(rule), pkt, cfg.selfIps);
    SameAddresses(Open(), DirectionOf(rule), pkt, cfg.selfIps);
    SameAddresses(Open(), FlowStateOf(rule), pkt, cfg.selfIps);
    SameAddresses(Open(), KindOf(rule), pkt, cfg.selfIps);
    SameAddresses(Open(), PortsOf(rule), pkt, cfg.selfIps);
    SamePorts(Open(), ScopeOf(rule), pkt);
    SamePorts(Open(), DirectionOf(rule), pkt);
    SamePorts(Open(), AddressesOf(rule), pkt);
    SamePorts(Open(), FlowStateOf(rule), pkt);
    SamePorts(Open(), KindOf(rule), pkt);
  }

  /** A rule matches exactly the packets that satisfy it in each respect; limits and identifier play no part. */
  lemma {:induction false} MatchesInEveryRespect(cfg: Config, rule: Rule, pkt: Packet, conns: ConnTable)
    ensures Matches(cfg, rule, pkt, conns)
       <==> && Matches(cfg, ScopeOf(rule), pkt, conns) && Matches(cfg, DirectionOf(rule), pkt, conns)
            && Matches(cfg, AddressesOf(rule), pkt, conns) && Matches(cfg, FlowStateOf(rule), pkt, conns)
            && Matches(cfg, KindOf(rule), pkt, conns) && Matches(cfg, PortsOf(rule), pkt, conns)
  {
    OnePart(cfg, rule, pkt, conns);
    hide ScopeOf, DirectionOf, AddressesOf, FlowStateOf, KindOf, PortsOf;
  }

  lemma ScopeIff(cfg: Config, rule: Rule, pkt: Packet, conns: ConnTable)
    ensures Matches(cfg, ScopeOf(rule), pkt, conns) <==> exists name :: name in rule.scope && name in {"any", cfg.iface}
  {
    OnePart(cfg, rule, pkt, conns);
    hide Matches;
  }

  /** An ingress rule takes packets for one of the sensor's own addresses, an egress rule packets from one. */
  lemma DirectionIff(cfg: Config, rule: Rule, pkt: Packet, conns: ConnTable)
    ensures rule.direction == AnyDirection ==> Matches(cfg, DirectionOf(rule), pkt, conns)
    ensures rule.direction == Ingress ==>
              (Matches(cfg, DirectionOf(rule), pkt, conns)
               <==> match pkt.network
                    case Ipv4(_, dst) => V4(dst) in cfg.selfIps
                    case Ipv6(_, dst) => V6(dst) in cfg.selfIps
                    case Arp(_, target) => V4(target) in cfg.selfIps
                    case NoNetwork => false)
    ensures rule.direction == Egress ==>
              (Matches(cfg, DirectionOf(rule), pkt, conns)
               <==> match pkt.network
                    case Ipv4(src, _) => V4(src) in cfg.selfIps
                    case Ipv6(src, _) => V6(src) in cfg.selfIps
                    case Arp(sender, _) => V4(sender) in cfg.selfIps
                    case NoNetwork => false)
  {
    OnePart(cfg, rule, pkt, conns);
    hide Matches;
  }

  /** The address is a wildcard's, one of the sensor's, or the one that is written. */
  predicate Allows(field: AddrField, a: Addr, selfIps: set<Addr>) {
    field == AnyAddr || (field == SelfAddr && a in selfIps) || field == LiteralAddr(Some(a))
  }

  /** Version and addresses of IP packets, addresses of ARP; without a network both addresses must be wildcards. */
  lemma AddressesIff(cfg: Config, rule: Rule, pkt: Packet, conns: ConnTable)
    ensures Matches(cfg, AddressesOf(rule), pkt, conns)
       <==> match pkt.network
            case Ipv4(src, dst) =>
              && 4 in rule.ipVersions
              && Allows(rule.srcIp, V4(src), cfg.selfIps) && Allows(rule.dstIp, V4(dst), cfg.selfIps)
            case Ipv6(src, dst) =>
              && 6 in rule.ipVersions
              && Allows(rule.srcIp, V6(src), cfg.selfIps) && Allows(rule.dstIp, V6(dst), cfg.selfIps)
            case Arp(sender, target) =>
              Allows(rule.srcIp, V4(sender), cfg.selfIps) && Allows(rule.dstIp, V4(target), cfg.selfIps)
            case NoNetwork => rule.srcIp == AnyAddr && rule.dstIp == AnyAddr
  {
    OnePart(cfg, rule, pkt, conns);
    hide Matches;
  }

  /**
    A rule for new flows takes the segments with SYN, of weight 2, and without ACK, of weight 16; one for established
    flows the segments whose connection, from their source to their destination, the table has as established.
   */
  lemma FlowStateIff(cfg: Config, rule: Rule, pkt: Packet, conns: ConnTable)
    ensures rule.flowState == AnyState ==> Matches(cfg, FlowStateOf(rule), pkt, conns)
    ensures rule.flowState == NewState ==>
              (Matches(cfg, FlowStateOf(rule), pkt, conns)
               <==> match pkt.transport
                    case Tcp(_, _, flags) => flags / 2 % 2 == 1 && flags / 16 % 2 == 0
                    case _ => false)
    ensures rule.flowState == EstablishedState ==>
              (Matches(cfg, FlowStateOf(rule), pkt, conns)
               <==> match pkt.transport
                    case Tcp(sp, dp, _) =>
                      exists lastSeen :: IsEntry(conns, ConnKey(Source(pkt), sp, Destination(pkt), dp),
                                                 Conn(Established, lastSeen))
                    case _ => false)
  {
    OnePart(cfg, rule, pkt, conns);
    hide Matches;
    if rule.flowState == EstablishedState && pkt.transport.Tcp? {
      assert KeyOf(pkt) == ConnKey(Source(pkt), pkt.transport.tcpSrc, Destination(pkt), pkt.transport.tcpDst);
      if KeyOf(pkt) in conns && conns[KeyOf(pkt)].state == Established {
        assert IsEntry(conns, KeyOf(pkt), Conn(Established, conns[KeyOf(pkt)].lastSeen));
      }
    }
  }

  predicate IsEntry(conns: ConnTable, k: ConnKey, c: Conn) {
    k in conns && conns[k] == c
  }

  /** Where a packet says it comes from: its network address, or its hardware address without one. */
  function Source(pkt: Packet): Addr {
    if pkt.network.Ipv4? then V4(pkt.network.srcV4)
    else if pkt.network.Ipv6? then V6(pkt.network.srcV6)
    else if pkt.network.Arp? then V4(pkt.network.senderIp)
    else MacText(pkt.srcMac)
  }

  function Destination(pkt: Packet): Addr {
    if pkt.network.Ipv4? then V4(pkt.network.dstV4)
    else if pkt.network.Ipv6? then V6(pkt.network.dstV6)
    else if pkt.network.Arp? then V4(pkt.network.targetIp)
    else MacText(pkt.dstMac)
  }

  /** The TCP ports, at either end, by which a named protocol is recognised. */
  function PortsNamed(p: Protocol): set<int> {
    match p
    case Http => {80, 8080, 8081}
    case Https => {443}
    case Ssh => {22}
    case Rdp => {3389}
    case Smb => {445}
    case Ftp => {20, 21}
    case _ => {}
  }

  /** A packet of the kind that a class or protocol names. */
  predicate IsKind(p: Protocol, pkt: Packet) {
    || p == AnyProto
    || (p == ArpProto && pkt.network.Arp?)
    || (p == EapolProto && pkt.eapol)
    || (p == UdpProto && pkt.transport.Udp?)
    || (pkt.transport.Tcp?
        && (p == TcpProto || pkt.transport.tcpSrc in PortsNamed(p) || pkt.transport.tcpDst in PortsNamed(p)))
  }

  function ClassKind(c: Class): Protocol {
    match c
    case ArpClass => ArpProto
    case EapolClass => EapolProto
    case TcpClass => TcpProto
    case UdpClass => UdpProto
    case OtherClass => OtherProto
  }

  /** The class or one of the listed protocols must name the packet's kind. */
  lemma KindIff(cfg: Config, rule: Rule, pkt: Packet, conns: ConnTable)
    ensures Matches(cfg, KindOf(rule), pkt, conns)
       <==> exists p :: p in [ClassKind(rule.class_)] + rule.protocols && IsKind(p, pkt)
  {
    OnePart(cfg, rule, pkt, conns);
    hide Matches;
    forall p ensures ProtocolMatches(p, pkt) <==> IsKind(p, pkt) {
    }
    assert ClassMatches(rule.class_, pkt) <==> IsKind(ClassKind(rule.class_), pkt);
    hide ClassMatches, ProtocolMatches, IsKind;
    if ClassMatches(rule.class_, pkt) {
      assert ClassKind(rule.class_) in [ClassKind(rule.class_)] + rule.protocols;
    }
  }

  /** Source and destination ports of TCP and UDP; other packets have none to ask for. */
  lemma PortsIff(cfg: Config, rule: Rule, pkt: Packet, conns: ConnTable)
    ensures Matches(cfg, PortsOf(rule), pkt, conns)
       <==> match pkt.transport
            case Tcp(sp, dp, _) => rule.srcPort in {AnyPort, Port(sp)} && rule.dstPort in {AnyPort, Port(dp)}
            case Udp(sp, dp) => rule.srcPort in {AnyPort, Port(sp)} && rule.dstPort in {AnyPort, Port(dp)}
            case _ => true
  {
    OnePart(cfg, rule, pkt, conns);
    hide Matches;
  }

  // What an alert says

  /** The address that a rule counts by. */
  function CountedBy(rule: Rule, pkt: Packet): Addr {
    match rule.maxConnRate
    case Some(ConnLimit(PerDst, _, _)) => Destination(pkt)
    case _ => Source(pkt)
  }
  /** The count meets one of the rule's limits. */
  predicate MeetsLimit(rule: Rule, count: nat) {
    || (rule.maxRps.Some? && count >= rule.maxRps.value)
    || (rule.maxConnRate.Some? && count >= rule.maxConnRate.value.connections)
  }

  /** The packet matches the rule, counts for the sender and brings the count to a limit. */
  predicate Explains(cfg: Config, rule: Rule, pkt: Packet, conns: ConnTable, id: u32, sender: Addr, rate: u32,
                     count: nat) {
    && rule.id == id && Matches(cfg, rule, pkt, conns) && sender == CountedBy(rule, pkt)
    && MeetsLimit(rule, count) && rate == count % 0x1_0000_0000
  }

  ghost predicate IsExplained(cfg: Config, rules: seq<Rule>, pkt: Packet, conns: ConnTable, p: Pending) {
    exists rule, count :: rule in rules && Explains(cfg, rule, pkt, conns, p.ruleId, p.sender, p.rate, count)
  }

  lemma RuleExplains(cfg: Config, s: State, rule: Rule, pkt: Packet, now: Time, p: Pending)
    requires p in EvalRule(cfg, s, rule, pkt, now).1
    ensures IsExplained(cfg, [rule], pkt, s.conns, p)
  {
    hide Matches, Settle, CountRates, CountOpens, Recent;
    var k := TrackingKey(rule, pkt);
    var count := Trigger(rule, CountRates(s, rule, k, now), CountOpens(s, rule, pkt, k, now), k, now).value;
    assert rule in [rule] && Explains(cfg, rule, pkt, s.conns, p.ruleId, p.sender, p.rate, count);
  }

  lemma {:induction false} RulesExplain(cfg: Config, s: State, rules: seq<Rule>, pkt: Packet, now: Time, p: Pending)
    requires p in EvalRules(cfg, s, rules, pkt, now).1
    ensures IsExplained(cfg, rules, pkt, s.conns, p)
    decreases |rules|
  {
    if rules == [] {
    } else {
      var init, rule := rules[..|rules| - 1], rules[|rules| - 1];
      hide EvalRule, Explains;
      EvalRulesLast(cfg, s, rules, pkt, now);
      var s1 := EvalRules(cfg, s, init, pkt, now).0;
      if p in EvalRules(cfg, s, init, pkt, now).1 {
        RulesExplain(cfg, s, init, pkt, now, p);
        var r, count :| r in init && Explains(cfg, r, pkt, s.conns, p.ruleId, p.sender, p.rate, count);
        assert r in rules;
      } else {
        RuleExplains(cfg, s1, rule, pkt, now, p);
        var r, count :| r in [rule] && Explains(cfg, r, pkt, s1.conns, p.ruleId, p.sender, p.rate, count);
        assert r in rules;
      }
    }
  }

  /** A packet of the run explains the alert, on the connection table as it stands after that packet. */
  ghost predicate HasCause(cfg: Config, events: seq<Event>, a: Alert) {
    exists i :: 0 <= i < |events| && IsCause(cfg, events, i, a)
  }

  ghost predicate IsCause(cfg: Config, events: seq<Event>, i: nat, a: Alert)
    requires i < |events|
  {
    IsExplained(cfg, cfg.rules, events[i].pkt, After(cfg, events[..i + 1]).conns, Pending(a.ruleId, a.sender, a.rate))
  }

  lemma StepExplains(cfg: Config, events: seq<Event>, a: Alert)
    requires events != []
    requires a in Step(cfg, After(cfg, events[..|events| - 1]), events[|events| - 1].pkt, events[|events| - 1].now).1
    ensures IsCause(cfg, events, |events| - 1, a)
  {
    var s, e := After(cfg, events[..|events| - 1]), events[|events| - 1];
    var o := Observe(s, e.pkt, e.now);
    var pending := EvalRules(cfg, o, cfg.rules, e.pkt, e.now).1;
    hide Observe, EvalRules, IsExplained;
    var j :| 0 <= j < |pending| && a == Number(s.alertCounter, pending)[j];
    RulesExplain(cfg, o, cfg.rules, e.pkt, e.now, pending[j]);
    EvalRulesFrame(cfg, o, cfg.rules, e.pkt, e.now);
    assert events[..|events| - 1 + 1] == events;
    RunLast(cfg, events);
  }

  /**
    Every alert of every run names a packet's source, or its destination where the rule's connection limit counts by
    destination; that packet matched the rule, and the rate reported is a count that meets one of its limits.
   */
  lemma {:induction false} AlertsHaveCause(cfg: Config, events: seq<Event>, a: Alert)
    requires a in Alerts(cfg, events)
    ensures HasCause(cfg, events, a)
    decreases |events|
  {
    hide Step, IsExplained;
    if events == [] {
    } else {
      var n, init := |events| - 1, events[..|events| - 1];
      RunLast(cfg, events);
      if a in Alerts(cfg, init) {
        AlertsHaveCause(cfg, init, a);
        var i :| 0 <= i < |init| && IsCause(cfg, init, i, a);
        assert events[..i + 1] == init[..i + 1];
        assert IsCause(cfg, events, i, a);
      } else {
        StepExplains(cfg, events, a);
      }
    }
  }

  /** In particular, an alert of an ingress rule for new flows is about a bare SYN for one of the sensor's addresses. */
  lemma IngressAlert(cfg: Config, events: seq<Event>, a: Alert)
    requires a in Alerts(cfg, events)
    requires forall r :: r in cfg.rules && r.id == a.ruleId ==> r.direction == Ingress && r.flowState == NewState
    ensures exists e :: e in events && IsSynToSelf(cfg, e.pkt)
  {
    AlertsHaveCause(cfg, events, a);
    var i :| 0 <= i < |events| && IsCause(cfg, events, i, a);
    var pkt, conns := events[i].pkt, After(cfg, events[..i + 1]).conns;
    hide After, Matches;
    var rule, count :| rule in cfg.rules && Explains(cfg, rule, pkt, conns, a.ruleId, a.sender, a.rate, count);
    MatchesInEveryRespect(cfg, rule, pkt, conns);
    DirectionIff(cfg, rule, pkt, conns);
    FlowStateIff(cfg, rule, pkt, conns);
    assert events[i] in events && IsSynToSelf(cfg, pkt);
  }

  predicate IsSynToSelf(cfg: Config, pkt: Packet) {
    && pkt.transport.Tcp? && pkt.transport.flags / 2 % 2 == 1 && pkt.transport.flags / 16 % 2 == 0
    && !pkt.network.NoNetwork? && Destination(pkt) in cfg.selfIps
  }
}
