/** What frames do to the detection engine, from the bytes on the wire to the connection table. */
module FrameEffects {
  import opened Prelude
  import opened Packets
  import opened Rules
  import opened EngineSpec
  import opened Connections
  import opened SegmentCodec
  import opened FrameCodec
  import Frames
  import RuleFields
  import Survival

  /** The packet that the engine is given for a frame. */
  function PacketOf(f: Frame): Packet
    requires FrameOk(f)
  {
    Frames.PacketOf(Frames.FrameView(EncodeFrame(f)))
  }

  /** What the engine reads of a frame: its addresses, its transport, and whether it is a key exchange. */
  lemma PacketReadsFrame(f: Frame)
    requires FrameOk(f)
    ensures PacketOf(f) == Packet(f.src, f.dst, None, None, None, NetworkOf(f.payload), TransportIn(f.payload),
                                  IsKeyExchange(f.payload))
  {
    hide EncodeFrame, Frames.FrameView, FrameOk;
    FrameReadsBack(f);
  }

  /** The frame carries this TCP segment. */
  predicate Carries(f: Frame, s: Segment) {
    match f.payload
    case Ipv4Payload(_, u, _) => u == TcpUpper(s)
    case Ipv6Payload(_, _, u, _) => u == TcpUpper(s)
    case _ => false
  }

  /** The connection of a segment, from its sender to its receiver. */
  function ConnectionOf(f: Frame, s: Segment): ConnKey {
    match f.payload
    case Ipv4Payload(h, _, _) => ConnKey(V4(h.src), s.srcPort, V4(h.dst), s.dstPort)
    case Ipv6Payload(h, _, _, _) => ConnKey(V6(h.src), s.srcPort, V6(h.dst), s.dstPort)
    case _ => ConnKey(V4(0), 0, V4(0), 0)
  }

  /** The same connection, from its receiver to its sender. */
  function AnswerTo(k: ConnKey): ConnKey {
    ConnKey(k.dst, k.dstPort, k.src, k.srcPort)
  }

  /** SYN without ACK opens, SYN with ACK answers, FIN or RST without SYN tears down; the key is addresses and ports. */
  lemma SegmentDecides(f: Frame, s: Segment)
    requires FrameOk(f) && Carries(f, s)
    ensures var pkt := PacketOf(f);
            && pkt.transport.Tcp? && KeyOf(pkt) == ConnectionOf(f, s)
            && (IsOpening(pkt) <==> s.flags.syn && !s.flags.ack)
            && (IsSynAck(pkt) <==> s.flags.syn && s.flags.ack)
            && (IsTeardown(pkt) <==> !s.flags.syn && (s.flags.fin || s.flags.rst))
  {
    hide FlagWord, EncodeFrame, Frames.FrameView, Fin, Syn, Rst, Ack, FrameOk;
    FrameReadsBack(f);
    FlagBits(s.flags);
  }

  /** What the next segment of connection `k` makes of the tables before it. */
  ghost predicate Moves(before: ConnTable, conns: ConnTable, k: ConnKey, flags: Flags, now: Time) {
    && (flags.syn && !flags.ack ==> Entry(conns, k) == Some(Conn(New, now)))
    && (flags.syn && flags.ack ==> Entry(conns, k) == Some(Conn(Established, now)) == Entry(conns, AnswerTo(k)))
    && (!flags.syn && k in conns ==>
          && k in before
          && conns[k] == if flags.fin || flags.rst then Conn(Closing, now) else Conn(before[k].state, now))
  }

  lemma UpdateMoves(before: ConnTable, kept: ConnTable, pkt: Packet, k: ConnKey, flags: Flags, now: Time)
    requires pkt.transport.Tcp? && KeyOf(pkt) == k && forall x :: x in kept ==> x in before && before[x] == kept[x]
    requires IsOpening(pkt) <==> flags.syn && !flags.ack
    requires IsSynAck(pkt) <==> flags.syn && flags.ack
    requires IsTeardown(pkt) <==> !flags.syn && (flags.fin || flags.rst)
    ensures Moves(before, UpdateConns(kept, pkt, now), k, flags, now)
  {
    hide IsOpening, IsSynAck, IsTeardown;
  }

  /**
    On any run, the next segment enters its connection as new or, in both directions, as established, closes it, or
    refreshes it, as its SYN, ACK, FIN and RST flags say.
   */
  lemma SegmentMovesConnection(cfg: Config, events: seq<Event>, f: Frame, s: Segment, now: Time)
    requires FrameOk(f) && Carries(f, s)
    ensures Moves(After(cfg, events).conns, After(cfg, events + [Event(PacketOf(f), now)]).conns, ConnectionOf(f, s),
                  s.flags, now)
  {
    SegmentDecides(f, s);
    var pkt, before := PacketOf(f), After(cfg, events);
    var more := events + [Event(pkt, now)];
    assert more[..|more| - 1] == events && more[|more| - 1] == Event(pkt, now);
    var kept := Expire(before, now).conns;
    hide PacketOf, FrameOk, Carries, ConnectionOf, Run, After, IsOpening, IsSynAck, IsTeardown, PruneAll, UpdateConns,
         UpdateClients, UpdateAps, Moves, Alive;
    Survival.TablesNext(cfg, more);
    UpdateMoves(before.conns, kept, pkt, ConnectionOf(f, s), s.flags, now);
  }

  /** Of all segments, exactly the bare SYNs to the sensor match an ingress rule for new flows. */
  lemma NewIngressIff(cfg: Config, f: Frame, s: Segment, conns: ConnTable)
    requires FrameOk(f) && Carries(f, s)
    ensures Matches(cfg, RuleFields.Open().(direction := Ingress, flowState := NewState), PacketOf(f), conns)
       <==> s.flags.syn && !s.flags.ack && ConnectionOf(f, s).dst in cfg.selfIps
  {
    var rule, pkt := RuleFields.Open().(direction := Ingress, flowState := NewState), PacketOf(f);
    SegmentDecides(f, s);
    NetworkIsIp(f, s);
    hide PacketOf, FrameOk, Carries, Matches, IsSynAck, IsTeardown;
    RuleFields.MatchesInEveryRespect(cfg, rule, pkt, conns);
    RuleFields.DirectionIff(cfg, rule, pkt, conns);
    RuleFields.FlowStateIff(cfg, rule, pkt, conns);
    RuleFields.AddressesIff(cfg, rule, pkt, conns);
    RuleFields.KindIff(cfg, rule, pkt, conns);
    RuleFields.PortsIff(cfg, rule, pkt, conns);
    RuleFields.ScopeIff(cfg, rule, pkt, conns);
    assert "any" in rule.scope && AnyProto in rule.protocols;
    assert AnyProto in [RuleFields.ClassKind(rule.class_)] + rule.protocols && RuleFields.IsKind(AnyProto, pkt);
  }

  lemma NetworkIsIp(f: Frame, s: Segment)
    requires FrameOk(f) && Carries(f, s)
    ensures PacketOf(f).network.Ipv4? || PacketOf(f).network.Ipv6?
  {
    hide EncodeFrame, Frames.FrameView, FrameOk, FlagWord;
    FrameReadsBack(f);
  }
}
