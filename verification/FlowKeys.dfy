/** The lightweight flow-key parser, and where it agrees with the full frame parser. */
module FlowKeys {
  import opened Prelude
  import opened Packets
  import opened Frames
  import opened FlowSpec

  datatype KeyError = PacketTooShort | NotIpv4 | UnsupportedProtocol(protocol: u8) | TruncatedHeader

  datatype KeyResult = Ok(key: FlowKey) | Err(error: KeyError)

  function ParseIpv4Key(ip: Bytes): KeyResult {
    if |ip| < 20 then Err(PacketTooShort)
    else if High(ip[0]) != 4 then Err(NotIpv4)
    else
      var ihl: int := Low(ip[0]) * 4;
      if ihl < 20 || |ip| < ihl then Err(TruncatedHeader)
      else if ip[9] != 6 && ip[9] != 17 then Err(UnsupportedProtocol(ip[9]))
      else
        var transport := ip[ihl..];
        if |transport| < 4 then Err(TruncatedHeader)
        else Ok(FlowKey.FlowKey(Be32(ip, 12), Be16(transport, 0), Be32(ip, 16), Be16(transport, 2)))
  }

  function ParseFlowKey(data: Bytes): KeyResult {
    if |data| == 0 then Err(PacketTooShort)
    else if |data| >= 14 && data[12] == 0x08 && data[13] == 0x00 then ParseIpv4Key(data[14..])
    else if High(data[0]) == 4 then ParseIpv4Key(data)
    else Err(NotIpv4)
  }

  /** The flow key the full parser's result determines, if it found IPv4 with TCP or UDP. */
  function KeyOfView(v: View): Option<FlowKey> {
    match (v.network, v.transport)
    case (Ipv4(src, dst), Tcp(sp, dp, _)) => ToKey(src, sp, dst, dp)
    case (Ipv4(src, dst), Udp(sp, dp)) => ToKey(src, sp, dst, dp)
    case _ => None
  }

  function ToKey(src: nat, srcPort: u16, dst: nat, dstPort: u16): Option<FlowKey> {
    if src < 0x1_0000_0000 && dst < 0x1_0000_0000 then Some(FlowKey.FlowKey(src, srcPort, dst, dstPort)) else None
  }

  predicate IsIpv4Frame(data: Bytes) {
    |data| >= 14 && data[12] == 0x08 && data[13] == 0x00
  }

  /** The datagram leaves the transport parser a complete header: what a caller can read off the two lengths. */
  predicate TransportComplete(ip: Bytes)
    requires Ipv4HeaderOk(ip)
  {
    var start: int := Low(ip[0]) * 4;
    var left: int := Ipv4End(ip) - start;
    if ip[9] == 6 then
      left >= 20 && High(ip[start + 12]) >= 5 && High(ip[start + 12]) * 4 <= left
    else
      left >= 8 && 8 <= Be16(ip, start + 4) <= left
  }

  lemma Be16InSlice(data: Bytes, from: nat, to: nat, i: nat)
    requires from <= to <= |data| && i + 2 <= to - from
    ensures Be16(data[from..to], i) == Be16(data, from + i)
  {
  }

  /** The key read off the frame's bytes, wherever both parsers look for it. */
  function KeyBytes(ip: Bytes): FlowKey
    requires Ipv4HeaderOk(ip) && Low(ip[0]) * 4 + 4 <= |ip|
  {
    var start: nat := Low(ip[0]) * 4;
    FlowKey.FlowKey(Be32(ip, 12), Be16(ip, start), Be32(ip, 16), Be16(ip, start + 2))
  }

  /** On a datagram, the fast parser succeeds exactly on a whole header of TCP or UDP with four more bytes. */
  lemma FastKey(ip: Bytes)
    ensures ParseIpv4Key(ip).Ok? <==>
              Ipv4HeaderOk(ip) && (ip[9] == 6 || ip[9] == 17) && Low(ip[0]) * 4 + 4 <= |ip|
    ensures ParseIpv4Key(ip).Ok? ==> ParseIpv4Key(ip).key == KeyBytes(ip)
  {
    if Ipv4HeaderOk(ip) && Low(ip[0]) * 4 + 4 <= |ip| {
      var start: nat := Low(ip[0]) * 4;
      Be16InSlice(ip, start, |ip|, 0);
      Be16InSlice(ip, start, |ip|, 2);
    }
  }

  /**
    Why there is no key: fewer than twenty bytes, another version, a header or ports cut short, or a whole header of
    another protocol, which is named.
   */
  lemma WhyNoKey(ip: Bytes)
    requires |ip| > 0
    ensures ParseIpv4Key(ip) == Err(PacketTooShort) <==> |ip| < 20
    ensures ParseIpv4Key(ip) == Err(NotIpv4) <==> |ip| >= 20 && !(0x40 <= ip[0] < 0x50)
    ensures ParseIpv4Key(ip) == Err(TruncatedHeader)
       <==> && |ip| >= 20 && 0x40 <= ip[0] < 0x50
            && var length := (ip[0] - 0x40) * 4;
               length < 20 || |ip| < length || (ip[9] in {6, 17} && |ip| < length + 4)
    ensures ParseIpv4Key(ip) == Err(UnsupportedProtocol(if |ip| > 9 then ip[9] else 0))
       <==> |ip| >= 20 && 0x45 <= ip[0] < 0x50 && |ip| >= (ip[0] - 0x40) * 4 && ip[9] !in {6, 17}
  {
    hide Be32, Be16;
  }

  /** A frame fails as the datagram at its start would, or for want of one: no bytes, or neither type nor version. */
  lemma WhyNoFrameKey(data: Bytes)
    ensures data == [] ==> ParseFlowKey(data) == Err(PacketTooShort)
    ensures |data| >= 14 && data[12..14] == [0x08, 0x00] ==> ParseFlowKey(data) == ParseIpv4Key(data[14..])
    ensures data != [] && !(|data| >= 14 && data[12..14] == [0x08, 0x00]) ==>
              ParseFlowKey(data) == if 0x40 <= data[0] < 0x50 then ParseIpv4Key(data) else Err(NotIpv4)
  {
    hide ParseIpv4Key;
    assert |data| >= 14 ==> (data[12..14] == [0x08, 0x00] <==> data[12] == 0x08 && data[13] == 0x00);
  }

  /** On a datagram, the full parser yields a key exactly when the transport header is complete as well. */
  lemma FullKey(v: View, ip: Bytes)
    requires v.network == NoNetwork && v.transport == NoTransport
    ensures KeyOfView(Ipv4View(v, ip)).Some? <==>
              Ipv4HeaderOk(ip) && (ip[9] == 6 || ip[9] == 17) && TransportComplete(ip)
    ensures KeyOfView(Ipv4View(v, ip)).Some? ==>
              Low(ip[0]) * 4 + 4 <= |ip| && KeyOfView(Ipv4View(v, ip)) == Some(KeyBytes(ip))
  {
    if Ipv4HeaderOk(ip) && Ipv4End(ip) >= Low(ip[0]) * 4 + 8 {
      var start: nat := Low(ip[0]) * 4;
      Be16InSlice(ip, start, Ipv4End(ip), 0);
      Be16InSlice(ip, start, Ipv4End(ip), 2);
      Be16InSlice(ip, start, Ipv4End(ip), 4);
    }
  }

  lemma FrameOfIpv4(data: Bytes)
    requires IsIpv4Frame(data)
    ensures FrameView(data) == if |data| == 14 then Malformed(BLANK.(dstMac := data[..6], srcMac := data[6..12]))
                               else Ipv4View(BLANK.(dstMac := data[..6], srcMac := data[6..12]), data[14..])
  {
    assert Be16(data, 12) == 0x0800;
  }

  /**
    Agreement on every Ethernet frame of type 0x0800: whenever the full parser finds IPv4 with TCP or
    UDP, the fast parser returns the same addresses and ports.
   */
  lemma FastAgreesWithFull(data: Bytes)
    requires IsIpv4Frame(data)
    requires KeyOfView(FrameView(data)).Some?
    ensures ParseFlowKey(data) == Ok(KeyOfView(FrameView(data)).value)
  {
    FrameOfIpv4(data);
    FullKey(BLANK.(dstMac := data[..6], srcMac := data[6..12]), data[14..]);
    FastKey(data[14..]);
  }

  /**
    The exact gap: a key of the fast parser is also the full parser's if and only if the transport
    header is complete.
   */
  lemma FullAgreesWithFastIff(data: Bytes)
    requires IsIpv4Frame(data) && ParseFlowKey(data).Ok?
    ensures Ipv4HeaderOk(data[14..])
    ensures KeyOfView(FrameView(data)) == Some(ParseFlowKey(data).key) <==> TransportComplete(data[14..])
  {
    FastKey(data[14..]);
    FrameOfIpv4(data);
    FullKey(BLANK.(dstMac := data[..6], srcMac := data[6..12]), data[14..]);
  }

  /**
    The two pipelines identify the same connection: on a TCP segment in such a frame, the engine's
    connection key and the flow table's key name the same addresses and ports.
   */
  lemma ConnectionIsFlow(data: Bytes)
    requires IsIpv4Frame(data)
    requires FrameView(data).network.Ipv4? && FrameView(data).transport.Tcp?
    ensures ParseFlowKey(data).Ok?
    ensures var k := ParseFlowKey(data).key;
            KeyOf(PacketOf(FrameView(data))) == ConnKey(V4(k.srcIp), k.srcPort, V4(k.dstIp), k.dstPort)
  {
    FrameOfIpv4(data);
    var v := BLANK.(dstMac := data[..6], srcMac := data[6..12]);
    assert KeyOfView(Ipv4View(v, data[14..])).Some?;
    FastAgreesWithFull(data);
  }

  // Every frame

  /** Where each parser looks for the datagram. */
  function FastStart(data: Bytes): (at: nat)
    ensures at <= |data|
  {
    if IsIpv4Frame(data) then 14 else 0
  }

  function FullStart(data: Bytes): (at: nat)
    ensures at <= |data|
  {
    if |data| < 14 then |data| else AfterTags(data).1
  }

  /** The bytes pass for a whole IPv4 header of TCP or UDP and the two ports. */
  predicate LooksLikeDatagram(ip: Bytes) {
    Ipv4HeaderOk(ip) && (ip[9] == 6 || ip[9] == 17) && Low(ip[0]) * 4 + 4 <= |ip|
  }

  /** The tags lead to IPv4, and its datagram carries a complete header of TCP or UDP. */
  predicate CarriesDatagram(data: Bytes) {
    && |data| >= 14 && AfterTags(data).0 == 0x0800
    && var ip := data[FullStart(data)..];
       Ipv4HeaderOk(ip) && (ip[9] == 6 || ip[9] == 17) && TransportComplete(ip)
  }

  function KeyIfAny(r: KeyResult): Option<FlowKey> {
    match r
    case Ok(key) => Some(key)
    case Err(_) => None
  }

  lemma FastKeyOfFrame(data: Bytes)
    ensures var ip := data[FastStart(data)..];
            KeyIfAny(ParseFlowKey(data)) == if LooksLikeDatagram(ip) then Some(KeyBytes(ip)) else None
  {
    var ip := data[FastStart(data)..];
    assert !IsIpv4Frame(data) ==> ip == data;
    FastKey(ip);
  }

  lemma FullKeyOfFrame(data: Bytes)
    ensures CarriesDatagram(data) ==> LooksLikeDatagram(data[FullStart(data)..])
    ensures KeyOfView(FrameView(data))
         == if CarriesDatagram(data) then Some(KeyBytes(data[FullStart(data)..])) else None
  {
    if |data| >= 14 {
      FullKey(BLANK.(dstMac := data[..6], srcMac := data[6..12]), data[FullStart(data)..]);
    }
  }

  /**
    On every frame whatever, the two parsers give the same answer if and only if either both find a
    datagram or neither does, and where both do, the bytes each takes for addresses and ports are equal.
   */
  lemma {:induction false} ParsersAgreeIff(data: Bytes)
    ensures KeyIfAny(ParseFlowKey(data)) == KeyOfView(FrameView(data))
       <==> var fast, full := data[FastStart(data)..], data[FullStart(data)..];
            && (LooksLikeDatagram(fast) <==> CarriesDatagram(data))
            && (LooksLikeDatagram(fast) && CarriesDatagram(data) ==> KeyBytes(fast) == KeyBytes(full))
  {
    FastKeyOfFrame(data);
    FullKeyOfFrame(data);
  }

  /**
    Untagged frames that are not IPv4 agree exactly when their first bytes do not pass for a datagram,
    and tagged ones that carry IPv4 never do unless the destination address starts with nibble 4.
   */
  lemma {:induction false} OtherFramesAgree(data: Bytes)
    requires |data| >= 14 && !IsIpv4Frame(data)
    ensures AfterTags(data).0 != 0x0800 ==>
              (KeyIfAny(ParseFlowKey(data)) == KeyOfView(FrameView(data)) <==> !LooksLikeDatagram(data))
    ensures CarriesDatagram(data) && High(data[0]) != 4 ==>
              ParseFlowKey(data).Err? && KeyOfView(FrameView(data)).Some?
  {
    assert data[FastStart(data)..] == data;
    ParsersAgreeIff(data);
    FastKeyOfFrame(data);
    FullKeyOfFrame(data);
  }

  /** A false key: an ARP frame whose destination address starts with nibble 4. */
  lemma MisreadsArpFrame()
    ensures var data := [0x45, 0, 0, 0, 0, 0, 0, 0, 0, 6, 0, 0, 0x08, 0x06] + seq(28, _ => 0);
            && !IsIpv4Frame(data)
            && ParseFlowKey(data).Ok?
            && KeyOfView(FrameView(data)) == None
  {
    var data: Bytes := [0x45, 0, 0, 0, 0, 0, 0, 0, 0, 6, 0, 0, 0x08, 0x06] + seq(28, _ => 0);
    FastKey(data);
    assert Be16(data, 12) == 0x0806;
  }

  /** A TCP segment from 10.0.0.1 port 80 to 10.0.0.2 port 8080. */
  const SEGMENT: Bytes := [0x45, 0, 0, 40, 0, 0, 0, 0, 64, 6, 0, 0]
                          + [10, 0, 0, 1, 10, 0, 0, 2, 0, 80, 31, 144]
                          + seq(8, _ => 0) + [0x50, 0x02] + seq(6, _ => 0)

  lemma SegmentIsWhole()
    ensures Ipv4HeaderOk(SEGMENT) && SEGMENT[9] == 6 && TransportComplete(SEGMENT)
    ensures Low(SEGMENT[0]) == 5 && |SEGMENT| == 40
    ensures SEGMENT[12] == 10 && SEGMENT[13] == 0 && SEGMENT[14] == 0 && SEGMENT[15] == 1
    ensures SEGMENT[16] == 10 && SEGMENT[17] == 0 && SEGMENT[18] == 0 && SEGMENT[19] == 2
    ensures SEGMENT[20] == 0 && SEGMENT[21] == 80 && SEGMENT[22] == 31 && SEGMENT[23] == 144
  {
    assert Be16(SEGMENT, 2) == 40;
  }

  /** A missed key: that segment behind one 802.1Q tag. */
  lemma MissesTaggedFrame()
    ensures var data := [2, 0, 0, 0, 0, 1, 2, 0, 0, 0, 0, 2, 0x81, 0x00, 0, 1, 0x08, 0x00] + SEGMENT;
            && ParseFlowKey(data).Err?
            && KeyOfView(FrameView(data)) == Some(FlowKey.FlowKey(0x0A00_0001, 80, 0x0A00_0002, 8080))
  {
    hide Ipv4HeaderOk, TransportComplete, KeyOfView, FrameView, SEGMENT;
    var data: Bytes := [2, 0, 0, 0, 0, 1, 2, 0, 0, 0, 0, 2, 0x81, 0x00, 0, 1, 0x08, 0x00] + SEGMENT;
    assert Be16(data, 12) == 0x8100 && Be16(data, 16) == 0x0800;
    assert data[FullStart(data)..] == SEGMENT;
    SegmentIsWhole();
    FullKeyOfFrame(data);
  }
}
