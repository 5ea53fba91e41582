/** The capture thread's batch loop: group a block by port key, then feed the engine bucket by bucket. */
module Capture {
  import opened Prelude
  import opened Packets
  import opened Rules
  import opened EngineSpec
  import opened Connections
  import opened LocalitySpec
  import opened Locality
  import opened Engine
  import Pruning

  datatype RawPacket = RawPacket(data: Bytes, sec: u32, nsec: u32, blockIdx: u32)

  type Parser = Bytes -> Packet

  /** Both directions of a TCP or UDP conversation share this key. */
  function PortKey(pkt: Packet): u16 {
    match pkt.transport
    case Tcp(src, dst, _) => if src <= dst then src else dst
    case Udp(src, dst) => if src <= dst then src else dst
    case _ => 0
  }

  function RefOf(parse: Parser, raw: RawPacket): PacketRef {
    PacketRef(raw.data, raw.sec, raw.nsec, raw.blockIdx, PortKey(parse(raw.data)))
  }

  function RefsOf(parse: Parser, block: seq<RawPacket>): (refs: seq<PacketRef>)
    ensures |refs| == |block|
  {
    seq(|block|, i requires 0 <= i < |block| => RefOf(parse, block[i]))
  }

  function EventOf(parse: Parser, r: PacketRef): Event {
    Event(parse(r.data), r.sec as real + r.nsec as real / 1_000_000_000.0)
  }

  function EventsOf(parse: Parser, refs: seq<PacketRef>): (events: seq<Event>)
    ensures |events| == |refs|
  {
    seq(|refs|, i requires 0 <= i < |refs| => EventOf(parse, refs[i]))
  }

  /** The packets of a block that enter the batch: the first 4096. */
  function Accepted(parse: Parser, block: seq<RawPacket>): seq<PacketRef> {
    RefsOf(parse, block[..Min(|block|, MAX_BATCH_SIZE)])
  }

  ghost predicate KeyedByPort(parse: Parser, refs: seq<PacketRef>) {
    forall r :: r in refs ==> r.portKey == PortKey(parse(r.data))
  }

  function ConnPort(k: ConnKey): u16 {
    if k.srcPort <= k.dstPort then k.srcPort else k.dstPort
  }

  lemma {:induction false} TouchingConcat(a: seq<Event>, b: seq<Event>, k: ConnKey)
    ensures Touching(a + b, k) == Touching(a, k) + Touching(b, k)
  {
    if b == [] {
      assert a + b == a;
    } else {
      assert (a + b)[..|a + b| - 1] == a + b[..|b| - 1];
      TouchingConcat(a, b[..|b| - 1], k);
    }
  }

  lemma EventsConcat(parse: Parser, a: seq<PacketRef>, b: seq<PacketRef>)
    ensures EventsOf(parse, a + b) == EventsOf(parse, a) + EventsOf(parse, b)
  {
  }

  lemma TouchingSnoc(parse: Parser, refs: seq<PacketRef>, r: PacketRef, k: ConnKey)
    ensures Touching(EventsOf(parse, refs + [r]), k)
         == Touching(EventsOf(parse, refs), k) + if Touches(parse(r.data), k) then [EventOf(parse, r)] else []
  {
    var events := EventsOf(parse, refs + [r]);
    assert events[..|events| - 1] == EventsOf(parse, refs);
  }

  /** All packets of a connection are in the bucket of its port, in arrival order. */
  lemma {:induction false} TouchingInBucket(parse: Parser, refs: seq<PacketRef>, port: u16, k: ConnKey)
    requires KeyedByPort(parse, refs)
    ensures Touching(EventsOf(parse, Bucket(refs, port)), k)
         == if port == ConnPort(k) then Touching(EventsOf(parse, refs), k) else []
  {
    if refs == [] {
    } else {
      var init, r := refs[..|refs| - 1], refs[|refs| - 1];
      assert refs == init + [r] && r in refs;
      assert KeyedByPort(parse, init);
      TouchingInBucket(parse, init, port, k);
      BucketSnoc(init, r, port);
      TouchingSnoc(parse, init, r, k);
      TouchingSnoc(parse, Bucket(init, port), r, k);
      assert Touches(parse(r.data), k) ==> r.portKey == ConnPort(k);
      assert Bucket(init, port) + [] == Bucket(init, port);
    }
  }

  lemma {:induction false} TouchingInConcat(parse: Parser, refs: seq<PacketRef>, ports: seq<u16>, k: ConnKey)
    requires KeyedByPort(parse, refs) && Distinct(ports)
    ensures Touching(EventsOf(parse, Concat(refs, ports)), k)
         == if ConnPort(k) in ports then Touching(EventsOf(parse, refs), k) else []
  {
    hide Touching, Bucket, Concat, KeyedByPort;
    if ports == [] {
      NoPorts(parse, refs, k);
    } else {
      var init, port := ports[..|ports| - 1], ports[|ports| - 1];
      assert ports == init + [port];
      TouchingInConcat(parse, refs, init, k);
      TouchingInBucket(parse, refs, port, k);
      ConcatLast(refs, init, port);
      EventsConcat(parse, Concat(refs, init), Bucket(refs, port));
      TouchingConcat(EventsOf(parse, Concat(refs, init)), EventsOf(parse, Bucket(refs, port)), k);
      NothingMore(Touching(EventsOf(parse, refs), k));
    }
  }

  lemma NoPorts(parse: Parser, refs: seq<PacketRef>, k: ConnKey)
    ensures Touching(EventsOf(parse, Concat(refs, [])), k) == []
  {
  }

  /** Grouping keeps every connection's packets in arrival order. */
  lemma GroupingKeepsConnections(parse: Parser, refs: seq<PacketRef>, k: ConnKey)
    requires KeyedByPort(parse, refs)
    ensures Touching(EventsOf(parse, Grouped(refs)), k) == Touching(EventsOf(parse, refs), k)
  {
    PortsAreActive(refs);
    TouchingInConcat(parse, refs, Ports(refs), k);
    if ConnPort(k) !in Ports(refs) {
      TouchingInBucket(parse, refs, ConnPort(k), k);
    }
  }

  /**
    Batch reordering preserves connection state: as long as no cleanup falls due, processing a batch
    grouped by port leaves the same connection table as processing it in capture order.
   */
  lemma {:induction false} GroupingPreservesConnections(cfg: Config, s: State, parse: Parser, refs: seq<PacketRef>)
    requires KeyedByPort(parse, refs)
    requires NoTick(s, EventsOf(parse, refs))
    ensures Run(cfg, s, EventsOf(parse, Grouped(refs))).0.conns == Run(cfg, s, EventsOf(parse, refs)).0.conns
  {
    var grouped := Grouped(refs);
    GroupedIsPermutation(refs);
    forall e | e in EventsOf(parse, grouped) ensures !TickDue(s, e.now) {
      var i :| 0 <= i < |grouped| && e == EventsOf(parse, grouped)[i];
      assert grouped[i] in multiset(grouped) && grouped[i] in refs;
      var j :| 0 <= j < |refs| && refs[j] == grouped[i];
      assert EventsOf(parse, refs)[j] == e;
    }
    RunWithoutTick(cfg, s, EventsOf(parse, grouped));
    RunWithoutTick(cfg, s, EventsOf(parse, refs));
    forall k ensures Touching(EventsOf(parse, grouped), k) == Touching(EventsOf(parse, refs), k) {
      GroupingKeepsConnections(parse, refs, k);
    }
    SameTouchingSameTable(s.conns, EventsOf(parse, grouped), EventsOf(parse, refs));
  }

  /** A batch holds the packets of its block in order, up to the 4096th, with their bytes and times. */
  lemma AcceptedAre(parse: Parser, block: seq<RawPacket>)
    ensures |Accepted(parse, block)| == if |block| <= 4096 then |block| else 4096
    ensures forall i :: 0 <= i < |Accepted(parse, block)| ==>
              var r, raw := Accepted(parse, block)[i], block[i];
              r.data == raw.data && r.sec == raw.sec && r.nsec == raw.nsec && r.blockIdx == raw.blockIdx
  {
  }

  /** The engine's clock counts nanoseconds: two packets are as far apart as their seconds and nanoseconds say. */
  lemma TimesAreNanoseconds(parse: Parser, a: PacketRef, b: PacketRef)
    ensures (EventOf(parse, b).now - EventOf(parse, a).now) * 1_000_000_000.0
         == (b.sec - a.sec) as real * 1_000_000_000.0 + (b.nsec - a.nsec) as real
    ensures a.nsec < 1_000_000_000 && b.nsec < 1_000_000_000 ==>
              (EventOf(parse, a).now < EventOf(parse, b).now <==> a.sec < b.sec || (a.sec == b.sec && a.nsec < b.nsec))
  {
  }

  /** The smaller port of a TCP or UDP packet names its bucket, and packets without ports share the bucket of zero. */
  lemma SmallerPort(pkt: Packet)
    ensures pkt.transport.Tcp? ==>
              PortKey(pkt) in {pkt.transport.tcpSrc, pkt.transport.tcpDst}
              && PortKey(pkt) <= pkt.transport.tcpSrc && PortKey(pkt) <= pkt.transport.tcpDst
    ensures pkt.transport.Udp? ==>
              PortKey(pkt) in {pkt.transport.udpSrc, pkt.transport.udpDst}
              && PortKey(pkt) <= pkt.transport.udpSrc && PortKey(pkt) <= pkt.transport.udpDst
    ensures !pkt.transport.Tcp? && !pkt.transport.Udp? ==> PortKey(pkt) == 0
  {
  }

  /** Clears and fills the buffer; packets beyond the batch size are dropped. */
  method FillBatch(parse: Parser, buffer: LocalityBuffer, block: seq<RawPacket>)
    requires buffer.Valid()
    modifies buffer.Repr
    ensures buffer.Valid() && buffer.Batch() == Accepted(parse, block)
  {
    buffer.Clear();
    for i := 0 to |block|
      invariant buffer.Valid()
      invariant buffer.Batch() == Accepted(parse, block[..i])
    {
      hide LocalityBuffer.Valid, Accepted;
      var raw := block[i];
      var portKey := PortKey(parse(raw.data));
      AcceptNext(parse, block, i);
      var ok := buffer.AddPacket(raw.data, raw.sec, raw.nsec, raw.blockIdx, portKey);
    }
    assert block[..|block|] == block;
  }

  /** The next packet of a block is accepted while fewer than 4096 are. */
  lemma AcceptNext(parse: Parser, block: seq<RawPacket>, i: nat)
    requires i < |block|
    ensures var done := Accepted(parse, block[..i]);
            Accepted(parse, block[..i + 1]) == done + if |done| < MAX_BATCH_SIZE then [RefOf(parse, block[i])] else []
  {
    var next := block[..i + 1];
    if i < MAX_BATCH_SIZE {
      assert next[..i + 1] == next && block[..i][..i] == block[..i];
    } else {
      assert next[..MAX_BATCH_SIZE] == block[..i][..MAX_BATCH_SIZE];
    }
  }

  lemma EventsSnoc(parse: Parser, earlier: seq<Event>, slice: seq<PacketRef>, i: nat)
    requires i < |slice|
    ensures earlier + EventsOf(parse, slice[..i + 1])
         == earlier + EventsOf(parse, slice[..i]) + [EventOf(parse, slice[i])]
  {
  }

  /** Feeds one bucket to the engine, re-parsing each packet's bytes; `earlier` is what it has seen before. */
  method FeedBucket(parse: Parser, engine: DetectionEngine, slice: seq<PacketRef>, ghost s: State,
                    ghost earlier: seq<Event>)
    returns (alerts: seq<Alert>)
    requires engine.View() == Run(engine.cfg, s, earlier).0
    modifies engine
    ensures engine.View() == Run(engine.cfg, s, earlier + EventsOf(parse, slice)).0
    ensures Run(engine.cfg, s, earlier).1 + alerts == Run(engine.cfg, s, earlier + EventsOf(parse, slice)).1
  {
    hide Run, Step;
    alerts := [];
    assert earlier + EventsOf(parse, slice[..0]) == earlier;
    for i := 0 to |slice|
      invariant engine.View() == Run(engine.cfg, s, earlier + EventsOf(parse, slice[..i])).0
      invariant Run(engine.cfg, s, earlier).1 + alerts == Run(engine.cfg, s, earlier + EventsOf(parse, slice[..i])).1
    {
      var e := EventOf(parse, slice[i]);
      EventsSnoc(parse, earlier, slice, i);
      RunSnoc(engine.cfg, s, earlier + EventsOf(parse, slice[..i]), e);
      var more := engine.ProcessPacket(e.pkt, e.now);
      alerts := alerts + more;
    }
    assert slice[..|slice|] == slice;
  }

  /**
    One block. The engine runs over the accepted packets grouped by port, and unless a cleanup falls
    due its connection table ends as if they had been processed in capture order.
   */
  method ProcessBlock(parse: Parser, buffer: LocalityBuffer, engine: DetectionEngine, block: seq<RawPacket>)
    returns (alerts: seq<Alert>)
    requires buffer.Valid() && engine !in buffer.Repr
    modifies buffer.Repr, engine
    ensures buffer.Valid()
    ensures (engine.View(), alerts)
         == Run(engine.cfg, old(engine.View()), EventsOf(parse, Grouped(Accepted(parse, block))))
    ensures NoTick(old(engine.View()), EventsOf(parse, Accepted(parse, block))) ==>
              engine.tcpConnTable
              == Run(engine.cfg, old(engine.View()), EventsOf(parse, Accepted(parse, block))).0.conns
  {
    hide Run, Grouped, NoTick, FoldConns;
    ghost var refs := Accepted(parse, block);
    FillBatch(parse, buffer, block);
    buffer.GroupPackets();
    alerts := FeedBuckets(parse, buffer, engine);
    if NoTick(old(engine.View()), EventsOf(parse, refs)) {
      GroupingPreservesConnections(engine.cfg, old(engine.View()), parse, refs);
    }
  }

  lemma GroupedIsConcat(batch: seq<PacketRef>)
    ensures Grouped(batch) == Concat(batch, Ports(batch)[..|Ports(batch)|])
  {
    assert Ports(batch)[..|Ports(batch)|] == Ports(batch);
  }

  method FeedBuckets(parse: Parser, buffer: LocalityBuffer, engine: DetectionEngine) returns (alerts: seq<Alert>)
    requires buffer.Valid() && buffer.IsGrouped() && engine !in buffer.Repr
    modifies engine
    ensures (engine.View(), alerts) == Run(engine.cfg, old(engine.View()), EventsOf(parse, Grouped(buffer.Batch())))
  {
    hide Run, Concat, Bucket, Ports, Grouped;
    alerts := [];
    ghost var batch, s := buffer.Batch(), engine.View();
    RunEmpty(engine.cfg, s);
    StartOfNone(batch);
    GroupedIsConcat(batch);
    for i := 0 to buffer.activeCount
      invariant buffer.Valid() && buffer.IsGrouped() && buffer.Batch() == batch
      invariant (engine.View(), alerts) == Run(engine.cfg, s, EventsOf(parse, Concat(batch, Ports(batch)[..i])))
    {
      var port := buffer.activeBuckets[i];
      var slice := buffer.GetBucketSlice(port);
      assert slice == Bucket(batch, Ports(batch)[i]) by {
        assert port == buffer.activeBuckets[..buffer.activeCount][i];
      }
      ghost var done := Concat(batch, Ports(batch)[..i]);
      StartNext(batch, i);
      EventsConcat(parse, done, slice);
      var more := FeedBucket(parse, engine, slice, s, EventsOf(parse, done));
      alerts := alerts + more;
    }
  }

  // The loop over blocks

  /** Everything the engine sees: block after block, each grouped by port. */
  function CaptureEvents(parse: Parser, blocks: seq<seq<RawPacket>>): seq<Event> {
    if blocks == [] then []
    else
      CaptureEvents(parse, blocks[..|blocks| - 1]) + EventsOf(parse, Grouped(Accepted(parse, blocks[|blocks| - 1])))
  }

  lemma {:induction false} RunConcat(cfg: Config, s: State, a: seq<Event>, b: seq<Event>)
    ensures var (s1, a1) := Run(cfg, s, a);
            var (s2, a2) := Run(cfg, s1, b);
            Run(cfg, s, a + b) == (s2, a1 + a2)
    decreases |b|
  {
    hide Run, Step;
    var s1 := Run(cfg, s, a).0;
    if b == [] {
      NothingMore(a);
      RunEmpty(cfg, s1);
      NothingMore(Run(cfg, s, a).1);
    } else {
      var init, e := b[..|b| - 1], b[|b| - 1];
      assert b == init + [e] && a + b == (a + init) + [e];
      RunConcat(cfg, s, a, init);
      RunSnoc(cfg, s, a + init, e);
      RunSnoc(cfg, s1, init, e);
      var more := Step(cfg, Run(cfg, s1, init).0, e.pkt, e.now).1;
      assert (Run(cfg, s, a).1 + Run(cfg, s1, init).1) + more == Run(cfg, s, a).1 + (Run(cfg, s1, init).1 + more);
    }
  }

  lemma CaptureNext(parse: Parser, blocks: seq<seq<RawPacket>>, i: nat)
    requires i < |blocks|
    ensures CaptureEvents(parse, blocks[..i + 1])
         == CaptureEvents(parse, blocks[..i]) + EventsOf(parse, Grouped(Accepted(parse, blocks[i])))
  {
    assert blocks[..i + 1][..i] == blocks[..i];
  }

  /** The capture loop, over the blocks it receives. */
  method RunCapture(parse: Parser, buffer: LocalityBuffer, engine: DetectionEngine, blocks: seq<seq<RawPacket>>)
    returns (alerts: seq<Alert>)
    requires buffer.Valid() && engine !in buffer.Repr
    modifies buffer.Repr, engine
    ensures buffer.Valid()
    ensures (engine.View(), alerts) == Run(engine.cfg, old(engine.View()), CaptureEvents(parse, blocks))
    ensures old(engine.View()) == INITIAL ==>
              forall d :: Paced(blocks, d) && Pruning.WindowsFit(engine.cfg, engine.cfg.rules, d) ==>
                alerts == Pruning.ReferenceRun(engine.cfg, CaptureEvents(parse, blocks)).1
  {
    hide LocalityBuffer.Valid, Run, Grouped, Accepted, NoTick, CaptureEvents;
    hide Paced, Pruning.WindowsFit, Pruning.ReferenceRun;
    ghost var s := engine.View();
    alerts := [];
    NoBlocks(parse);
    RunEmpty(engine.cfg, s);
    assert blocks[..0] == [];
    for i := 0 to |blocks|
      invariant buffer.Valid() && engine !in buffer.Repr
      invariant (engine.View(), alerts) == Run(engine.cfg, s, CaptureEvents(parse, blocks[..i]))
    {
      CaptureNext(parse, blocks, i);
      RunConcat(engine.cfg, s, CaptureEvents(parse, blocks[..i]), EventsOf(parse, Grouped(Accepted(parse, blocks[i]))));
      var more := ProcessBlock(parse, buffer, engine, blocks[i]);
      alerts := alerts + more;
    }
    assert blocks[..|blocks|] == blocks;
    if s == INITIAL {
      forall d | Paced(blocks, d) && Pruning.WindowsFit(engine.cfg, engine.cfg.rules, d)
        ensures alerts == Pruning.ReferenceRun(engine.cfg, CaptureEvents(parse, blocks)).1
      {
        CaptureAlertsAsReference(engine.cfg, parse, blocks, d);
      }
    }
  }

  lemma NoBlocks(parse: Parser)
    ensures CaptureEvents(parse, []) == []
  {
  }

  function TimeOf(raw: RawPacket): real {
    raw.sec as real + raw.nsec as real / 1_000_000_000.0
  }

  ghost predicate Spans(block: seq<RawPacket>, d: Time) {
    forall r, r' :: r in block && r' in block ==> TimeOf(r) - TimeOf(r') <= d
  }

  ghost predicate Precedes(block: seq<RawPacket>, later: seq<RawPacket>) {
    forall r, r' :: r in block && r' in later ==> TimeOf(r) <= TimeOf(r')
  }

  /** Blocks follow one another in time, and each spans at most `d`. */
  ghost predicate Paced(blocks: seq<seq<RawPacket>>, d: Time) {
    && d >= 0.0
    && (forall i :: 0 <= i < |blocks| ==> Spans(blocks[i], d))
    && forall i, j :: 0 <= i < j < |blocks| ==> Precedes(blocks[i], blocks[j])
  }

  /** Each event of a processed block bears the time of one of its packets. */
  lemma EventIsFromBlock(parse: Parser, block: seq<RawPacket>, e: Event) returns (raw: RawPacket)
    requires e in EventsOf(parse, Grouped(Accepted(parse, block)))
    ensures raw in block && TimeOf(raw) == e.now
  {
    hide Grouped;
    var refs, grouped := Accepted(parse, block), Grouped(Accepted(parse, block));
    GroupedIsPermutation(refs);
    var i :| 0 <= i < |grouped| && e == EventOf(parse, grouped[i]);
    assert grouped[i] in multiset(grouped) && grouped[i] in refs;
    var j :| 0 <= j < |refs| && refs[j] == grouped[i];
    raw := block[j];
    assert refs[j] == RefOf(parse, raw);
  }

  lemma {:induction false} EventIsFromCapture(parse: Parser, blocks: seq<seq<RawPacket>>, e: Event)
    returns (i: nat, raw: RawPacket)
    requires e in CaptureEvents(parse, blocks)
    ensures i < |blocks| && raw in blocks[i] && TimeOf(raw) == e.now
  {
    hide Grouped, Accepted, EventsOf;
    var init, last := blocks[..|blocks| - 1], blocks[|blocks| - 1];
    if e in CaptureEvents(parse, init) {
      i, raw := EventIsFromCapture(parse, init, e);
    } else {
      i := |blocks| - 1;
      raw := EventIsFromBlock(parse, last, e);
    }
  }

  /** Grouping disturbs the clock by no more than a block spans. */
  lemma {:induction false} CaptureDisorder(parse: Parser, blocks: seq<seq<RawPacket>>, d: Time)
    requires Paced(blocks, d)
    ensures Pruning.DisorderAtMost(CaptureEvents(parse, blocks), d)
  {
    hide Grouped, Accepted, EventsOf;
    if blocks == [] {
    } else {
      var init, last := blocks[..|blocks| - 1], blocks[|blocks| - 1];
      CaptureDisorder(parse, init, d);
      var before, now := CaptureEvents(parse, init), EventsOf(parse, Grouped(Accepted(parse, last)));
      forall a, b | (a in before || a in now) && b in now ensures b.now >= a.now - d {
        var rb := EventIsFromBlock(parse, last, b);
        if a in now {
          var ra := EventIsFromBlock(parse, last, a);
          assert Spans(blocks[|blocks| - 1], d) && TimeOf(ra) - TimeOf(rb) <= d;
        } else {
          var i, ra := EventIsFromCapture(parse, init, a);
          assert Precedes(blocks[i], blocks[|blocks| - 1]) && TimeOf(ra) <= TimeOf(rb);
        }
      }
      DisorderOfConcat(before, now, d);
    }
  }

  lemma DisorderOfConcat(a: seq<Event>, b: seq<Event>, d: Time)
    requires Pruning.DisorderAtMost(a, d)
    requires forall x, y :: (x in a || x in b) && y in b ==> y.now >= x.now - d
    ensures Pruning.DisorderAtMost(a + b, d)
  {
    var all := a + b;
    forall i, j | 0 <= i < j < |all| ensures all[j].now >= all[i].now - d {
      assert j >= |a| ==> all[j] in b;
      assert all[i] in a || all[i] in b;
    }
  }

  /**
    Over the whole capture: with windows of at most sixty seconds less the longest block, grouping and
    pruning together lose no alert of the engine that prunes nothing.
   */
  lemma CaptureAlertsAsReference(cfg: Config, parse: Parser, blocks: seq<seq<RawPacket>>, d: Time)
    requires Paced(blocks, d) && Pruning.WindowsFit(cfg, cfg.rules, d)
    ensures Alerts(cfg, CaptureEvents(parse, blocks)) == Pruning.ReferenceRun(cfg, CaptureEvents(parse, blocks)).1
  {
    CaptureDisorder(parse, blocks, d);
    Pruning.PruningIsInvisible(cfg, CaptureEvents(parse, blocks), d);
  }
}
