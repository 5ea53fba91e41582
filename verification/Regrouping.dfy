/**
  What grouping by port does to alerts: nothing for a rule and key whose packets in each block share a port.
  The alerts of a pair are a function of its packets alone, and grouping keeps the order of those; for a rule
  bound to established flows it also keeps what the connection table says of each, unless a cleanup falls inside
  a block.
 */
module Regrouping {
  import opened Prelude
  import opened Packets
  import opened Rules
  import opened EngineSpec
  import opened Connections
  import opened Pruning
  import opened LocalitySpec
  import opened Capture

  // One pair in the reference engine

  /** What the log holds for a pair, and the rates its alerts reported so far. */
  datatype PairState = PairState(all: Stamps, counted: Stamps, rates: seq<u32>)

  function PairStep(rule: Rule, p: PairState, e: Event): PairState {
    var all := p.all + [e.now];
    var counted := if IsFresh(e.pkt) then p.counted + [e.now] else p.counted;
    var verdict := Threshold(rule, all, counted, e.now);
    if verdict.Some? then PairState([], [], p.rates + [Truncate(verdict.value)]) else PairState(all, counted, p.rates)
  }

  function PairRun(rule: Rule, hits: seq<Event>): PairState {
    if hits == [] then PairState([], [], [])
    else PairStep(rule, PairRun(rule, hits[..|hits| - 1]), hits[|hits| - 1])
  }

  // Which packets hit a pair: what the connection table says when each is evaluated

  datatype Tracking = Tracking(conns: ConnTable, lastCleanup: Time)

  const UNTRACKED := Tracking(map[], 0.0)

  /** The table and cleanup time at the first moment of a packet, the cleanup done if due. */
  function Cleaned(t: Tracking, now: Time): Tracking {
    if now - t.lastCleanup >= TICK
    then Tracking(map k | k in t.conns && Alive(t.conns[k], now) :: t.conns[k], now)
    else t
  }

  function Track(t: Tracking, e: Event): Tracking {
    var c := Cleaned(t, e.now);
    c.(conns := UpdateConns(c.conns, e.pkt, e.now))
  }

  function TrackAll(t: Tracking, events: seq<Event>): Tracking {
    if events == [] then t else Track(TrackAll(t, events[..|events| - 1]), events[|events| - 1])
  }

  function HitsOf(cfg: Config, rule: Rule, k: Addr, t: Tracking, events: seq<Event>): seq<Event> {
    if events == [] then []
    else
      var init, e := events[..|events| - 1], events[|events| - 1];
      var conns := Track(TrackAll(t, init), e).conns;
      HitsOf(cfg, rule, k, t, init) + if Hits(cfg, conns, rule, e.pkt, rule.id, k) then [e] else []
  }

  lemma TrackStep(r: Reference, e: Event)
    ensures Track(Tracking(r.conns, r.lastCleanup), e)
         == Tracking(ConnsOf(r, e.pkt, e.now), if e.now - r.lastCleanup >= TICK then e.now else r.lastCleanup)
  {
  }

  lemma {:induction false} ReferenceTracks(cfg: Config, events: seq<Event>)
    ensures var r := ReferenceRun(cfg, events).0; Tracking(r.conns, r.lastCleanup) == TrackAll(UNTRACKED, events)
    decreases |events|
  {
    if events == [] {
    } else {
      var init, e := events[..|events| - 1], events[|events| - 1];
      hide Track, ConnsOf, LogRules;
      ReferenceTracks(cfg, init);
      TrackStep(ReferenceRun(cfg, init).0, e);
    }
  }

  /** The rates of a pair's alerts, in order. */
  function RatesFor(alerts: seq<Alert>, id: u32, k: Addr): seq<u32> {
    if alerts == [] then []
    else
      var a := alerts[|alerts| - 1];
      RatesFor(alerts[..|alerts| - 1], id, k) + if a.ruleId == id && a.sender == k then [a.rate] else []
  }

  function PendingRates(pending: seq<Pending>, id: u32, k: Addr): seq<u32> {
    if pending == [] then []
    else
      var p := pending[|pending| - 1];
      PendingRates(pending[..|pending| - 1], id, k) + if p.ruleId == id && p.sender == k then [p.rate] else []
  }

  lemma {:induction false} RatesForConcat(a: seq<Alert>, b: seq<Alert>, id: u32, k: Addr)
    ensures RatesFor(a + b, id, k) == RatesFor(a, id, k) + RatesFor(b, id, k)
  {
    if b == [] {
      assert a + b == a;
    } else {
      assert (a + b)[..|a + b| - 1] == a + b[..|b| - 1];
      RatesForConcat(a, b[..|b| - 1], id, k);
    }
  }

  lemma {:induction false} PendingRatesConcat(a: seq<Pending>, b: seq<Pending>, id: u32, k: Addr)
    ensures PendingRates(a + b, id, k) == PendingRates(a, id, k) + PendingRates(b, id, k)
  {
    if b == [] {
      assert a + b == a;
    } else {
      assert (a + b)[..|a + b| - 1] == a + b[..|b| - 1];
      PendingRatesConcat(a, b[..|b| - 1], id, k);
    }
  }

  lemma {:induction false} NumberedRates(counter: nat, pending: seq<Pending>, id: u32, k: Addr)
    ensures RatesFor(Number(counter, pending), id, k) == PendingRates(pending, id, k)
  {
    if pending == [] {
    } else {
      var init, numbered := pending[..|pending| - 1], Number(counter, pending);
      assert numbered[..|numbered| - 1] == Number(counter, init);
      NumberedRates(counter, init, id, k);
    }
  }

  /** The rule stands at `i` and shares its identifier with no other. */
  ghost predicate IsAlone(rules: seq<Rule>, i: nat) {
    i < |rules| && forall j :: 0 <= j < |rules| && j != i ==> rules[j].id != rules[i].id
  }

  /** The log and the pending alerts show what the pair state says. */
  ghost predicate Shows(log: seq<Entry>, rates: seq<u32>, id: u32, k: Addr, p: PairState) {
    Since(log, id, k, false) == p.all && Since(log, id, k, true) == p.counted && rates == p.rates
  }

  lemma OnePendingRate(p: Pending, id: u32, k: Addr)
    ensures PendingRates([p], id, k) == if p.ruleId == id && p.sender == k then [p.rate] else []
    ensures PendingRates([], id, k) == []
  {
    assert [p][..0] == [];
  }

  function MovedPair(cfg: Config, conns: ConnTable, rule: Rule, k: Addr, p: PairState, e: Event): PairState {
    if Hits(cfg, conns, rule, e.pkt, rule.id, k) then PairStep(rule, p, e) else p
  }

  /** Evaluating the rule moves its pair by one step on a hit, and not at all otherwise. */
  lemma RuleMovesPair(cfg: Config, conns: ConnTable, log: seq<Entry>, rule: Rule, e: Event, k: Addr, p: PairState)
    requires Shows(log, p.rates, rule.id, k, p)
    ensures var (log', pending) := LogRule(cfg, conns, log, rule, e.pkt, e.now);
            Shows(log', p.rates + PendingRates(pending, rule.id, k), rule.id, k, MovedPair(cfg, conns, rule, k, p, e))
  {
    var id, key, pkt, now := rule.id, TrackingKey(rule, e.pkt), e.pkt, e.now;
    var hit := Hit(id, k, now, IsFresh(pkt));
    NothingMore(p.rates);
    NothingMore(p.counted);
    if Matches(cfg, rule, pkt, conns) {
      var verdict := Verdict(rule, log + [Hit(id, key, now, IsFresh(pkt))], key, now);
      OnePendingRate(Pending(id, key, if verdict.Some? then Truncate(verdict.value) else 0), id, k);
    } else {
      OnePendingRate(Pending(id, key, 0), id, k);
    }
    hide Matches, Since, IsFresh, Threshold, TrackingKey, PendingRates;
    SinceHit(log, hit, id, k, false);
    SinceHit(log, hit, id, k, true);
    LogRuleAt(cfg, conns, log, rule, pkt, now, id, k, false);
    LogRuleAt(cfg, conns, log, rule, pkt, now, id, k, true);
  }

  /** Evaluating another rule leaves the pair alone. */
  lemma OtherRuleLeavesPair(cfg: Config, conns: ConnTable, log: seq<Entry>, rule: Rule, pkt: Packet, now: Time, id: u32,
                            k: Addr, p: PairState)
    requires rule.id != id && Shows(log, p.rates, id, k, p)
    ensures var (log', pending) := LogRule(cfg, conns, log, rule, pkt, now);
            Shows(log', p.rates + PendingRates(pending, id, k), id, k, p)
  {
    var pending := LogRule(cfg, conns, log, rule, pkt, now).1;
    NothingMore(p.rates);
    assert |pending| <= 1 && (pending != [] ==> pending[0].ruleId != id);
    if pending != [] {
      OnePendingRate(pending[0], id, k);
      assert pending == [pending[0]];
    }
    hide Matches, Since, TrackingKey, Verdict;
    LogRuleAt(cfg, conns, log, rule, pkt, now, id, k, false);
    LogRuleAt(cfg, conns, log, rule, pkt, now, id, k, true);
  }

  lemma LogRulesNext(cfg: Config, conns: ConnTable, log: seq<Entry>, rules: seq<Rule>, n: nat, pkt: Packet, now: Time)
    requires n < |rules|
    ensures var (log1, p1) := LogRules(cfg, conns, log, rules[..n], pkt, now);
            var (log2, p2) := LogRule(cfg, conns, log1, rules[n], pkt, now);
            LogRules(cfg, conns, log, rules[..n + 1], pkt, now) == (log2, p1 + p2)
  {
    assert rules[..n + 1][..n] == rules[..n];
  }

  /** After the first `n` rules the pair has moved, if its own rule is among them. */
  ghost predicate PrefixMoves(cfg: Config, conns: ConnTable, log: seq<Entry>, i: nat, n: nat, e: Event, k: Addr,
                              p: PairState)
    requires i < |cfg.rules| && n <= |cfg.rules|
  {
    var (log', pending) := LogRules(cfg, conns, log, cfg.rules[..n], e.pkt, e.now);
    Shows(log', p.rates + PendingRates(pending, cfg.rules[i].id, k), cfg.rules[i].id, k,
          if n <= i then p else MovedPair(cfg, conns, cfg.rules[i], k, p, e))
  }

  lemma NoRuleMoves(cfg: Config, conns: ConnTable, log: seq<Entry>, i: nat, e: Event, k: Addr, p: PairState)
    requires i < |cfg.rules| && Shows(log, p.rates, cfg.rules[i].id, k, p)
    ensures PrefixMoves(cfg, conns, log, i, 0, e, k, p)
  {
    OnePendingRate(Pending(0, k, 0), cfg.rules[i].id, k);
    NothingMore(p.rates);
  }

  lemma NextRuleMoves(cfg: Config, conns: ConnTable, log: seq<Entry>, i: nat, m: nat, e: Event, k: Addr, p: PairState)
    requires IsAlone(cfg.rules, i) && m < |cfg.rules| && PrefixMoves(cfg, conns, log, i, m, e, k, p)
    ensures PrefixMoves(cfg, conns, log, i, m + 1, e, k, p)
  {
    var rule := cfg.rules[i];
    var (log1, p1) := LogRules(cfg, conns, log, cfg.rules[..m], e.pkt, e.now);
    var p2 := LogRule(cfg, conns, log1, cfg.rules[m], e.pkt, e.now).1;
    var between := if m <= i then p else MovedPair(cfg, conns, rule, k, p, e);
    var shown := between.(rates := p.rates + PendingRates(p1, rule.id, k));
    assert shown == between;
    hide LogRule, LogRules, Since, PairStep, Hits, PendingRates;
    LogRulesNext(cfg, conns, log, cfg.rules, m, e.pkt, e.now);
    PendingRatesConcat(p1, p2, rule.id, k);
    Regroup(p.rates, PendingRates(p1, rule.id, k), PendingRates(p2, rule.id, k));
    if m == i {
      RuleMovesPair(cfg, conns, log1, rule, e, k, between);
    } else {
      OtherRuleLeavesPair(cfg, conns, log1, cfg.rules[m], e.pkt, e.now, rule.id, k, between);
    }
  }

  lemma {:induction false} RulesMovePair(cfg: Config, conns: ConnTable, log: seq<Entry>, i: nat, n: nat, e: Event,
                                         k: Addr, p: PairState)
    requires IsAlone(cfg.rules, i) && i < |cfg.rules| && n <= |cfg.rules|
    requires Shows(log, p.rates, cfg.rules[i].id, k, p)
    ensures PrefixMoves(cfg, conns, log, i, n, e, k, p)
    decreases n
  {
    hide *;
    if n == 0 {
      NoRuleMoves(cfg, conns, log, i, e, k, p);
    } else {
      var m: nat := n - 1;
      RulesMovePair(cfg, conns, log, i, m, e, k, p);
      NextRuleMoves(cfg, conns, log, i, m, e, k, p);
    }
  }

  lemma Regroup<T>(a: seq<T>, b: seq<T>, c: seq<T>)
    ensures (a + b) + c == a + (b + c)
  {
  }

  lemma StepMovesPair(cfg: Config, r: Reference, i: nat, e: Event, k: Addr, p: PairState)
    requires IsAlone(cfg.rules, i) && Shows(r.log, p.rates, cfg.rules[i].id, k, p)
    ensures var (r', alerts) := ReferenceStep(cfg, r, e.pkt, e.now);
            Shows(r'.log, p.rates + RatesFor(alerts, cfg.rules[i].id, k), cfg.rules[i].id, k,
                  MovedPair(cfg, ConnsOf(r, e.pkt, e.now), cfg.rules[i], k, p, e))
  {
    var conns := ConnsOf(r, e.pkt, e.now);
    assert cfg.rules[..|cfg.rules|] == cfg.rules;
    hide LogRules, ConnsOf, Since, MovedPair, Number;
    RulesMovePair(cfg, conns, r.log, i, |cfg.rules|, e, k, p);
    NumberedRates(r.alertCounter, LogRules(cfg, conns, r.log, cfg.rules, e.pkt, e.now).1, cfg.rules[i].id, k);
  }

  /** In the reference engine a pair's alerts are a function of its packets alone. */
  lemma {:induction false} PairAlone(cfg: Config, i: nat, events: seq<Event>, k: Addr)
    requires IsAlone(cfg.rules, i)
    ensures var (r, alerts) := ReferenceRun(cfg, events);
            Shows(r.log, RatesFor(alerts, cfg.rules[i].id, k), cfg.rules[i].id, k,
                  PairRun(cfg.rules[i], HitsOf(cfg, cfg.rules[i], k, UNTRACKED, events)))
    decreases |events|
  {
    if events == [] {
    } else {
      var init, e, rule := events[..|events| - 1], events[|events| - 1], cfg.rules[i];
      var (r, alerts) := ReferenceRun(cfg, init);
      var hits := HitsOf(cfg, rule, k, UNTRACKED, init);
      PairAlone(cfg, i, init, k);
      ReferenceTracks(cfg, init);
      TrackStep(r, e);
      assert (hits + [e])[..|hits|] == hits;
      NothingMore(hits);
      hide ReferenceStep, Since, Hits, PairStep, Track, TrackAll, ConnsOf;
      StepMovesPair(cfg, r, i, e, k, PairRun(rule, hits));
      RatesForConcat(alerts, ReferenceStep(cfg, r, e.pkt, e.now).1, rule.id, k);
    }
  }

  // One batch, on a table that no cleanup changes

  /** The packets of a pair in a batch whose cleanups are done: the table is the fold of what came before. */
  function LocalHits(cfg: Config, rule: Rule, k: Addr, conns: ConnTable, events: seq<Event>): seq<Event> {
    if events == [] then []
    else
      var init, e := events[..|events| - 1], events[|events| - 1];
      LocalHits(cfg, rule, k, conns, init)
      + if Hits(cfg, FoldConns(conns, events), rule, e.pkt, rule.id, k) then [e] else []
  }

  /** The packet can hit the pair, depending on the connection table. */
  ghost predicate MayHit(cfg: Config, rule: Rule, k: Addr, pkt: Packet) {
    exists conns :: Hits(cfg, conns, rule, pkt, rule.id, k)
  }

  /** All packets that may hit the pair carry this port key. */
  ghost predicate SharesPort(cfg: Config, rule: Rule, k: Addr, parse: Parser, refs: seq<PacketRef>, port: u16) {
    forall r :: r in refs && MayHit(cfg, rule, k, parse(r.data)) ==> r.portKey == port
  }

  lemma LocalSnoc(cfg: Config, rule: Rule, k: Addr, parse: Parser, conns: ConnTable, refs: seq<PacketRef>, r: PacketRef)
    ensures var events := EventsOf(parse, refs + [r]);
            LocalHits(cfg, rule, k, conns, events)
            == LocalHits(cfg, rule, k, conns, EventsOf(parse, refs))
               + if Hits(cfg, FoldConns(conns, events), rule, parse(r.data), rule.id, k) then [EventOf(parse, r)]
                 else []
  {
    var events := EventsOf(parse, refs + [r]);
    assert events[..|events| - 1] == EventsOf(parse, refs);
  }

  /** Matching looks at no entry but the packet's own. */
  lemma HitsByEntry(cfg: Config, rule: Rule, k: Addr, pkt: Packet, conns: ConnTable, conns': ConnTable)
    requires pkt.transport.Tcp? ==> Connections.Entry(conns, KeyOf(pkt)) == Connections.Entry(conns', KeyOf(pkt))
    ensures Hits(cfg, conns, rule, pkt, rule.id, k) <==> Hits(cfg, conns', rule, pkt, rule.id, k)
  {
    assert FlowStateMatches(rule.flowState, pkt, conns) <==> FlowStateMatches(rule.flowState, pkt, conns');
  }

  /** The bucket of a connection's port holds all that its entry depends on. */
  lemma EntryInBucket(parse: Parser, refs: seq<PacketRef>, conns: ConnTable, c: ConnKey)
    requires KeyedByPort(parse, refs)
    ensures Connections.Entry(FoldConns(conns, EventsOf(parse, refs)), c)
         == Connections.Entry(FoldConns(conns, EventsOf(parse, Bucket(refs, ConnPort(c)))), c)
  {
    var all, some := EventsOf(parse, refs), EventsOf(parse, Bucket(refs, ConnPort(c)));
    hide FoldConns, FoldEntry, Touching, Bucket, EventsOf;
    TouchingInBucket(parse, refs, ConnPort(c), c);
    FoldByEntry(conns, c, all);
    FoldByEntry(conns, c, some);
    FoldByTouching(Connections.Entry(conns, c), c, all);
    FoldByTouching(Connections.Entry(conns, c), c, some);
  }

  lemma PortOfPacket(pkt: Packet)
    requires pkt.transport.Tcp?
    ensures ConnPort(KeyOf(pkt)) == PortKey(pkt)
  {
  }

  lemma HitMay(cfg: Config, rule: Rule, k: Addr, pkt: Packet, conns: ConnTable)
    requires Hits(cfg, conns, rule, pkt, rule.id, k)
    ensures MayHit(cfg, rule, k, pkt)
  {
  }

  /** The bucket of the pair's port tells all of its packets, as if nothing else had been captured. */
  lemma {:induction false} HitsInBucket(cfg: Config, rule: Rule, k: Addr, parse: Parser, conns: ConnTable,
                                        refs: seq<PacketRef>, port: u16)
    requires KeyedByPort(parse, refs) && SharesPort(cfg, rule, k, parse, refs, port)
    ensures LocalHits(cfg, rule, k, conns, EventsOf(parse, refs))
         == LocalHits(cfg, rule, k, conns, EventsOf(parse, Bucket(refs, port)))
    decreases |refs|
  {
    if refs == [] {
    } else {
      var init, r := refs[..|refs| - 1], refs[|refs| - 1];
      assert refs == init + [r] && r in refs;
      var pkt := parse(r.data);
      var table := FoldConns(conns, EventsOf(parse, refs));
      var local := FoldConns(conns, EventsOf(parse, Bucket(refs, port)));
      HitsInBucket(cfg, rule, k, parse, conns, init, port);
      if Hits(cfg, table, rule, pkt, rule.id, k) {
        HitMay(cfg, rule, k, pkt, table);
      }
      assert r.portKey == PortKey(pkt);
      hide LocalHits, Hits, Bucket, FoldConns, EventsOf, EventOf, SharesPort, KeyedByPort, PortKey;
      BucketSnoc(init, r, port);
      LocalSnoc(cfg, rule, k, parse, conns, init, r);
      NothingMore(Bucket(init, port));
      if r.portKey == port {
        LocalSnoc(cfg, rule, k, parse, conns, Bucket(init, port), r);
        if pkt.transport.Tcp? {
          PortOfPacket(pkt);
          EntryInBucket(parse, refs, conns, KeyOf(pkt));
        }
        HitsByEntry(cfg, rule, k, pkt, table, local);
      } else {
        NothingMore(LocalHits(cfg, rule, k, conns, EventsOf(parse, init)));
      }
    }
  }

  // Grouping and buckets

  lemma {:induction false} BucketConcat(a: seq<PacketRef>, b: seq<PacketRef>, port: u16)
    ensures Bucket(a + b, port) == Bucket(a, port) + Bucket(b, port)
    decreases |b|
  {
    if b == [] {
      NothingMore(a);
      NothingMore(Bucket(a, port));
    } else {
      assert (a + b)[..|a + b| - 1] == a + b[..|b| - 1];
      BucketConcat(a, b[..|b| - 1], port);
    }
  }

  lemma {:induction false} BucketOfBucket(refs: seq<PacketRef>, p: u16, q: u16)
    ensures Bucket(Bucket(refs, p), q) == if p == q then Bucket(refs, p) else []
    decreases |refs|
  {
    if refs == [] {
    } else {
      var init, r := refs[..|refs| - 1], refs[|refs| - 1];
      assert refs == init + [r];
      hide Bucket;
      BucketOfBucket(init, p, q);
      BucketSnoc(init, r, p);
      BucketSnoc(Bucket(init, p), r, q);
      NothingMore(Bucket(init, p));
    }
  }

  lemma {:induction false} BucketOfConcat(refs: seq<PacketRef>, ports: seq<u16>, q: u16)
    requires Distinct(ports)
    ensures Bucket(Concat(refs, ports), q) == if q in ports then Bucket(refs, q) else []
    decreases |ports|
  {
    if ports == [] {
    } else {
      var init, p := ports[..|ports| - 1], ports[|ports| - 1];
      assert ports == init + [p];
      BucketOfConcat(refs, init, q);
      ConcatLast(refs, init, p);
      BucketConcat(Concat(refs, init), Bucket(refs, p), q);
      BucketOfBucket(refs, p, q);
    }
  }

  /** Grouping leaves each bucket as it was. */
  lemma BucketOfGrouped(refs: seq<PacketRef>, q: u16)
    ensures Bucket(Grouped(refs), q) == Bucket(refs, q)
  {
    PortsAreActive(refs);
    hide Bucket, Concat, Ports;
    BucketOfConcat(refs, Ports(refs), q);
  }

  lemma GroupedSame(refs: seq<PacketRef>, r: PacketRef)
    ensures r in Grouped(refs) <==> r in refs
  {
    hide Grouped;
    GroupedIsPermutation(refs);
    assert r in Grouped(refs) <==> r in multiset(Grouped(refs));
    assert r in refs <==> r in multiset(refs);
  }

  /** Grouping keeps the packets of such a pair, and their order, whatever the table at the start. */
  lemma GroupingKeepsHits(cfg: Config, rule: Rule, k: Addr, parse: Parser, conns: ConnTable, refs: seq<PacketRef>,
                          port: u16)
    requires KeyedByPort(parse, refs) && SharesPort(cfg, rule, k, parse, refs, port)
    ensures LocalHits(cfg, rule, k, conns, EventsOf(parse, Grouped(refs)))
         == LocalHits(cfg, rule, k, conns, EventsOf(parse, refs))
  {
    hide LocalHits, Bucket, Grouped, EventsOf, MayHit, PortKey;
    forall r | r in Grouped(refs) ensures r in refs {
      GroupedSame(refs, r);
    }
    HitsInBucket(cfg, rule, k, parse, conns, refs, port);
    HitsInBucket(cfg, rule, k, parse, conns, Grouped(refs), port);
    BucketOfGrouped(refs, port);
  }

  lemma {:induction false} FirstPort(refs: seq<PacketRef>)
    requires refs != []
    ensures Ports(refs) != [] && Ports(refs)[0] == refs[0].portKey
    ensures Bucket(refs, refs[0].portKey) != [] && Bucket(refs, refs[0].portKey)[0] == refs[0]
    decreases |refs|
  {
    if |refs| == 1 {
      assert refs[..0] == [];
    } else {
      FirstPort(refs[..|refs| - 1]);
    }
  }

  lemma {:induction false} FirstOfConcat(refs: seq<PacketRef>, ports: seq<u16>)
    requires ports != [] && Bucket(refs, ports[0]) != []
    ensures Concat(refs, ports) != [] && Concat(refs, ports)[0] == Bucket(refs, ports[0])[0]
    decreases |ports|
  {
    hide Bucket;
    if |ports| == 1 {
      assert ports[..0] == [];
    } else {
      FirstOfConcat(refs, ports[..|ports| - 1]);
    }
  }

  /** The first packet of a batch is the first of its grouping. */
  lemma FirstStays(refs: seq<PacketRef>)
    requires refs != []
    ensures Grouped(refs) != [] && Grouped(refs)[0] == refs[0]
  {
    hide Bucket, Ports, Concat;
    FirstPort(refs);
    FirstOfConcat(refs, Ports(refs));
  }

  // Cleanups at the first packet of a batch only

  /** After its first packet, no packet of the batch falls due for a cleanup. */
  ghost predicate QuietAfterFirst(t: Tracking, events: seq<Event>) {
    events != [] ==> forall e :: e in events ==> e.now - Cleaned(t, events[0].now).lastCleanup < TICK
  }

  lemma {:induction false} TrackIsFold(t: Tracking, events: seq<Event>)
    requires events != [] && QuietAfterFirst(t, events)
    ensures var c := Cleaned(t, events[0].now); TrackAll(t, events) == c.(conns := FoldConns(c.conns, events))
    decreases |events|
  {
    var init, e, c := events[..|events| - 1], events[|events| - 1], Cleaned(t, events[0].now);
    assert e in events;
    hide Cleaned, UpdateConns;
    if init == [] {
      assert TrackAll(t, []) == t && FoldConns(c.conns, []) == c.conns;
    } else {
      assert init[0] == events[0];
      TrackIsFold(t, init);
      NotDue(TrackAll(t, init), e.now);
    }
  }

  lemma NotDue(t: Tracking, now: Time)
    requires now - t.lastCleanup < TICK
    ensures Cleaned(t, now) == t
  {
  }

  lemma {:induction false} HitsAreLocal(cfg: Config, rule: Rule, k: Addr, t: Tracking, events: seq<Event>)
    requires events != [] && QuietAfterFirst(t, events)
    ensures HitsOf(cfg, rule, k, t, events) == LocalHits(cfg, rule, k, Cleaned(t, events[0].now).conns, events)
    decreases |events|
  {
    var init, e := events[..|events| - 1], events[|events| - 1];
    TrackIsFold(t, events);
    hide Cleaned, Track, Hits, FoldConns;
    if init == [] {
      assert HitsOf(cfg, rule, k, t, []) == LocalHits(cfg, rule, k, Cleaned(t, e.now).conns, []) == [];
    } else {
      assert init[0] == events[0];
      HitsAreLocal(cfg, rule, k, t, init);
    }
  }

  /** A rule that does not look at the table hits the same packets on any. */
  lemma {:induction false} StatelessHits(cfg: Config, rule: Rule, k: Addr, t: Tracking, conns: ConnTable,
                                         events: seq<Event>)
    requires rule.flowState != EstablishedState
    ensures HitsOf(cfg, rule, k, t, events) == LocalHits(cfg, rule, k, conns, events)
    decreases |events|
  {
    if events == [] {
    } else {
      var init, e := events[..|events| - 1], events[|events| - 1];
      StatelessHits(cfg, rule, k, t, conns, init);
      var now := Track(TrackAll(t, init), e).conns;
      assert Hits(cfg, now, rule, e.pkt, rule.id, k) <==> Hits(cfg, FoldConns(conns, events), rule, e.pkt, rule.id, k);
    }
  }

  /** Grouping a batch leaves the table and the cleanup time that its own order leaves. */
  lemma BatchKeepsTracking(parse: Parser, t: Tracking, refs: seq<PacketRef>)
    requires KeyedByPort(parse, refs) && QuietAfterFirst(t, EventsOf(parse, refs))
    ensures TrackAll(t, EventsOf(parse, Grouped(refs))) == TrackAll(t, EventsOf(parse, refs))
    ensures QuietAfterFirst(t, EventsOf(parse, Grouped(refs)))
    ensures refs != [] ==> EventsOf(parse, Grouped(refs)) != []
                           && EventsOf(parse, Grouped(refs))[0] == EventsOf(parse, refs)[0]
  {
    var arrived, grouped := EventsOf(parse, refs), EventsOf(parse, Grouped(refs));
    GroupedIsPermutation(refs);
    if refs != [] {
      FirstStays(refs);
      assert grouped[0] == arrived[0];
      hide Grouped, Cleaned, TrackAll, FoldConns, Touching, KeyedByPort, EventsOf;
      forall e | e in grouped ensures e in arrived {
        ArrivedIsGrouped(parse, refs, e);
      }
      TrackIsFold(t, arrived);
      TrackIsFold(t, grouped);
      forall c ensures Touching(grouped, c) == Touching(arrived, c) {
        GroupingKeepsConnections(parse, refs, c);
      }
      SameTouchingSameTable(Cleaned(t, arrived[0].now).conns, grouped, arrived);
    }
  }

  lemma BatchKeepsHits(cfg: Config, rule: Rule, k: Addr, parse: Parser, t: Tracking, refs: seq<PacketRef>, port: u16)
    requires KeyedByPort(parse, refs) && SharesPort(cfg, rule, k, parse, refs, port)
    requires QuietAfterFirst(t, EventsOf(parse, refs))
    ensures HitsOf(cfg, rule, k, t, EventsOf(parse, Grouped(refs))) == HitsOf(cfg, rule, k, t, EventsOf(parse, refs))
  {
    GroupedIsPermutation(refs);
    hide HitsOf, LocalHits, SharesPort, KeyedByPort, QuietAfterFirst, Cleaned, Grouped, TrackAll;
    BatchKeepsTracking(parse, t, refs);
    if refs != [] {
      GroupingKeepsHits(cfg, rule, k, parse, Cleaned(t, EventsOf(parse, refs)[0].now).conns, refs, port);
      HitsAreLocal(cfg, rule, k, t, EventsOf(parse, refs));
      HitsAreLocal(cfg, rule, k, t, EventsOf(parse, Grouped(refs)));
    } else {
      assert EventsOf(parse, Grouped(refs)) == EventsOf(parse, refs);
    }
  }

  // Over the whole capture

  /** The accepted packets of all blocks in the order of their arrival. */
  function ArrivalEvents(parse: Parser, blocks: seq<seq<RawPacket>>): seq<Event> {
    if blocks == [] then []
    else ArrivalEvents(parse, blocks[..|blocks| - 1]) + EventsOf(parse, Accepted(parse, blocks[|blocks| - 1]))
  }

  lemma ArrivedIsGrouped(parse: Parser, refs: seq<PacketRef>, e: Event)
    ensures e in EventsOf(parse, refs) <==> e in EventsOf(parse, Grouped(refs))
  {
    hide Grouped;
    var grouped := Grouped(refs);
    GroupedIsPermutation(refs);
    if e in EventsOf(parse, refs) {
      var i :| 0 <= i < |refs| && e == EventOf(parse, refs[i]);
      assert refs[i] in multiset(refs) && refs[i] in grouped;
      var j :| 0 <= j < |grouped| && grouped[j] == refs[i];
      assert EventsOf(parse, grouped)[j] == e;
    }
    if e in EventsOf(parse, grouped) {
      var i :| 0 <= i < |grouped| && e == EventOf(parse, grouped[i]);
      assert grouped[i] in multiset(grouped) && grouped[i] in refs;
      var j :| 0 <= j < |refs| && refs[j] == grouped[i];
      assert EventsOf(parse, refs)[j] == e;
    }
  }

  lemma {:induction false} ArrivedIsCaptured(parse: Parser, blocks: seq<seq<RawPacket>>, e: Event)
    ensures e in ArrivalEvents(parse, blocks) ==> e in CaptureEvents(parse, blocks)
    decreases |blocks|
  {
    hide Grouped, Accepted, EventsOf;
    if blocks == [] {
    } else {
      ArrivedIsCaptured(parse, blocks[..|blocks| - 1], e);
      ArrivedIsGrouped(parse, Accepted(parse, blocks[|blocks| - 1]), e);
    }
  }

  /** The clock of arrival, too, is at most a block's span out of order. */
  lemma {:induction false} ArrivalDisorder(parse: Parser, blocks: seq<seq<RawPacket>>, d: Time)
    requires Paced(blocks, d)
    ensures DisorderAtMost(ArrivalEvents(parse, blocks), d)
    decreases |blocks|
  {
    hide Grouped, Accepted, EventsOf;
    if blocks == [] {
    } else {
      var init, last := blocks[..|blocks| - 1], blocks[|blocks| - 1];
      ArrivalDisorder(parse, init, d);
      var before, now := ArrivalEvents(parse, init), EventsOf(parse, Accepted(parse, last));
      forall a, b | (a in before || a in now) && b in now ensures b.now >= a.now - d {
        ArrivedIsGrouped(parse, Accepted(parse, last), b);
        var rb := EventIsFromBlock(parse, last, b);
        if a in now {
          ArrivedIsGrouped(parse, Accepted(parse, last), a);
          var ra := EventIsFromBlock(parse, last, a);
          assert Spans(blocks[|blocks| - 1], d) && TimeOf(ra) - TimeOf(rb) <= d;
        } else {
          ArrivedIsCaptured(parse, init, a);
          var i, ra := EventIsFromCapture(parse, init, a);
          assert Precedes(blocks[i], blocks[|blocks| - 1]) && TimeOf(ra) <= TimeOf(rb);
        }
      }
      DisorderOfConcat(before, now, d);
    }
  }

  lemma {:induction false} TrackConcat(t: Tracking, a: seq<Event>, b: seq<Event>)
    ensures TrackAll(t, a + b) == TrackAll(TrackAll(t, a), b)
    decreases |b|
  {
    if b == [] {
      NothingMore(a);
    } else {
      assert (a + b)[..|a + b| - 1] == a + b[..|b| - 1];
      TrackConcat(t, a, b[..|b| - 1]);
    }
  }

  lemma {:induction false} HitsConcat(cfg: Config, rule: Rule, k: Addr, t: Tracking, a: seq<Event>, b: seq<Event>)
    ensures HitsOf(cfg, rule, k, t, a + b) == HitsOf(cfg, rule, k, t, a) + HitsOf(cfg, rule, k, TrackAll(t, a), b)
    decreases |b|
  {
    if b == [] {
      NothingMore(a);
      NothingMore(HitsOf(cfg, rule, k, t, a));
    } else {
      var init := b[..|b| - 1];
      assert (a + b)[..|a + b| - 1] == a + init && (a + b)[|a + b| - 1] == b[|b| - 1];
      TrackConcat(t, a, init);
      hide Track, Hits;
      HitsConcat(cfg, rule, k, t, a, init);
    }
  }

  /** In every block, the packets that may hit the pair share one port key, which may differ from block to block. */
  ghost predicate OnePortPerBlock(cfg: Config, rule: Rule, k: Addr, parse: Parser, blocks: seq<seq<RawPacket>>) {
    forall i :: 0 <= i < |blocks| ==> HasOnePort(cfg, rule, k, parse, blocks[i])
  }

  ghost predicate HasOnePort(cfg: Config, rule: Rule, k: Addr, parse: Parser, block: seq<RawPacket>) {
    exists port :: SharesPort(cfg, rule, k, parse, Accepted(parse, block), port)
  }

  /** Cleanups fall due only at the first packets of blocks. */
  ghost predicate CleansAtStarts(parse: Parser, blocks: seq<seq<RawPacket>>) {
    forall i :: 0 <= i < |blocks| ==> CleansAtStart(parse, blocks[..i], blocks[i])
  }

  ghost predicate CleansAtStart(parse: Parser, before: seq<seq<RawPacket>>, block: seq<RawPacket>) {
    QuietAfterFirst(TrackAll(UNTRACKED, ArrivalEvents(parse, before)), EventsOf(parse, Accepted(parse, block)))
  }

  lemma AcceptedIsKeyed(parse: Parser, block: seq<RawPacket>)
    ensures KeyedByPort(parse, Accepted(parse, block))
  {
  }

  lemma CleansBefore(parse: Parser, blocks: seq<seq<RawPacket>>)
    requires blocks != [] && CleansAtStarts(parse, blocks)
    ensures CleansAtStarts(parse, blocks[..|blocks| - 1])
    ensures CleansAtStart(parse, blocks[..|blocks| - 1], blocks[|blocks| - 1])
  {
    hide CleansAtStart;
    var init := blocks[..|blocks| - 1];
    forall i | 0 <= i < |init| ensures CleansAtStart(parse, init[..i], init[i]) {
      assert init[..i] == blocks[..i];
      assert CleansAtStart(parse, blocks[..i], blocks[i]);
    }
  }

  /** With cleanups at the starts of blocks, grouping leaves the table as it is in order of arrival. */
  lemma {:induction false} CaptureKeepsTracking(parse: Parser, blocks: seq<seq<RawPacket>>)
    requires CleansAtStarts(parse, blocks)
    ensures TrackAll(UNTRACKED, CaptureEvents(parse, blocks)) == TrackAll(UNTRACKED, ArrivalEvents(parse, blocks))
    decreases |blocks|
  {
    hide Grouped, Accepted, EventsOf, TrackAll, CleansAtStarts;
    if blocks == [] {
    } else {
      var init, refs := blocks[..|blocks| - 1], Accepted(parse, blocks[|blocks| - 1]);
      CleansBefore(parse, blocks);
      AcceptedIsKeyed(parse, blocks[|blocks| - 1]);
      CaptureKeepsTracking(parse, init);
      BatchKeepsTracking(parse, TrackAll(UNTRACKED, ArrivalEvents(parse, init)), refs);
      TrackConcat(UNTRACKED, CaptureEvents(parse, init), EventsOf(parse, Grouped(refs)));
      TrackConcat(UNTRACKED, ArrivalEvents(parse, init), EventsOf(parse, refs));
    }
  }

  /** One block more: its packets of the pair are the same in both orders. */
  lemma BlockKeepsHits(cfg: Config, rule: Rule, k: Addr, parse: Parser, block: seq<RawPacket>, t: Tracking,
                       t': Tracking)
    requires HasOnePort(cfg, rule, k, parse, block)
    requires rule.flowState == EstablishedState ==>
               t == t' && QuietAfterFirst(t, EventsOf(parse, Accepted(parse, block)))
    ensures HitsOf(cfg, rule, k, t, EventsOf(parse, Grouped(Accepted(parse, block))))
         == HitsOf(cfg, rule, k, t', EventsOf(parse, Accepted(parse, block)))
  {
    hide HitsOf, LocalHits, Grouped, Accepted, EventsOf, SharesPort, QuietAfterFirst, KeyedByPort;
    var refs := Accepted(parse, block);
    var port :| SharesPort(cfg, rule, k, parse, refs, port);
    AcceptedIsKeyed(parse, block);
    if rule.flowState == EstablishedState {
      BatchKeepsHits(cfg, rule, k, parse, t, refs, port);
    } else {
      GroupingKeepsHits(cfg, rule, k, parse, map[], refs, port);
      StatelessHits(cfg, rule, k, t, map[], EventsOf(parse, Grouped(refs)));
      StatelessHits(cfg, rule, k, t', map[], EventsOf(parse, refs));
    }
  }

  lemma {:induction false} CaptureKeepsHits(cfg: Config, rule: Rule, k: Addr, parse: Parser,
                                            blocks: seq<seq<RawPacket>>)
    requires OnePortPerBlock(cfg, rule, k, parse, blocks)
    requires rule.flowState == EstablishedState ==> CleansAtStarts(parse, blocks)
    ensures HitsOf(cfg, rule, k, UNTRACKED, CaptureEvents(parse, blocks))
         == HitsOf(cfg, rule, k, UNTRACKED, ArrivalEvents(parse, blocks))
    decreases |blocks|
  {
    hide HitsOf, Grouped, Accepted, EventsOf, HasOnePort, TrackAll, CleansAtStarts;
    if blocks == [] {
    } else {
      var init, block := blocks[..|blocks| - 1], blocks[|blocks| - 1];
      var refs := Accepted(parse, block);
      var grouped, arrived := CaptureEvents(parse, init), ArrivalEvents(parse, init);
      if rule.flowState == EstablishedState {
        CleansBefore(parse, blocks);
        CaptureKeepsTracking(parse, init);
      }
      CaptureKeepsHits(cfg, rule, k, parse, init);
      assert HasOnePort(cfg, rule, k, parse, blocks[|blocks| - 1]);
      BlockKeepsHits(cfg, rule, k, parse, block, TrackAll(UNTRACKED, grouped), TrackAll(UNTRACKED, arrived));
      HitsConcat(cfg, rule, k, UNTRACKED, grouped, EventsOf(parse, Grouped(refs)));
      HitsConcat(cfg, rule, k, UNTRACKED, arrived, EventsOf(parse, refs));
    }
  }

  lemma PacedIsForward(blocks: seq<seq<RawPacket>>, d: Time)
    requires Paced(blocks, d)
    ensures d >= 0.0
  {
  }

  /**
    A key whose packets share a port key in every block is alerted on exactly as if all packets had been
    processed in the order of their arrival: as often, in the same order and with the same rates. For a rule
    bound to established flows this takes cleanups that fall due only at the first packets of blocks.
   */
  lemma {:induction false} GroupingKeepsPairAlerts(cfg: Config, parse: Parser, blocks: seq<seq<RawPacket>>, i: nat,
                                                   k: Addr, d: Time)
    requires Paced(blocks, d) && WindowsFit(cfg, cfg.rules, d)
    requires IsAlone(cfg.rules, i) && OnePortPerBlock(cfg, cfg.rules[i], k, parse, blocks)
    requires cfg.rules[i].flowState == EstablishedState ==> CleansAtStarts(parse, blocks)
    ensures RatesFor(Alerts(cfg, CaptureEvents(parse, blocks)), cfg.rules[i].id, k)
         == RatesFor(Alerts(cfg, ArrivalEvents(parse, blocks)), cfg.rules[i].id, k)
  {
    hide Paced, WindowsFit, DisorderAtMost, Alerts, ReferenceRun, RatesFor, HitsOf, PairRun, CaptureEvents,
         ArrivalEvents, Since, CleansAtStarts, OnePortPerBlock;
    var grouped, arrived := CaptureEvents(parse, blocks), ArrivalEvents(parse, blocks);
    PacedIsForward(blocks, d);
    CaptureDisorder(parse, blocks, d);
    ArrivalDisorder(parse, blocks, d);
    PruningIsInvisible(cfg, grouped, d);
    PruningIsInvisible(cfg, arrived, d);
    PairAlone(cfg, i, grouped, k);
    PairAlone(cfg, i, arrived, k);
    CaptureKeepsHits(cfg, cfg.rules[i], k, parse, blocks);
  }
}
