/**
  Runs on which pruning shows: counted packets spread so thin that they stay below the per-second limit, a
  packet of another key a minute after the first, and one more counted packet late enough to miss the first
  in the pruned tracker and early enough to count it in the log.
 */
module LateRuns {
  import opened Prelude
  import opened Packets
  import opened Rules
  import opened EngineSpec
  import opened Windows
  import opened Pruning
  import opened SingleRules
  import opened Domination

  /** A sensor with one rule, and a counted packet that it always matches but does not alert on by itself. */
  datatype Setup = Setup(cfg: Config, rule: Rule, limit: ConnLimit, pkt: Packet)

  ghost predicate Counts(u: Setup) {
    && u.cfg.rules == [u.rule] && u.rule.maxConnRate == Some(u.limit)
    && IsFresh(u.pkt) && (forall conns :: Matches(u.cfg, u.rule, u.pkt, conns))
    && (u.rule.maxRps.Some? ==> u.rule.maxRps.value >= 2)
    && u.limit.connections >= if u.limit.interval > 0.0 then 2 else 1
  }

  function Key(u: Setup): Addr {
    TrackingKey(u.rule, u.pkt)
  }

  lemma LimitIsPositive(u: Setup)
    requires Counts(u)
    ensures u.cfg.rules == [u.rule] && u.rule.maxConnRate == Some(u.limit) && u.limit.connections >= 1
  {
  }

  lemma SetupSilent(u: Setup, events: seq<Event>)
    requires Counts(u) && ReferenceRun(u.cfg, events).1 == []
    ensures Alerts(u.cfg, events) == []
    ensures Dominated(u.cfg, u.rule, After(u.cfg, events), ReferenceRun(u.cfg, events).0)
  {
    hide Alerts, ReferenceRun, After, Dominated;
    SilentRun(u.cfg, u.rule, events);
  }

  // The schedule: `q` stamps in each whole second, from zero on

  function Early(q: nat, n: nat): Stamps
    requires q >= 1
  {
    if n == 0 then [] else Early(q, n - 1) + [((n - 1) / q) as real]
  }

  lemma EarlyNext(q: nat, n: nat)
    requires q >= 1
    ensures Early(q, n + 1) == Early(q, n) + [(n / q) as real]
  {
  }

  lemma SecondBegun(q: nat, i: nat, g: nat)
    requires q >= 1
    ensures i / q >= g ==> i >= q * g
  {
    assert i == q * (i / q) + i % q;
    if i / q >= g {
      assert q * (i / q) >= q * g;
    }
  }

  lemma FirstSecond(q: nat, i: nat)
    requires q >= 1 && i < q
    ensures i / q == 0
  {
  }

  /** How many of `n` scheduled stamps are sent from second `g` on. */
  function SentFrom(q: nat, n: nat, g: nat): nat {
    if n <= q * g then 0 else n - q * g
  }

  lemma SentNext(q: nat, n: nat, g: nat)
    requires q >= 1
    ensures SentFrom(q, n, g) <= SentFrom(q, n + 1, g)
    ensures n / q >= g ==> SentFrom(q, n + 1, g) == SentFrom(q, n, g) + 1
  {
    SecondBegun(q, n, g);
  }

  /** Counted from second `g` on, only what was sent from then on is recent. */
  lemma {:induction false} EarlyInLastSecond(q: nat, n: nat, g: nat, now: Time)
    requires q >= 1 && now >= g as real
    ensures |Recent(Early(q, n), now, 1.0)| <= SentFrom(q, n, g)
    decreases n
  {
    if n == 0 {
    } else {
      var init: nat := n - 1;
      hide Recent, Early, SentFrom;
      EarlyNext(q, init);
      EarlyInLastSecond(q, init, g, now);
      SentNext(q, init, g);
      RecentSnoc(Early(q, init), (init / q) as real, now, 1.0);
    }
  }

  lemma {:induction false} EarlyAllCounted(q: nat, n: nat, now: Time, interval: Time)
    requires q >= 1 && now < interval
    ensures |Recent(Early(q, n), now, interval)| == n
    decreases n
  {
    if n == 0 {
    } else {
      var t: nat := (n - 1) / q;
      hide Recent, Early;
      EarlyNext(q, n - 1);
      EarlyAllCounted(q, n - 1, now, interval);
      RecentSnoc(Early(q, n - 1), t as real, now, interval);
    }
  }

  lemma {:induction false} EarlyLength(q: nat, n: nat)
    requires q >= 1
    ensures |Early(q, n)| == n
  {
    if n == 0 {
    } else {
      EarlyLength(q, n - 1);
    }
  }

  /** With no interval at all, simultaneous stamps do not count each other. */
  lemma {:induction false} EarlyUncounted(q: nat, n: nat, interval: Time)
    requires q >= 1 && n <= q && interval <= 0.0
    ensures |Recent(Early(q, n), 0.0, interval)| == 0
    decreases n
  {
    if n == 0 {
    } else {
      hide Recent, Early;
      EarlyNext(q, n - 1);
      FirstSecond(q, n - 1);
      EarlyUncounted(q, n - 1, interval);
      RecentSnoc(Early(q, n - 1), 0.0, 0.0, interval);
    }
  }

  /** After a minute the first stamp is gone. */
  lemma {:induction false} EarlyPruned(q: nat, n: nat, now: Time)
    requires q >= 1 && n >= 1 && now >= WINDOW
    ensures |Recent(Early(q, n), now, WINDOW)| <= n - 1
    decreases n
  {
    assert Early(q, 0) == [] && Recent([], now, WINDOW) == [];
    var t: nat := (n - 1) / q;
    hide Recent, Early;
    EarlyNext(q, n - 1);
    RecentSnoc(Early(q, n - 1), t as real, now, WINDOW);
    if n == 1 {
      FirstSecond(q, 0);
    } else {
      EarlyPruned(q, n - 1, now);
    }
  }

  // The reference engine on the schedule

  ghost predicate IsLogged(u: Setup, log: seq<Entry>, k: Addr, stamps: Stamps) {
    Since(log, u.rule.id, k, false) == stamps && Since(log, u.rule.id, k, true) == stamps
  }

  /** Neither limit is met by these stamps. */
  ghost predicate IsQuiet(u: Setup, stamps: Stamps, now: Time) {
    && (u.rule.maxRps.Some? ==> |Recent(stamps, now, 1.0)| < u.rule.maxRps.value)
    && |Recent(stamps, now, u.limit.interval)| < u.limit.connections
  }

  lemma QuietIsNoVerdict(u: Setup, stamps: Stamps, now: Time)
    requires u.rule.maxConnRate == Some(u.limit)
    ensures IsQuiet(u, stamps, now) <==> Threshold(u.rule, stamps, stamps, now).None?
  {
    hide Recent;
  }

  /** The setup's packet is logged and judged with all before it. */
  lemma ReferenceHit(u: Setup, r: Reference, now: Time, stamps: Stamps)
    requires Counts(u) && IsLogged(u, r.log, Key(u), stamps)
    ensures var (r', alerts) := ReferenceStep(u.cfg, r, u.pkt, now);
            && (alerts == [] <==> IsQuiet(u, stamps + [now], now))
            && (alerts == [] ==> IsLogged(u, r'.log, Key(u), stamps + [now]))
  {
    var id, k, conns := u.rule.id, Key(u), ConnsOf(r, u.pkt, now);
    var hit := Hit(id, k, now, true);
    assert Matches(u.cfg, u.rule, u.pkt, conns) && IsFresh(u.pkt) && u.rule.maxConnRate == Some(u.limit);
    assert u.cfg.rules == [u.rule];
    hide Counts, Matches, IsFresh, Since, Recent, ConnsOf, Threshold, ReferenceStep, IsQuiet;
    ReferenceStepIsRule(u.cfg, r, u.rule, u.pkt, now);
    SinceHit(r.log, hit, id, k, false);
    SinceHit(r.log, hit, id, k, true);
    QuietIsNoVerdict(u, stamps + [now], now);
  }

  /** A packet of another key leaves the log of this one alone. */
  lemma ReferenceOther(u: Setup, r: Reference, pkt: Packet, now: Time, k: Addr, stamps: Stamps)
    requires Counts(u) && TrackingKey(u.rule, pkt) != k && IsLogged(u, r.log, k, stamps)
    ensures IsLogged(u, ReferenceStep(u.cfg, r, pkt, now).0.log, k, stamps)
  {
    var conns := ConnsOf(r, pkt, now);
    assert !Hits(u.cfg, conns, u.rule, pkt, u.rule.id, k);
    LimitIsPositive(u);
    hide Counts, Since, ConnsOf, ReferenceStep, LogRule, Hits;
    ReferenceStepIsRule(u.cfg, r, u.rule, pkt, now);
    LogRuleAt(u.cfg, conns, r.log, u.rule, pkt, now, u.rule.id, k, false);
    LogRuleAt(u.cfg, conns, r.log, u.rule, pkt, now, u.rule.id, k, true);
  }

  /** A single packet of a key raises no alert, counted or not. */
  lemma SingleIsQuiet(u: Setup, stamps: Stamps, now: Time)
    requires Counts(u) && (stamps == [] || stamps == [now])
    ensures Threshold(u.rule, [now], stamps, now).None?
  {
    RecentOfOne(now, now, 1.0);
    RecentOfOne(now, now, u.limit.interval);
    assert Recent([], now, u.limit.interval) == [];
    hide Recent;
  }

  lemma ReferenceFirstOfKey(u: Setup, r: Reference, pkt: Packet, now: Time)
    requires Counts(u) && IsLogged(u, r.log, TrackingKey(u.rule, pkt), [])
    ensures ReferenceStep(u.cfg, r, pkt, now).1 == []
  {
    var id, k, conns := u.rule.id, TrackingKey(u.rule, pkt), ConnsOf(r, pkt, now);
    var log' := r.log + [Hit(id, k, now, IsFresh(pkt))];
    assert [] + [now] == [now];
    LimitIsPositive(u);
    hide Counts, Matches, IsFresh, Since, Recent, ConnsOf, Threshold, ReferenceStep, TrackingKey;
    ReferenceStepIsRule(u.cfg, r, u.rule, pkt, now);
    SinceHit(r.log, Hit(id, k, now, IsFresh(pkt)), id, k, false);
    SinceHit(r.log, Hit(id, k, now, IsFresh(pkt)), id, k, true);
    assert Since(log', id, k, true) == [] || Since(log', id, k, true) == [now];
    SingleIsQuiet(u, Since(log', id, k, true), now);
  }

  // The whole run

  /** When the cleanup last ran, `n` packets into the schedule: every five seconds, on the second. */
  function CleanupAfter(q: nat, n: nat): nat
    requires q >= 1
  {
    if n == 0 then 0 else (n - 1) / q / 5 * 5
  }

  lemma SecondNext(q: nat, i: nat)
    requires q >= 1 && i >= 1
    ensures (i - 1) / q <= i / q <= (i - 1) / q + 1
  {
    var k := i / q - (i - 1) / q;
    assert k * q == 1 + (i - 1) % q - i % q;
    ProductGrows(k, q);
  }

  lemma ProductGrows(k: int, q: int)
    requires q >= 1
    ensures k >= 2 ==> k * q >= 2 * q
    ensures k <= -1 ==> k * q <= -q
  {
  }

  lemma CleanupNext(q: nat, n: nat)
    requires q >= 1
    ensures var now: nat := n / q;
            CleanupAfter(q, n + 1)
            == if now as real - CleanupAfter(q, n) as real >= TICK then now else CleanupAfter(q, n)
  {
    if n == 0 {
      FirstSecond(q, 0);
    } else {
      SecondNext(q, n);
    }
  }

  function EarlyEvents(pkt: Packet, q: nat, n: nat): seq<Event>
    requires q >= 1
  {
    if n == 0 then [] else EarlyEvents(pkt, q, n - 1) + [Event(pkt, ((n - 1) / q) as real)]
  }

  lemma EarlyEventsNext(pkt: Packet, q: nat, n: nat)
    requires q >= 1
    ensures EarlyEvents(pkt, q, n + 1) == EarlyEvents(pkt, q, n) + [Event(pkt, (n / q) as real)]
  {
  }

  /**
    The schedule's pace: fewer than the per-second limit in a second, and one counted packet short of
    the other limit.
   */
  ghost predicate Paces(u: Setup, q: nat, early: nat) {
    && q >= 1 && early >= 1
    && (u.rule.maxRps.Some? ==> q < u.rule.maxRps.value)
    && u.limit.connections == early + (if u.limit.interval > 0.0 then 1 else 0)
    && (u.limit.interval <= 0.0 ==> early <= q)
  }

  lemma SentInSecond(q: nat, i: nat)
    requires q >= 1
    ensures SentFrom(q, i + 1, i / q) <= q
  {
    assert i == q * (i / q) + i % q;
  }

  lemma EarlyPerSecond(q: nat, i: nat)
    requires q >= 1
    ensures |Recent(Early(q, i + 1), (i / q) as real, 1.0)| <= q
  {
    hide Recent, Early, SentFrom;
    EarlyInLastSecond(q, i + 1, i / q, (i / q) as real);
    SentInSecond(q, i);
  }

  lemma EarlyPerInterval(u: Setup, q: nat, early: nat, i: nat)
    requires Paces(u, q, early) && i < early
    ensures |Recent(Early(q, i + 1), (i / q) as real, u.limit.interval)| < u.limit.connections
  {
    var interval := u.limit.interval;
    hide Recent, Early;
    if interval > 0.0 {
      EarlyLength(q, i + 1);
      RecentShrinks(Early(q, i + 1), (i / q) as real, interval);
    } else {
      FirstSecond(q, i);
      EarlyUncounted(q, i + 1, interval);
    }
  }

  lemma EarlyIsQuiet(u: Setup, q: nat, early: nat, i: nat)
    requires Paces(u, q, early) && i < early
    ensures IsQuiet(u, Early(q, i) + [(i / q) as real], (i / q) as real)
  {
    hide Recent, Early;
    EarlyNext(q, i);
    EarlyPerSecond(q, i);
    EarlyPerInterval(u, q, early, i);
  }

  /** The reference engine, `n` packets into the schedule: silent, everything logged, nothing known of another key. */
  ghost predicate EarlyState(u: Setup, q: nat, n: nat, k': Addr, run: (Reference, seq<Alert>))
    requires q >= 1
  {
    && run.1 == []
    && IsLogged(u, run.0.log, Key(u), Early(q, n)) && IsLogged(u, run.0.log, k', [])
    && run.0.lastCleanup == CleanupAfter(q, n) as real
  }

  lemma EarlyStateNext(u: Setup, q: nat, early: nat, n: nat, k': Addr, run: (Reference, seq<Alert>))
    requires Counts(u) && Paces(u, q, early) && n < early && k' != Key(u) && EarlyState(u, q, n, k', run)
    ensures var step := ReferenceStep(u.cfg, run.0, u.pkt, (n / q) as real);
            step.1 == [] && EarlyState(u, q, n + 1, k', (step.0, run.1 + step.1))
  {
    var now := (n / q) as real;
    var step := ReferenceStep(u.cfg, run.0, u.pkt, now);
    assert step.0.lastCleanup == if now - run.0.lastCleanup >= TICK then now else run.0.lastCleanup;
    NothingMore(run.1);
    hide ReferenceStep, Counts, IsLogged, IsQuiet, Early, CleanupAfter, Paces, Key;
    EarlyNext(q, n);
    CleanupNext(q, n);
    EarlyIsQuiet(u, q, early, n);
    ReferenceHit(u, run.0, now, Early(q, n));
    KeyOfSetup(u);
    ReferenceOther(u, run.0, u.pkt, now, k', []);
  }

  lemma KeyOfSetup(u: Setup)
    ensures Key(u) == TrackingKey(u.rule, u.pkt)
  {
  }

  ghost predicate InEarlyState(u: Setup, q: nat, n: nat, k': Addr)
    requires q >= 1
  {
    EarlyState(u, q, n, k', ReferenceRun(u.cfg, EarlyEvents(u.pkt, q, n)))
  }

  lemma EarlyStarts(u: Setup, q: nat, k': Addr)
    requires q >= 1
    ensures InEarlyState(u, q, 0, k')
  {
    ReferenceEmpty(u.cfg);
  }

  lemma EarlyGoesOn(u: Setup, q: nat, early: nat, n: nat, k': Addr)
    requires Counts(u) && Paces(u, q, early) && n < early && k' != Key(u) && InEarlyState(u, q, n, k')
    ensures InEarlyState(u, q, n + 1, k')
  {
    hide ReferenceRun, ReferenceStep, Counts, EarlyState, EarlyEvents, Key;
    EarlyStateNext(u, q, early, n, k', ReferenceRun(u.cfg, EarlyEvents(u.pkt, q, n)));
    EarlyEventsNext(u.pkt, q, n);
    ReferenceSnoc(u.cfg, EarlyEvents(u.pkt, q, n), Event(u.pkt, (n / q) as real));
  }

  lemma {:induction false} ReferenceEarly(u: Setup, q: nat, early: nat, n: nat, k': Addr)
    requires q >= 1 && Counts(u) && Paces(u, q, early) && n <= early && k' != Key(u)
    ensures InEarlyState(u, q, n, k')
    decreases n
  {
    hide *;
    if n == 0 {
      EarlyStarts(u, q, k');
    } else {
      var init: nat := n - 1;
      ReferenceEarly(u, q, early, init, k');
      EarlyGoesOn(u, q, early, init, k');
      assert init + 1 == n;
    }
  }

  /** A packet of another key, whatever the rule makes of it. */
  function Stranger(pkt: Packet): Packet {
    Packet(ZERO_MAC, ZERO_MAC, None, None, None, if pkt.network.NoNetwork? then Arp(0, 0) else NoNetwork, NoTransport,
           false)
  }

  lemma StrangerHasOtherKey(u: Setup)
    ensures TrackingKey(u.rule, Stranger(u.pkt)) != Key(u)
  {
  }

  lemma EarlyFacts(u: Setup, q: nat, early: nat, n: nat)
    requires q >= 1 && Counts(u) && Paces(u, q, early) && n <= early
    ensures var run := ReferenceRun(u.cfg, EarlyEvents(u.pkt, q, n));
            && run.1 == [] && IsLogged(u, run.0.log, Key(u), Early(q, n))
            && run.0.lastCleanup == CleanupAfter(q, n) as real
  {
    hide ReferenceRun, Counts, IsLogged, EarlyEvents, Key, Early, Paces, CleanupAfter;
    StrangerHasOtherKey(u);
    ReferenceEarly(u, q, early, n, TrackingKey(u.rule, Stranger(u.pkt)));
  }

  /** The stranger comes a minute after the first packet, or with the last of the schedule if that is later. */
  function StrangerTime(q: nat, early: nat): nat
    requires q >= 1 && early >= 1
  {
    if (early - 1) / q >= 60 then (early - 1) / q else 60
  }

  function UpToStranger(pkt: Packet, q: nat, early: nat): seq<Event>
    requires q >= 1 && early >= 1
  {
    EarlyEvents(pkt, q, early) + [Event(Stranger(pkt), StrangerTime(q, early) as real)]
  }

  function LateRun(pkt: Packet, q: nat, early: nat, late: Time): seq<Event>
    requires q >= 1 && early >= 1
  {
    UpToStranger(pkt, q, early) + [Event(pkt, late)]
  }

  /** After the stranger the reference engine is still silent and remembers the whole schedule. */
  lemma ReferenceBeforeLast(u: Setup, q: nat, early: nat)
    requires Counts(u) && Paces(u, q, early)
    ensures var run := ReferenceRun(u.cfg, UpToStranger(u.pkt, q, early));
            run.1 == [] && IsLogged(u, run.0.log, Key(u), Early(q, early))
  {
    var events, k' := EarlyEvents(u.pkt, q, early), TrackingKey(u.rule, Stranger(u.pkt));
    var now := StrangerTime(q, early) as real;
    var run := ReferenceRun(u.cfg, events);
    StrangerHasOtherKey(u);
    ReferenceEarly(u, q, early, early, k');
    hide ReferenceRun, ReferenceStep, Counts, IsLogged, EarlyEvents, Paces, Key, Early, Stranger;
    ReferenceSnoc(u.cfg, events, Event(Stranger(u.pkt), now));
    NothingMore(ReferenceStep(u.cfg, run.0, Stranger(u.pkt), now).1);
    ReferenceOther(u, run.0, Stranger(u.pkt), now, Key(u), Early(q, early));
    ReferenceFirstOfKey(u, run.0, Stranger(u.pkt), now);
  }

  // The engine on the schedule: by the last packet the first is forgotten

  function Opens(u: Setup, s: State, k: Addr): Stamps {
    StampsOf(s.opens, u.rule.id, k)
  }

  function Kept(u: Setup, s: State, now: Time, k: Addr): Stamps {
    if TickDue(s, now) then Recent(Opens(u, s, k), now, WINDOW) else Opens(u, s, k)
  }

  lemma ObserveOpens(u: Setup, s: State, pkt: Packet, now: Time, k: Addr)
    ensures Opens(u, Observe(s, pkt, now), k) == Kept(u, s, now, k)
  {
    hide Observe, Recent, StampsOf;
    ObserveCell(s, pkt, now, u.rule.id, k);
  }

  /** What the rule leaves under a key. */
  lemma RuleOpens(u: Setup, o: State, pkt: Packet, now: Time, k: Addr)
    ensures var (o', pending) := EvalRule(u.cfg, o, u.rule, pkt, now);
            var opens := Opens(u, o', k);
            if !Hits(u.cfg, o.conns, u.rule, pkt, u.rule.id, k) then opens == Opens(u, o, k)
            else if pending != [] then opens == []
            else IsFresh(pkt) ==> opens == Recent(Opens(u, o, k) + [now], now, WINDOW)
  {
    hide EvalRule, Recent, Hits, IsFresh, StampsOf;
    EvalRuleCell(u.cfg, o, u.rule, pkt, now, u.rule.id, k);
  }

  /** A step leaves what the rule does, and alerts when it does. */
  lemma StepOpens(u: Setup, s: State, pkt: Packet, now: Time, k: Addr)
    requires u.cfg.rules == [u.rule]
    ensures var (o', pending) := EvalRule(u.cfg, Observe(s, pkt, now), u.rule, pkt, now);
            var (s', alerts) := Step(u.cfg, s, pkt, now);
            Opens(u, s', k) == Opens(u, o', k) && |alerts| == |pending|
  {
    hide EvalRule, Observe, StampsOf, Step;
    StepIsRule(u.cfg, s, u.rule, pkt, now);
  }

  lemma SetupHits(u: Setup, conns: ConnTable)
    requires Counts(u)
    ensures u.cfg.rules == [u.rule] && IsFresh(u.pkt) && Hits(u.cfg, conns, u.rule, u.pkt, u.rule.id, Key(u))
  {
  }

  lemma OtherKeyMisses(u: Setup, conns: ConnTable, pkt: Packet, k: Addr)
    requires TrackingKey(u.rule, pkt) != k
    ensures !Hits(u.cfg, conns, u.rule, pkt, u.rule.id, k)
  {
  }

  /** What a silent step leaves under a key. */
  lemma EngineOpens(u: Setup, s: State, pkt: Packet, now: Time, k: Addr)
    requires Counts(u) && Step(u.cfg, s, pkt, now).1 == []
    ensures var opens := Opens(u, Step(u.cfg, s, pkt, now).0, k);
            && (TrackingKey(u.rule, pkt) != k ==> opens == Kept(u, s, now, k))
            && (pkt == u.pkt && k == Key(u) ==> opens == Recent(Kept(u, s, now, k) + [now], now, WINDOW))
  {
    hide *;
    var o := Observe(s, pkt, now);
    SetupHits(u, o.conns);
    ObserveOpens(u, s, pkt, now, k);
    StepOpens(u, s, pkt, now, k);
    RuleOpens(u, o, pkt, now, k);
    if TrackingKey(u.rule, pkt) != k {
      OtherKeyMisses(u, o.conns, pkt, k);
    }
  }

  lemma OpensWithinLog(u: Setup, s: State, r: Reference, k: Addr, stamps: Stamps)
    requires Dominated(u.cfg, u.rule, s, r) && IsLogged(u, r.log, k, stamps)
    ensures Within(Opens(u, s, k), stamps)
    ensures Within(StampsOf(s.rates, u.rule.id, k), stamps)
  {
    assert DominatedAt(u.cfg, u.rule, s, r.log, k);
  }

  /** The last packet of a silent run, and what holds before it. */
  lemma SilentLast(u: Setup, before: seq<Event>, e: Event)
    requires Counts(u) && ReferenceRun(u.cfg, before + [e]).1 == []
    ensures Dominated(u.cfg, u.rule, After(u.cfg, before), ReferenceRun(u.cfg, before).0)
    ensures Step(u.cfg, After(u.cfg, before), e.pkt, e.now).1 == []
    ensures After(u.cfg, before + [e]) == Step(u.cfg, After(u.cfg, before), e.pkt, e.now).0
  {
    hide ReferenceRun, Run, Step, Counts, Dominated, ReferenceStep;
    ReferenceSnoc(u.cfg, before, e);
    SetupSilent(u, before);
    SetupSilent(u, before + [e]);
    AfterSnoc(u.cfg, before, e);
  }

  /** A packet of the schedule sent after a minute prunes the first. */
  lemma OwnPacketForgets(u: Setup, s: State, r: Reference, q: nat, n: nat)
    requires Counts(u) && Dominated(u.cfg, u.rule, s, r) && q >= 1 && n / q >= 60
    requires IsLogged(u, r.log, Key(u), Early(q, n)) && Step(u.cfg, s, u.pkt, (n / q) as real).1 == []
    ensures |Opens(u, Step(u.cfg, s, u.pkt, (n / q) as real).0, Key(u))| <= n
  {
    var k, now := Key(u), (n / q) as real;
    hide Step, Counts, Dominated, IsLogged, Key, Early, Recent, Within, Opens, Kept, TrackingKey;
    OpensWithinLog(u, s, r, k, Early(q, n));
    EngineOpens(u, s, u.pkt, now, k);
    KeptIsWithin(u, s, now, k, Early(q, n));
    WithinGrows(Kept(u, s, now, k), Early(q, n), now);
    EarlyNext(q, n);
    CountWithinIsSmaller(Kept(u, s, now, k) + [now], Early(q, n + 1), now, WINDOW);
    EarlyPruned(q, n + 1, now);
  }

  lemma KeptIsWithin(u: Setup, s: State, now: Time, k: Addr, stamps: Stamps)
    requires Within(Opens(u, s, k), stamps)
    ensures Within(Kept(u, s, now, k), stamps)
  {
    hide Within, Opens, Recent;
    RecentStaysWithin(Opens(u, s, k), stamps, now, WINDOW);
  }

  /** A cleanup after a minute prunes the first. */
  lemma CleanupForgets(u: Setup, s: State, r: Reference, q: nat, n: nat, now: Time)
    requires Dominated(u.cfg, u.rule, s, r) && q >= 1 && n >= 1 && now >= WINDOW && TickDue(s, now)
    requires IsLogged(u, r.log, Key(u), Early(q, n))
    ensures |Kept(u, s, now, Key(u))| <= n - 1
  {
    hide Dominated, IsLogged, Key, Early, Recent, Within, Opens;
    OpensWithinLog(u, s, r, Key(u), Early(q, n));
    CountWithinIsSmaller(Opens(u, s, Key(u)), Early(q, n), now, WINDOW);
    EarlyPruned(q, n, now);
  }

  lemma KeptIsSmaller(u: Setup, s: State, now: Time, k: Addr)
    ensures |Kept(u, s, now, k)| <= |Opens(u, s, k)|
  {
    hide Recent, Opens;
    RecentShrinks(Opens(u, s, k), now, WINDOW);
  }

  /** If the schedule itself lasts a minute, its last packet prunes the first. */
  lemma LongScheduleForgets(u: Setup, q: nat, early: nat, n: nat)
    requires q >= 1 && Counts(u) && Paces(u, q, early) && n < early && n / q >= 60
    ensures |Opens(u, After(u.cfg, EarlyEvents(u.pkt, q, n + 1)), Key(u))| <= n
  {
    var before, now := EarlyEvents(u.pkt, q, n), (n / q) as real;
    hide *;
    EarlyFacts(u, q, early, n);
    EarlyFacts(u, q, early, n + 1);
    EarlyEventsNext(u.pkt, q, n);
    SilentLast(u, before, Event(u.pkt, now));
    OwnPacketForgets(u, After(u.cfg, before), ReferenceRun(u.cfg, before).0, q, n);
  }

  lemma ScheduleForgets(u: Setup, q: nat, early: nat)
    requires q >= 1 && early >= 1 && Counts(u) && Paces(u, q, early)
    ensures (early - 1) / q >= 60 ==> |Opens(u, After(u.cfg, EarlyEvents(u.pkt, q, early)), Key(u))| <= early - 1
  {
    hide *;
    if (early - 1) / q >= 60 {
      LongScheduleForgets(u, q, early, early - 1);
    }
  }

  /** A cleanup is due at the stranger of a shorter schedule: the last one ran at second 55 or before. */
  lemma StrangerTicks(q: nat, early: nat)
    requires q >= 1 && early >= 1 && (early - 1) / q < 60
    ensures StrangerTime(q, early) == 60 && StrangerTime(q, early) as real - CleanupAfter(q, early) as real >= TICK
  {
  }

  /** The stranger's step leaves nothing of the first packet. */
  lemma StrangerForgets(u: Setup, s: State, r: Reference, q: nat, early: nat)
    requires q >= 1 && early >= 1 && Counts(u) && Dominated(u.cfg, u.rule, s, r)
    requires IsLogged(u, r.log, Key(u), Early(q, early)) && s.lastCleanup == CleanupAfter(q, early) as real
    requires (early - 1) / q >= 60 ==> |Opens(u, s, Key(u))| <= early - 1
    requires Step(u.cfg, s, Stranger(u.pkt), StrangerTime(q, early) as real).1 == []
    ensures |Opens(u, Step(u.cfg, s, Stranger(u.pkt), StrangerTime(q, early) as real).0, Key(u))| <= early - 1
  {
    var now := StrangerTime(q, early) as real;
    assert now >= WINDOW;
    if (early - 1) / q < 60 {
      StrangerTicks(q, early);
    }
    hide Step, Counts, Dominated, IsLogged, Key, Early, Stranger, Opens, Kept, StrangerTime, CleanupAfter;
    StrangerHasOtherKey(u);
    EngineOpens(u, s, Stranger(u.pkt), now, Key(u));
    if (early - 1) / q >= 60 {
      KeptIsSmaller(u, s, now, Key(u));
    } else {
      CleanupForgets(u, s, r, q, early, now);
    }
  }

  lemma UpToStrangerIs(pkt: Packet, q: nat, early: nat)
    requires q >= 1 && early >= 1
    ensures UpToStranger(pkt, q, early)
         == EarlyEvents(pkt, q, early) + [Event(Stranger(pkt), StrangerTime(q, early) as real)]
  {
  }

  lemma SameCleanup(u: Setup, s: State, r: Reference)
    requires Dominated(u.cfg, u.rule, s, r)
    ensures s.lastCleanup == r.lastCleanup
  {
  }

  /** By the time of the last packet, the first is forgotten. */
  lemma FirstIsForgotten(u: Setup, q: nat, early: nat)
    requires q >= 1 && early >= 1 && Counts(u) && Paces(u, q, early)
    ensures |Opens(u, After(u.cfg, UpToStranger(u.pkt, q, early)), Key(u))| <= early - 1
  {
    var before, now := EarlyEvents(u.pkt, q, early), StrangerTime(q, early) as real;
    var s, r := After(u.cfg, before), ReferenceRun(u.cfg, before).0;
    hide *;
    EarlyFacts(u, q, early, early);
    ReferenceBeforeLast(u, q, early);
    UpToStrangerIs(u.pkt, q, early);
    SilentLast(u, before, Event(Stranger(u.pkt), now));
    SameCleanup(u, s, r);
    ScheduleForgets(u, q, early);
    StrangerForgets(u, s, r, q, early);
  }

  // The last packet

  /** The late packet makes the schedule's count, and the limit meets it in the log. */
  lemma LogReachesLimit(u: Setup, q: nat, early: nat, late: Time)
    requires Paces(u, q, early) && late < u.limit.interval
    ensures !IsQuiet(u, Early(q, early) + [late], late)
  {
    hide Recent, Early;
    EarlyAllCounted(q, early, late, u.limit.interval);
    RecentSnoc(Early(q, early), late, late, u.limit.interval);
  }

  /** In its own last second it has little company. */
  lemma LateIsSparse(u: Setup, q: nat, early: nat, g: nat, late: Time)
    requires Paces(u, q, early) && late >= g as real && early < q * g + q
    ensures u.rule.maxRps.Some? ==> |Recent(Early(q, early) + [late], late, 1.0)| < u.rule.maxRps.value
  {
    hide Recent, Early;
    EarlyInLastSecond(q, early, g, late);
    RecentSnoc(Early(q, early), late, late, 1.0);
  }

  /** Few connections and a sparse second raise no alert on the trackers. */
  lemma EngineSilentIf(u: Setup, o: State, now: Time)
    requires Counts(u)
    requires u.rule.maxRps.Some? ==>
               |Recent(StampsOf(o.rates, u.rule.id, Key(u)) + [now], now, 1.0)| < u.rule.maxRps.value
    requires |Recent(Opens(u, o, Key(u)) + [now], now, u.limit.interval)| < u.limit.connections
    ensures EvalRule(u.cfg, o, u.rule, u.pkt, now).1 == []
  {
    var id, k := u.rule.id, Key(u);
    assert IsFresh(u.pkt);
    LimitIsPositive(u);
    hide Counts, Recent, CountRates, CountOpens, StampsOf, Matches, Settle, IsFresh;
    CountAt(o, u.rule, u.pkt, k, now, id, k);
    TriggerByStamps(u.rule, CountRates(o, u.rule, k, now), CountOpens(o, u.rule, u.pkt, k, now), k, now);
  }

  lemma ObserveKeeps(u: Setup, s: State, pkt: Packet, now: Time, k: Addr, stamps: Stamps)
    requires Within(StampsOf(s.rates, u.rule.id, k), stamps)
    ensures Opens(u, Observe(s, pkt, now), k) == Kept(u, s, now, k)
    ensures Within(StampsOf(Observe(s, pkt, now).rates, u.rule.id, k), stamps)
  {
    hide Within, Recent, Observe, StampsOf;
    ObserveCell(s, pkt, now, u.rule.id, k);
    RecentStaysWithin(StampsOf(s.rates, u.rule.id, k), stamps, now, WINDOW);
  }

  /** Having forgotten the first packet, the engine counts one short of the limit. */
  lemma EngineSilentAtLast(u: Setup, s: State, r: Reference, q: nat, early: nat, g: nat, late: Time)
    requires Counts(u) && Paces(u, q, early) && Dominated(u.cfg, u.rule, s, r)
    requires IsLogged(u, r.log, Key(u), Early(q, early)) && |Opens(u, s, Key(u))| <= early - 1
    requires u.rule.maxRps.Some? ==> late >= g as real && early < q * g + q
    ensures Step(u.cfg, s, u.pkt, late).1 == []
  {
    var o, k := Observe(s, u.pkt, late), Key(u);
    var rates, opens := StampsOf(o.rates, u.rule.id, k), Opens(u, o, k);
    LimitIsPositive(u);
    assert u.limit.connections == early + (if u.limit.interval > 0.0 then 1 else 0);
    if u.rule.maxRps.Some? {
      LateIsSparse(u, q, early, g, late);
    }
    hide Counts, Paces, Dominated, IsLogged, Early, Key, Opens, Kept, Within, Recent, Step, Observe, EvalRule, StampsOf;
    OpensWithinLog(u, s, r, k, Early(q, early));
    ObserveKeeps(u, s, u.pkt, late, k, Early(q, early));
    KeptIsSmaller(u, s, late, k);
    WithinGrows(rates, Early(q, early), late);
    CountWithinIsSmaller(rates + [late], Early(q, early) + [late], late, 1.0);
    RecentSnoc(opens, late, late, u.limit.interval);
    RecentShrinks(opens, late, u.limit.interval);
    EngineSilentIf(u, o, late);
    StepIsRule(u.cfg, s, u.rule, u.pkt, late);
  }

  // The clock of the run

  lemma {:induction false} EarlyInOrder(pkt: Packet, q: nat, n: nat)
    requires q >= 1
    ensures forall e :: e in EarlyEvents(pkt, q, n) ==> n >= 1 && e.now <= ((n - 1) / q) as real
    ensures DisorderAtMost(EarlyEvents(pkt, q, n), 0.0)
    decreases n
  {
    if n == 0 {
    } else {
      var init: nat := n - 1;
      EarlyInOrder(pkt, q, init);
      if init >= 1 {
        SecondNext(q, init);
      }
      hide EarlyEvents, DisorderAtMost;
      EarlyEventsNext(pkt, q, init);
      OneMoreInOrder(EarlyEvents(pkt, q, init), Event(pkt, (init / q) as real), 0.0);
    }
  }

  lemma OneMoreInOrder(events: seq<Event>, e: Event, d: Time)
    requires DisorderAtMost(events, d)
    requires forall x :: x in events ==> e.now >= x.now - d
    ensures DisorderAtMost(events + [e], d)
  {
  }

  lemma LateRunIsLate(pkt: Packet, q: nat, early: nat, late: Time, d: Time)
    requires q >= 1 && early >= 1 && d >= 0.0
    requires late >= WINDOW - d && late >= ((early - 1) / q) as real - d
    ensures DisorderAtMost(LateRun(pkt, q, early, late), d)
  {
    EarlyInOrder(pkt, q, early);
    hide EarlyEvents, Stranger;
    var events := EarlyEvents(pkt, q, early);
    assert DisorderAtMost(events, d);
    OneMoreInOrder(events, Event(Stranger(pkt), StrangerTime(q, early) as real), d);
    OneMoreInOrder(UpToStranger(pkt, q, early), Event(pkt, late), d);
  }

  /** On such a run the engine stays silent and the reference engine alerts. */
  lemma LateRunDiffers(u: Setup, q: nat, early: nat, g: nat, late: Time)
    requires Counts(u) && Paces(u, q, early) && late < u.limit.interval
    requires u.rule.maxRps.Some? ==> late >= g as real && early < q * g + q
    ensures Alerts(u.cfg, LateRun(u.pkt, q, early, late)) == []
    ensures ReferenceRun(u.cfg, LateRun(u.pkt, q, early, late)).1 != []
  {
    var before, e := UpToStranger(u.pkt, q, early), Event(u.pkt, late);
    var s, r := After(u.cfg, before), ReferenceRun(u.cfg, before).0;
    assert LateRun(u.pkt, q, early, late) == before + [e];
    hide Counts, Paces, Dominated, IsLogged, IsQuiet, Early, Key, Opens, Step, ReferenceStep, ReferenceRun, Run,
         After, Alerts,
         LateRun, UpToStranger;
    ReferenceBeforeLast(u, q, early);
    FirstIsForgotten(u, q, early);
    SetupSilent(u, before);
    AfterSnoc(u.cfg, before, e);
    ReferenceSnoc(u.cfg, before, e);
    EngineSilentAtLast(u, s, r, q, early, g, late);
    NothingMore(Step(u.cfg, s, u.pkt, late).1);
    LogReachesLimit(u, q, early, late);
    ReferenceHit(u, r, late, Early(q, early));
  }
}
