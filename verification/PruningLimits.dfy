/**
  Exactly when pruning is invisible for a sensor with one rule, whatever its limits and however disordered its clock:
  the conditions of `PruningIsInvisible` are needed but for limits that a single packet reaches, and for a limit
  that no run reaches before the other.
 */
module PruningLimits {
  import opened Prelude
  import opened Packets
  import opened Rules
  import opened EngineSpec
  import opened Windows
  import opened Pruning
  import opened FlowStateRules
  import opened SingleRules
  import opened Lockstep
  import LateRuns
  import ShortRuns

  /** Some packet is counted as a connection; a rule for established flows has none. */
  ghost predicate CountsSomething(cfg: Config, rule: Rule) {
    exists pkt :: IsFresh(pkt) && Matches(cfg, rule, pkt, map[])
  }

  ghost predicate MatchesNothing(cfg: Config, rule: Rule) {
    forall pkt, conns :: !Matches(cfg, rule, pkt, conns)
  }

  /** What invisibility takes of a rule's limits. */
  ghost predicate IsSafe(cfg: Config, rule: Rule, d: Time) {
    || AlertsOnEveryMatch(rule)
    || if SecondFits(rule, d) then IsSafeWithSecond(cfg, rule, d) else IsSafeWithoutSecond(cfg, rule, d)
  }

  /** With the one-second window inside what pruning keeps, the connection limit decides. */
  ghost predicate IsSafeWithSecond(cfg: Config, rule: Rule, d: Time) {
    match rule.maxConnRate
    case None => true
    case Some(limit) =>
      if limit.connections == 0 then OnlyFreshMatch(cfg, rule)
      else
        || limit.interval <= WINDOW - d
        || !CountsSomething(cfg, rule)
        || (limit.connections == 1 && limit.interval > 0.0)
        || IsOutpaced(rule, limit)
  }

  /** With that window cut short, only a connection limit that is always met first is safe. */
  ghost predicate IsSafeWithoutSecond(cfg: Config, rule: Rule, d: Time) {
    || MatchesNothing(cfg, rule)
    || (rule.maxConnRate.Some? && OnlyFreshMatch(cfg, rule)
        && var limit := rule.maxConnRate.value;
           || limit.connections == 0
           || (limit.connections == 1 && limit.interval > 0.0)
           || IsPreempted(rule, limit, d))
  }

  // When one of them applies

  /** Conversely, a counted packet that matches once the table reflects it matches on the empty table. */
  lemma FreshMatchesEmpty(cfg: Config, rule: Rule, pkt: Packet, conns: ConnTable)
    requires IsFresh(pkt) && Updated(conns, pkt) && Matches(cfg, rule, pkt, conns)
    ensures Matches(cfg, rule, pkt, map[])
  {
    if rule.flowState == EstablishedState {
      EstablishedIsNotFresh(cfg, conns, rule, pkt);
    }
  }

  lemma SmallLimitsKeepNothing(cfg: Config, rule: Rule, limit: ConnLimit, d: Time)
    requires rule.maxConnRate == Some(limit) && SecondFits(rule, d)
    requires || (limit.connections == 0 && OnlyFreshMatch(cfg, rule))
             || (limit.connections == 1 && limit.interval > 0.0)
             || (limit.connections >= 1 && !CountsSomething(cfg, rule))
    ensures Holds(KeepsNothing, cfg, rule, d)
  {
    forall pkt, conns | Updated(conns, pkt) && Matches(cfg, rule, pkt, conns) ensures EmptiesOn(limit, pkt) {
      if IsFresh(pkt) {
        FreshMatchesEmpty(cfg, rule, pkt, conns);
      }
    }
  }

  lemma IntervalFits(cfg: Config, rule: Rule, d: Time)
    requires cfg.rules == [rule] && SecondFits(rule, d)
    requires rule.maxConnRate.Some? ==>
               rule.maxConnRate.value.connections >= 1 && rule.maxConnRate.value.interval <= WINDOW - d
    ensures WindowsFit(cfg, cfg.rules, d)
  {
  }

  lemma SafeWithSecond(cfg: Config, rule: Rule, d: Time)
    requires cfg.rules == [rule] && d >= 0.0 && SecondFits(rule, d) && IsSafeWithSecond(cfg, rule, d)
    ensures PruningInvisible(cfg, d)
  {
    hide OnlyFreshMatch, DisorderAtMost, Alerts, ReferenceRun, WindowsFit, CountsSomething, Holds, Begun;
    if rule.maxConnRate.None?
       || (rule.maxConnRate.value.connections >= 1 && rule.maxConnRate.value.interval <= WINDOW - d)
    {
      IntervalFits(cfg, rule, d);
      forall events | DisorderAtMost(events, d) ensures Alerts(cfg, events) == ReferenceRun(cfg, events).1 {
        PruningIsInvisible(cfg, events, d);
      }
    } else if IsOutpaced(rule, rule.maxConnRate.value) {
      OutpacedHolds(cfg, rule, d);
      InvisibleBecause(OutOfReach, cfg, rule, d);
    } else {
      SmallLimitsKeepNothing(cfg, rule, rule.maxConnRate.value, d);
      InvisibleBecause(KeepsNothing, cfg, rule, d);
    }
  }

  lemma OutpacedHolds(cfg: Config, rule: Rule, d: Time)
    requires rule.maxConnRate.Some? && IsOutpaced(rule, rule.maxConnRate.value) && SecondFits(rule, d)
    ensures Holds(OutOfReach, cfg, rule, d)
  {
  }

  lemma SafeWithoutSecond(cfg: Config, rule: Rule, d: Time)
    requires cfg.rules == [rule] && d >= 0.0
    requires AlertsOnEveryMatch(rule) || IsSafeWithoutSecond(cfg, rule, d)
    ensures PruningInvisible(cfg, d)
  {
    if rule.maxConnRate.Some? && IsPreempted(rule, rule.maxConnRate.value, d) && OnlyFreshMatch(cfg, rule) {
      assert Holds(PerSecondOutOfReach, cfg, rule, d);
      InvisibleBecause(PerSecondOutOfReach, cfg, rule, d);
    } else {
      assert FiresAlways(cfg, rule);
      InvisibleBecause(FiresAtOnce, cfg, rule, d);
    }
  }

  lemma SafeIsInvisible(cfg: Config, rule: Rule, d: Time)
    requires cfg.rules == [rule] && d >= 0.0 && IsSafe(cfg, rule, d)
    ensures PruningInvisible(cfg, d)
  {
    hide PruningInvisible, IsSafeWithSecond, IsSafeWithoutSecond, AlertsOnEveryMatch;
    if !AlertsOnEveryMatch(rule) && SecondFits(rule, d) {
      SafeWithSecond(cfg, rule, d);
    } else {
      SafeWithoutSecond(cfg, rule, d);
    }
  }

  // A limit of zero

  /** The SYN-ACK on the same addresses and ports. */
  function SynAckOf(pkt: Packet): Packet
    requires pkt.transport.Tcp?
  {
    pkt.(transport := pkt.transport.(flags := 0x12))
  }

  /** A rule that matches an uncounted packet matches the SYN-ACK of its connection, whatever came before. */
  lemma SynAckMatches(cfg: Config, rule: Rule, pkt: Packet, conns: ConnTable, before: ConnTable, now: Time)
    requires Matches(cfg, rule, pkt, conns) && (!IsFresh(pkt) || rule.flowState == EstablishedState)
    ensures pkt.transport.Tcp?
    ensures var reply := SynAckOf(pkt);
            !IsFresh(reply) && Matches(cfg, rule, reply, UpdateConns(before, reply, now))
  {
    var reply := SynAckOf(pkt);
    assert IsSynAck(reply) && KeyOf(reply) == KeyOf(pkt);
    forall p | p in rule.protocols ensures ProtocolMatches(p, pkt) <==> ProtocolMatches(p, reply) {
    }
  }

  lemma VisibleOn(cfg: Config, d: Time, events: seq<Event>)
    requires DisorderAtMost(events, d) && Alerts(cfg, events) != ReferenceRun(cfg, events).1
    ensures !PruningInvisible(cfg, d)
  {
  }

  /**
    With a limit of zero the engine compares it only when the key has an entry, while zero packets already
    reach the limit of the reference engine: what matches without being counted tells them apart.
   */
  lemma ZeroLimitShows(cfg: Config, rule: Rule, limit: ConnLimit, d: Time)
    requires cfg.rules == [rule] && rule.maxConnRate == Some(limit) && limit.connections == 0
    requires !AlertsOnEveryMatch(rule) && !OnlyFreshMatch(cfg, rule)
    ensures !PruningInvisible(cfg, d)
  {
    hide Matches, Alerts, ReferenceRun;
    var pkt, conns :| Matches(cfg, rule, pkt, conns) && !IsFresh(pkt);
    SynAckMatches(cfg, rule, pkt, conns, map[], 0.0);
    ZeroLimitDiffers(cfg, rule, limit, SynAckOf(pkt));
    VisibleOn(cfg, d, [Event(SynAckOf(pkt), 0.0)]);
  }

  /** One packet that is not counted but matches on first sight: the engine is silent and the reference alerts. */
  lemma ZeroLimitDiffers(cfg: Config, rule: Rule, limit: ConnLimit, pkt: Packet)
    requires cfg.rules == [rule] && rule.maxConnRate == Some(limit) && limit.connections == 0
    requires !AlertsOnEveryMatch(rule)
    requires !IsFresh(pkt) && Matches(cfg, rule, pkt, UpdateConns(map[], pkt, 0.0))
    ensures Alerts(cfg, [Event(pkt, 0.0)]) == [] && ReferenceRun(cfg, [Event(pkt, 0.0)]).1 != []
  {
    hide Matches, Run, ReferenceRun, Step, ReferenceStep, UpdateConns;
    var e := Event(pkt, 0.0);
    EngineIsSilent(cfg, rule, pkt);
    ReferenceAlerts(cfg, rule, limit, pkt);
    RunEmpty(cfg, INITIAL);
    RunSnoc(cfg, INITIAL, [], e);
    ReferenceEmpty(cfg);
    ReferenceSnoc(cfg, [], e);
    assert [] + [e] == [e];
  }

  lemma EngineIsSilent(cfg: Config, rule: Rule, pkt: Packet)
    requires cfg.rules == [rule] && !AlertsOnEveryMatch(rule) && !IsFresh(pkt)
    ensures Step(cfg, INITIAL, pkt, 0.0).1 == []
  {
    var o, k := Observe(INITIAL, pkt, 0.0), TrackingKey(rule, pkt);
    assert o.opens == map[] && StampsOf(o.rates, rule.id, k) == [] && [] + [0.0] == [0.0];
    hide Matches, Observe, Recent, Step, Conclude;
    StepIsRule(cfg, INITIAL, rule, pkt, 0.0);
    PushAt(o.rates, rule.id, k, 0.0, rule.id, k);
    RecentOfOne(0.0, 0.0, 1.0);
    assert EvalRule(cfg, o, rule, pkt, 0.0).1 == [];
    NothingConcluded(0, EvalRule(cfg, o, rule, pkt, 0.0));
  }

  lemma NothingConcluded(counter: nat, evaluated: (State, seq<Pending>))
    ensures Conclude(counter, evaluated).1 == [] <==> evaluated.1 == []
  {
  }

  lemma ReferenceAlerts(cfg: Config, rule: Rule, limit: ConnLimit, pkt: Packet)
    requires cfg.rules == [rule] && rule.maxConnRate == Some(limit) && limit.connections == 0
    requires Matches(cfg, rule, pkt, UpdateConns(map[], pkt, 0.0))
    ensures ReferenceStep(cfg, START, pkt, 0.0).1 != []
  {
    var conns := ConnsOf(START, pkt, 0.0);
    assert Matches(cfg, rule, pkt, conns);
    hide Matches, UpdateConns, Recent, Since, ReferenceStep, ConnsOf;
    ReferenceStepIsRule(cfg, START, rule, pkt, 0.0);
    assert LogRule(cfg, conns, START.log, rule, pkt, 0.0).1 != [];
  }

  // A run on which pruning shows

  /** What a rule makes of a counted packet does not depend on the connection table. */
  lemma FreshMatchesAlways(cfg: Config, rule: Rule, pkt: Packet)
    requires IsFresh(pkt) && Matches(cfg, rule, pkt, map[])
    ensures forall conns :: Matches(cfg, rule, pkt, conns)
  {
  }

  lemma QuotientBelow(a: nat, q: nat, g: nat)
    requires q >= 1 && a < q * g + q
    ensures a / q <= g
  {
    LateRuns.SecondBegun(q, a, g + 1);
    assert q * (g + 1) == q * g + q;
  }

  lemma LateEnough(q: nat, early: nat, g: nat, late: Time, d: Time)
    requires q >= 1 && 1 <= early <= q * g + q && late >= g as real - d
    ensures late >= ((early - 1) / q) as real - d
  {
    QuotientBelow(early - 1, q, g);
  }

  lemma PacesIsPositive(u: LateRuns.Setup, q: nat, early: nat)
    requires LateRuns.Paces(u, q, early)
    ensures q >= 1 && early >= 1
  {
  }

  lemma LateRunShows(u: LateRuns.Setup, q: nat, early: nat, g: nat, late: Time, d: Time)
    requires LateRuns.Counts(u) && LateRuns.Paces(u, q, early) && late < u.limit.interval
    requires early <= q * g + q && (u.rule.maxRps.Some? ==> late >= g as real && early < q * g + q)
    requires d >= 0.0 && late >= WINDOW - d && late >= g as real - d
    ensures !PruningInvisible(u.cfg, d)
  {
    PacesIsPositive(u, q, early);
    hide *;
    LateEnough(q, early, g, late, d);
    LateRuns.LateRunDiffers(u, q, early, g, late);
    LateRuns.LateRunIsLate(u.pkt, q, early, late, d);
    VisibleOn(u.cfg, d, LateRuns.LateRun(u.pkt, q, early, late));
  }

  /** Without a per-second limit all packets but the last can come at once. */
  lemma UnpacedShows(u: LateRuns.Setup, d: Time)
    requires LateRuns.Counts(u) && u.rule.maxRps.None? && d >= 0.0 && u.limit.interval > WINDOW - d
    ensures !PruningInvisible(u.cfg, d)
  {
    var n: nat := u.limit.connections;
    var early: nat := if u.limit.interval > 0.0 then n - 1 else n;
    assert n * 0 == 0;
    LateRunShows(u, n, early, 0, WINDOW - d, d);
  }

  lemma SecondsBegun(interval: Time)
    requires interval > 0.0
    ensures Begun(interval, 1.0) >= 1 && (Begun(interval, 1.0) - 1) as real < interval
  {
    hide Begun, EndToEnd;
    BegunCovers(interval, 1.0);
    WindowsByProduct(Begun(interval, 1.0) - 1, 1.0);
  }

  /** With one, they are spread over the seconds that begin before the interval ends. */
  lemma PacedShows(u: LateRuns.Setup, d: Time)
    requires LateRuns.Counts(u) && u.rule.maxRps.Some? && 0.0 <= d <= WINDOW - 1.0 && u.limit.interval > WINDOW - d
    requires u.rule.maxRps.value >= 2 && !IsOutpaced(u.rule, u.limit)
    ensures !PruningInvisible(u.cfg, d)
  {
    SecondsBegun(u.limit.interval);
    var q: nat, early: nat := u.rule.maxRps.value - 1, u.limit.connections - 1;
    var seconds: nat := Begun(u.limit.interval, 1.0);
    var g: nat := seconds - 1;
    hide Begun;
    assert q * g + q == q * seconds;
    var late := if WINDOW - d >= g as real then WINDOW - d else g as real;
    LateRunShows(u, q, early, g, late, d);
  }

  lemma UnsafeWithSecond(cfg: Config, rule: Rule, d: Time)
    requires cfg.rules == [rule] && d >= 0.0 && SecondFits(rule, d)
    requires !AlertsOnEveryMatch(rule) && !IsSafeWithSecond(cfg, rule, d)
    ensures !PruningInvisible(cfg, d)
  {
    var limit := rule.maxConnRate.value;
    hide Matches, PruningInvisible, OnlyFreshMatch, IsOutpaced;
    if limit.connections == 0 {
      ZeroLimitShows(cfg, rule, limit, d);
    } else {
      var pkt :| IsFresh(pkt) && Matches(cfg, rule, pkt, map[]);
      FreshMatchesAlways(cfg, rule, pkt);
      var u := LateRuns.Setup(cfg, rule, limit, pkt);
      assert LateRuns.Counts(u);
      if rule.maxRps.None? {
        UnpacedShows(u, d);
      } else {
        PacedShows(u, d);
      }
    }
  }

  // Beyond 59 seconds the one-second window shows pruning

  lemma AtOnceShows(u: ShortRuns.Target, n: nat, d: Time)
    requires ShortRuns.AlwaysHits(u) && d >= 0.0 && ShortRuns.AtOnce(u, n, WINDOW - d)
    ensures !PruningInvisible(u.cfg, d)
  {
    hide *;
    ShortRuns.AtOnceDiffers(u, n, WINDOW - d, d);
    VisibleOn(u.cfg, d, ShortRuns.ShortRun(u.pkt, ShortRuns.Zeros(n), WINDOW - d));
  }

  lemma SpreadShows(u: ShortRuns.Target, q: nat, early: nat, step: Time, g: nat, d: Time)
    requires ShortRuns.AlwaysHits(u) && ShortRuns.SpreadOut(u, q, early, step) && g == (early - 1) / q
    requires WINDOW <= EndToEnd(g, step) < 1.0 + d && d >= 0.0
    ensures !PruningInvisible(u.cfg, d)
  {
    hide *;
    var late := EndToEnd(g, step) - d;
    ShortRuns.SpreadOutMeans(u, q, early, step);
    ShortRuns.SpreadRunDiffers(u, q, early, step, g, late);
    ShortRuns.SpreadRunIsLate(u.pkt, q, early, step, g, late, d);
    VisibleOn(u.cfg, d, ShortRuns.SpreadRun(u.pkt, q, early, step, late));
  }

  lemma Divide(length: Time, g: nat)
    requires g >= 1
    ensures g as real * (length / g as real) == length
  {
  }

  function Wider(a: Time, b: Time): Time {
    if a >= b then a else b
  }

  /** Steps of an interval or more take a minute, and no more than those of the interval do. */
  lemma StepFits(interval: Time, g: nat, d: Time)
    requires interval > 0.0 && g >= 1 && d > WINDOW - 1.0 && EndToEnd(g, interval) < 1.0 + d
    ensures WINDOW <= EndToEnd(g, Wider(interval, WINDOW / g as real)) < 1.0 + d
  {
    var x := WINDOW / g as real;
    hide EndToEnd;
    WindowsByProduct(g, interval);
    WindowsByProduct(g, x);
    Divide(WINDOW, g);
    if interval >= x {
      ProductOrder(g, x, interval);
    }
  }

  lemma ProductOrder(g: nat, a: Time, b: Time)
    requires a <= b
    ensures g as real * a <= g as real * b
  {
  }

  /** The steps begun by packets sent `q` at a time end before the span they fit. */
  lemma StepsFit(q: nat, early: nat, interval: Time, d: Time, g: nat)
    requires q >= 1 && early >= 1 && g == (early - 1) / q && interval > 0.0 && d >= 0.0
    requires early <= q * Begun(1.0 + d, interval)
    ensures EndToEnd(g, interval) < 1.0 + d
  {
    hide Begun, EndToEnd;
    BegunCovers(1.0 + d, interval);
    var k: nat := Begun(1.0 + d, interval) - 1;
    assert q * (k + 1) == q * k + q;
    QuotientBelow(early - 1, q, k);
    ShortRuns.EndToEndGrows(g, k, interval);
  }

  lemma SecondStepBegun(q: nat, early: nat)
    requires q >= 1 && early >= q + 1
    ensures (early - 1) / q >= 1
  {
    ShortRuns.QuotientGrows(q, early - 1, q);
  }

  /** Where the per-second limit can still be met, packets sent `n - 1` at a time meet it over a minute. */
  lemma UnpreemptedShows(u: ShortRuns.Target, limit: ConnLimit, d: Time)
    requires ShortRuns.AlwaysHits(u) && d > WINDOW - 1.0 && IsFresh(u.pkt) && u.rule.maxConnRate == Some(limit)
    requires 0.0 < limit.interval <= WINDOW - d && 2 <= limit.connections < u.rule.maxRps.value
    requires !IsPreempted(u.rule, limit, d)
    ensures !PruningInvisible(u.cfg, d)
  {
    var q: nat, early: nat := limit.connections - 1, u.rule.maxRps.value - 1;
    assert early <= q * Begun(1.0 + d, limit.interval);
    hide Begun, EndToEnd, ShortRuns.AlwaysHits, IsFresh, PruningInvisible;
    SecondStepBegun(q, early);
    var g: nat := (early - 1) / q;
    var step := Wider(limit.interval, WINDOW / g as real);
    StepsFit(q, early, limit.interval, d, g);
    StepFits(limit.interval, g, d);
    SpreadShows(u, q, early, step, g, d);
  }

  /** A packet that is always hit, and counted only if every match is. */
  lemma TargetExists(cfg: Config, rule: Rule) returns (u: ShortRuns.Target)
    requires cfg.rules == [rule] && !MatchesNothing(cfg, rule) && rule.maxRps.Some? && rule.maxRps.value >= 2
    requires rule.maxConnRate.Some? ==> rule.maxConnRate.value.connections >= 1
    ensures u.cfg == cfg && u.rule == rule && ShortRuns.AlwaysHits(u) && (IsFresh(u.pkt) ==> OnlyFreshMatch(cfg, rule))
  {
    hide Matches, IsFresh, UpdateConns;
    if OnlyFreshMatch(cfg, rule) {
      var pkt, conns :| Matches(cfg, rule, pkt, conns);
      AlwaysMatches(cfg, rule, pkt, conns);
      u := ShortRuns.Target(cfg, rule, pkt);
    } else {
      var pkt, conns :| Matches(cfg, rule, pkt, conns) && !IsFresh(pkt);
      SynAckMatches(cfg, rule, pkt, conns, map[], 0.0);
      forall before, now: Time ensures Matches(cfg, rule, SynAckOf(pkt), UpdateConns(before, SynAckOf(pkt), now)) {
        SynAckMatches(cfg, rule, pkt, conns, before, now);
      }
      u := ShortRuns.Target(cfg, rule, SynAckOf(pkt));
    }
  }

  lemma AlwaysMatches(cfg: Config, rule: Rule, pkt: Packet, conns: ConnTable)
    requires Matches(cfg, rule, pkt, conns) && OnlyFreshMatch(cfg, rule)
    ensures forall before, now: Time :: Matches(cfg, rule, pkt, UpdateConns(before, pkt, now))
  {
    if rule.flowState == EstablishedState {
      SynAckMatches(cfg, rule, pkt, conns, map[], 0.0);
    }
  }

  lemma UnsafeWithoutSecond(cfg: Config, rule: Rule, d: Time)
    requires cfg.rules == [rule] && !SecondFits(rule, d)
    requires !AlertsOnEveryMatch(rule) && !IsSafeWithoutSecond(cfg, rule, d)
    ensures !PruningInvisible(cfg, d)
  {
    hide PruningInvisible, OnlyFreshMatch, MatchesNothing, IsPreempted, IsFresh, ShortRuns.AlwaysHits;
    if rule.maxConnRate.Some? && rule.maxConnRate.value.connections == 0 {
      ZeroLimitShows(cfg, rule, rule.maxConnRate.value, d);
    } else {
      var u := TargetExists(cfg, rule);
      var all: nat := rule.maxRps.value - 1;
      if rule.maxConnRate.None? || !IsFresh(u.pkt) || rule.maxConnRate.value.interval <= 0.0
         || rule.maxConnRate.value.connections > all
      {
        AtOnceShows(u, all, d);
      } else if rule.maxConnRate.value.interval > WINDOW - d {
        AtOnceShows(u, rule.maxConnRate.value.connections - 1, d);
      } else {
        UnpreemptedShows(u, rule.maxConnRate.value, d);
      }
    }
  }

  lemma UnsafeIsVisible(cfg: Config, rule: Rule, d: Time)
    requires cfg.rules == [rule] && d >= 0.0 && !IsSafe(cfg, rule, d)
    ensures !PruningInvisible(cfg, d)
  {
    hide PruningInvisible, IsSafeWithSecond, IsSafeWithoutSecond, AlertsOnEveryMatch;
    if SecondFits(rule, d) {
      UnsafeWithSecond(cfg, rule, d);
    } else {
      UnsafeWithoutSecond(cfg, rule, d);
    }
  }

  /** The exact boundary for every sensor with one rule, on clocks disordered by at most `d`. */
  lemma PruningInvisibleIff(cfg: Config, rule: Rule, d: Time)
    requires cfg.rules == [rule] && d >= 0.0
    ensures PruningInvisible(cfg, d) <==> IsSafe(cfg, rule, d)
  {
    hide PruningInvisible, IsSafe;
    if IsSafe(cfg, rule, d) {
      SafeIsInvisible(cfg, rule, d);
    } else {
      UnsafeIsVisible(cfg, rule, d);
    }
  }

  // Every case of the boundary occurs

  /** A rule that matches everything. */
  function CatchAll(maxConnRate: Option<ConnLimit>, maxRps: Option<u32>): Rule {
    Rule(1, ["any"], AnyDirection, AnyAddr, AnyAddr, {4, 6}, AnyState, OtherClass, [AnyProto], AnyPort, AnyPort,
         maxConnRate, maxRps)
  }

  /** The same, for new flows only: it counts every match. */
  function NewOnly(maxConnRate: Option<ConnLimit>, maxRps: Option<u32>): Rule {
    CatchAll(maxConnRate, maxRps).(flowState := NewState)
  }

  /** A segment from 10.0.0.1 to 10.0.0.2. */
  function TcpPacket(flags: nat): Packet {
    Packet(ZERO_MAC, ZERO_MAC, None, None, None, Ipv4(0x0A00_0001, 0x0A00_0002), Tcp(1, 2, flags), false)
  }

  /**
    For any limits, a catch-all rule counts a SYN and matches an uncounted FIN; restricted to new flows it
    matches only what it counts.
   */
  lemma EveryCaseOccurs(maxConnRate: Option<ConnLimit>, maxRps: Option<u32>)
    ensures var rule := CatchAll(maxConnRate, maxRps);
            var cfg := Config("eth0", {}, [rule]);
            && CountsSomething(cfg, rule) && !OnlyFreshMatch(cfg, rule)
            && !IsFresh(TcpPacket(0x001))
            && Matches(cfg, rule, TcpPacket(0x001), UpdateConns(map[], TcpPacket(0x001), 0.0))
    ensures var rule := NewOnly(maxConnRate, maxRps);
            var cfg := Config("eth0", {}, [rule]);
            CountsSomething(cfg, rule) && OnlyFreshMatch(cfg, rule)
  {
    var any, fresh_ := CatchAll(maxConnRate, maxRps), NewOnly(maxConnRate, maxRps);
    var syn, fin := TcpPacket(0x002), TcpPacket(0x001);
    assert "any" in any.scope && AnyProto in any.protocols;
    assert ProtocolMatches(AnyProto, syn) && ProtocolMatches(AnyProto, fin);
    assert IsFresh(syn) && Matches(Config("eth0", {}, [any]), any, syn, map[]);
    assert !IsFresh(fin) && Matches(Config("eth0", {}, [any]), any, fin, map[]);
    assert Matches(Config("eth0", {}, [fresh_]), fresh_, syn, map[]);
  }
  /** New flows only, at most one connection per half second, and `m` packets per second. */
  function HalfSecond(m: u32): Rule {
    NewOnly(Some(ConnLimit(PerSrc, 2, 0.5)), Some(m))
  }

  lemma HalfSecondsBegun()
    ensures Begun(60.5, 0.5) == 121
  {
  }

  /**
    On clocks up to 59.5 seconds out of order, pruning changes what such a rule reports with a limit of 122,
    and nothing with 123.
   */
  lemma BothSidesBeyond()
    ensures PruningInvisible(Config("eth0", {}, [HalfSecond(123)]), 59.5)
    ensures !PruningInvisible(Config("eth0", {}, [HalfSecond(122)]), 59.5)
  {
    hide PruningInvisible, Matches, Begun, CountsSomething, OnlyFreshMatch, MatchesNothing;
    HalfSecondsBegun();
    forall m: u32 | m == 122 || m == 123
      ensures var cfg := Config("eth0", {}, [HalfSecond(m)]); PruningInvisible(cfg, 59.5) <==> m == 123
    {
      var cfg := Config("eth0", {}, [HalfSecond(m)]);
      EveryCaseOccurs(Some(ConnLimit(PerSrc, 2, 0.5)), Some(m));
      SomethingMatches(cfg, HalfSecond(m));
      PruningInvisibleIff(cfg, HalfSecond(m), 59.5);
    }
  }

  lemma SomethingMatches(cfg: Config, rule: Rule)
    requires CountsSomething(cfg, rule)
    ensures !MatchesNothing(cfg, rule)
  {
  }
}
