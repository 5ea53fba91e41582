/**
  Why the two engines can agree on every run although limits reach beyond what pruning keeps: a few reasons, each of
  which keeps the trackers and the log in step.
 */
module Lockstep {
  import opened Prelude
  import opened Packets
  import opened Rules
  import opened EngineSpec
  import opened Windows
  import opened Pruning
  import opened FlowStateRules
  import opened SingleRules

  /** On every run of disorder at most `d` the engine raises the alerts of the engine that never prunes. */
  ghost predicate PruningInvisible(cfg: Config, d: Time) {
    forall events :: DisorderAtMost(events, d) ==> Alerts(cfg, events) == ReferenceRun(cfg, events).1
  }

  /** The per-second limit is reached by every single packet. */
  predicate AlertsOnEveryMatch(rule: Rule) {
    rule.maxRps.Some? && rule.maxRps.value <= 1
  }

  /** The per-second limit is reached before the connection limit can be: too few packets fit the interval. */
  predicate IsOutpaced(rule: Rule, limit: ConnLimit) {
    && rule.maxRps.Some? && rule.maxRps.value >= 1 && limit.interval > 0.0
    && limit.connections > (rule.maxRps.value - 1) * Begun(limit.interval, 1.0)
  }

  /**
    The connection limit is reached before the per-second limit can be, even by a packet that comes `d` late and
    counts all that was stamped since a second before it.
   */
  predicate IsPreempted(rule: Rule, limit: ConnLimit, d: Time) {
    && rule.maxRps.Some? && limit.connections >= 1 && d >= 0.0 && 0.0 < limit.interval <= WINDOW - d
    && rule.maxRps.value > (limit.connections - 1) * Begun(1.0 + d, limit.interval) + 1
  }

  /** The one-second window lies inside what pruning keeps. */
  predicate SecondFits(rule: Rule, d: Time) {
    rule.maxRps.Some? ==> d <= WINDOW - 1.0
  }

  // Pairs of trackers and logs that stay in step

  /** The trackers of one key, and the log's packets for it: all of them, and those counted as connections. */
  datatype Pair = Pair(cell: Cell, all: Stamps, counted: Stamps)

  function PairOf(s: State, log: seq<Entry>, id: u32, k: Addr): Pair {
    Pair(CellOf(s, id, k), Since(log, id, k, false), Since(log, id, k, true))
  }

  function Grown(p: Pair, pkt: Packet, now: Time): Pair {
    Pair(Extended(p.cell, pkt, now), p.all + [now], if IsFresh(pkt) then p.counted + [now] else p.counted)
  }

  /**
    Why the limits give both engines the same verdict: nothing is ever kept for the connection limit, or it is out
    of reach; every match alerts at once; or the per-second limit is out of reach.
   */
  datatype Reason = KeepsNothing | OutOfReach | FiresAtOnce | PerSecondOutOfReach

  /** A packet that is counted alerts at once, and one that is not never does on an empty count. */
  ghost predicate Empties(cfg: Config, rule: Rule) {
    && rule.maxConnRate.Some?
    && forall pkt, conns :: Updated(conns, pkt) && Matches(cfg, rule, pkt, conns) ==>
         EmptiesOn(rule.maxConnRate.value, pkt)
  }

  predicate EmptiesOn(limit: ConnLimit, pkt: Packet) {
    if IsFresh(pkt) then limit.connections <= if limit.interval > 0.0 then 1 else 0 else limit.connections >= 1
  }

  ghost predicate FiresAlways(cfg: Config, rule: Rule) {
    forall pkt, conns :: Updated(conns, pkt) && Matches(cfg, rule, pkt, conns) ==> FiresOn(rule, pkt)
  }

  /** A packet of which one reaches a limit. */
  predicate FiresOn(rule: Rule, pkt: Packet) {
    || AlertsOnEveryMatch(rule)
    || (rule.maxConnRate.Some? && IsFresh(pkt)
        && rule.maxConnRate.value.connections <= if rule.maxConnRate.value.interval > 0.0 then 1 else 0)
  }

  ghost predicate CountsAll(cfg: Config, rule: Rule) {
    forall pkt, conns :: Updated(conns, pkt) && Matches(cfg, rule, pkt, conns) ==> IsFresh(pkt)
  }

  ghost predicate Holds(why: Reason, cfg: Config, rule: Rule, d: Time) {
    match why
    case KeepsNothing => Empties(cfg, rule) && SecondFits(rule, d)
    case OutOfReach => rule.maxConnRate.Some? && IsOutpaced(rule, rule.maxConnRate.value) && SecondFits(rule, d)
    case FiresAtOnce => FiresAlways(cfg, rule)
    case PerSecondOutOfReach =>
      rule.maxConnRate.Some? && CountsAll(cfg, rule) && IsPreempted(rule, rule.maxConnRate.value, d)
  }

  /** Sparse for the rule's connection limit, and no later than the horizon. */
  ghost predicate IsSpaced(rule: Rule, stamps: Stamps, horizon: Time) {
    && rule.maxConnRate.Some?
    && Sparse(stamps, rule.maxConnRate.value.connections, rule.maxConnRate.value.interval)
    && forall t :: t in stamps ==> t <= horizon
  }

  ghost predicate SameRecent(a: Stamps, b: Stamps, horizon: Time) {
    Recent(a, horizon, WINDOW) == Recent(b, horizon, WINDOW)
  }

  ghost predicate InStep(why: Reason, rule: Rule, p: Pair, horizon: Time) {
    && SameRecent(p.cell.rates, p.all, horizon)
    && match why
       case KeepsNothing => p.cell.opens == [] && p.counted == []
       case OutOfReach =>
         && rule.maxRps.Some?
         && Sparse(p.cell.rates, rule.maxRps.value, 1.0) && Within(p.cell.opens, p.cell.rates)
         && Sparse(p.all, rule.maxRps.value, 1.0) && Within(p.counted, p.all)
       case FiresAtOnce => p == Pair(Cell([], []), [], [])
       case PerSecondOutOfReach =>
         && p.cell.opens == p.cell.rates && IsSpaced(rule, p.cell.rates, horizon)
         && p.counted == p.all && IsSpaced(rule, p.all, horizon)
  }

  lemma EmptyInStep(why: Reason, rule: Rule, horizon: Time)
    requires why.OutOfReach? ==> rule.maxRps.Some?
    requires why.PerSecondOutOfReach? ==> rule.maxConnRate.Some?
    ensures InStep(why, rule, Pair(Cell([], []), [], []), horizon)
  {
  }

  lemma SameRecentGrows(a: Stamps, b: Stamps, t: Time, horizon: Time)
    requires SameRecent(a, b, horizon)
    ensures SameRecent(a + [t], b + [t], horizon)
  {
    RecentSnoc(a, t, horizon, WINDOW);
    RecentSnoc(b, t, horizon, WINDOW);
  }

  lemma RaiseKeepsStep(why: Reason, rule: Rule, p: Pair, horizon: Time, horizon': Time)
    requires InStep(why, rule, p, horizon) && horizon <= horizon'
    ensures InStep(why, rule, p, horizon')
  {
    CountsAgree(p.cell.rates, p.all, horizon, horizon', WINDOW);
  }

  lemma PruneKeepsSpaced(rule: Rule, stamps: Stamps, horizon: Time, now: Time)
    requires IsSpaced(rule, stamps, horizon)
    ensures IsSpaced(rule, Recent(stamps, now, WINDOW), horizon)
  {
    var limit := rule.maxConnRate.value;
    hide Recent, Within, Sparse;
    WithinItself(stamps);
    RecentStaysWithin(stamps, stamps, now, WINDOW);
    SparseWithin(Recent(stamps, now, WINDOW), stamps, limit.connections, limit.interval);
    RecentShrinks(stamps, now, WINDOW);
  }

  lemma PruneKeepsStep(why: Reason, rule: Rule, p: Pair, horizon: Time, now: Time)
    requires InStep(why, rule, p, horizon) && now <= horizon
    ensures InStep(why, rule, p.(cell := Pruned(p.cell, now)), horizon)
  {
    assert Recent([], now, WINDOW) == [];
    hide Recent, Within, Sparse;
    RecentTwice(p.cell.rates, now, WINDOW, horizon, WINDOW);
    if why.OutOfReach? {
      WithinItself(p.cell.rates);
      RecentStaysWithin(p.cell.rates, p.cell.rates, now, WINDOW);
      SparseWithin(Recent(p.cell.rates, now, WINDOW), p.cell.rates, rule.maxRps.value, 1.0);
      WithinRecent(p.cell.opens, p.cell.rates, now, WINDOW);
    }
    if why.PerSecondOutOfReach? {
      PruneKeepsSpaced(rule, p.cell.rates, horizon, now);
    }
  }

  /** Without a per-second limit reached, only the counted packets decide. */
  lemma ThresholdParts(rule: Rule, limit: ConnLimit, all: Stamps, counted: Stamps, now: Time)
    requires rule.maxConnRate == Some(limit)
    ensures var n, m := |Recent(counted, now, limit.interval)|, |Recent(all, now, 1.0)|;
            Threshold(rule, all, counted, now)
            == if PerSecondReached(rule, all, now) then Some(m)
               else if n >= limit.connections then Some(n)
               else None
  {
    hide Recent;
  }

  lemma PerSecondAgrees(rule: Rule, a: Stamps, b: Stamps, horizon: Time, now: Time, d: Time)
    requires SameRecent(a, b, horizon) && horizon - d <= now && SecondFits(rule, d)
    ensures rule.maxRps.Some? ==> |Recent(a, now, 1.0)| == |Recent(b, now, 1.0)|
    ensures PerSecondReached(rule, a, now) <==> PerSecondReached(rule, b, now)
  {
    if rule.maxRps.Some? {
      CountsAgree(a, b, horizon, now, 1.0);
    }
  }

  lemma NewestIsRecent(stamps: Stamps, now: Time)
    ensures |Recent(stamps + [now], now, 1.0)| >= 1
  {
    RecentSnoc(stamps, now, now, 1.0);
  }

  /** A connection limit out of reach stays unmet while the per-second limit is. */
  lemma OutpacedIsUnmet(rule: Rule, limit: ConnLimit, all: Stamps, counted: Stamps, now: Time)
    requires IsOutpaced(rule, limit) && Within(counted, all)
    requires Sparse(all, rule.maxRps.value, 1.0) && !PerSecondReached(rule, all, now)
    ensures |Recent(counted, now, limit.interval)| < limit.connections
  {
    hide Within, Recent, Sparse, Begun;
    SparseCapacity(all, now, rule.maxRps.value, 1.0, limit.interval);
    CountWithinIsSmaller(counted, all, now, limit.interval);
  }

  /** The verdict on a grown pair is the same on trackers and log, and with none the pair stays in step. */
  ghost predicate VerdictsMatch(why: Reason, rule: Rule, g: Pair, horizon: Time, now: Time) {
    var v := Threshold(rule, g.all, g.counted, now);
    && Threshold(rule, g.cell.rates, g.cell.opens, now) == v
    && (v.None? ==> InStep(why, rule, g, horizon))
  }

  lemma VerdictsOnNothing(cfg: Config, rule: Rule, p: Pair, pkt: Packet, conns: ConnTable, horizon: Time, now: Time,
                          d: Time)
    requires Holds(KeepsNothing, cfg, rule, d) && InStep(KeepsNothing, rule, p, horizon)
    requires Updated(conns, pkt) && Matches(cfg, rule, pkt, conns)
    requires horizon - d <= now
    ensures VerdictsMatch(KeepsNothing, rule, Grown(p, pkt, now), horizon, now)
  {
    var g, limit := Grown(p, pkt, now), rule.maxConnRate.value;
    assert [] + [now] == [now];
    assert EmptiesOn(limit, pkt);
    hide Recent, Matches, Empties, Updated, IsFresh, Threshold;
    SameRecentGrows(p.cell.rates, p.all, now, horizon);
    PerSecondAgrees(rule, g.cell.rates, g.all, horizon, now, d);
    NewestIsRecent(p.all, now);
    RecentOfOne(now, now, limit.interval);
    ThresholdParts(rule, limit, g.cell.rates, g.cell.opens, now);
    ThresholdParts(rule, limit, g.all, g.counted, now);
  }

  lemma VerdictsOutOfReach(cfg: Config, rule: Rule, p: Pair, pkt: Packet, horizon: Time, now: Time, d: Time)
    requires Holds(OutOfReach, cfg, rule, d) && InStep(OutOfReach, rule, p, horizon)
    requires horizon - d <= now
    ensures VerdictsMatch(OutOfReach, rule, Grown(p, pkt, now), horizon, now)
  {
    var g, limit := Grown(p, pkt, now), rule.maxConnRate.value;
    hide Recent, IsFresh, Threshold, Within, Sparse, IsOutpaced;
    SameRecentGrows(p.cell.rates, p.all, now, horizon);
    PerSecondAgrees(rule, g.cell.rates, g.all, horizon, now, d);
    WithinGrows(p.cell.opens, p.cell.rates, now);
    WithinGrows(p.counted, p.all, now);
    ThresholdParts(rule, limit, g.cell.rates, g.cell.opens, now);
    ThresholdParts(rule, limit, g.all, g.counted, now);
    if !PerSecondReached(rule, g.all, now) {
      SparseGrows(p.cell.rates, now, rule.maxRps.value, 1.0);
      SparseGrows(p.all, now, rule.maxRps.value, 1.0);
      OutpacedIsUnmet(rule, limit, g.cell.rates, g.cell.opens, now);
      OutpacedIsUnmet(rule, limit, g.all, g.counted, now);
    }
  }

  lemma OneFires(rule: Rule, pkt: Packet, now: Time)
    requires FiresOn(rule, pkt)
    ensures Threshold(rule, [now], if IsFresh(pkt) then [now] else [], now).Some?
  {
    hide Recent, IsFresh;
    RecentOfOne(now, now, 1.0);
    if rule.maxConnRate.Some? {
      RecentOfOne(now, now, rule.maxConnRate.value.interval);
    }
  }

  lemma VerdictsAtOnce(cfg: Config, rule: Rule, p: Pair, pkt: Packet, conns: ConnTable, horizon: Time, now: Time,
                       d: Time)
    requires Holds(FiresAtOnce, cfg, rule, d) && InStep(FiresAtOnce, rule, p, horizon)
    requires Updated(conns, pkt) && Matches(cfg, rule, pkt, conns)
    ensures VerdictsMatch(FiresAtOnce, rule, Grown(p, pkt, now), horizon, now)
  {
    assert [] + [now] == [now];
    assert FiresOn(rule, pkt);
    hide Recent, Matches, FiresAlways, Updated, IsFresh, FiresOn, Threshold;
    OneFires(rule, pkt, now);
  }

  lemma {:induction false} LastWindowIsSlice(stamps: Stamps, horizon: Time, window: Time)
    requires forall t :: t in stamps ==> t <= horizon
    ensures |Recent(stamps, horizon, window)| == InSlice(stamps, horizon - window, window)
    decreases |stamps|
  {
    if stamps == [] {
    } else {
      var init := stamps[..|stamps| - 1];
      assert stamps == init + [stamps[|stamps| - 1]] && stamps[|stamps| - 1] in stamps;
      forall t | t in init ensures t <= horizon {
        assert t in stamps;
      }
      LastWindowIsSlice(init, horizon, window);
    }
  }

  /** A window that begins later counts less. */
  lemma {:induction false} LaterStartCountsLess(stamps: Stamps, now: Time, window: Time, now': Time, window': Time)
    requires now' - window' <= now - window
    ensures |Recent(stamps, now, window)| <= |Recent(stamps, now', window')|
    decreases |stamps|
  {
    if stamps == [] {
    } else {
      LaterStartCountsLess(stamps[..|stamps| - 1], now, window, now', window');
    }
  }

  /** However late, a packet finds too few to reach the per-second limit. */
  lemma PreemptedIsUnmet(rule: Rule, stamps: Stamps, horizon: Time, now: Time, d: Time)
    requires rule.maxConnRate.Some? && IsPreempted(rule, rule.maxConnRate.value, d)
    requires IsSpaced(rule, stamps, horizon) && horizon - d <= now
    ensures !PerSecondReached(rule, stamps + [now], now)
  {
    var limit := rule.maxConnRate.value;
    hide Recent, Sparse, Begun;
    LastWindowIsSlice(stamps, horizon, limit.interval);
    SliceIsSparse(stamps, horizon - limit.interval, limit.connections, limit.interval);
    SparseCapacity(stamps, horizon, limit.connections, limit.interval, 1.0 + d);
    LaterStartCountsLess(stamps, now, 1.0, horizon, 1.0 + d);
    RecentSnoc(stamps, now, now, 1.0);
  }

  lemma SpacedGrows(rule: Rule, stamps: Stamps, horizon: Time, now: Time)
    requires IsSpaced(rule, stamps, horizon) && now <= horizon
    requires |Recent(stamps + [now], now, rule.maxConnRate.value.interval)| < rule.maxConnRate.value.connections
    ensures IsSpaced(rule, stamps + [now], horizon)
  {
    hide Recent, Sparse;
    SparseGrows(stamps, now, rule.maxConnRate.value.connections, rule.maxConnRate.value.interval);
  }

  lemma VerdictsPreempted(cfg: Config, rule: Rule, p: Pair, pkt: Packet, conns: ConnTable, horizon: Time, now: Time,
                          d: Time)
    requires Holds(PerSecondOutOfReach, cfg, rule, d) && InStep(PerSecondOutOfReach, rule, p, horizon)
    requires Updated(conns, pkt) && Matches(cfg, rule, pkt, conns)
    requires horizon - d <= now <= horizon
    ensures VerdictsMatch(PerSecondOutOfReach, rule, Grown(p, pkt, now), horizon, now)
  {
    var g, limit := Grown(p, pkt, now), rule.maxConnRate.value;
    assert IsFresh(pkt);
    assert limit.interval <= WINDOW - d;
    hide Recent, Matches, CountsAll, Updated, IsFresh, Threshold, IsPreempted, IsSpaced;
    SameRecentGrows(p.cell.rates, p.all, now, horizon);
    PreemptedIsUnmet(rule, p.cell.rates, horizon, now, d);
    PreemptedIsUnmet(rule, p.all, horizon, now, d);
    CountsAgree(g.cell.rates, g.all, horizon, now, limit.interval);
    ThresholdParts(rule, limit, g.cell.rates, g.cell.opens, now);
    ThresholdParts(rule, limit, g.all, g.counted, now);
    if |Recent(g.all, now, limit.interval)| < limit.connections {
      SpacedGrows(rule, p.cell.rates, horizon, now);
      SpacedGrows(rule, p.all, horizon, now);
    }
  }

  lemma VerdictsInStep(why: Reason, cfg: Config, rule: Rule, p: Pair, pkt: Packet, conns: ConnTable, horizon: Time,
                       now: Time, d: Time)
    requires Holds(why, cfg, rule, d) && InStep(why, rule, p, horizon)
    requires Updated(conns, pkt) && Matches(cfg, rule, pkt, conns)
    requires horizon - d <= now <= horizon
    ensures VerdictsMatch(why, rule, Grown(p, pkt, now), horizon, now)
  {
    hide *;
    match why
    case KeepsNothing => VerdictsOnNothing(cfg, rule, p, pkt, conns, horizon, now, d);
    case OutOfReach => VerdictsOutOfReach(cfg, rule, p, pkt, horizon, now, d);
    case FiresAtOnce => VerdictsAtOnce(cfg, rule, p, pkt, conns, horizon, now, d);
    case PerSecondOutOfReach => VerdictsPreempted(cfg, rule, p, pkt, conns, horizon, now, d);
  }

  // From pairs to the engine

  lemma OutpacedIsPositive(rule: Rule, limit: ConnLimit)
    requires IsOutpaced(rule, limit)
    ensures limit.connections >= 1
  {
    BegunCovers(limit.interval, 1.0);
    assert (rule.maxRps.value - 1) * Begun(limit.interval, 1.0) >= 0;
  }

  lemma CountedHasEntry(s: State, rule: Rule, pkt: Packet, k: Addr, now: Time)
    ensures IsFresh(pkt) ==> var opens := CountOpens(s, rule, pkt, k, now); rule.id in opens && k in opens[rule.id]
  {
  }

  lemma PairGrows(s: State, log: seq<Entry>, rule: Rule, pkt: Packet, k: Addr, now: Time)
    ensures var g := Grown(PairOf(s, log, rule.id, k), pkt, now);
            var log' := log + [Hit(rule.id, k, now, IsFresh(pkt))];
            && g.cell.rates == StampsOf(CountRates(s, rule, k, now), rule.id, k)
            && g.cell.opens == StampsOf(CountOpens(s, rule, pkt, k, now), rule.id, k)
            && g.all == Since(log', rule.id, k, false) && g.counted == Since(log', rule.id, k, true)
  {
    var hit := Hit(rule.id, k, now, IsFresh(pkt));
    NothingMore(Since(log, rule.id, k, true));
    hide CountRates, CountOpens, StampsOf, Since, IsFresh;
    CountAt(s, rule, pkt, k, now, rule.id, k);
    SinceHit(log, hit, rule.id, k, false);
    SinceHit(log, hit, rule.id, k, true);
  }

  /** The engine's verdict on a match is the threshold on its grown trackers. */
  lemma TriggerOnHit(why: Reason, cfg: Config, s: State, log: seq<Entry>, rule: Rule, pkt: Packet, now: Time,
                     d: Time)
    requires Holds(why, cfg, rule, d) && Updated(s.conns, pkt) && Matches(cfg, rule, pkt, s.conns)
    ensures var k := TrackingKey(rule, pkt);
            var g := Grown(PairOf(s, log, rule.id, k), pkt, now);
            Trigger(rule, CountRates(s, rule, k, now), CountOpens(s, rule, pkt, k, now), k, now)
            == Threshold(rule, g.cell.rates, g.cell.opens, now)
  {
    var k := TrackingKey(rule, pkt);
    match why {
      case KeepsNothing => assert EmptiesOn(rule.maxConnRate.value, pkt);
      case OutOfReach => OutpacedIsPositive(rule, rule.maxConnRate.value);
      case FiresAtOnce => assert FiresOn(rule, pkt);
      case PerSecondOutOfReach => assert rule.maxConnRate.value.connections >= 1;
    }
    hide CountRates, CountOpens, StampsOf, Since, IsFresh, Trigger, Threshold, Recent, Matches, Updated, Empties,
         TrackingKey, IsOutpaced, IsPreempted, FiresAlways, CountsAll;
    PairGrows(s, log, rule, pkt, k, now);
    NewestIsRecent(CellOf(s, rule.id, k).rates, now);
    CountedHasEntry(s, rule, pkt, k, now);
    TriggerByStamps(rule, CountRates(s, rule, k, now), CountOpens(s, rule, pkt, k, now), k, now);
  }

  ghost predicate InStepAt(why: Reason, rule: Rule, s: State, log: seq<Entry>, horizon: Time, k: Addr) {
    InStep(why, rule, PairOf(s, log, rule.id, k), horizon)
  }

  ghost predicate AllInStep(why: Reason, rule: Rule, s: State, log: seq<Entry>, horizon: Time) {
    forall k: Addr :: InStepAt(why, rule, s, log, horizon, k)
  }

  /** On a match both engines decide alike, and without an alert the grown pair is in step. */
  lemma HitAgrees(why: Reason, cfg: Config, s: State, log: seq<Entry>, rule: Rule, pkt: Packet, horizon: Time,
                  now: Time,
                  d: Time)
    requires Holds(why, cfg, rule, d) && Updated(s.conns, pkt) && Matches(cfg, rule, pkt, s.conns)
    requires InStepAt(why, rule, s, log, horizon, TrackingKey(rule, pkt))
    requires horizon - d <= now <= horizon
    ensures var p, q := EvalRule(cfg, s, rule, pkt, now).1, LogRule(cfg, s.conns, log, rule, pkt, now).1;
            && p == q
            && (p == [] ==>
                  InStep(why, rule, Grown(PairOf(s, log, rule.id, TrackingKey(rule, pkt)), pkt, now), horizon))
  {
    var k := TrackingKey(rule, pkt);
    hide CountRates, CountOpens, Since, IsFresh, Trigger, Threshold, Recent, Matches, Updated, Holds, InStep, PairOf,
         TrackingKey,
         Settle;
    VerdictsInStep(why, cfg, rule, PairOf(s, log, rule.id, k), pkt, s.conns, horizon, now, d);
    TriggerOnHit(why, cfg, s, log, rule, pkt, now, d);
    PairGrows(s, log, rule, pkt, k, now);
  }

  lemma RuleKeepsStepAt(why: Reason, cfg: Config, s: State, log: seq<Entry>, rule: Rule, pkt: Packet, horizon: Time,
                        now: Time, d: Time, k: Addr)
    requires Holds(why, cfg, rule, d) && Updated(s.conns, pkt) && now <= horizon
    requires InStepAt(why, rule, s, log, horizon, k)
    requires horizon - d <= now
    ensures Hits(cfg, s.conns, rule, pkt, rule.id, k) ==>
              EvalRule(cfg, s, rule, pkt, now).1 == LogRule(cfg, s.conns, log, rule, pkt, now).1
    ensures InStepAt(why, rule, EvalRule(cfg, s, rule, pkt, now).0, LogRule(cfg, s.conns, log, rule, pkt, now).0,
                     horizon, k)
  {
    var g := Grown(PairOf(s, log, rule.id, k), pkt, now);
    assert (why.OutOfReach? ==> rule.maxRps.Some?) && (why.PerSecondOutOfReach? ==> rule.maxConnRate.Some?);
    if Hits(cfg, s.conns, rule, pkt, rule.id, k) {
      HitAgrees(why, cfg, s, log, rule, pkt, horizon, now, d);
      if EvalRule(cfg, s, rule, pkt, now).1 == [] {
        PruneKeepsStep(why, rule, g, horizon, now);
      }
    }
    hide EvalRule, LogRule, Hits, Since, Recent, CellOf, InStep, Holds, Updated, IsFresh;
    EmptyInStep(why, rule, horizon);
    PairGrows(s, log, rule, pkt, k, now);
    EvalRuleCell(cfg, s, rule, pkt, now, rule.id, k);
    LogRuleAt(cfg, s.conns, log, rule, pkt, now, rule.id, k, false);
    LogRuleAt(cfg, s.conns, log, rule, pkt, now, rule.id, k, true);
  }

  lemma RuleKeepsStep(why: Reason, cfg: Config, s: State, log: seq<Entry>, rule: Rule, pkt: Packet, horizon: Time,
                      now: Time, d: Time)
    requires Holds(why, cfg, rule, d) && Updated(s.conns, pkt) && AllInStep(why, rule, s, log, horizon)
    requires horizon - d <= now <= horizon
    ensures var (s', p) := EvalRule(cfg, s, rule, pkt, now);
            var (log', q) := LogRule(cfg, s.conns, log, rule, pkt, now);
            p == q && AllInStep(why, rule, s', log', horizon)
  {
    assert !Matches(cfg, rule, pkt, s.conns) ==>
             EvalRule(cfg, s, rule, pkt, now).1 == [] == LogRule(cfg, s.conns, log, rule, pkt, now).1;
    hide EvalRule, LogRule, Matches, Updated, Holds, InStepAt;
    var k' := TrackingKey(rule, pkt);
    assert InStepAt(why, rule, s, log, horizon, k');
    RuleKeepsStepAt(why, cfg, s, log, rule, pkt, horizon, now, d, k');
    forall k: Addr
      ensures InStepAt(why, rule, EvalRule(cfg, s, rule, pkt, now).0, LogRule(cfg, s.conns, log, rule, pkt, now).0,
                       horizon, k)
    {
      assert InStepAt(why, rule, s, log, horizon, k);
      RuleKeepsStepAt(why, cfg, s, log, rule, pkt, horizon, now, d, k);
    }
  }

  lemma ObserveKeepsStep(why: Reason, rule: Rule, s: State, log: seq<Entry>, pkt: Packet, horizon: Time, horizon': Time,
                         now: Time)
    requires AllInStep(why, rule, s, log, horizon) && horizon <= horizon' && now <= horizon'
    ensures AllInStep(why, rule, Observe(s, pkt, now), log, horizon')
  {
    hide Observe, Since, CellOf, InStep;
    forall k: Addr ensures InStepAt(why, rule, Observe(s, pkt, now), log, horizon', k) {
      assert InStepAt(why, rule, s, log, horizon, k);
      RaiseKeepsStep(why, rule, PairOf(s, log, rule.id, k), horizon, horizon');
      PruneKeepsStep(why, rule, PairOf(s, log, rule.id, k), horizon', now);
      ObserveCell(s, pkt, now, rule.id, k);
    }
  }

  /** Both engines number, clean up and track connections alike, and their pairs are in step. */
  ghost predicate TogetherAt(why: Reason, rule: Rule, s: State, r: Reference, horizon: Time) {
    && s.alertCounter == r.alertCounter && s.lastCleanup == r.lastCleanup && s.conns == r.conns
    && AllInStep(why, rule, s, r.log, horizon)
  }

  lemma SameTrackersInStep(why: Reason, rule: Rule, s: State, s': State, log: seq<Entry>, horizon: Time)
    requires AllInStep(why, rule, s, log, horizon) && s'.rates == s.rates && s'.opens == s.opens
    ensures AllInStep(why, rule, s', log, horizon)
  {
    forall k: Addr ensures InStepAt(why, rule, s', log, horizon, k) {
      assert InStepAt(why, rule, s, log, horizon, k);
    }
  }

  lemma StepKeepsTogether(why: Reason, cfg: Config, s: State, r: Reference, rule: Rule, pkt: Packet, horizon: Time,
                          now: Time, d: Time)
    requires cfg.rules == [rule] && Holds(why, cfg, rule, d) && TogetherAt(why, rule, s, r, horizon)
    requires d >= 0.0 && horizon - d <= now
    ensures var (s', a) := Step(cfg, s, pkt, now);
            var (r', b) := ReferenceStep(cfg, r, pkt, now);
            a == b && TogetherAt(why, rule, s', r', if now > horizon then now else horizon)
  {
    hide Observe, EvalRule, LogRule, ConnsOf, AllInStep, Holds, Number, Step, ReferenceStep, Updated, Matches;
    var horizon' := if now > horizon then now else horizon;
    var o := Observe(s, pkt, now);
    StepIsRule(cfg, s, rule, pkt, now);
    ReferenceStepIsRule(cfg, r, rule, pkt, now);
    ObserveConns(s, r, pkt, now);
    ObserveKeepsStep(why, rule, s, r.log, pkt, horizon, horizon', now);
    ObserveUpdates(s, pkt, now);
    RuleKeepsStep(why, cfg, o, r.log, rule, pkt, horizon', now, d);
    RuleFrame(cfg, o, rule, pkt, now);
    var ruled := EvalRule(cfg, o, rule, pkt, now).0;
    SameTrackersInStep(why, rule, ruled, Step(cfg, s, pkt, now).0, ReferenceStep(cfg, r, pkt, now).0.log, horizon');
  }

  lemma {:induction false} RunKeepsTogether(why: Reason, cfg: Config, rule: Rule, events: seq<Event>, d: Time)
    requires cfg.rules == [rule] && Holds(why, cfg, rule, d) && DisorderAtMost(events, d)
    requires d >= 0.0
    ensures Alerts(cfg, events) == ReferenceRun(cfg, events).1
    ensures forall horizon :: events == [] || horizon == Horizon(events) ==>
              TogetherAt(why, rule, After(cfg, events), ReferenceRun(cfg, events).0, horizon)
    decreases |events|
  {
    if events == [] {
      forall horizon ensures TogetherAt(why, rule, INITIAL, START, horizon) {
        StartsTogether(why, cfg, rule, horizon, d);
      }
    } else {
      var init, e := events[..|events| - 1], events[|events| - 1];
      RunKeepsTogether(why, cfg, rule, init, d);
      var s, r := After(cfg, init), ReferenceRun(cfg, init).0;
      var horizon := if init == [] then e.now else Horizon(init);
      assert TogetherAt(why, rule, s, r, horizon);
      if init != [] {
        HorizonIsAttained(init, e.now, d);
      }
      StepKeepsTogether(why, cfg, s, r, rule, e.pkt, horizon, e.now, d);
    }
  }

  lemma StartsTogether(why: Reason, cfg: Config, rule: Rule, horizon: Time, d: Time)
    requires Holds(why, cfg, rule, d)
    ensures TogetherAt(why, rule, INITIAL, START, horizon)
  {
    forall k: Addr ensures InStepAt(why, rule, INITIAL, START.log, horizon, k) {
      assert PairOf(INITIAL, START.log, rule.id, k) == Pair(Cell([], []), [], []);
      EmptyInStep(why, rule, horizon);
    }
  }

  lemma InvisibleBecause(why: Reason, cfg: Config, rule: Rule, d: Time)
    requires cfg.rules == [rule] && Holds(why, cfg, rule, d)
    requires d >= 0.0
    ensures PruningInvisible(cfg, d)
  {
    hide Holds;
    forall events | DisorderAtMost(events, d) ensures Alerts(cfg, events) == ReferenceRun(cfg, events).1 {
      RunKeepsTogether(why, cfg, rule, events, d);
    }
  }
}
