/**
  Pruning is invisible. The reference engine below keeps a log of every matching packet and every
  alert and prunes nothing; on bounded clock disorder it raises the same alerts as the real engine.
 */
module Pruning {
  import opened Prelude
  import opened Packets
  import opened Rules
  import opened EngineSpec

  datatype Entry =
    | Hit(ruleId: u32, key: Addr, time: Time, isFresh: bool)
    | Fired(ruleId: u32, key: Addr)

  /** The times of the matching packets for a rule and key since its last alert. */
  function Since(log: seq<Entry>, id: u32, k: Addr, onlyFresh: bool): Stamps {
    if log == [] then []
    else
      var earlier, e := log[..|log| - 1], log[|log| - 1];
      if e.ruleId != id || e.key != k then Since(earlier, id, k, onlyFresh)
      else if e.Fired? then []
      else Since(earlier, id, k, onlyFresh) + if onlyFresh && !e.isFresh then [] else [e.time]
  }

  /** The reference engine: sequence counter, connection table with its expiry, and the log. */
  datatype Reference = Reference(alertCounter: nat, lastCleanup: Time, conns: ConnTable, log: seq<Entry>)

  /** The count that meets a threshold, given all packets and fresh packets to consider. */
  function Threshold(rule: Rule, all: Stamps, fresh_: Stamps, now: Time): Option<nat> {
    var perSecond := |Recent(all, now, 1.0)|;
    if rule.maxRps.Some? && perSecond >= rule.maxRps.value then Some(perSecond)
    else if rule.maxConnRate.Some? then
      var newConns := |Recent(fresh_, now, rule.maxConnRate.value.interval)|;
      if newConns >= rule.maxConnRate.value.connections then Some(newConns) else None
    else None
  }

  function Verdict(rule: Rule, log: seq<Entry>, k: Addr, now: Time): Option<nat> {
    Threshold(rule, Since(log, rule.id, k, false), Since(log, rule.id, k, true), now)
  }

  function LogRule(cfg: Config, conns: ConnTable, log: seq<Entry>, rule: Rule, pkt: Packet, now: Time)
    : (seq<Entry>, seq<Pending>)
  {
    if !Matches(cfg, rule, pkt, conns) then (log, [])
    else
      var k := TrackingKey(rule, pkt);
      var log' := log + [Hit(rule.id, k, now, IsFresh(pkt))];
      var verdict := Verdict(rule, log', k, now);
      if verdict.Some? then (log' + [Fired(rule.id, k)], [Pending(rule.id, k, Truncate(verdict.value))])
      else (log', [])
  }

  function LogRules(cfg: Config, conns: ConnTable, log: seq<Entry>, rules: seq<Rule>, pkt: Packet, now: Time)
    : (seq<Entry>, seq<Pending>)
  {
    if rules == [] then (log, [])
    else
      var (log1, p1) := LogRules(cfg, conns, log, rules[..|rules| - 1], pkt, now);
      var (log2, p2) := LogRule(cfg, conns, log1, rules[|rules| - 1], pkt, now);
      (log2, p1 + p2)
  }

  /** The connection table against which the reference engine matches a packet. */
  function ConnsOf(r: Reference, pkt: Packet, now: Time): ConnTable {
    var live := if now - r.lastCleanup >= TICK then map k | k in r.conns && Alive(r.conns[k], now) :: r.conns[k]
                else r.conns;
    UpdateConns(live, pkt, now)
  }

  function ReferenceStep(cfg: Config, r: Reference, pkt: Packet, now: Time): (Reference, seq<Alert>) {
    var conns := ConnsOf(r, pkt, now);
    var (log, pending) := LogRules(cfg, conns, r.log, cfg.rules, pkt, now);
    (Reference(r.alertCounter + |pending|, if now - r.lastCleanup >= TICK then now else r.lastCleanup, conns, log),
     Number(r.alertCounter, pending))
  }

  function ReferenceRun(cfg: Config, events: seq<Event>): (Reference, seq<Alert>) {
    if events == [] then (Reference(0, 0.0, map[], []), [])
    else
      var (r1, a1) := ReferenceRun(cfg, events[..|events| - 1]);
      var e := events[|events| - 1];
      var (r2, a2) := ReferenceStep(cfg, r1, e.pkt, e.now);
      (r2, a1 + a2)
  }

  /** A later packet may carry a timestamp at most `d` older than an earlier one. */
  ghost predicate DisorderAtMost(events: seq<Event>, d: Time) {
    forall i, j :: 0 <= i < j < |events| ==> events[j].now >= events[i].now - d
  }

  ghost predicate OnlyFreshMatch(cfg: Config, rule: Rule) {
    forall pkt, conns :: Matches(cfg, rule, pkt, conns) ==> IsFresh(pkt)
  }

  /**
    Every counting window fits in what pruning keeps, and a connection limit is zero only where every
    match is counted.
   */
  ghost predicate WindowsFit(cfg: Config, rules: seq<Rule>, d: Time) {
    forall r :: r in rules ==>
      && (r.maxRps.Some? ==> 1.0 <= WINDOW - d)
      && (r.maxConnRate.Some? ==>
            && r.maxConnRate.value.interval <= WINDOW - d
            && (r.maxConnRate.value.connections >= 1 || OnlyFreshMatch(cfg, r)))
  }

  /** Up to the horizon's window, the trackers and the log hold the same stamps for one pair. */
  ghost predicate AgreeAt(s: State, log: seq<Entry>, horizon: Time, id: u32, k: Addr) {
    && Recent(CellOf(s, id, k).rates, horizon, WINDOW) == Recent(Since(log, id, k, false), horizon, WINDOW)
    && Recent(CellOf(s, id, k).opens, horizon, WINDOW) == Recent(Since(log, id, k, true), horizon, WINDOW)
  }

  ghost predicate Agree(s: State, log: seq<Entry>, horizon: Time) {
    forall id: u32, k: Addr :: AgreeAt(s, log, horizon, id, k)
  }

  ghost predicate Related(s: State, r: Reference, horizon: Time) {
    && s.alertCounter == r.alertCounter && s.lastCleanup == r.lastCleanup && s.conns == r.conns
    && Agree(s, r.log, horizon)
  }

  /** Filtering by an older bound first changes nothing. */
  lemma {:induction false} RecentTwice(stamps: Stamps, now: Time, window: Time, now': Time, window': Time)
    requires now - window <= now' - window'
    ensures Recent(Recent(stamps, now, window), now', window') == Recent(stamps, now', window')
  {
    if stamps == [] {
    } else {
      var init, last := stamps[..|stamps| - 1], stamps[|stamps| - 1];
      RecentTwice(init, now, window, now', window');
      if now - last < window {
        RecentSnoc(Recent(init, now, window), last, now', window');
      }
    }
  }

  lemma SinceHit(log: seq<Entry>, e: Entry, id: u32, k: Addr, onlyFresh: bool)
    ensures Since(log + [e], id, k, onlyFresh)
         == if e.ruleId != id || e.key != k then Since(log, id, k, onlyFresh)
            else if e.Fired? then []
            else Since(log, id, k, onlyFresh) + if onlyFresh && !e.isFresh then [] else [e.time]
  {
    assert (log + [e])[..|log|] == log;
  }

  /** Equal recent parts stay equal when both grow by one stamp, and give equal counts in any fitting window. */
  lemma CountsAgree(a: Stamps, b: Stamps, horizon: Time, now: Time, window: Time)
    requires Recent(a, horizon, WINDOW) == Recent(b, horizon, WINDOW)
    requires horizon - WINDOW <= now - window
    ensures Recent(a, now, window) == Recent(b, now, window)
  {
    RecentTwice(a, horizon, WINDOW, now, window);
    RecentTwice(b, horizon, WINDOW, now, window);
  }

  ghost predicate PerSecondReached(rule: Rule, all: Stamps, now: Time) {
    rule.maxRps.Some? && |Recent(all, now, 1.0)| >= rule.maxRps.value
  }

  /**
    The trackers' verdict in terms of the stamps alone: an absent entry counts as zero, unless zero
    reaches the limit.
   */
  lemma TriggerByStamps(rule: Rule, rates: Tracker, opens: Tracker, k: Addr, now: Time)
    requires rule.maxConnRate.Some? ==>
               || rule.maxConnRate.value.connections >= 1
               || (rule.id in opens && k in opens[rule.id])
               || PerSecondReached(rule, StampsOf(rates, rule.id, k), now)
    ensures Trigger(rule, rates, opens, k, now)
         == Threshold(rule, StampsOf(rates, rule.id, k), StampsOf(opens, rule.id, k), now)
  {
  }

  /** Counting a packet keeps recent parts equal. */
  lemma GrowAgree(s: State, log: seq<Entry>, pkt: Packet, horizon: Time, now: Time, id: u32, k: Addr)
    requires AgreeAt(s, log, horizon, id, k)
    ensures var log', c := log + [Hit(id, k, now, IsFresh(pkt))], Extended(CellOf(s, id, k), pkt, now);
            && Recent(c.rates, horizon, WINDOW) == Recent(Since(log', id, k, false), horizon, WINDOW)
            && Recent(c.opens, horizon, WINDOW) == Recent(Since(log', id, k, true), horizon, WINDOW)
  {
    var e := Hit(id, k, now, IsFresh(pkt));
    SinceHit(log, e, id, k, false);
    SinceHit(log, e, id, k, true);
    RecentSnoc(CellOf(s, id, k).rates, now, horizon, WINDOW);
    RecentSnoc(CellOf(s, id, k).opens, now, horizon, WINDOW);
    RecentSnoc(Since(log, id, k, false), now, horizon, WINDOW);
    RecentSnoc(Since(log, id, k, true), now, horizon, WINDOW);
    if !IsFresh(pkt) {
      assert Since(log + [e], id, k, true) == Since(log, id, k, true);
    }
  }

  /** Stamps that agree up to the horizon's window meet the same thresholds. */
  lemma ThresholdsAgree(cfg: Config, rule: Rule, a: Cell, all: Stamps, fresh_: Stamps, horizon: Time, now: Time,
                        d: Time)
    requires WindowsFit(cfg, [rule], d) && horizon - d <= now
    requires Recent(a.rates, horizon, WINDOW) == Recent(all, horizon, WINDOW)
    requires Recent(a.opens, horizon, WINDOW) == Recent(fresh_, horizon, WINDOW)
    ensures Threshold(rule, a.rates, a.opens, now) == Threshold(rule, all, fresh_, now)
  {
    assert rule in [rule];
    if rule.maxRps.Some? {
      CountsAgree(a.rates, all, horizon, now, 1.0);
    }
    if rule.maxConnRate.Some? {
      CountsAgree(a.opens, fresh_, horizon, now, rule.maxConnRate.value.interval);
    }
  }

  /** Rule evaluation reaches the same verdict on the trackers as on the log. */
  lemma VerdictsAgree(cfg: Config, s: State, log: seq<Entry>, rule: Rule, pkt: Packet, horizon: Time, now: Time,
                      d: Time)
    requires AgreeAt(s, log, horizon, rule.id, TrackingKey(rule, pkt)) && Matches(cfg, rule, pkt, s.conns)
    requires WindowsFit(cfg, [rule], d) && horizon - d <= now <= horizon
    ensures var k := TrackingKey(rule, pkt);
            (Trigger(rule, CountRates(s, rule, k, now), CountOpens(s, rule, pkt, k, now), k, now)
             == Verdict(rule, log + [Hit(rule.id, k, now, IsFresh(pkt))], k, now))
  {
    var id, k := rule.id, TrackingKey(rule, pkt);
    var log' := log + [Hit(id, k, now, IsFresh(pkt))];
    var c := Extended(CellOf(s, id, k), pkt, now);
    assert rule in [rule];
    TriggerByStamps(rule, CountRates(s, rule, k, now), CountOpens(s, rule, pkt, k, now), k, now);
    CountAt(s, rule, pkt, k, now, id, k);
    GrowAgree(s, log, pkt, horizon, now, id, k);
    ThresholdsAgree(cfg, rule, c, Since(log', id, k, false), Since(log', id, k, true), horizon, now, d);
  }

  /** One rule keeps the trackers and the log in agreement and raises the same alert. */
  lemma {:induction false} RuleAgrees(cfg: Config, s: State, log: seq<Entry>, rule: Rule, pkt: Packet, horizon: Time,
                                      now: Time, d: Time)
    requires Agree(s, log, horizon)
    requires WindowsFit(cfg, [rule], d) && horizon - d <= now <= horizon
    ensures var (s', p) := EvalRule(cfg, s, rule, pkt, now);
            var (log', q) := LogRule(cfg, s.conns, log, rule, pkt, now);
            p == q && Agree(s', log', horizon)
  {
    var (s', p) := EvalRule(cfg, s, rule, pkt, now);
    var (log', q) := LogRule(cfg, s.conns, log, rule, pkt, now);
    if Matches(cfg, rule, pkt, s.conns) {
      var key := TrackingKey(rule, pkt);
      assert AgreeAt(s, log, horizon, rule.id, key);
      VerdictsAgree(cfg, s, log, rule, pkt, horizon, now, d);
    }
    forall id: u32, k: Addr ensures AgreeAt(s', log', horizon, id, k) {
      assert AgreeAt(s, log, horizon, id, k);
      RuleAgreesAt(cfg, s, log, rule, pkt, horizon, now, id, k);
    }
  }

  /** The log after one rule, for one pair. */
  lemma LogRuleAt(cfg: Config, conns: ConnTable, log: seq<Entry>, rule: Rule, pkt: Packet, now: Time, id: u32, k: Addr,
                  onlyFresh: bool)
    ensures var (log', pending) := LogRule(cfg, conns, log, rule, pkt, now);
            Since(log', id, k, onlyFresh)
            == if !Hits(cfg, conns, rule, pkt, id, k) then Since(log, id, k, onlyFresh)
               else if pending != [] then []
               else Since(log + [Hit(id, k, now, IsFresh(pkt))], id, k, onlyFresh)
  {
    if Matches(cfg, rule, pkt, conns) {
      var key := TrackingKey(rule, pkt);
      var hit, fired := Hit(rule.id, key, now, IsFresh(pkt)), Fired(rule.id, key);
      hide Matches, Verdict, Since, TrackingKey, IsFresh;
      SinceHit(log, hit, id, k, onlyFresh);
      SinceHit(log + [hit], fired, id, k, onlyFresh);
    }
  }

  lemma RuleAgreesAt(cfg: Config, s: State, log: seq<Entry>, rule: Rule, pkt: Packet, horizon: Time, now: Time,
                     id: u32, k: Addr)
    requires AgreeAt(s, log, horizon, id, k) && now <= horizon
    requires EvalRule(cfg, s, rule, pkt, now).1 == LogRule(cfg, s.conns, log, rule, pkt, now).1
    ensures AgreeAt(EvalRule(cfg, s, rule, pkt, now).0, LogRule(cfg, s.conns, log, rule, pkt, now).0, horizon, id, k)
  {
    assert Recent([], horizon, WINDOW) == [];
    hide EvalRule, LogRule, Hits, Since, Recent, CellOf, Extended;
    EvalRuleCell(cfg, s, rule, pkt, now, id, k);
    LogRuleAt(cfg, s.conns, log, rule, pkt, now, id, k, false);
    LogRuleAt(cfg, s.conns, log, rule, pkt, now, id, k, true);
    var c := Extended(CellOf(s, id, k), pkt, now);
    GrowAgree(s, log, pkt, horizon, now, id, k);
    RecentTwice(c.rates, now, WINDOW, horizon, WINDOW);
    RecentTwice(c.opens, now, WINDOW, horizon, WINDOW);
  }

  lemma {:induction false} RulesAgree(cfg: Config, s: State, log: seq<Entry>, rules: seq<Rule>, pkt: Packet,
                                      horizon: Time, now: Time, d: Time)
    requires Agree(s, log, horizon)
    requires WindowsFit(cfg, rules, d) && horizon - d <= now <= horizon
    ensures var (s', p) := EvalRules(cfg, s, rules, pkt, now);
            var (log', q) := LogRules(cfg, s.conns, log, rules, pkt, now);
            p == q && Agree(s', log', horizon)
  {
    if rules == [] {
    } else {
      var init, rule := rules[..|rules| - 1], rules[|rules| - 1];
      RulesAgree(cfg, s, log, init, pkt, horizon, now, d);
      EvalRulesFrame(cfg, s, init, pkt, now);
      RuleAgrees(cfg, EvalRules(cfg, s, init, pkt, now).0, LogRules(cfg, s.conns, log, init, pkt, now).0,
                 rule, pkt, horizon, now, d);
    }
  }

  /** Raising the horizon and pruning at a tick preserve agreement. */
  lemma ObserveAgrees(s: State, log: seq<Entry>, pkt: Packet, horizon: Time, horizon': Time, now: Time)
    requires Agree(s, log, horizon) && horizon <= horizon' && now <= horizon'
    ensures Agree(Observe(s, pkt, now), log, horizon')
  {
    forall id: u32, k: Addr ensures AgreeAt(Observe(s, pkt, now), log, horizon', id, k) {
      assert AgreeAt(s, log, horizon, id, k);
      var c := CellOf(s, id, k);
      ObserveCell(s, pkt, now, id, k);
      CountsAgree(c.rates, Since(log, id, k, false), horizon, horizon', WINDOW);
      CountsAgree(c.opens, Since(log, id, k, true), horizon, horizon', WINDOW);
      RecentTwice(c.rates, now, WINDOW, horizon', WINDOW);
      RecentTwice(c.opens, now, WINDOW, horizon', WINDOW);
    }
  }

  lemma ObserveConns(s: State, r: Reference, pkt: Packet, now: Time)
    requires s.lastCleanup == r.lastCleanup && s.conns == r.conns
    ensures var o := Observe(s, pkt, now);
            && o.alertCounter == s.alertCounter && o.conns == ConnsOf(r, pkt, now)
            && o.lastCleanup == if now - r.lastCleanup >= TICK then now else r.lastCleanup
  {
  }

  lemma StepAgrees(cfg: Config, s: State, r: Reference, pkt: Packet, horizon: Time, now: Time, d: Time)
    requires Related(s, r, horizon) && WindowsFit(cfg, cfg.rules, d) && horizon - d <= now && d >= 0.0
    ensures var (s', a) := Step(cfg, s, pkt, now);
            var (r', b) := ReferenceStep(cfg, r, pkt, now);
            a == b && Related(s', r', if now > horizon then now else horizon)
  {
    hide Observe, EvalRules, LogRules, ConnsOf, AgreeAt, WindowsFit, Number;
    var horizon' := if now > horizon then now else horizon;
    var o := Observe(s, pkt, now);
    ObserveConns(s, r, pkt, now);
    ObserveAgrees(s, r.log, pkt, horizon, horizon', now);
    RulesAgree(cfg, o, r.log, cfg.rules, pkt, horizon', now, d);
    EvalRulesFrame(cfg, o, cfg.rules, pkt, now);
    forall id: u32, k: Addr
      ensures AgreeAt(Step(cfg, s, pkt, now).0, ReferenceStep(cfg, r, pkt, now).0.log, horizon', id, k)
    {
      var s1 := EvalRules(cfg, o, cfg.rules, pkt, now).0;
      assert AgreeAt(s1, LogRules(cfg, o.conns, r.log, cfg.rules, pkt, now).0, horizon', id, k);
      SameCellsAgree(s1, Step(cfg, s, pkt, now).0, ReferenceStep(cfg, r, pkt, now).0.log, horizon', id, k);
    }
  }

  lemma SameCellsAgree(s: State, s': State, log: seq<Entry>, horizon: Time, id: u32, k: Addr)
    requires AgreeAt(s, log, horizon, id, k) && s'.rates == s.rates && s'.opens == s.opens
    ensures AgreeAt(s', log, horizon, id, k)
  {
  }

  /** The newest timestamp so far. */
  ghost function Horizon(events: seq<Event>): Time {
    if |events| == 0 then 0.0
    else if |events| == 1 then events[0].now
    else
      var h, now := Horizon(events[..|events| - 1]), events[|events| - 1].now;
      if now > h then now else h
  }

  lemma {:induction false} HorizonIsAttained(events: seq<Event>, now: Time, d: Time)
    requires forall i :: 0 <= i < |events| ==> now >= events[i].now - d
    requires events != []
    ensures Horizon(events) - d <= now
  {
    if |events| > 1 {
      HorizonIsAttained(events[..|events| - 1], now, d);
    }
  }

  lemma {:induction false} RunAgrees(cfg: Config, events: seq<Event>, d: Time)
    requires d >= 0.0 && DisorderAtMost(events, d) && WindowsFit(cfg, cfg.rules, d)
    ensures Alerts(cfg, events) == ReferenceRun(cfg, events).1
    ensures forall horizon :: events == [] || horizon == Horizon(events) ==>
              Related(After(cfg, events), ReferenceRun(cfg, events).0, horizon)
  {
    if events == [] {
    } else {
      var init, e := events[..|events| - 1], events[|events| - 1];
      RunAgrees(cfg, init, d);
      var s, r := After(cfg, init), ReferenceRun(cfg, init).0;
      var horizon := if init == [] then e.now else Horizon(init);
      assert Related(s, r, horizon);
      if init != [] {
        HorizonIsAttained(init, e.now, d);
      }
      StepAgrees(cfg, s, r, e.pkt, horizon, e.now, d);
    }
  }

  /**
    Over every run whose timestamps are at most `d` out of order, with windows of at most sixty
    seconds less `d`, the engine raises exactly the alerts of the engine that never prunes.
   */
  lemma {:induction false} PruningIsInvisible(cfg: Config, events: seq<Event>, d: Time)
    requires d >= 0.0 && DisorderAtMost(events, d) && WindowsFit(cfg, cfg.rules, d)
    ensures Alerts(cfg, events) == ReferenceRun(cfg, events).1
  {
    RunAgrees(cfg, events, d);
  }
}
