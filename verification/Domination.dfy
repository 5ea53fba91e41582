/** While the reference engine is silent, the engine is silent too, and its trackers are inside the log. */
module Domination {
  import opened Prelude
  import opened Packets
  import opened Rules
  import opened EngineSpec
  import opened Windows
  import opened Pruning
  import opened SingleRules

  /** A sensor with one rule whose connection limit, if any, is not zero. */
  ghost predicate IsPlain(cfg: Config, rule: Rule) {
    cfg.rules == [rule] && (rule.maxConnRate.Some? ==> rule.maxConnRate.value.connections >= 1)
  }

  ghost predicate DominatedAt(cfg: Config, rule: Rule, s: State, log: seq<Entry>, k: Addr) {
    && Within(CellOf(s, rule.id, k).rates, Since(log, rule.id, k, false))
    && Within(CellOf(s, rule.id, k).opens, Since(log, rule.id, k, true))
  }

  /** The trackers hold no stamp that the log does not. */
  ghost predicate Dominated(cfg: Config, rule: Rule, s: State, r: Reference) {
    && s.lastCleanup == r.lastCleanup && s.conns == r.conns
    && forall k: Addr :: DominatedAt(cfg, rule, s, r.log, k)
  }

  lemma FewerStampsMeetLess(rule: Rule, a: Stamps, b: Stamps, a': Stamps, b': Stamps, now: Time)
    requires Within(a, b) && Within(a', b')
    ensures Threshold(rule, b, b', now).None? ==> Threshold(rule, a, a', now).None?
  {
    CountWithinIsSmaller(a, b, now, 1.0);
    if rule.maxConnRate.Some? {
      CountWithinIsSmaller(a', b', now, rule.maxConnRate.value.interval);
    }
    hide Within, Recent;
  }

  /** The grown trackers stay inside the grown log. */
  lemma GrowthIsDominated(cfg: Config, rule: Rule, s: State, log: seq<Entry>, pkt: Packet, now: Time, k: Addr)
    requires DominatedAt(cfg, rule, s, log, k)
    ensures var c, log' := Extended(CellOf(s, rule.id, k), pkt, now), log + [Hit(rule.id, k, now, IsFresh(pkt))];
            && Within(c.rates, Since(log', rule.id, k, false))
            && Within(c.opens, Since(log', rule.id, k, true))
  {
    var hit := Hit(rule.id, k, now, IsFresh(pkt));
    NothingMore(Since(log, rule.id, k, true));
    hide Within, Since, CellOf, IsFresh;
    SinceHit(log, hit, rule.id, k, false);
    SinceHit(log, hit, rule.id, k, true);
    WithinGrows(CellOf(s, rule.id, k).rates, Since(log, rule.id, k, false), now);
    WithinGrows(CellOf(s, rule.id, k).opens, Since(log, rule.id, k, true), now);
  }

  lemma EngineSilentOnHit(cfg: Config, rule: Rule, s: State, log: seq<Entry>, pkt: Packet, now: Time)
    requires IsPlain(cfg, rule) && DominatedAt(cfg, rule, s, log, TrackingKey(rule, pkt))
    requires LogRule(cfg, s.conns, log, rule, pkt, now).1 == []
    ensures EvalRule(cfg, s, rule, pkt, now).1 == []
  {
    var k := TrackingKey(rule, pkt);
    var c, log' := Extended(CellOf(s, rule.id, k), pkt, now), log + [Hit(rule.id, k, now, IsFresh(pkt))];
    assert rule.maxConnRate.Some? ==> rule.maxConnRate.value.connections >= 1;
    hide Within, Since, CellOf, IsFresh, CountRates, CountOpens, Recent, Trigger, Threshold, Settle, Matches, IsPlain,
         TrackingKey;
    GrowthIsDominated(cfg, rule, s, log, pkt, now, k);
    CountAt(s, rule, pkt, k, now, rule.id, k);
    FewerStampsMeetLess(rule, c.rates, Since(log', rule.id, k, false), c.opens, Since(log', rule.id, k, true), now);
    TriggerByStamps(rule, CountRates(s, rule, k, now), CountOpens(s, rule, pkt, k, now), k, now);
  }

  lemma RuleIsDominated(cfg: Config, rule: Rule, s: State, log: seq<Entry>, pkt: Packet, now: Time, k: Addr)
    requires DominatedAt(cfg, rule, s, log, k)
    requires EvalRule(cfg, s, rule, pkt, now).1 == [] && LogRule(cfg, s.conns, log, rule, pkt, now).1 == []
    ensures DominatedAt(cfg, rule, EvalRule(cfg, s, rule, pkt, now).0, LogRule(cfg, s.conns, log, rule, pkt, now).0, k)
  {
    hide EvalRule, LogRule, Hits, Since, Recent, CellOf, Within, IsFresh;
    var c, log' := Extended(CellOf(s, rule.id, k), pkt, now), log + [Hit(rule.id, k, now, IsFresh(pkt))];
    GrowthIsDominated(cfg, rule, s, log, pkt, now, k);
    RecentStaysWithin(c.rates, Since(log', rule.id, k, false), now, WINDOW);
    RecentStaysWithin(c.opens, Since(log', rule.id, k, true), now, WINDOW);
    EvalRuleCell(cfg, s, rule, pkt, now, rule.id, k);
    LogRuleAt(cfg, s.conns, log, rule, pkt, now, rule.id, k, false);
    LogRuleAt(cfg, s.conns, log, rule, pkt, now, rule.id, k, true);
  }

  lemma ObserveIsDominated(cfg: Config, rule: Rule, s: State, log: seq<Entry>, pkt: Packet, now: Time, k: Addr)
    requires DominatedAt(cfg, rule, s, log, k)
    ensures DominatedAt(cfg, rule, Observe(s, pkt, now), log, k)
  {
    hide Observe, Since, Recent, CellOf, Within;
    ObserveCell(s, pkt, now, rule.id, k);
    RecentStaysWithin(CellOf(s, rule.id, k).rates, Since(log, rule.id, k, false), now, WINDOW);
    RecentStaysWithin(CellOf(s, rule.id, k).opens, Since(log, rule.id, k, true), now, WINDOW);
  }

  lemma SameTrackersDominated(cfg: Config, rule: Rule, s: State, s': State, log: seq<Entry>, k: Addr)
    requires DominatedAt(cfg, rule, s, log, k) && s'.rates == s.rates && s'.opens == s.opens
    ensures DominatedAt(cfg, rule, s', log, k)
  {
  }

  lemma StepIsDominated(cfg: Config, rule: Rule, s: State, r: Reference, pkt: Packet, now: Time)
    requires IsPlain(cfg, rule) && Dominated(cfg, rule, s, r) && ReferenceStep(cfg, r, pkt, now).1 == []
    ensures Step(cfg, s, pkt, now).1 == []
    ensures Dominated(cfg, rule, Step(cfg, s, pkt, now).0, ReferenceStep(cfg, r, pkt, now).0)
  {
    assert cfg.rules == [rule];
    hide Observe, EvalRule, LogRule, ConnsOf, DominatedAt, IsPlain, Step, ReferenceStep, TrackingKey;
    var o := Observe(s, pkt, now);
    StepIsRule(cfg, s, rule, pkt, now);
    ReferenceStepIsRule(cfg, r, rule, pkt, now);
    RuleFrame(cfg, o, rule, pkt, now);
    ObserveSame(s, r, pkt, now);
    ObserveIsDominated(cfg, rule, s, r.log, pkt, now, TrackingKey(rule, pkt));
    EngineSilentOnHit(cfg, rule, o, r.log, pkt, now);
    forall k: Addr ensures DominatedAt(cfg, rule, Step(cfg, s, pkt, now).0, ReferenceStep(cfg, r, pkt, now).0.log, k) {
      ObserveIsDominated(cfg, rule, s, r.log, pkt, now, k);
      RuleIsDominated(cfg, rule, o, r.log, pkt, now, k);
      SameTrackersDominated(cfg, rule, EvalRule(cfg, o, rule, pkt, now).0, Step(cfg, s, pkt, now).0,
                            ReferenceStep(cfg, r, pkt, now).0.log, k);
    }
  }

  lemma ObserveSame(s: State, r: Reference, pkt: Packet, now: Time)
    requires s.lastCleanup == r.lastCleanup && s.conns == r.conns
    ensures var o := Observe(s, pkt, now);
            && o.conns == ConnsOf(r, pkt, now)
            && o.lastCleanup == if now - r.lastCleanup >= TICK then now else r.lastCleanup
  {
  }

  /** Silence of the reference engine is silence of the engine, with no stamp but those in the log. */
  lemma {:induction false} SilentRun(cfg: Config, rule: Rule, events: seq<Event>)
    requires IsPlain(cfg, rule) && ReferenceRun(cfg, events).1 == []
    ensures Alerts(cfg, events) == []
    ensures Dominated(cfg, rule, After(cfg, events), ReferenceRun(cfg, events).0)
    decreases |events|
  {
    hide Step, ReferenceStep, DominatedAt, IsPlain;
    if events == [] {
      forall k: Addr ensures DominatedAt(cfg, rule, INITIAL, START.log, k) {
        StartIsDominated(cfg, rule, k);
      }
    } else {
      var init, e := events[..|events| - 1], events[|events| - 1];
      SilentRun(cfg, rule, init);
      StepIsDominated(cfg, rule, After(cfg, init), ReferenceRun(cfg, init).0, e.pkt, e.now);
    }
  }

  lemma StartIsDominated(cfg: Config, rule: Rule, k: Addr)
    ensures DominatedAt(cfg, rule, INITIAL, START.log, k)
  {
  }
}
