/** How often a rule can alert, and how alerts are numbered. */
module Alerting {
  import opened Prelude
  import opened Packets
  import opened Rules
  import opened EngineSpec
  import opened Windows

  /** How many of the rules a packet matches for the pair (id, k). */
  function HitCount(cfg: Config, conns: ConnTable, rules: seq<Rule>, pkt: Packet, id: u32, k: Addr): nat {
    if rules == [] then 0
    else
      HitCount(cfg, conns, rules[..|rules| - 1], pkt, id, k)
      + if Hits(cfg, conns, rules[|rules| - 1], pkt, id, k) then 1 else 0
  }

  /** The matching packets of a run for one pair. */
  function Matching(cfg: Config, events: seq<Event>, id: u32, k: Addr): nat {
    if events == [] then 0
    else
      var init, e := events[..|events| - 1], events[|events| - 1];
      Matching(cfg, init, id, k)
      + HitCount(cfg, Observe(After(cfg, init), e.pkt, e.now).conns, cfg.rules, e.pkt, id, k)
  }

  function PendingFor(pending: seq<Pending>, id: u32, k: Addr): nat {
    if pending == [] then 0
    else
      var p := pending[|pending| - 1];
      PendingFor(pending[..|pending| - 1], id, k) + if p.ruleId == id && p.sender == k then 1 else 0
  }

  /** The alerts a run raised for one pair. */
  function AlertsFor(alerts: seq<Alert>, id: u32, k: Addr): nat {
    if alerts == [] then 0
    else
      var a := alerts[|alerts| - 1];
      AlertsFor(alerts[..|alerts| - 1], id, k) + if a.ruleId == id && a.sender == k then 1 else 0
  }

  /** No rule with this id alerts below `threshold`. */
  ghost predicate AtLeast(rules: seq<Rule>, id: u32, threshold: nat) {
    forall r :: r in rules && r.id == id ==>
      && (r.maxRps.Some? ==> threshold <= r.maxRps.value)
      && (r.maxConnRate.Some? ==> threshold <= r.maxConnRate.value.connections)
  }

  /** The connection tracker's stamps are among the packet tracker's, in the same order. */
  predicate Covered(c: Cell) {
    Within(c.opens, c.rates)
  }

  lemma ExtendedIsCovered(c: Cell, pkt: Packet, now: Time)
    requires Covered(c)
    ensures Covered(Extended(c, pkt, now))
  {
    WithinGrows(c.opens, c.rates, now);
  }

  /** An alert takes at least `threshold` stamps of the packet tracker with it. */
  lemma AlertCostsThreshold(cfg: Config, s: State, rule: Rule, pkt: Packet, now: Time, threshold: nat)
    requires Matches(cfg, rule, pkt, s.conns) && EvalRule(cfg, s, rule, pkt, now).1 != []
    requires AtLeast([rule], rule.id, threshold)
    requires Covered(CellOf(s, rule.id, TrackingKey(rule, pkt)))
    ensures threshold <= |CellOf(s, rule.id, TrackingKey(rule, pkt)).rates| + 1
  {
    var id, k := rule.id, TrackingKey(rule, pkt);
    assert rule in [rule];
    var rates, opens := CountRates(s, rule, k, now), CountOpens(s, rule, pkt, k, now);
    CountAt(s, rule, pkt, k, now, id, k);
    var c := CellOf(s, id, k);
    WithinSize(c.opens, c.rates);
    RecentShrinks(StampsOf(rates, id, k), now, 1.0);
    if rule.maxConnRate.Some? {
      RecentShrinks(StampsOf(opens, id, k), now, rule.maxConnRate.value.interval);
    }
    assert Trigger(rule, rates, opens, k, now).Some?;
  }

  /** The stamps that so many alerts consume: `threshold` for each. */
  function Cost(threshold: nat, alerts: nat): nat {
    if alerts == 0 then 0 else Cost(threshold, alerts - 1) + threshold
  }

  lemma {:induction false} CostIsProduct(threshold: nat, alerts: nat)
    ensures Cost(threshold, alerts) == threshold * alerts
  {
    if alerts == 0 {
    } else {
      CostIsProduct(threshold, alerts - 1);
    }
  }

  lemma {:induction false} CostSum(threshold: nat, a1: nat, a2: nat)
    ensures Cost(threshold, a1 + a2) == Cost(threshold, a1) + Cost(threshold, a2)
  {
    if a2 == 0 {
    } else {
      CostSum(threshold, a1, a2 - 1);
    }
  }

  /** The cost of the alerts, plus the stamps kept, is covered by the stamps held before and the hits. */
  ghost predicate Paid(threshold: nat, alerts: nat, before: nat, hits: nat, kept: nat) {
    Cost(threshold, alerts) + kept <= before + hits
  }

  lemma PaidInSequence(threshold: nat, a1: nat, a2: nat, before: nat, h1: nat, between: nat, h2: nat, kept: nat)
    requires Paid(threshold, a1, before, h1, between) && Paid(threshold, a2, between, h2, kept)
    ensures Paid(threshold, a1 + a2, before, h1 + h2, kept)
  {
    CostSum(threshold, a1, a2);
  }

  /** A rule raises at most one alert, and only for the pair it hits. */
  lemma RulePending(cfg: Config, s: State, rule: Rule, pkt: Packet, now: Time, id: u32, k: Addr)
    ensures var pending := EvalRule(cfg, s, rule, pkt, now).1;
            PendingFor(pending, id, k) == if pending != [] && Hits(cfg, s.conns, rule, pkt, id, k) then 1 else 0
  {
    var pending := EvalRule(cfg, s, rule, pkt, now).1;
    assert pending != [] ==> |pending| == 1 && pending[..0] == [];
    assert PendingFor([], id, k) == 0;
  }

  /** Per rule: coverage is kept and the alert, if any, is paid for. */
  lemma RulePays(cfg: Config, s: State, rule: Rule, pkt: Packet, now: Time, id: u32, k: Addr, threshold: nat)
    requires AtLeast([rule], id, threshold) && Covered(CellOf(s, id, k))
    ensures var (s', pending) := EvalRule(cfg, s, rule, pkt, now);
            && Covered(CellOf(s', id, k))
            && Paid(threshold, PendingFor(pending, id, k), |CellOf(s, id, k).rates|,
                    if Hits(cfg, s.conns, rule, pkt, id, k) then 1 else 0, |CellOf(s', id, k).rates|)
  {
    var c := CellOf(s, id, k);
    var pending := EvalRule(cfg, s, rule, pkt, now).1;
    EvalRuleCell(cfg, s, rule, pkt, now, id, k);
    RulePending(cfg, s, rule, pkt, now, id, k);
    if Hits(cfg, s.conns, rule, pkt, id, k) {
      if pending == [] {
        ExtendedIsCovered(c, pkt, now);
        WithinRecent(Extended(c, pkt, now).opens, Extended(c, pkt, now).rates, now, WINDOW);
        RecentShrinks(c.rates + [now], now, WINDOW);
      } else {
        AlertCostsThreshold(cfg, s, rule, pkt, now, threshold);
      }
    }
  }

  lemma {:induction false} PendingForSum(p: seq<Pending>, q: seq<Pending>, id: u32, k: Addr)
    ensures PendingFor(p + q, id, k) == PendingFor(p, id, k) + PendingFor(q, id, k)
  {
    if q == [] {
      assert p + q == p;
    } else {
      assert (p + q)[..|p + q| - 1] == p + q[..|q| - 1];
      PendingForSum(p, q[..|q| - 1], id, k);
    }
  }

  lemma {:induction false} RulesPay(cfg: Config, s: State, rules: seq<Rule>, pkt: Packet, now: Time, id: u32, k: Addr,
                                    threshold: nat)
    requires AtLeast(rules, id, threshold) && Covered(CellOf(s, id, k))
    ensures var (s', pending) := EvalRules(cfg, s, rules, pkt, now);
            && Covered(CellOf(s', id, k))
            && Paid(threshold, PendingFor(pending, id, k), |CellOf(s, id, k).rates|,
                    HitCount(cfg, s.conns, rules, pkt, id, k), |CellOf(s', id, k).rates|)
  {
    hide EvalRules, EvalRule, Covered, CellOf, Hits, Paid, PendingFor, HitCount, AtLeast;
    if rules == [] {
      NoRules(cfg, s, pkt, now, id, k, threshold);
    } else {
      HitCountLast(cfg, s.conns, rules, pkt, id, k);
      AtLeastSplit(rules, id, threshold);
      var init, rule := rules[..|rules| - 1], rules[|rules| - 1];
      RulesPay(cfg, s, init, pkt, now, id, k, threshold);
      EvalRulesLast(cfg, s, rules, pkt, now);
      var (s1, p1) := EvalRules(cfg, s, init, pkt, now);
      var (s2, p2) := EvalRule(cfg, s1, rule, pkt, now);
      RulePays(cfg, s1, rule, pkt, now, id, k, threshold);
      PendingForSum(p1, p2, id, k);
      PaidInSequence(threshold, PendingFor(p1, id, k), PendingFor(p2, id, k), |CellOf(s, id, k).rates|,
                     HitCount(cfg, s.conns, init, pkt, id, k), |CellOf(s1, id, k).rates|,
                     if Hits(cfg, s.conns, rule, pkt, id, k) then 1 else 0, |CellOf(s2, id, k).rates|);
    }
  }

  lemma NoRules(cfg: Config, s: State, pkt: Packet, now: Time, id: u32, k: Addr, threshold: nat)
    ensures EvalRules(cfg, s, [], pkt, now) == (s, [])
    ensures Paid(threshold, PendingFor([], id, k), |CellOf(s, id, k).rates|,
                 HitCount(cfg, s.conns, [], pkt, id, k), |CellOf(s, id, k).rates|)
  {
  }

  lemma AtLeastSplit(rules: seq<Rule>, id: u32, threshold: nat)
    requires rules != [] && AtLeast(rules, id, threshold)
    ensures AtLeast(rules[..|rules| - 1], id, threshold) && AtLeast([rules[|rules| - 1]], id, threshold)
  {
  }

  lemma HitCountLast(cfg: Config, conns: ConnTable, rules: seq<Rule>, pkt: Packet, id: u32, k: Addr)
    requires rules != []
    ensures HitCount(cfg, conns, rules, pkt, id, k)
         == HitCount(cfg, conns, rules[..|rules| - 1], pkt, id, k)
            + if Hits(cfg, conns, rules[|rules| - 1], pkt, id, k) then 1 else 0
  {
  }

  lemma {:induction false} AlertsForNumbered(earlier: seq<Alert>, counter: nat, pending: seq<Pending>, id: u32, k: Addr)
    ensures AlertsFor(earlier + Number(counter, pending), id, k)
         == AlertsFor(earlier, id, k) + PendingFor(pending, id, k)
  {
    if pending == [] {
      assert earlier + Number(counter, pending) == earlier;
    } else {
      var init, n := pending[..|pending| - 1], |pending| - 1;
      var all := earlier + Number(counter, pending);
      assert all[..|all| - 1] == earlier + Number(counter, init);
      AlertsForNumbered(earlier, counter, init, id, k);
    }
  }

  lemma StepPays(cfg: Config, s: State, earlier: seq<Alert>, e: Event, id: u32, k: Addr, threshold: nat)
    returns (raised: nat)
    requires AtLeast(cfg.rules, id, threshold) && Covered(CellOf(s, id, k))
    ensures var (s', alerts) := Step(cfg, s, e.pkt, e.now);
            && Covered(CellOf(s', id, k))
            && AlertsFor(earlier + alerts, id, k) == AlertsFor(earlier, id, k) + raised
            && Paid(threshold, raised, |CellOf(s, id, k).rates|,
                    HitCount(cfg, Observe(s, e.pkt, e.now).conns, cfg.rules, e.pkt, id, k), |CellOf(s', id, k).rates|)
  {
    var o, c := Observe(s, e.pkt, e.now), CellOf(s, id, k);
    ObserveCell(s, e.pkt, e.now, id, k);
    WithinRecent(c.opens, c.rates, e.now, WINDOW);
    RecentShrinks(c.rates, e.now, WINDOW);
    RulesPay(cfg, o, cfg.rules, e.pkt, e.now, id, k, threshold);
    var (s', pending) := EvalRules(cfg, o, cfg.rules, e.pkt, e.now);
    raised := PendingFor(pending, id, k);
    AlertsForNumbered(earlier, s.alertCounter, pending, id, k);
    assert CellOf(Step(cfg, s, e.pkt, e.now).0, id, k) == CellOf(s', id, k);
  }

  /**
    Amortised alerting: every alert for a rule and key is paid for by at least `threshold` matching
    packets of its own, and the packets still counted towards the next alert come on top.
   */
  lemma {:induction false} AlertsArePaidFor(cfg: Config, events: seq<Event>, id: u32, k: Addr, threshold: nat)
    requires AtLeast(cfg.rules, id, threshold)
    ensures Covered(CellOf(After(cfg, events), id, k))
    ensures Paid(threshold, AlertsFor(Alerts(cfg, events), id, k), 0, Matching(cfg, events, id, k),
                 |CellOf(After(cfg, events), id, k).rates|)
  {
    hide After, Alerts, Step, Covered, CellOf, Paid, AlertsFor, HitCount, Observe, Matching;
    if events == [] {
      NoEvents(cfg, id, k, threshold);
    } else {
      MatchingLast(cfg, events, id, k);
      var init, e := events[..|events| - 1], events[|events| - 1];
      AlertsArePaidFor(cfg, init, id, k, threshold);
      RunLast(cfg, events);
      var s, alerts := After(cfg, init), Alerts(cfg, init);
      var raised := StepPays(cfg, s, alerts, e, id, k, threshold);
      PaidInSequence(threshold, AlertsFor(alerts, id, k), raised, 0,
                     Matching(cfg, init, id, k), |CellOf(s, id, k).rates|,
                     HitCount(cfg, Observe(s, e.pkt, e.now).conns, cfg.rules, e.pkt, id, k),
                     |CellOf(After(cfg, events), id, k).rates|);
    }
  }

  lemma NoEvents(cfg: Config, id: u32, k: Addr, threshold: nat)
    ensures Covered(CellOf(After(cfg, []), id, k))
    ensures Paid(threshold, AlertsFor(Alerts(cfg, []), id, k), 0, Matching(cfg, [], id, k),
                 |CellOf(After(cfg, []), id, k).rates|)
  {
    assert CellOf(After(cfg, []), id, k) == Cell([], []);
  }

  lemma MatchingLast(cfg: Config, events: seq<Event>, id: u32, k: Addr)
    requires events != []
    ensures var init, e := events[..|events| - 1], events[|events| - 1];
            Matching(cfg, events, id, k)
            == Matching(cfg, init, id, k)
               + HitCount(cfg, Observe(After(cfg, init), e.pkt, e.now).conns, cfg.rules, e.pkt, id, k)
  {
  }

  /** In particular, alerts times the smallest threshold never exceed the matching packets. */
  lemma AlertsTimesThreshold(cfg: Config, events: seq<Event>, id: u32, k: Addr, threshold: nat)
    requires AtLeast(cfg.rules, id, threshold)
    ensures threshold * AlertsFor(Alerts(cfg, events), id, k) <= Matching(cfg, events, id, k)
  {
    AlertsArePaidFor(cfg, events, id, k, threshold);
    CostIsProduct(threshold, AlertsFor(Alerts(cfg, events), id, k));
  }

  /** The j-th message of a whole run carries sequence number j. */
  lemma {:induction false} SequenceNumbersAreConsecutive(cfg: Config, events: seq<Event>)
    ensures After(cfg, events).alertCounter == |Alerts(cfg, events)|
    ensures forall j :: 0 <= j < |Alerts(cfg, events)| ==> Alerts(cfg, events)[j].seqNo == j + 1
  {
    if events == [] {
    } else {
      SequenceNumbersAreConsecutive(cfg, events[..|events| - 1]);
    }
  }
}
