/**
  Sensors with several rules. Rules of different identifiers do not see each other's trackers, so each behaves as it
  would alone; hence pruning is invisible for a set of rules exactly when it is for every one of them.
 */
module RuleSets {
  import opened Prelude
  import opened Packets
  import opened Rules
  import opened EngineSpec
  import opened Pruning
  import opened SingleRules
  import opened Lockstep
  import opened PruningLimits
  import opened Windows

  ghost predicate DistinctIds(rules: seq<Rule>) {
    forall i, j :: 0 <= i < j < |rules| ==> rules[i].id != rules[j].id
  }

  /** The same sensor with one of its rules. */
  function Only(cfg: Config, i: nat): Config
    requires i < |cfg.rules|
  {
    cfg.(rules := [cfg.rules[i]])
  }

  // Alerts as the pending alerts they number

  function PendingAt(cfg: Config, s: State, e: Event): seq<Pending> {
    EvalRules(cfg, Observe(s, e.pkt, e.now), cfg.rules, e.pkt, e.now).1
  }

  function PendingRun(cfg: Config, events: seq<Event>): seq<Pending> {
    if events == [] then []
    else
      var init := events[..|events| - 1];
      PendingRun(cfg, init) + PendingAt(cfg, After(cfg, init), events[|events| - 1])
  }

  function LoggedAt(cfg: Config, r: Reference, e: Event): seq<Pending> {
    LogRules(cfg, ConnsOf(r, e.pkt, e.now), r.log, cfg.rules, e.pkt, e.now).1
  }

  function LoggedRun(cfg: Config, events: seq<Event>): seq<Pending> {
    if events == [] then []
    else
      var init := events[..|events| - 1];
      LoggedRun(cfg, init) + LoggedAt(cfg, ReferenceRun(cfg, init).0, events[|events| - 1])
  }

  lemma NumberConcat(p: seq<Pending>, q: seq<Pending>)
    ensures Number(0, p + q) == Number(0, p) + Number(|p|, q)
  {
  }

  lemma NumberIsInjective(p: seq<Pending>, q: seq<Pending>)
    ensures Number(0, p) == Number(0, q) <==> p == q
  {
    if Number(0, p) == Number(0, q) {
      assert |p| == |Number(0, p)| == |Number(0, q)| == |q|;
      forall i | 0 <= i < |p| ensures p[i] == q[i] {
        assert Number(0, p)[i] == Number(0, q)[i];
      }
    }
  }

  lemma {:induction false} AlertsNumberPending(cfg: Config, events: seq<Event>)
    ensures Alerts(cfg, events) == Number(0, PendingRun(cfg, events))
    ensures After(cfg, events).alertCounter == |PendingRun(cfg, events)|
    decreases |events|
  {
    if events == [] {
      assert Number(0, []) == [];
    } else {
      var init, e := events[..|events| - 1], events[|events| - 1];
      AlertsNumberPending(cfg, init);
      NumberConcat(PendingRun(cfg, init), PendingAt(cfg, After(cfg, init), e));
      hide EvalRules, Observe, Number;
      RunLast(cfg, events);
    }
  }

  lemma {:induction false} ReferenceNumbersLogged(cfg: Config, events: seq<Event>)
    ensures ReferenceRun(cfg, events).1 == Number(0, LoggedRun(cfg, events))
    ensures ReferenceRun(cfg, events).0.alertCounter == |LoggedRun(cfg, events)|
    decreases |events|
  {
    if events == [] {
      assert Number(0, []) == [];
    } else {
      var init, e := events[..|events| - 1], events[|events| - 1];
      ReferenceNumbersLogged(cfg, init);
      NumberConcat(LoggedRun(cfg, init), LoggedAt(cfg, ReferenceRun(cfg, init).0, e));
      hide LogRules, ConnsOf, Number;
    }
  }

  lemma SameAlertsIff(cfg: Config, events: seq<Event>)
    ensures Alerts(cfg, events) == ReferenceRun(cfg, events).1 <==> PendingRun(cfg, events) == LoggedRun(cfg, events)
  {
    AlertsNumberPending(cfg, events);
    ReferenceNumbersLogged(cfg, events);
    NumberIsInjective(PendingRun(cfg, events), LoggedRun(cfg, events));
  }

  // What a rule sees of the trackers: the part under its identifier

  function Part(tr: Tracker, id: u32): Option<map<Addr, Stamps>> {
    if id in tr then Some(tr[id]) else None
  }

  /** The two sensors are in the same state as far as this identifier goes. */
  ghost predicate SamePart(s: State, s': State, id: u32) {
    && s.conns == s'.conns && s.lastCleanup == s'.lastCleanup
    && Part(s.rates, id) == Part(s'.rates, id) && Part(s.opens, id) == Part(s'.opens, id)
  }

  ghost predicate SameScope(cfg: Config, cfg': Config) {
    cfg.iface == cfg'.iface && cfg.selfIps == cfg'.selfIps
  }

  lemma PartOfPush(tr: Tracker, tr': Tracker, id: u32, k: Addr, now: Time)
    requires Part(tr, id) == Part(tr', id)
    ensures Part(Push(tr, id, k, now), id) == Part(Push(tr', id, k, now), id)
  {
  }

  lemma PartOfSettle(tr: Tracker, tr': Tracker, id: u32, k: Addr, now: Time, alerted: bool)
    requires Part(tr, id) == Part(tr', id)
    ensures Part(Settle(tr, id, k, now, alerted), id) == Part(Settle(tr', id, k, now, alerted), id)
  {
    hide Recent;
  }

  lemma TriggerByPart(rule: Rule, rates: Tracker, rates': Tracker, opens: Tracker, opens': Tracker, k: Addr, now: Time)
    requires Part(rates, rule.id) == Part(rates', rule.id) && Part(opens, rule.id) == Part(opens', rule.id)
    ensures Trigger(rule, rates, opens, k, now) == Trigger(rule, rates', opens', k, now)
  {
    hide Recent;
  }

  /** A rule's evaluation depends on its own part, and leaves equal parts equal. */
  lemma RuleByPart(cfg: Config, cfg': Config, s: State, s': State, rule: Rule, pkt: Packet, now: Time)
    requires SameScope(cfg, cfg') && SamePart(s, s', rule.id)
    ensures EvalRule(cfg, s, rule, pkt, now).1 == EvalRule(cfg', s', rule, pkt, now).1
    ensures SamePart(EvalRule(cfg, s, rule, pkt, now).0, EvalRule(cfg', s', rule, pkt, now).0, rule.id)
  {
    assert Matches(cfg, rule, pkt, s.conns) <==> Matches(cfg', rule, pkt, s'.conns);
    var k := TrackingKey(rule, pkt);
    PartOfPush(s.rates, s'.rates, rule.id, k, now);
    PartOfPush(s.opens, s'.opens, rule.id, k, now);
    var rates, opens := CountRates(s, rule, k, now), CountOpens(s, rule, pkt, k, now);
    var rates', opens' := CountRates(s', rule, k, now), CountOpens(s', rule, pkt, k, now);
    assert Part(rates, rule.id) == Part(rates', rule.id) && Part(opens, rule.id) == Part(opens', rule.id);
    hide Matches, Part, Settle, Trigger, CountRates, CountOpens, TrackingKey;
    TriggerByPart(rule, rates, rates', opens, opens', k, now);
    var alerted := Trigger(rule, rates, opens, k, now).Some?;
    PartOfSettle(rates, rates', rule.id, k, now, alerted);
    PartOfSettle(opens, opens', rule.id, k, now, alerted);
  }

  lemma OtherPartOfPush(tr: Tracker, id: u32, k: Addr, now: Time, other: u32)
    requires other != id
    ensures Part(Push(tr, id, k, now), other) == Part(tr, other)
  {
  }

  lemma OtherPartOfSettle(tr: Tracker, id: u32, k: Addr, now: Time, alerted: bool, other: u32)
    requires other != id
    ensures Part(Settle(tr, id, k, now, alerted), other) == Part(tr, other)
  {
    hide Recent;
  }

  lemma OtherPartOfBoth(tr: Tracker, id: u32, k: Addr, now: Time, alerted: bool, other: u32)
    requires other != id
    ensures Part(Settle(Push(tr, id, k, now), id, k, now, alerted), other) == Part(tr, other)
    ensures Part(Settle(tr, id, k, now, alerted), other) == Part(tr, other)
  {
    hide Settle, Push, Part;
    OtherPartOfPush(tr, id, k, now, other);
    OtherPartOfSettle(Push(tr, id, k, now), id, k, now, alerted, other);
    OtherPartOfSettle(tr, id, k, now, alerted, other);
  }

  /** Another rule's evaluation leaves the part alone. */
  lemma OtherRuleKeepsPart(cfg: Config, s: State, rule: Rule, pkt: Packet, now: Time, id: u32)
    requires rule.id != id
    ensures SamePart(EvalRule(cfg, s, rule, pkt, now).0, s, id)
  {
    hide Matches, Part, Settle, Push, Trigger, TrackingKey, IsFresh;
    var k := TrackingKey(rule, pkt);
    var alerted := Trigger(rule, CountRates(s, rule, k, now), CountOpens(s, rule, pkt, k, now), k, now).Some?;
    OtherPartOfBoth(s.rates, rule.id, k, now, alerted, id);
    OtherPartOfBoth(s.opens, rule.id, k, now, alerted, id);
  }

  lemma ObserveByPart(s: State, s': State, pkt: Packet, now: Time, id: u32)
    requires SamePart(s, s', id)
    ensures SamePart(Observe(s, pkt, now), Observe(s', pkt, now), id)
  {
    hide UpdateConns, PruneKeys, UpdateAps, UpdateClients;
  }

  lemma RulesNext(cfg: Config, s: State, n: nat, pkt: Packet, now: Time)
    requires n < |cfg.rules|
    ensures var (s1, p1) := EvalRules(cfg, s, cfg.rules[..n], pkt, now);
            var (s2, p2) := EvalRule(cfg, s1, cfg.rules[n], pkt, now);
            EvalRules(cfg, s, cfg.rules[..n + 1], pkt, now) == (s2, p1 + p2)
  {
    assert cfg.rules[..n + 1][..n] == cfg.rules[..n];
  }

  /** The i-th part after the first `n` rules, as the rule alone leaves it. */
  function PartAlone(cfg: Config, s': State, i: nat, n: nat, pkt: Packet, now: Time): State
    requires i < |cfg.rules|
  {
    if n <= i then s' else EvalRule(Only(cfg, i), s', cfg.rules[i], pkt, now).0
  }

  /** Among the first `n` rules, only the i-th moves its part, as it would alone. */
  lemma {:induction false} RulesByPart(cfg: Config, s: State, s': State, i: nat, n: nat, pkt: Packet, now: Time)
    requires DistinctIds(cfg.rules) && i < |cfg.rules| && n <= |cfg.rules|
    requires SamePart(s, s', cfg.rules[i].id)
    ensures SamePart(EvalRules(cfg, s, cfg.rules[..n], pkt, now).0, PartAlone(cfg, s', i, n, pkt, now), cfg.rules[i].id)
    decreases n
  {
    hide EvalRules, EvalRule, SamePart;
    if n == 0 {
      NoRulesYet(cfg, s, pkt, now);
    } else {
      var m: nat := n - 1;
      RulesByPart(cfg, s, s', i, m, pkt, now);
      NextByPart(cfg, s, s', i, m, pkt, now);
    }
  }

  lemma NoRulesYet(cfg: Config, s: State, pkt: Packet, now: Time)
    ensures EvalRules(cfg, s, cfg.rules[..0], pkt, now) == (s, [])
  {
  }

  lemma SamePartChains(a: State, b: State, c: State, id: u32)
    requires SamePart(a, b, id) && SamePart(b, c, id)
    ensures SamePart(a, c, id)
  {
  }

  lemma NextByPart(cfg: Config, s: State, s': State, i: nat, m: nat, pkt: Packet, now: Time)
    requires DistinctIds(cfg.rules) && i < |cfg.rules| && m < |cfg.rules|
    requires SamePart(EvalRules(cfg, s, cfg.rules[..m], pkt, now).0, PartAlone(cfg, s', i, m, pkt, now),
                      cfg.rules[i].id)
    ensures SamePart(EvalRules(cfg, s, cfg.rules[..m + 1], pkt, now).0, PartAlone(cfg, s', i, m + 1, pkt, now),
                     cfg.rules[i].id)
  {
    var s1 := EvalRules(cfg, s, cfg.rules[..m], pkt, now).0;
    hide EvalRules, EvalRule, SamePart;
    RulesNext(cfg, s, m, pkt, now);
    if m == i {
      RuleByPart(cfg, Only(cfg, i), s1, s', cfg.rules[i], pkt, now);
    } else {
      OtherRuleKeepsPart(cfg, s1, cfg.rules[m], pkt, now, cfg.rules[i].id);
      SamePartChains(EvalRule(cfg, s1, cfg.rules[m], pkt, now).0, s1, PartAlone(cfg, s', i, m, pkt, now),
                     cfg.rules[i].id);
    }
  }

  // What a rule sees of the log

  ghost predicate SameLog(log: seq<Entry>, log': seq<Entry>, id: u32) {
    forall k: Addr, onlyFresh: bool :: Since(log, id, k, onlyFresh) == Since(log', id, k, onlyFresh)
  }

  ghost predicate SameReference(r: Reference, r': Reference, id: u32) {
    r.conns == r'.conns && r.lastCleanup == r'.lastCleanup && SameLog(r.log, r'.log, id)
  }

  lemma EntryKeepsSame(log: seq<Entry>, log': seq<Entry>, e: Entry, id: u32)
    requires SameLog(log, log', id)
    ensures SameLog(log + [e], log' + [e], id)
  {
    hide Since;
    forall k: Addr, onlyFresh: bool ensures Since(log + [e], id, k, onlyFresh) == Since(log' + [e], id, k, onlyFresh) {
      SinceHit(log, e, id, k, onlyFresh);
      SinceHit(log', e, id, k, onlyFresh);
    }
  }

  lemma OtherEntryKeepsLog(log: seq<Entry>, e: Entry, id: u32)
    requires e.ruleId != id
    ensures SameLog(log + [e], log, id)
  {
    hide Since;
    forall k: Addr, onlyFresh: bool ensures Since(log + [e], id, k, onlyFresh) == Since(log, id, k, onlyFresh) {
      SinceHit(log, e, id, k, onlyFresh);
    }
  }

  lemma LogRuleByPart(cfg: Config, cfg': Config, conns: ConnTable, log: seq<Entry>, log': seq<Entry>, rule: Rule,
                      pkt: Packet, now: Time)
    requires SameScope(cfg, cfg') && SameLog(log, log', rule.id)
    ensures LogRule(cfg, conns, log, rule, pkt, now).1 == LogRule(cfg', conns, log', rule, pkt, now).1
    ensures SameLog(LogRule(cfg, conns, log, rule, pkt, now).0, LogRule(cfg', conns, log', rule, pkt, now).0, rule.id)
  {
    assert Matches(cfg, rule, pkt, conns) <==> Matches(cfg', rule, pkt, conns);
    hide Matches, Threshold, TrackingKey, SameLog, IsFresh;
    var k := TrackingKey(rule, pkt);
    var hit := Hit(rule.id, k, now, IsFresh(pkt));
    EntryKeepsSame(log, log', hit, rule.id);
    EntryKeepsSame(log + [hit], log' + [hit], Fired(rule.id, k), rule.id);
    SameVerdict(rule, log + [hit], log' + [hit], k, now);
  }

  lemma SameVerdict(rule: Rule, log: seq<Entry>, log': seq<Entry>, k: Addr, now: Time)
    requires SameLog(log, log', rule.id)
    ensures Verdict(rule, log, k, now) == Verdict(rule, log', k, now)
  {
    hide Threshold;
    assert Since(log, rule.id, k, false) == Since(log', rule.id, k, false);
    assert Since(log, rule.id, k, true) == Since(log', rule.id, k, true);
  }

  lemma SameLogChains(a: seq<Entry>, b: seq<Entry>, c: seq<Entry>, id: u32)
    requires SameLog(a, b, id) && SameLog(b, c, id)
    ensures SameLog(a, c, id)
  {
    hide Since;
  }

  lemma OtherRuleKeepsLog(cfg: Config, conns: ConnTable, log: seq<Entry>, rule: Rule, pkt: Packet, now: Time, id: u32)
    requires rule.id != id
    ensures SameLog(LogRule(cfg, conns, log, rule, pkt, now).0, log, id)
  {
    assert SameLog(log, log, id);
    hide Matches, Verdict, TrackingKey, SameLog, IsFresh;
    var k := TrackingKey(rule, pkt);
    var hit := Hit(rule.id, k, now, IsFresh(pkt));
    OtherEntryKeepsLog(log, hit, id);
    OtherEntryKeepsLog(log + [hit], Fired(rule.id, k), id);
    SameLogChains(log + [hit] + [Fired(rule.id, k)], log + [hit], log, id);
  }

  lemma LogRulesNext(cfg: Config, conns: ConnTable, log: seq<Entry>, n: nat, pkt: Packet, now: Time)
    requires n < |cfg.rules|
    ensures var (log1, p1) := LogRules(cfg, conns, log, cfg.rules[..n], pkt, now);
            var (log2, p2) := LogRule(cfg, conns, log1, cfg.rules[n], pkt, now);
            LogRules(cfg, conns, log, cfg.rules[..n + 1], pkt, now) == (log2, p1 + p2)
  {
    assert cfg.rules[..n + 1][..n] == cfg.rules[..n];
  }

  lemma {:induction false} LogRulesByPart(cfg: Config, conns: ConnTable, log: seq<Entry>, log': seq<Entry>, i: nat,
                                          n: nat, pkt: Packet, now: Time)
    requires DistinctIds(cfg.rules) && i < |cfg.rules| && n <= |cfg.rules|
    requires SameLog(log, log', cfg.rules[i].id)
    ensures SameLog(LogRules(cfg, conns, log, cfg.rules[..n], pkt, now).0,
                    if n <= i then log' else LogRule(Only(cfg, i), conns, log', cfg.rules[i], pkt, now).0,
                    cfg.rules[i].id)
    decreases n
  {
    if n == 0 {
    } else {
      var m: nat, rule := n - 1, cfg.rules[i];
      var log1 := LogRules(cfg, conns, log, cfg.rules[..m], pkt, now).0;
      var between := if m <= i then log' else LogRule(Only(cfg, i), conns, log', rule, pkt, now).0;
      hide LogRules, LogRule, SameLog;
      LogRulesByPart(cfg, conns, log, log', i, m, pkt, now);
      LogRulesNext(cfg, conns, log, m, pkt, now);
      if m == i {
        LogRuleByPart(cfg, Only(cfg, i), conns, log1, log', rule, pkt, now);
      } else {
        OtherRuleKeepsLog(cfg, conns, log1, cfg.rules[m], pkt, now, rule.id);
        SameLogChains(LogRule(cfg, conns, log1, cfg.rules[m], pkt, now).0, log1, between, rule.id);
      }
    }
  }

  // Runs: each rule as it would be alone

  lemma StepByPart(cfg: Config, s: State, s': State, i: nat, e: Event)
    requires DistinctIds(cfg.rules) && i < |cfg.rules| && SamePart(s, s', cfg.rules[i].id)
    ensures SamePart(Step(cfg, s, e.pkt, e.now).0, Step(Only(cfg, i), s', e.pkt, e.now).0, cfg.rules[i].id)
  {
    assert cfg.rules[..|cfg.rules|] == cfg.rules;
    var o, o' := Observe(s, e.pkt, e.now), Observe(s', e.pkt, e.now);
    ObserveByPart(s, s', e.pkt, e.now, cfg.rules[i].id);
    hide Observe, EvalRule, EvalRules, Part;
    RulesByPart(cfg, o, o', i, |cfg.rules|, e.pkt, e.now);
    StepIsRule(Only(cfg, i), s', cfg.rules[i], e.pkt, e.now);
  }

  lemma {:induction false} EnginePart(cfg: Config, i: nat, events: seq<Event>)
    requires DistinctIds(cfg.rules) && i < |cfg.rules|
    ensures SamePart(After(cfg, events), After(Only(cfg, i), events), cfg.rules[i].id)
    decreases |events|
  {
    if events == [] {
    } else {
      var init, e := events[..|events| - 1], events[|events| - 1];
      hide Run, Step, SamePart;
      EnginePart(cfg, i, init);
      StepByPart(cfg, After(cfg, init), After(Only(cfg, i), init), i, e);
      RunLast(cfg, events);
      RunLast(Only(cfg, i), events);
    }
  }

  lemma ReferenceStepByPart(cfg: Config, r: Reference, r': Reference, i: nat, e: Event)
    requires DistinctIds(cfg.rules) && i < |cfg.rules| && SameReference(r, r', cfg.rules[i].id)
    ensures SameReference(ReferenceStep(cfg, r, e.pkt, e.now).0, ReferenceStep(Only(cfg, i), r', e.pkt, e.now).0,
                          cfg.rules[i].id)
  {
    assert cfg.rules[..|cfg.rules|] == cfg.rules;
    assert ConnsOf(r, e.pkt, e.now) == ConnsOf(r', e.pkt, e.now);
    hide ConnsOf, LogRule, LogRules, SameLog;
    LogRulesByPart(cfg, ConnsOf(r, e.pkt, e.now), r.log, r'.log, i, |cfg.rules|, e.pkt, e.now);
    ReferenceStepIsRule(Only(cfg, i), r', cfg.rules[i], e.pkt, e.now);
  }

  lemma {:induction false} ReferencePart(cfg: Config, i: nat, events: seq<Event>)
    requires DistinctIds(cfg.rules) && i < |cfg.rules|
    ensures SameReference(ReferenceRun(cfg, events).0, ReferenceRun(Only(cfg, i), events).0, cfg.rules[i].id)
    decreases |events|
  {
    if events == [] {
    } else {
      var init, e := events[..|events| - 1], events[|events| - 1];
      ReferencePart(cfg, i, init);
      hide ReferenceStep, SameReference;
      ReferenceStepByPart(cfg, ReferenceRun(cfg, init).0, ReferenceRun(Only(cfg, i), init).0, i, e);
    }
  }

  /** What the i-th rule raises on the next packet, alone and in the engine. */
  function AloneAt(cfg: Config, i: nat, init: seq<Event>, e: Event): seq<Pending>
    requires i < |cfg.rules|
  {
    EvalRule(Only(cfg, i), Observe(After(Only(cfg, i), init), e.pkt, e.now), cfg.rules[i], e.pkt, e.now).1
  }

  function LoggedAloneAt(cfg: Config, i: nat, init: seq<Event>, e: Event): seq<Pending>
    requires i < |cfg.rules|
  {
    var r := ReferenceRun(Only(cfg, i), init).0;
    LogRule(Only(cfg, i), ConnsOf(r, e.pkt, e.now), r.log, cfg.rules[i], e.pkt, e.now).1
  }

  lemma AloneIsPending(cfg: Config, i: nat, init: seq<Event>, e: Event)
    requires i < |cfg.rules|
    ensures PendingAt(Only(cfg, i), After(Only(cfg, i), init), e) == AloneAt(cfg, i, init, e)
    ensures LoggedAt(Only(cfg, i), ReferenceRun(Only(cfg, i), init).0, e) == LoggedAloneAt(cfg, i, init, e)
  {
    var one, r := Only(cfg, i), ReferenceRun(Only(cfg, i), init).0;
    hide EvalRule, EvalRules, LogRule, LogRules, Observe, ConnsOf, ReferenceRun, After;
    SingleRule(one, Observe(After(one, init), e.pkt, e.now), ConnsOf(r, e.pkt, e.now), r.log, cfg.rules[i], e.pkt,
               e.now);
  }

  /** The next rule in line raises what it would alone. */
  lemma NextAlone(cfg: Config, init: seq<Event>, e: Event, i: nat)
    requires DistinctIds(cfg.rules) && i < |cfg.rules|
    ensures var s1 := EvalRules(cfg, Observe(After(cfg, init), e.pkt, e.now), cfg.rules[..i], e.pkt, e.now).0;
            EvalRule(cfg, s1, cfg.rules[i], e.pkt, e.now).1 == AloneAt(cfg, i, init, e)
  {
    var id := cfg.rules[i].id;
    var o := Observe(After(cfg, init), e.pkt, e.now);
    var o' := Observe(After(Only(cfg, i), init), e.pkt, e.now);
    hide Observe, EvalRule, EvalRules, After, SamePart;
    EnginePart(cfg, i, init);
    ObserveByPart(After(cfg, init), After(Only(cfg, i), init), e.pkt, e.now, id);
    RulesByPart(cfg, o, o', i, i, e.pkt, e.now);
    RuleByPart(cfg, Only(cfg, i), EvalRules(cfg, o, cfg.rules[..i], e.pkt, e.now).0, o', cfg.rules[i], e.pkt, e.now);
  }

  lemma NextLoggedAlone(cfg: Config, init: seq<Event>, e: Event, i: nat)
    requires DistinctIds(cfg.rules) && i < |cfg.rules|
    ensures var r := ReferenceRun(cfg, init).0;
            var conns := ConnsOf(r, e.pkt, e.now);
            var log1 := LogRules(cfg, conns, r.log, cfg.rules[..i], e.pkt, e.now).0;
            LogRule(cfg, conns, log1, cfg.rules[i], e.pkt, e.now).1 == LoggedAloneAt(cfg, i, init, e)
  {
    var r, r' := ReferenceRun(cfg, init).0, ReferenceRun(Only(cfg, i), init).0;
    ReferencePart(cfg, i, init);
    var conns := ConnsOf(r, e.pkt, e.now);
    assert conns == ConnsOf(r', e.pkt, e.now);
    hide ConnsOf, LogRule, LogRules, ReferenceRun, SameLog;
    LogRulesByPart(cfg, conns, r.log, r'.log, i, i, e.pkt, e.now);
    LogRuleByPart(cfg, Only(cfg, i), conns, LogRules(cfg, conns, r.log, cfg.rules[..i], e.pkt, e.now).0, r'.log,
                  cfg.rules[i], e.pkt, e.now);
  }

  // If every rule alone loses nothing, neither do all together

  lemma {:induction false} PrefixSame(cfg: Config, init: seq<Event>, e: Event, n: nat)
    requires DistinctIds(cfg.rules) && n <= |cfg.rules|
    requires After(cfg, init).conns == ReferenceRun(cfg, init).0.conns
    requires forall i :: 0 <= i < |cfg.rules| ==> AloneAt(cfg, i, init, e) == LoggedAloneAt(cfg, i, init, e)
    ensures var r := ReferenceRun(cfg, init).0;
            EvalRules(cfg, Observe(After(cfg, init), e.pkt, e.now), cfg.rules[..n], e.pkt, e.now).1
            == LogRules(cfg, ConnsOf(r, e.pkt, e.now), r.log, cfg.rules[..n], e.pkt, e.now).1
    decreases n
  {
    var o, r := Observe(After(cfg, init), e.pkt, e.now), ReferenceRun(cfg, init).0;
    if n == 0 {
    } else {
      var m: nat := n - 1;
      hide Observe, EvalRule, EvalRules, After, LogRule, LogRules, ReferenceRun, ConnsOf, AloneAt, LoggedAloneAt;
      PrefixSame(cfg, init, e, m);
      RulesNext(cfg, o, m, e.pkt, e.now);
      LogRulesNext(cfg, ConnsOf(r, e.pkt, e.now), r.log, m, e.pkt, e.now);
      NextAlone(cfg, init, e, m);
      NextLoggedAlone(cfg, init, e, m);
    }
  }

  lemma {:induction false} SameConns(cfg: Config, events: seq<Event>)
    ensures After(cfg, events).conns == ReferenceRun(cfg, events).0.conns
    ensures After(cfg, events).lastCleanup == ReferenceRun(cfg, events).0.lastCleanup
    decreases |events|
  {
    if events == [] {
    } else {
      var init, e := events[..|events| - 1], events[|events| - 1];
      var s, r := After(cfg, init), ReferenceRun(cfg, init).0;
      SameConns(cfg, init);
      ObserveConns(s.(alertCounter := 0), r.(alertCounter := 0), e.pkt, e.now);
      hide EvalRules, LogRules, ConnsOf;
      EvalRulesFrame(cfg, Observe(s, e.pkt, e.now), cfg.rules, e.pkt, e.now);
    }
  }

  /** What a rule alone raises on the last packet, given that it loses nothing up to and including it. */
  lemma LastAlone(cfg: Config, i: nat, events: seq<Event>)
    requires i < |cfg.rules| && events != []
    requires PendingRun(Only(cfg, i), events) == LoggedRun(Only(cfg, i), events)
    requires PendingRun(Only(cfg, i), events[..|events| - 1]) == LoggedRun(Only(cfg, i), events[..|events| - 1])
    ensures AloneAt(cfg, i, events[..|events| - 1], events[|events| - 1])
         == LoggedAloneAt(cfg, i, events[..|events| - 1], events[|events| - 1])
  {
    var one, init, e := Only(cfg, i), events[..|events| - 1], events[|events| - 1];
    var p, q := PendingAt(one, After(one, init), e), LoggedAt(one, ReferenceRun(one, init).0, e);
    assert PendingRun(one, init) + p == PendingRun(one, init) + q;
    hide *;
    AloneIsPending(cfg, i, init, e);
    SameTail(PendingRun(one, init), p, q);
  }

  lemma SameTail<T>(a: seq<T>, p: seq<T>, q: seq<T>)
    requires a + p == a + q
    ensures p == q
  {
    assert (a + p)[|a|..] == p && (a + q)[|a|..] == q;
  }

  lemma AloneInvisible(cfg: Config, i: nat, events: seq<Event>, d: Time)
    requires i < |cfg.rules| && PruningInvisible(Only(cfg, i), d) && DisorderAtMost(events, d)
    ensures PendingRun(Only(cfg, i), events) == LoggedRun(Only(cfg, i), events)
  {
    hide Alerts, ReferenceRun, PendingRun, LoggedRun, DisorderAtMost;
    SameAlertsIff(Only(cfg, i), events);
  }

  lemma StepSame(cfg: Config, init: seq<Event>, e: Event)
    requires DistinctIds(cfg.rules)
    requires forall i :: 0 <= i < |cfg.rules| ==> AloneAt(cfg, i, init, e) == LoggedAloneAt(cfg, i, init, e)
    ensures PendingAt(cfg, After(cfg, init), e) == LoggedAt(cfg, ReferenceRun(cfg, init).0, e)
  {
    assert cfg.rules[..|cfg.rules|] == cfg.rules;
    hide EvalRules, LogRules, AloneAt, LoggedAloneAt, Observe, ConnsOf, After, ReferenceRun;
    SameConns(cfg, init);
    PrefixSame(cfg, init, e, |cfg.rules|);
  }

  lemma {:induction false} AllInvisible(cfg: Config, events: seq<Event>, d: Time)
    requires DistinctIds(cfg.rules) && DisorderAtMost(events, d)
    requires forall i :: 0 <= i < |cfg.rules| ==> PruningInvisible(Only(cfg, i), d)
    ensures PendingRun(cfg, events) == LoggedRun(cfg, events)
    decreases |events|
  {
    hide PruningInvisible, AloneAt, LoggedAloneAt, PendingAt, LoggedAt, After, ReferenceRun;
    if events == [] {
    } else {
      var init, e := events[..|events| - 1], events[|events| - 1];
      AllInvisible(cfg, init, d);
      forall i | 0 <= i < |cfg.rules| ensures AloneAt(cfg, i, init, e) == LoggedAloneAt(cfg, i, init, e) {
        AloneInvisible(cfg, i, events, d);
        AloneInvisible(cfg, i, init, d);
        LastAlone(cfg, i, events);
      }
      StepSame(cfg, init, e);
    }
  }

  // If a rule alone loses something, so does the set

  /** The pending alerts of one identifier. */
  function Mine(pending: seq<Pending>, id: u32): seq<Pending> {
    if pending == [] then []
    else
      var p := pending[|pending| - 1];
      Mine(pending[..|pending| - 1], id) + if p.ruleId == id then [p] else []
  }

  lemma {:induction false} MineConcat(a: seq<Pending>, b: seq<Pending>, id: u32)
    ensures Mine(a + b, id) == Mine(a, id) + Mine(b, id)
  {
    if b == [] {
      assert a + b == a;
    } else {
      assert (a + b)[..|a + b| - 1] == a + b[..|b| - 1];
      MineConcat(a, b[..|b| - 1], id);
    }
  }

  /** A rule raises nothing, or one alert of its own. */
  lemma MineOfRule(pending: seq<Pending>, ruleId: u32, id: u32)
    requires |pending| <= 1 && forall p :: p in pending ==> p.ruleId == ruleId
    ensures Mine(pending, id) == if ruleId == id then pending else []
  {
    if |pending| == 1 {
      assert pending == [pending[0]] && pending[0] in pending;
    }
  }

  lemma RaisesOwn(cfg: Config, s: State, conns: ConnTable, log: seq<Entry>, rule: Rule, pkt: Packet, now: Time)
    ensures var p, q := EvalRule(cfg, s, rule, pkt, now).1, LogRule(cfg, conns, log, rule, pkt, now).1;
            && |p| <= 1 && (forall a :: a in p ==> a.ruleId == rule.id)
            && |q| <= 1 && (forall a :: a in q ==> a.ruleId == rule.id)
  {
    hide Matches, Trigger, Verdict, Settle;
  }

  lemma MineOfNext(p1: seq<Pending>, p2: seq<Pending>, ruleId: u32, id: u32)
    requires |p2| <= 1 && forall p :: p in p2 ==> p.ruleId == ruleId
    ensures Mine(p1 + p2, id) == Mine(p1, id) + if ruleId == id then p2 else []
    ensures ruleId != id ==> Mine(p1 + p2, id) == Mine(p1, id)
  {
    MineConcat(p1, p2, id);
    MineOfRule(p2, ruleId, id);
    NothingMore(Mine(p1, id));
  }

  /** What the first `n` rules of the engine raise under the i-th identifier. */
  function MineOf(cfg: Config, init: seq<Event>, e: Event, i: nat, n: nat): seq<Pending>
    requires i < |cfg.rules| && n <= |cfg.rules|
  {
    Mine(EvalRules(cfg, Observe(After(cfg, init), e.pkt, e.now), cfg.rules[..n], e.pkt, e.now).1, cfg.rules[i].id)
  }

  function MineLogged(cfg: Config, init: seq<Event>, e: Event, i: nat, n: nat): seq<Pending>
    requires i < |cfg.rules| && n <= |cfg.rules|
  {
    var r := ReferenceRun(cfg, init).0;
    Mine(LogRules(cfg, ConnsOf(r, e.pkt, e.now), r.log, cfg.rules[..n], e.pkt, e.now).1, cfg.rules[i].id)
  }

  /** One more rule adds its own alerts, if the identifier is its own. */
  lemma MineNext(cfg: Config, init: seq<Event>, e: Event, i: nat, m: nat)
    requires DistinctIds(cfg.rules) && i < |cfg.rules| && m < |cfg.rules|
    ensures MineOf(cfg, init, e, i, m + 1)
         == MineOf(cfg, init, e, i, m) + if m == i then AloneAt(cfg, i, init, e) else []
  {
    var o := Observe(After(cfg, init), e.pkt, e.now);
    var (s1, p1) := EvalRules(cfg, o, cfg.rules[..m], e.pkt, e.now);
    var p2 := EvalRule(cfg, s1, cfg.rules[m], e.pkt, e.now).1;
    hide Observe, EvalRule, EvalRules, After, AloneAt, Mine;
    RulesNext(cfg, o, m, e.pkt, e.now);
    RaisesOwn(cfg, s1, s1.conns, [], cfg.rules[m], e.pkt, e.now);
    MineOfNext(p1, p2, cfg.rules[m].id, cfg.rules[i].id);
    NothingMore(Mine(p1, cfg.rules[i].id));
    NextAlone(cfg, init, e, m);
  }

  lemma MineLoggedNext(cfg: Config, init: seq<Event>, e: Event, i: nat, m: nat)
    requires DistinctIds(cfg.rules) && i < |cfg.rules| && m < |cfg.rules|
    ensures MineLogged(cfg, init, e, i, m + 1)
         == MineLogged(cfg, init, e, i, m) + if m == i then LoggedAloneAt(cfg, i, init, e) else []
  {
    var r := ReferenceRun(cfg, init).0;
    var conns := ConnsOf(r, e.pkt, e.now);
    var (log1, q1) := LogRules(cfg, conns, r.log, cfg.rules[..m], e.pkt, e.now);
    var q2 := LogRule(cfg, conns, log1, cfg.rules[m], e.pkt, e.now).1;
    hide LogRule, LogRules, ReferenceRun, ConnsOf, LoggedAloneAt, Mine;
    LogRulesNext(cfg, conns, r.log, m, e.pkt, e.now);
    RaisesOwn(cfg, INITIAL, conns, log1, cfg.rules[m], e.pkt, e.now);
    MineOfNext(q1, q2, cfg.rules[m].id, cfg.rules[i].id);
    NothingMore(Mine(q1, cfg.rules[i].id));
    NextLoggedAlone(cfg, init, e, m);
  }

  lemma MineOfNone(cfg: Config, init: seq<Event>, e: Event, i: nat)
    requires i < |cfg.rules|
    ensures MineOf(cfg, init, e, i, 0) == [] && MineLogged(cfg, init, e, i, 0) == []
  {
  }

  lemma {:induction false} MineOfPrefix(cfg: Config, init: seq<Event>, e: Event, i: nat, n: nat)
    requires DistinctIds(cfg.rules) && i < |cfg.rules| && n <= |cfg.rules|
    ensures MineOf(cfg, init, e, i, n) == if n <= i then [] else AloneAt(cfg, i, init, e)
    ensures MineLogged(cfg, init, e, i, n) == if n <= i then [] else LoggedAloneAt(cfg, i, init, e)
    decreases n
  {
    hide MineOf, MineLogged, AloneAt, LoggedAloneAt;
    if n == 0 {
      MineOfNone(cfg, init, e, i);
    } else {
      var m: nat := n - 1;
      MineOfPrefix(cfg, init, e, i, m);
      MineNext(cfg, init, e, i, m);
      MineLoggedNext(cfg, init, e, i, m);
      NothingMore(AloneAt(cfg, i, init, e));
      NothingMore(LoggedAloneAt(cfg, i, init, e));
    }
  }

  lemma MineOfStep(cfg: Config, init: seq<Event>, e: Event, i: nat)
    requires DistinctIds(cfg.rules) && i < |cfg.rules|
    ensures Mine(PendingAt(cfg, After(cfg, init), e), cfg.rules[i].id) == AloneAt(cfg, i, init, e)
    ensures Mine(LoggedAt(cfg, ReferenceRun(cfg, init).0, e), cfg.rules[i].id) == LoggedAloneAt(cfg, i, init, e)
  {
    assert cfg.rules[..|cfg.rules|] == cfg.rules;
    hide EvalRules, LogRules, AloneAt, LoggedAloneAt, Observe, ConnsOf, After, ReferenceRun, Mine;
    MineOfPrefix(cfg, init, e, i, |cfg.rules|);
  }

  /** In a set, each rule raises exactly what it would alone, in both engines. */
  lemma {:induction false} MineIsAlone(cfg: Config, i: nat, events: seq<Event>)
    requires DistinctIds(cfg.rules) && i < |cfg.rules|
    ensures Mine(PendingRun(cfg, events), cfg.rules[i].id) == PendingRun(Only(cfg, i), events)
    ensures Mine(LoggedRun(cfg, events), cfg.rules[i].id) == LoggedRun(Only(cfg, i), events)
    decreases |events|
  {
    if events == [] {
    } else {
      var init, e, id := events[..|events| - 1], events[|events| - 1], cfg.rules[i].id;
      hide PendingAt, LoggedAt, After, ReferenceRun, Mine, AloneAt, LoggedAloneAt;
      MineIsAlone(cfg, i, init);
      MineOfStep(cfg, init, e, i);
      AloneIsPending(cfg, i, init, e);
      MineConcat(PendingRun(cfg, init), PendingAt(cfg, After(cfg, init), e), id);
      MineConcat(LoggedRun(cfg, init), LoggedAt(cfg, ReferenceRun(cfg, init).0, e), id);
    }
  }

  /** A set of rules with distinct identifiers loses nothing if and only if none of them does alone. */
  lemma {:induction false} InvisibleIffAlone(cfg: Config, d: Time)
    requires DistinctIds(cfg.rules)
    ensures PruningInvisible(cfg, d) <==> forall i :: 0 <= i < |cfg.rules| ==> PruningInvisible(Only(cfg, i), d)
  {
    hide Alerts, ReferenceRun, DisorderAtMost, PendingRun, LoggedRun, Mine;
    if forall i :: 0 <= i < |cfg.rules| ==> PruningInvisible(Only(cfg, i), d) {
      forall events | DisorderAtMost(events, d) ensures Alerts(cfg, events) == ReferenceRun(cfg, events).1 {
        AllInvisible(cfg, events, d);
        SameAlertsIff(cfg, events);
      }
    }
    if PruningInvisible(cfg, d) {
      forall i | 0 <= i < |cfg.rules| ensures PruningInvisible(Only(cfg, i), d) {
        forall events | DisorderAtMost(events, d)
          ensures Alerts(Only(cfg, i), events) == ReferenceRun(Only(cfg, i), events).1
        {
          SameAlertsIff(cfg, events);
          MineIsAlone(cfg, i, events);
          SameAlertsIff(Only(cfg, i), events);
        }
      }
    }
  }

  /** Whether a rule is safe does not depend on the others. */
  lemma SafetyIsOwn(cfg: Config, cfg': Config, rule: Rule, d: Time)
    requires SameScope(cfg, cfg')
    ensures IsSafe(cfg, rule, d) ==> IsSafe(cfg', rule, d)
  {
    assert forall pkt, conns :: Matches(cfg, rule, pkt, conns) <==> Matches(cfg', rule, pkt, conns);
    hide Matches, Begun;
  }

  /**
    The exact boundary for every sensor whose rules have distinct identifiers: pruning is invisible on clocks
    disordered by at most `d` if and only if every rule's limits are safe.
   */
  lemma {:induction false} PruningInvisibleForAllIff(cfg: Config, d: Time)
    requires DistinctIds(cfg.rules) && d >= 0.0
    ensures PruningInvisible(cfg, d) <==> forall r :: r in cfg.rules ==> IsSafe(cfg, r, d)
  {
    hide PruningInvisible, IsSafe;
    InvisibleIffAlone(cfg, d);
    forall i | 0 <= i < |cfg.rules| ensures PruningInvisible(Only(cfg, i), d) <==> IsSafe(cfg, cfg.rules[i], d) {
      assert cfg.rules[i] in cfg.rules;
      PruningInvisibleIff(Only(cfg, i), cfg.rules[i], d);
      SafetyIsOwn(cfg, Only(cfg, i), cfg.rules[i], d);
      SafetyIsOwn(Only(cfg, i), cfg, cfg.rules[i], d);
    }
  }
}
