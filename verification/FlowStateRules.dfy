/** What a rule's flow state does to its trackers, in every reachable state. */
module FlowStateRules {
  import opened Prelude
  import opened Packets
  import opened Rules
  import opened EngineSpec

  /** The table already reflects the packet: a bare SYN has left its connection new. */
  ghost predicate Updated(conns: ConnTable, pkt: Packet) {
    IsOpening(pkt) ==> KeyOf(pkt) in conns && conns[KeyOf(pkt)].state == New
  }

  ghost predicate AllInState(rules: seq<Rule>, id: u32, state: FlowState) {
    forall r :: r in rules && r.id == id ==> r.flowState == state
  }

  lemma ObserveUpdates(s: State, pkt: Packet, now: Time)
    ensures Updated(Observe(s, pkt, now).conns, pkt)
  {
  }

  /** The table is updated before matching, so no packet is both new and established. */
  lemma NewExcludesEstablished(cfg: Config, s: State, pkt: Packet, now: Time, newRule: Rule, establishedRule: Rule)
    requires newRule.flowState == NewState && establishedRule.flowState == EstablishedState
    requires Matches(cfg, newRule, pkt, Observe(s, pkt, now).conns)
    ensures !Matches(cfg, establishedRule, pkt, Observe(s, pkt, now).conns)
  {
    ObserveUpdates(s, pkt, now);
  }

  /** Settling a tracker, and counting for another rule, add no entry for a rule. */
  lemma NoNewEntry(tr: Tracker, id: u32, k: Addr, now: Time, alerted: bool, other: u32)
    requires id !in tr
    ensures id !in Settle(tr, other, k, now, alerted)
    ensures other != id ==> id !in Push(tr, other, k, now)
  {
  }

  /** An established rule matches no packet that opens a connection or is not TCP. */
  lemma EstablishedIsNotFresh(cfg: Config, conns: ConnTable, rule: Rule, pkt: Packet)
    requires Updated(conns, pkt) && rule.flowState == EstablishedState && Matches(cfg, rule, pkt, conns)
    ensures !IsFresh(pkt)
  {
  }

  /** An established rule never counts a connection, and alerts only on its per-second limit. */
  lemma EstablishedRuleStep(cfg: Config, s: State, rule: Rule, pkt: Packet, now: Time, id: u32)
    requires Updated(s.conns, pkt) && id !in s.opens
    requires rule.id == id ==> rule.flowState == EstablishedState
    ensures id !in EvalRule(cfg, s, rule, pkt, now).0.opens
    ensures rule.id == id && EvalRule(cfg, s, rule, pkt, now).1 != [] ==>
              && rule.maxRps.Some?
              && |Recent(StampsOf(s.rates, id, TrackingKey(rule, pkt)) + [now], now, 1.0)| >= rule.maxRps.value
  {
    if Matches(cfg, rule, pkt, s.conns) {
      var k := TrackingKey(rule, pkt);
      var rates, opens := CountRates(s, rule, k, now), CountOpens(s, rule, pkt, k, now);
      if rule.id == id {
        EstablishedIsNotFresh(cfg, s.conns, rule, pkt);
      }
      PushAt(s.rates, rule.id, k, now, rule.id, k);
      NoNewEntry(s.opens, id, k, now, false, rule.id);
      assert id !in opens;
      NoNewEntry(opens, id, k, now, Trigger(rule, rates, opens, k, now).Some?, rule.id);
    }
  }

  lemma {:induction false} EstablishedRules(cfg: Config, s: State, rules: seq<Rule>, pkt: Packet, now: Time, id: u32)
    requires Updated(s.conns, pkt) && id !in s.opens && AllInState(rules, id, EstablishedState)
    ensures var (s', pending) := EvalRules(cfg, s, rules, pkt, now);
            && id !in s'.opens
            && forall p :: p in pending && p.ruleId == id ==> exists r :: r in rules && r.id == id && r.maxRps.Some?
  {
    if rules == [] {
    } else {
      var init, rule := rules[..|rules| - 1], rules[|rules| - 1];
      EstablishedRules(cfg, s, init, pkt, now, id);
      EvalRulesFrame(cfg, s, init, pkt, now);
      var s1 := EvalRules(cfg, s, init, pkt, now).0;
      assert rule in rules;
      EstablishedRuleStep(cfg, s1, rule, pkt, now, id);
      var p2 := EvalRule(cfg, s1, rule, pkt, now).1;
      forall p | p in p2 && p.ruleId == id ensures rule.id == id && rule.maxRps.Some? {
      }
    }
  }

  /**
    A rule for established flows never has an entry in the connection tracker, so without a per-second
    limit it never alerts.
   */
  lemma {:induction false} EstablishedRulesNeverCountConnections(cfg: Config, events: seq<Event>, id: u32)
    requires AllInState(cfg.rules, id, EstablishedState)
    ensures id !in After(cfg, events).opens
    ensures (forall r :: r in cfg.rules && r.id == id ==> r.maxRps.None?) ==>
              forall a :: a in Alerts(cfg, events) ==> a.ruleId != id
  {
    if events == [] {
    } else {
      var init, e := events[..|events| - 1], events[|events| - 1];
      EstablishedRulesNeverCountConnections(cfg, init, id);
      var s := After(cfg, init);
      var o := Observe(s, e.pkt, e.now);
      ObserveUpdates(s, e.pkt, e.now);
      EstablishedRules(cfg, o, cfg.rules, e.pkt, e.now, id);
      var pending := EvalRules(cfg, o, cfg.rules, e.pkt, e.now).1;
      forall a | a in Number(s.alertCounter, pending) ensures exists p :: p in pending && p.ruleId == a.ruleId {
        var i :| 0 <= i < |pending| && a == Number(s.alertCounter, pending)[i];
        assert pending[i] in pending;
      }
    }
  }

  // The count and interval of an established rule's connection limit are inert.

  function PerOf(rule: Rule): Per {
    if rule.maxConnRate.Some? then rule.maxConnRate.value.per else PerSrc
  }

  /**
    The rules differ at most in the connections and the interval of their limit, or in having one per
    source at all.
   */
  ghost predicate SameButLimit(r: Rule, r': Rule) {
    r'.(maxConnRate := r.maxConnRate) == r && PerOf(r') == PerOf(r)
  }

  ghost predicate Relimited(rules: seq<Rule>, r: Rule, r': Rule) {
    r' == r || (SameButLimit(r, r') && AllInState(rules, r.id, EstablishedState))
  }

  /**
    The configurations differ only in the connection limits of identifiers whose rules are all for
    established flows.
   */
  ghost predicate SameButEstablishedLimits(cfg: Config, cfg': Config) {
    && cfg'.iface == cfg.iface && cfg'.selfIps == cfg.selfIps
    && |cfg'.rules| == |cfg.rules|
    && forall i :: 0 <= i < |cfg.rules| ==> Relimited(cfg.rules, cfg.rules[i], cfg'.rules[i])
  }

  /** No entry, no verdict on connections: the limit does not matter to one evaluation. */
  lemma RelimitedRule(cfg: Config, cfg': Config, s: State, r: Rule, r': Rule, pkt: Packet, now: Time)
    requires cfg'.iface == cfg.iface && cfg'.selfIps == cfg.selfIps
    requires SameButLimit(r, r') && r.flowState == EstablishedState
    requires Updated(s.conns, pkt) && r.id !in s.opens
    ensures EvalRule(cfg, s, r, pkt, now) == EvalRule(cfg', s, r', pkt, now)
  {
    assert Matches(cfg, r, pkt, s.conns) <==> Matches(cfg', r', pkt, s.conns);
    assert TrackingKey(r, pkt) == TrackingKey(r', pkt);
    if Matches(cfg, r, pkt, s.conns) {
      EstablishedIsNotFresh(cfg, s.conns, r, pkt);
    }
    hide Matches, Settle, Recent, TrackingKey, CountRates;
  }

  lemma SameScopeSameRule(cfg: Config, cfg': Config, s: State, r: Rule, pkt: Packet, now: Time)
    requires cfg'.iface == cfg.iface && cfg'.selfIps == cfg.selfIps
    ensures EvalRule(cfg, s, r, pkt, now) == EvalRule(cfg', s, r, pkt, now)
  {
    assert Matches(cfg, r, pkt, s.conns) <==> Matches(cfg', r, pkt, s.conns);
    hide Matches, Settle, Trigger;
  }

  lemma {:induction false} RelimitedRules(cfg: Config, cfg': Config, s: State, n: nat, pkt: Packet, now: Time)
    requires SameButEstablishedLimits(cfg, cfg') && n <= |cfg.rules|
    requires Updated(s.conns, pkt)
    requires forall id :: AllInState(cfg.rules, id, EstablishedState) ==> id !in s.opens
    ensures EvalRules(cfg, s, cfg.rules[..n], pkt, now) == EvalRules(cfg', s, cfg'.rules[..n], pkt, now)
  {
    hide EvalRule, Updated;
    if n == 0 {
    } else {
      var init, r, r' := cfg.rules[..n - 1], cfg.rules[n - 1], cfg'.rules[n - 1];
      assert cfg.rules[..n][..n - 1] == init && cfg'.rules[..n][..n - 1] == cfg'.rules[..n - 1];
      RelimitedRules(cfg, cfg', s, n - 1, pkt, now);
      EvalRulesFrame(cfg, s, init, pkt, now);
      var s1 := EvalRules(cfg, s, init, pkt, now).0;
      assert Relimited(cfg.rules, r, r');
      if r' == r {
        SameScopeSameRule(cfg, cfg', s1, r, pkt, now);
      } else {
        assert r in cfg.rules;
        EstablishedRules(cfg, s, init, pkt, now, r.id);
        RelimitedRule(cfg, cfg', s1, r, r', pkt, now);
      }
    }
  }

  /**
    For established flows only the key of a connection limit matters: changing its count and interval, or
    adding or removing a limit per source, leaves every state and every alert of every run as it was.
   */
  lemma {:induction false} EstablishedLimitsAreInert(cfg: Config, cfg': Config, events: seq<Event>)
    requires SameButEstablishedLimits(cfg, cfg')
    ensures Run(cfg, INITIAL, events) == Run(cfg', INITIAL, events)
  {
    hide Observe, EvalRules, Number, SameButEstablishedLimits, AllInState;
    if events == [] {
    } else {
      var init, e := events[..|events| - 1], events[|events| - 1];
      EstablishedLimitsAreInert(cfg, cfg', init);
      var s := After(cfg, init);
      ObserveUpdates(s, e.pkt, e.now);
      forall id | AllInState(cfg.rules, id, EstablishedState) ensures id !in Observe(s, e.pkt, e.now).opens {
        EstablishedRulesNeverCountConnections(cfg, init, id);
        ObserveAddsNoEntry(s, e.pkt, e.now, id);
      }
      AllRulesRelimited(cfg, cfg', Observe(s, e.pkt, e.now), e.pkt, e.now);
    }
  }

  lemma ObserveAddsNoEntry(s: State, pkt: Packet, now: Time, id: u32)
    ensures id !in s.opens ==> id !in Observe(s, pkt, now).opens
  {
  }

  lemma AllRulesRelimited(cfg: Config, cfg': Config, s: State, pkt: Packet, now: Time)
    requires SameButEstablishedLimits(cfg, cfg') && Updated(s.conns, pkt)
    requires forall id :: AllInState(cfg.rules, id, EstablishedState) ==> id !in s.opens
    ensures EvalRules(cfg, s, cfg.rules, pkt, now) == EvalRules(cfg', s, cfg'.rules, pkt, now)
  {
    RelimitedRules(cfg, cfg', s, |cfg.rules|, pkt, now);
    assert cfg.rules[..|cfg.rules|] == cfg.rules && cfg'.rules[..|cfg'.rules|] == cfg'.rules;
  }

  lemma {:induction false} NewRules(cfg: Config, s: State, rules: seq<Rule>, pkt: Packet, now: Time, id: u32, k: Addr)
    requires AllInState(rules, id, NewState)
    requires CellOf(s, id, k).rates == CellOf(s, id, k).opens
    ensures var c := CellOf(EvalRules(cfg, s, rules, pkt, now).0, id, k); c.rates == c.opens
  {
    if rules == [] {
    } else {
      var init, rule := rules[..|rules| - 1], rules[|rules| - 1];
      NewRules(cfg, s, init, pkt, now, id, k);
      assert rule in rules;
      EvalRuleCell(cfg, EvalRules(cfg, s, init, pkt, now).0, rule, pkt, now, id, k);
    }
  }

  /** A rule for new flows counts every matching packet as a connection: both trackers coincide. */
  lemma {:induction false} NewRulesCountEveryMatch(cfg: Config, events: seq<Event>, id: u32, k: Addr)
    requires AllInState(cfg.rules, id, NewState)
    ensures StampsOf(After(cfg, events).rates, id, k) == StampsOf(After(cfg, events).opens, id, k)
  {
    if events == [] {
    } else {
      var init, e := events[..|events| - 1], events[|events| - 1];
      NewRulesCountEveryMatch(cfg, init, id, k);
      ObserveCell(After(cfg, init), e.pkt, e.now, id, k);
      NewRules(cfg, Observe(After(cfg, init), e.pkt, e.now), cfg.rules, e.pkt, e.now, id, k);
    }
  }
}
