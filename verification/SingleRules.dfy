/** The engine and the reference engine of a sensor with one rule. */
module SingleRules {
  import opened Prelude
  import opened Packets
  import opened Rules
  import opened EngineSpec
  import opened Pruning

  /** With a single rule, evaluating the rules is evaluating that rule. */
  lemma SingleRule(cfg: Config, o: State, conns: ConnTable, log: seq<Entry>, rule: Rule, pkt: Packet, now: Time)
    requires cfg.rules == [rule]
    ensures EvalRules(cfg, o, cfg.rules, pkt, now) == EvalRule(cfg, o, rule, pkt, now)
    ensures LogRules(cfg, conns, log, cfg.rules, pkt, now) == LogRule(cfg, conns, log, rule, pkt, now)
  {
    hide EvalRule, LogRule;
    assert cfg.rules[..0] == [];
    assert EvalRules(cfg, o, [], pkt, now) == (o, []);
    assert LogRules(cfg, conns, log, [], pkt, now) == (log, []);
    var p, q := EvalRule(cfg, o, rule, pkt, now).1, LogRule(cfg, conns, log, rule, pkt, now).1;
    assert [] + p == p && [] + q == q;
  }

  lemma StepIsRule(cfg: Config, s: State, rule: Rule, pkt: Packet, now: Time)
    requires cfg.rules == [rule]
    ensures Step(cfg, s, pkt, now) == Conclude(s.alertCounter, EvalRule(cfg, Observe(s, pkt, now), rule, pkt, now))
  {
    hide Observe, EvalRule, EvalRules, Conclude, LogRule, LogRules;
    SingleRule(cfg, Observe(s, pkt, now), map[], [], rule, pkt, now);
  }

  lemma ReferenceStepIsRule(cfg: Config, r: Reference, rule: Rule, pkt: Packet, now: Time)
    requires cfg.rules == [rule]
    ensures var (log, pending) := LogRule(cfg, ConnsOf(r, pkt, now), r.log, rule, pkt, now);
            ReferenceStep(cfg, r, pkt, now)
            == (Reference(r.alertCounter + |pending|, if now - r.lastCleanup >= TICK then now else r.lastCleanup,
                          ConnsOf(r, pkt, now), log),
                Number(r.alertCounter, pending))
  {
    hide LogRule, LogRules, ConnsOf, Number, EvalRule, EvalRules;
    var conns := ConnsOf(r, pkt, now);
    SingleRule(cfg, INITIAL, conns, r.log, rule, pkt, now);
    assert LogRules(cfg, conns, r.log, cfg.rules, pkt, now) == LogRule(cfg, conns, r.log, rule, pkt, now);
  }

  lemma RuleFrame(cfg: Config, s: State, rule: Rule, pkt: Packet, now: Time)
    ensures var s' := EvalRule(cfg, s, rule, pkt, now).0; s' == s.(rates := s'.rates, opens := s'.opens)
  {
  }

  const START := Reference(0, 0.0, map[], [])

  lemma ReferenceEmpty(cfg: Config)
    ensures ReferenceRun(cfg, []) == (START, [])
  {
  }

  lemma ReferenceSnoc(cfg: Config, events: seq<Event>, e: Event)
    ensures var r, t := ReferenceRun(cfg, events), ReferenceRun(cfg, events + [e]);
            && t.0 == ReferenceStep(cfg, r.0, e.pkt, e.now).0
            && t.1 == r.1 + ReferenceStep(cfg, r.0, e.pkt, e.now).1
  {
    assert (events + [e])[..|events|] == events;
  }

  lemma AfterSnoc(cfg: Config, events: seq<Event>, e: Event)
    ensures After(cfg, events + [e]) == Step(cfg, After(cfg, events), e.pkt, e.now).0
    ensures Alerts(cfg, events + [e]) == Alerts(cfg, events) + Step(cfg, After(cfg, events), e.pkt, e.now).1
  {
    RunSnoc(cfg, INITIAL, events, e);
  }
}
