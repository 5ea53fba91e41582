/** How old anything the engine remembers can be, under a clock that never runs backwards. */
module Staleness {
  import opened Prelude
  import opened Packets
  import opened Rules
  import opened EngineSpec

  ghost predicate StampsKept(s: State, id: u32, k: Addr) {
    && (forall t :: t in CellOf(s, id, k).rates ==> s.lastCleanup - t < WINDOW)
    && (forall t :: t in CellOf(s, id, k).opens ==> s.lastCleanup - t < WINDOW)
  }

  /** Nothing was stale at the last cleanup. */
  ghost predicate CleanAtTick(s: State) {
    && (forall k :: k in s.conns ==> s.lastCleanup - s.conns[k].lastSeen < IDLE)
    && (forall m :: m in s.clients ==> s.lastCleanup - s.clients[m].lastSeen < IDLE)
    && (forall m :: m in s.aps ==> s.lastCleanup - s.aps[m].lastSeen < IDLE)
    && (forall id: u32, k: Addr :: StampsKept(s, id, k))
  }

  lemma ObserveStaysClean(s: State, pkt: Packet, now: Time)
    requires CleanAtTick(s) && s.lastCleanup <= now
    ensures CleanAtTick(Observe(s, pkt, now))
    ensures Observe(s, pkt, now).lastCleanup <= now < Observe(s, pkt, now).lastCleanup + TICK
  {
    var o := Observe(s, pkt, now);
    forall id: u32, k: Addr ensures StampsKept(o, id, k) {
      assert StampsKept(s, id, k);
      ObserveCell(s, pkt, now, id, k);
      RecentShrinks(CellOf(s, id, k).rates, now, WINDOW);
      RecentShrinks(CellOf(s, id, k).opens, now, WINDOW);
    }
  }

  lemma RuleKeepsStamps(cfg: Config, s: State, rule: Rule, pkt: Packet, now: Time, id: u32, k: Addr)
    requires StampsKept(s, id, k) && s.lastCleanup <= now
    ensures StampsKept(EvalRule(cfg, s, rule, pkt, now).0, id, k)
  {
    EvalRuleCell(cfg, s, rule, pkt, now, id, k);
    var grown := Extended(CellOf(s, id, k), pkt, now);
    RecentShrinks(grown.rates, now, WINDOW);
    RecentShrinks(grown.opens, now, WINDOW);
  }

  lemma {:induction false} RulesKeepStamps(cfg: Config, s: State, rules: seq<Rule>, pkt: Packet, now: Time, id: u32,
                                           k: Addr)
    requires StampsKept(s, id, k) && s.lastCleanup <= now
    ensures StampsKept(EvalRules(cfg, s, rules, pkt, now).0, id, k)
  {
    if rules == [] {
    } else {
      var init := rules[..|rules| - 1];
      RulesKeepStamps(cfg, s, init, pkt, now, id, k);
      EvalRulesFrame(cfg, s, init, pkt, now);
      RuleKeepsStamps(cfg, EvalRules(cfg, s, init, pkt, now).0, rules[|rules| - 1], pkt, now, id, k);
    }
  }

  lemma StepStaysClean(cfg: Config, s: State, pkt: Packet, now: Time)
    requires CleanAtTick(s) && s.lastCleanup <= now
    ensures var s' := Step(cfg, s, pkt, now).0;
            CleanAtTick(s') && s.lastCleanup <= s'.lastCleanup <= now < s'.lastCleanup + TICK
  {
    var o, s' := Observe(s, pkt, now), Step(cfg, s, pkt, now).0;
    ObserveStaysClean(s, pkt, now);
    EvalRulesFrame(cfg, o, cfg.rules, pkt, now);
    forall id: u32, k: Addr ensures StampsKept(s', id, k) {
      assert StampsKept(o, id, k);
      RulesKeepStamps(cfg, o, cfg.rules, pkt, now, id, k);
      assert CellOf(s', id, k) == CellOf(EvalRules(cfg, o, cfg.rules, pkt, now).0, id, k);
    }
  }

  lemma {:induction false} RunStaysClean(cfg: Config, events: seq<Event>)
    requires Monotone(events)
    ensures CleanAtTick(After(cfg, events))
    ensures After(cfg, events).lastCleanup >= 0.0
    ensures events == [] ==> After(cfg, events).lastCleanup == 0.0
    ensures events != [] ==>
              After(cfg, events).lastCleanup <= events[|events| - 1].now < After(cfg, events).lastCleanup + TICK
  {
    if events == [] {
    } else {
      var init, e := events[..|events| - 1], events[|events| - 1];
      RunStaysClean(cfg, init);
      StepStaysClean(cfg, After(cfg, init), e.pkt, e.now);
    }
  }

  /** Connections, clients and access points were seen less than 305 s ago; stamps are under 65 s old. */
  lemma NothingIsStale(cfg: Config, events: seq<Event>)
    requires Monotone(events) && events != []
    ensures var s, now := After(cfg, events), events[|events| - 1].now;
            && (forall k :: k in s.conns ==> now - s.conns[k].lastSeen < 305.0)
            && (forall m :: m in s.clients ==> now - s.clients[m].lastSeen < 305.0)
            && (forall m :: m in s.aps ==> now - s.aps[m].lastSeen < 305.0)
            && (forall id: u32, k: Addr, t :: t in CellOf(s, id, k).rates ==> now - t < 65.0)
            && (forall id: u32, k: Addr, t :: t in CellOf(s, id, k).opens ==> now - t < 65.0)
  {
    RunStaysClean(cfg, events);
    var s, now := After(cfg, events), events[|events| - 1].now;
    forall id: u32, k: Addr, t | t in CellOf(s, id, k).rates ensures now - t < 65.0 {
      assert StampsKept(s, id, k);
    }
    forall id: u32, k: Addr, t | t in CellOf(s, id, k).opens ensures now - t < 65.0 {
      assert StampsKept(s, id, k);
    }
  }

  predicate IsClosing(s: State, k: ConnKey) {
    k in s.conns && s.conns[k].state == Closing
  }

  /** When the connection last entered the closing state, if it is closing now. */
  function ClosingSince(cfg: Config, events: seq<Event>, k: ConnKey): Option<Time> {
    if events == [] || !IsClosing(After(cfg, events), k) then None
    else
      var init := events[..|events| - 1];
      if IsClosing(After(cfg, init), k) then ClosingSince(cfg, init, k) else Some(events[|events| - 1].now)
  }

  /** A tick removes every closing connection, and a teardown packet creates none. */
  lemma TickEndsClosing(cfg: Config, s: State, pkt: Packet, now: Time, k: ConnKey)
    requires TickDue(s, now) && IsClosing(s, k)
    ensures !IsClosing(Step(cfg, s, pkt, now).0, k)
  {
    EvalRulesFrame(cfg, Observe(s, pkt, now), cfg.rules, pkt, now);
  }

  lemma {:induction false} ClosingAfterTick(cfg: Config, events: seq<Event>, k: ConnKey)
    requires Monotone(events) && IsClosing(After(cfg, events), k)
    ensures ClosingSince(cfg, events, k).Some?
    ensures ClosingSince(cfg, events, k).value >= After(cfg, events).lastCleanup
  {
    var init, e := events[..|events| - 1], events[|events| - 1];
    var s := After(cfg, init);
    RunStaysClean(cfg, events);
    EvalRulesFrame(cfg, Observe(s, e.pkt, e.now), cfg.rules, e.pkt, e.now);
    if IsClosing(s, k) {
      if TickDue(s, e.now) {
        TickEndsClosing(cfg, s, e.pkt, e.now, k);
      } else {
        ClosingAfterTick(cfg, init, k);
      }
    }
  }

  /** Every closing entry entered the closing state less than five seconds ago. */
  lemma {:induction false} ClosingIsShort(cfg: Config, events: seq<Event>, k: ConnKey)
    requires Monotone(events) && IsClosing(After(cfg, events), k)
    ensures ClosingSince(cfg, events, k).Some?
    ensures events[|events| - 1].now - ClosingSince(cfg, events, k).value < TICK
  {
    ClosingAfterTick(cfg, events, k);
    RunStaysClean(cfg, events);
  }
}
