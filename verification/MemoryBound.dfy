/**
  How much a packet tracker can hold. With a clock that never runs backwards, every insertion that
  does not alert leaves at most m - 1 stamps in its last second, so stamps m - 1 places apart are a
  second apart; and pruning keeps a tracker's span below sixty seconds.
 */
module MemoryBound {
  import opened Prelude
  import opened Packets
  import opened Rules
  import opened EngineSpec

  ghost predicate Sorted(stamps: Stamps) {
    forall i, j :: 0 <= i < j < |stamps| ==> stamps[i] <= stamps[j]
  }

  ghost predicate Gap(stamps: Stamps, i: nat, j: nat)
    requires i <= j < |stamps|
  {
    stamps[j] - stamps[i] >= 1.0
  }

  /** Stamps m - 1 places apart are at least a second apart. */
  ghost predicate Spaced(stamps: Stamps, m: nat)
    requires m >= 1
  {
    forall i, j :: 0 <= i <= j < |stamps| && j - i == m - 1 ==> Gap(stamps, i, j)
  }

  ghost predicate SpanBelowWindow(stamps: Stamps) {
    stamps != [] ==> stamps[|stamps| - 1] - stamps[0] < WINDOW
  }

  ghost predicate Bounded(stamps: Stamps, m: nat, clock: Time)
    requires m >= 1
  {
    && Sorted(stamps) && Spaced(stamps, m) && SpanBelowWindow(stamps)
    && (stamps != [] ==> stamps[|stamps| - 1] <= clock)
  }

  lemma SuffixSnoc(init: Stamps, last: Time, j: nat)
    requires j <= |init|
    ensures (init + [last])[j..] == init[j..] + [last]
    ensures (init + [last])[|init| + 1..] == []
  {
  }

  /** Of sorted stamps, the recent ones are a suffix. */
  lemma {:induction false} RecentIsSuffix(stamps: Stamps, now: Time, window: Time) returns (j: nat)
    requires Sorted(stamps)
    ensures j <= |stamps| && Recent(stamps, now, window) == stamps[j..]
    ensures forall i :: 0 <= i < j ==> now - stamps[i] >= window
    ensures forall i :: j <= i < |stamps| ==> now - stamps[i] < window
    decreases |stamps|
  {
    if stamps == [] {
      j := 0;
    } else {
      hide Recent;
      var init, last := stamps[..|stamps| - 1], stamps[|stamps| - 1];
      assert stamps == init + [last];
      RecentSnoc(init, last, now, window);
      j := RecentIsSuffix(init, now, window);
      SuffixSnoc(init, last, j);
      if now - last >= window {
        assert forall i :: 0 <= i < |init| ==> init[i] <= last;
        assert j == |init|;
        j := |stamps|;
      }
    }
  }

  lemma SuffixKeepsSpacing(stamps: Stamps, m: nat, start: nat)
    requires m >= 1 && start <= |stamps| && Sorted(stamps) && Spaced(stamps, m)
    ensures Sorted(stamps[start..]) && Spaced(stamps[start..], m)
  {
    forall i, j | 0 <= i <= j < |stamps| - start && j - i == m - 1 ensures Gap(stamps[start..], i, j) {
      assert Gap(stamps, start + i, start + j);
    }
  }

  lemma PruneKeepsBound(stamps: Stamps, m: nat, clock: Time, now: Time)
    requires m >= 1 && Sorted(stamps) && Spaced(stamps, m) && clock <= now
    requires stamps != [] ==> stamps[|stamps| - 1] <= clock
    ensures Bounded(Recent(stamps, now, WINDOW), m, now)
  {
    hide Recent, Spaced;
    var j := RecentIsSuffix(stamps, now, WINDOW);
    SuffixKeepsSpacing(stamps, m, j);
  }

  lemma SortedSnoc(stamps: Stamps, now: Time)
    requires Sorted(stamps) && (stamps != [] ==> stamps[|stamps| - 1] <= now)
    ensures Sorted(stamps + [now])
  {
  }

  /** Inserting without reaching the per-second limit keeps the spacing. */
  lemma InsertKeepsSpacing(stamps: Stamps, m: nat, now: Time)
    requires m >= 1 && Sorted(stamps) && Spaced(stamps, m)
    requires stamps != [] ==> stamps[|stamps| - 1] <= now
    requires |Recent(stamps + [now], now, 1.0)| < m
    ensures Sorted(stamps + [now]) && Spaced(stamps + [now], m)
  {
    hide Recent, Sorted;
    var grown := stamps + [now];
    SortedSnoc(stamps, now);
    var start := RecentIsSuffix(grown, now, 1.0);
    forall i, j | 0 <= i <= j < |grown| && j - i == m - 1 ensures Gap(grown, i, j) {
      if j < |stamps| {
        assert Gap(stamps, i, j);
      } else {
        assert i < start;
      }
    }
  }

  lemma InsertKeepsBound(stamps: Stamps, m: nat, now: Time)
    requires m >= 1 && Bounded(stamps, m, now)
    requires |Recent(stamps + [now], now, 1.0)| < m
    ensures Bounded(Recent(stamps + [now], now, WINDOW), m, now)
  {
    InsertKeepsSpacing(stamps, m, now);
    PruneKeepsBound(stamps + [now], m, now, now);
  }

  /** After q strides of m - 1 places at least q seconds have passed. */
  lemma {:induction false} Strides(stamps: Stamps, m: nat, q: nat)
    requires m >= 1 && Spaced(stamps, m)
    requires q * (m - 1) < |stamps|
    ensures stamps[q * (m - 1)] - stamps[0] >= q as real
  {
    if q == 0 {
    } else {
      var to := q * (m - 1);
      assert to == (q - 1) * (m - 1) + (m - 1);
      Strides(stamps, m, q - 1);
      assert Gap(stamps, to - (m - 1), to);
    }
  }

  lemma ManyStampsSpanAMinute(stamps: Stamps, m: nat)
    requires m >= 1 && Sorted(stamps) && Spaced(stamps, m)
    requires |stamps| > 60 * (m - 1)
    ensures stamps[|stamps| - 1] - stamps[0] >= WINDOW
  {
    Strides(stamps, m, 60);
    assert stamps[60 * (m - 1)] <= stamps[|stamps| - 1];
  }

  lemma BoundedSize(stamps: Stamps, m: nat, clock: Time)
    requires m >= 1 && Bounded(stamps, m, clock)
    ensures |stamps| <= 60 * (m - 1)
  {
    if |stamps| > 60 * (m - 1) {
      ManyStampsSpanAMinute(stamps, m);
    }
  }

  /** Every rule with this id limits packets per second, by at most `m`. */
  ghost predicate Limited(rules: seq<Rule>, id: u32, m: nat) {
    forall r :: r in rules && r.id == id ==> r.maxRps.Some? && r.maxRps.value <= m
  }

  lemma {:induction false} RulesKeepBound(cfg: Config, s: State, rules: seq<Rule>, pkt: Packet, now: Time, id: u32,
                                          k: Addr, m: nat)
    requires m >= 1 && Limited(rules, id, m) && Bounded(CellOf(s, id, k).rates, m, now)
    ensures Bounded(CellOf(EvalRules(cfg, s, rules, pkt, now).0, id, k).rates, m, now)
  {
    if rules == [] {
    } else {
      var init, rule := rules[..|rules| - 1], rules[|rules| - 1];
      RulesKeepBound(cfg, s, init, pkt, now, id, k, m);
      var s1 := EvalRules(cfg, s, init, pkt, now).0;
      EvalRuleCell(cfg, s1, rule, pkt, now, id, k);
      if Hits(cfg, s1.conns, rule, pkt, id, k) && EvalRule(cfg, s1, rule, pkt, now).1 == [] {
        assert rule in rules;
        CountAt(s1, rule, pkt, k, now, id, k);
        InsertKeepsBound(CellOf(s1, id, k).rates, m, now);
      }
    }
  }

  lemma StepKeepsBound(cfg: Config, s: State, pkt: Packet, clock: Time, now: Time, id: u32, k: Addr, m: nat)
    requires m >= 1 && Limited(cfg.rules, id, m) && clock <= now && Bounded(CellOf(s, id, k).rates, m, clock)
    ensures Bounded(CellOf(Step(cfg, s, pkt, now).0, id, k).rates, m, now)
  {
    ObserveCell(s, pkt, now, id, k);
    PruneKeepsBound(CellOf(s, id, k).rates, m, clock, now);
    RulesKeepBound(cfg, Observe(s, pkt, now), cfg.rules, pkt, now, id, k, m);
  }

  lemma {:induction false} RunKeepsBound(cfg: Config, events: seq<Event>, clock: Time, id: u32, k: Addr, m: nat)
    requires m >= 1 && Limited(cfg.rules, id, m) && Monotone(events)
    requires events != [] ==> events[|events| - 1].now <= clock
    ensures Bounded(CellOf(After(cfg, events), id, k).rates, m, clock)
  {
    if events == [] {
    } else {
      var init, e := events[..|events| - 1], events[|events| - 1];
      RunKeepsBound(cfg, init, e.now, id, k, m);
      StepKeepsBound(cfg, After(cfg, init), e.pkt, e.now, e.now, id, k, m);
    }
  }

  /** No (rule, key) packet tracker ever holds more than 60 (m - 1) timestamps. */
  lemma TrackerIsBounded(cfg: Config, events: seq<Event>, id: u32, k: Addr, m: nat)
    requires m >= 1 && Limited(cfg.rules, id, m) && Monotone(events)
    ensures |StampsOf(After(cfg, events).rates, id, k)| <= 60 * (m - 1)
  {
    var clock := if events == [] then 0.0 else events[|events| - 1].now;
    RunKeepsBound(cfg, events, clock, id, k, m);
    BoundedSize(CellOf(After(cfg, events), id, k).rates, m, clock);
  }
  // No entry outlives its stamps

  ghost predicate NoEmptyEntry(tr: Tracker) {
    forall id, k :: id in tr && k in tr[id] ==> tr[id][k] != []
  }

  /** A cleanup leaves neither tracker an entry without stamps. */
  lemma CleanupDropsEmptyEntries(s: State, now: Time)
    requires now - s.lastCleanup >= 5.0
    ensures NoEmptyEntry(Expire(s, now).rates) && NoEmptyEntry(Expire(s, now).opens)
  {
    hide Recent, Alive;
  }

  lemma RuleLeavesNoEmptyEntry(cfg: Config, s: State, rule: Rule, pkt: Packet, now: Time)
    requires NoEmptyEntry(s.rates)
    ensures NoEmptyEntry(EvalRule(cfg, s, rule, pkt, now).0.rates)
  {
    hide Recent, Matches, Trigger;
    RecentSnoc(StampsOf(s.rates, rule.id, TrackingKey(rule, pkt)), now, now, WINDOW);
  }

  lemma {:induction false} RulesLeaveNoEmptyEntry(cfg: Config, s: State, rules: seq<Rule>, pkt: Packet, now: Time)
    requires NoEmptyEntry(s.rates)
    ensures NoEmptyEntry(EvalRules(cfg, s, rules, pkt, now).0.rates)
    decreases |rules|
  {
    hide EvalRule, NoEmptyEntry;
    if rules == [] {
    } else {
      RulesLeaveNoEmptyEntry(cfg, s, rules[..|rules| - 1], pkt, now);
      RuleLeavesNoEmptyEntry(cfg, EvalRules(cfg, s, rules[..|rules| - 1], pkt, now).0, rules[|rules| - 1], pkt, now);
    }
  }

  lemma ObserveLeavesNoEmptyEntry(s: State, pkt: Packet, now: Time)
    requires NoEmptyEntry(s.rates)
    ensures NoEmptyEntry(Observe(s, pkt, now).rates)
  {
    hide Recent, Alive;
  }

  /** On every run the packet tracker has no entry without stamps. */
  lemma {:induction false} NoEmptyPacketEntries(cfg: Config, events: seq<Event>)
    ensures NoEmptyEntry(After(cfg, events).rates)
    decreases |events|
  {
    hide NoEmptyEntry, Observe, EvalRules;
    if events == [] {
      NothingTracked();
    } else {
      var init, e := events[..|events| - 1], events[|events| - 1];
      NoEmptyPacketEntries(cfg, init);
      ObserveLeavesNoEmptyEntry(After(cfg, init), e.pkt, e.now);
      RulesLeaveNoEmptyEntry(cfg, Observe(After(cfg, init), e.pkt, e.now), cfg.rules, e.pkt, e.now);
    }
  }

  lemma NothingTracked()
    ensures NoEmptyEntry(INITIAL.rates)
  {
  }
}
