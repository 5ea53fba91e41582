/**
  Runs on which even the one-second window shows pruning: on a clock more than 59 seconds out of order, a packet
  may come back within a second of packets that a cleanup a minute later has dropped.
 */
module ShortRuns {
  import opened Prelude
  import opened Packets
  import opened Rules
  import opened EngineSpec
  import opened Windows
  import opened Pruning
  import opened SingleRules
  import opened Domination
  import LateRuns

  /** A sensor with one rule, and a packet that hits it whenever it is seen. */
  datatype Target = Target(cfg: Config, rule: Rule, pkt: Packet)

  ghost predicate AlwaysHits(u: Target) {
    && IsPlain(u.cfg, u.rule)
    && u.rule.maxRps.Some? && u.rule.maxRps.value >= 2
    && forall conns, now: Time :: Matches(u.cfg, u.rule, u.pkt, UpdateConns(conns, u.pkt, now))
  }

  function Key(u: Target): Addr {
    TrackingKey(u.rule, u.pkt)
  }

  /** What the connection limit sees of the packet's stamps. */
  function Counted(u: Target, stamps: Stamps): Stamps {
    if IsFresh(u.pkt) then stamps else []
  }

  ghost predicate Quiet(u: Target, stamps: Stamps, now: Time) {
    Threshold(u.rule, stamps, Counted(u, stamps), now).None?
  }

  ghost predicate IsLogged(u: Target, log: seq<Entry>, stamps: Stamps) {
    && Since(log, u.rule.id, Key(u), false) == stamps
    && Since(log, u.rule.id, Key(u), true) == Counted(u, stamps)
  }

  /** A packet of another key that no connection limit counts. */
  function Stranger(pkt: Packet): Packet {
    Packet(ZERO_MAC, ZERO_MAC, None, None, None, if pkt.network.NoNetwork? then Arp(0, 0) else NoNetwork,
           Tcp(1, 2, 0x12), false)
  }

  lemma StrangerIsOther(u: Target)
    ensures TrackingKey(u.rule, Stranger(u.pkt)) != Key(u) && !IsFresh(Stranger(u.pkt))
  {
  }

  lemma TargetIsPlain(u: Target)
    requires AlwaysHits(u)
    ensures IsPlain(u.cfg, u.rule) && u.cfg.rules == [u.rule]
  {
  }

  // The reference engine

  lemma ReferenceHit(u: Target, r: Reference, now: Time, stamps: Stamps)
    requires AlwaysHits(u) && IsLogged(u, r.log, stamps)
    ensures var (r', alerts) := ReferenceStep(u.cfg, r, u.pkt, now);
            && (alerts == [] <==> Quiet(u, stamps + [now], now))
            && (alerts == [] ==> IsLogged(u, r'.log, stamps + [now]))
  {
    var id, k, conns := u.rule.id, Key(u), ConnsOf(r, u.pkt, now);
    var hit := Hit(id, k, now, IsFresh(u.pkt));
    assert Matches(u.cfg, u.rule, u.pkt, conns);
    NothingMore(Counted(u, stamps));
    TargetIsPlain(u);
    hide AlwaysHits, Matches, IsFresh, Since, ConnsOf, Threshold, ReferenceStep;
    ReferenceStepIsRule(u.cfg, r, u.rule, u.pkt, now);
    SinceHit(r.log, hit, id, k, false);
    SinceHit(r.log, hit, id, k, true);
  }

  /** The key of the stranger is not in the log. */
  ghost predicate NotLogged(u: Target, log: seq<Entry>) {
    var k' := TrackingKey(u.rule, Stranger(u.pkt));
    Since(log, u.rule.id, k', false) == [] && Since(log, u.rule.id, k', true) == []
  }

  /** The stranger is one packet of its key, and raises nothing. */
  lemma StrangerIsSilent(u: Target, conns: ConnTable, log: seq<Entry>, now: Time)
    requires AlwaysHits(u) && NotLogged(u, log)
    ensures LogRule(u.cfg, conns, log, u.rule, Stranger(u.pkt), now).1 == []
  {
    var id, k' := u.rule.id, TrackingKey(u.rule, Stranger(u.pkt));
    StrangerIsOther(u);
    FirstIsQuiet(u, now);
    NothingMore([now]);
    hide AlwaysHits, Matches, IsFresh, Since, Threshold, Stranger, TrackingKey;
    SinceHit(log, Hit(id, k', now, false), id, k', false);
    SinceHit(log, Hit(id, k', now, false), id, k', true);
  }

  lemma StrangerMisses(u: Target, conns: ConnTable)
    ensures !Hits(u.cfg, conns, u.rule, Stranger(u.pkt), u.rule.id, Key(u))
  {
    StrangerIsOther(u);
  }

  /** The stranger is logged under its own key, in silence. */
  lemma ReferenceStranger(u: Target, r: Reference, now: Time, stamps: Stamps)
    requires AlwaysHits(u) && IsLogged(u, r.log, stamps) && NotLogged(u, r.log)
    ensures var (r', alerts) := ReferenceStep(u.cfg, r, Stranger(u.pkt), now);
            alerts == [] && IsLogged(u, r'.log, stamps)
  {
    var pkt := Stranger(u.pkt);
    var conns := ConnsOf(r, pkt, now);
    TargetIsPlain(u);
    hide AlwaysHits, Hits, Since, ConnsOf, ReferenceStep, LogRule, Stranger, NotLogged, Key, Counted;
    StrangerIsSilent(u, conns, r.log, now);
    StrangerMisses(u, conns);
    ReferenceStepIsRule(u.cfg, r, u.rule, pkt, now);
    LogRuleAt(u.cfg, conns, r.log, u.rule, pkt, now, u.rule.id, Key(u), false);
    LogRuleAt(u.cfg, conns, r.log, u.rule, pkt, now, u.rule.id, Key(u), true);
  }

  lemma FirstIsQuiet(u: Target, now: Time)
    requires AlwaysHits(u)
    ensures Threshold(u.rule, [now], [], now).None?
  {
    RecentOfOne(now, now, 1.0);
  }

  /** A hit of one key leaves the log of another alone. */
  lemma ReferenceOther(u: Target, r: Reference, now: Time, k: Addr, onlyFresh: bool)
    requires AlwaysHits(u) && k != Key(u)
    ensures var r' := ReferenceStep(u.cfg, r, u.pkt, now).0;
            Since(r'.log, u.rule.id, k, onlyFresh) == Since(r.log, u.rule.id, k, onlyFresh)
  {
    var conns := ConnsOf(r, u.pkt, now);
    assert !Hits(u.cfg, conns, u.rule, u.pkt, u.rule.id, k);
    TargetIsPlain(u);
    hide AlwaysHits, Hits, Since, ConnsOf, LogRule, ReferenceStep;
    ReferenceStepIsRule(u.cfg, r, u.rule, u.pkt, now);
    LogRuleAt(u.cfg, conns, r.log, u.rule, u.pkt, now, u.rule.id, k, onlyFresh);
  }

  // The run: packets within a second of zero, the stranger a minute later, and the packet that comes back

  function EventsAt(pkt: Packet, times: Stamps): seq<Event> {
    if times == [] then [] else EventsAt(pkt, times[..|times| - 1]) + [Event(pkt, times[|times| - 1])]
  }

  ghost predicate AllQuiet(u: Target, times: Stamps) {
    forall i :: 0 <= i < |times| ==> Quiet(u, times[..i + 1], times[i])
  }

  ghost predicate WithinASecond(times: Stamps) {
    forall t :: t in times ==> 0.0 <= t < 1.0
  }

  function UpToStranger(pkt: Packet, times: Stamps): seq<Event> {
    EventsAt(pkt, times) + [Event(Stranger(pkt), WINDOW)]
  }

  function ShortRun(pkt: Packet, times: Stamps, late: Time): seq<Event> {
    UpToStranger(pkt, times) + [Event(pkt, late)]
  }

  /**
    The reference engine after the early packets: silent, with all of them logged and no other key known; it has
    not cleaned up if they came within a second.
   */
  ghost predicate EarlyLogged(u: Target, times: Stamps, run: (Reference, seq<Alert>)) {
    && run.1 == [] && IsLogged(u, run.0.log, times) && NotLogged(u, run.0.log)
    && (WithinASecond(times) ==> run.0.lastCleanup == 0.0)
  }

  lemma OneMoreWithin(times: Stamps, t: Time)
    requires WithinASecond(times + [t])
    ensures WithinASecond(times) && t < 1.0
  {
    assert t in times + [t] && forall x :: x in times ==> x in times + [t];
  }

  lemma EarlyNext(u: Target, times: Stamps, t: Time, run: (Reference, seq<Alert>))
    requires AlwaysHits(u) && EarlyLogged(u, times, run) && Quiet(u, times + [t], t)
    ensures var step := ReferenceStep(u.cfg, run.0, u.pkt, t);
            step.1 == [] && EarlyLogged(u, times + [t], (step.0, run.1 + step.1))
  {
    var step, k' := ReferenceStep(u.cfg, run.0, u.pkt, t), TrackingKey(u.rule, Stranger(u.pkt));
    if WithinASecond(times + [t]) {
      OneMoreWithin(times, t);
      assert step.0.lastCleanup == 0.0;
    }
    NothingMore(run.1);
    StrangerIsOther(u);
    hide ReferenceStep, AlwaysHits, IsLogged, Quiet, Key, Stranger, Since, WithinASecond;
    ReferenceHit(u, run.0, t, times);
    ReferenceOther(u, run.0, t, k', false);
    ReferenceOther(u, run.0, t, k', true);
  }

  lemma EarlyStarts(u: Target)
    ensures EarlyLogged(u, [], ReferenceRun(u.cfg, EventsAt(u.pkt, [])))
  {
    ReferenceEmpty(u.cfg);
  }

  lemma QuietPrefix(u: Target, times: Stamps)
    requires times != [] && AllQuiet(u, times)
    ensures var init, t := times[..|times| - 1], times[|times| - 1];
            init + [t] == times && AllQuiet(u, init) && Quiet(u, init + [t], t)
  {
    var init := times[..|times| - 1];
    hide Quiet;
    assert Quiet(u, times[..|times| - 1 + 1], times[|times| - 1]) && times[..|times|] == times;
    forall i | 0 <= i < |init| ensures Quiet(u, init[..i + 1], init[i]) {
      assert init[..i + 1] == times[..i + 1];
    }
  }

  lemma {:induction false} ReferenceEarly(u: Target, times: Stamps)
    requires AlwaysHits(u) && AllQuiet(u, times)
    ensures EarlyLogged(u, times, ReferenceRun(u.cfg, EventsAt(u.pkt, times)))
    decreases |times|
  {
    hide AlwaysHits, AllQuiet, WithinASecond, EarlyLogged, Quiet, ReferenceRun, ReferenceStep;
    if times == [] {
      EarlyStarts(u);
    } else {
      var init, t := times[..|times| - 1], times[|times| - 1];
      QuietPrefix(u, times);
      ReferenceEarly(u, init);
      EarlyNext(u, init, t, ReferenceRun(u.cfg, EventsAt(u.pkt, init)));
      ReferenceSnoc(u.cfg, EventsAt(u.pkt, init), Event(u.pkt, t));
    }
  }

  lemma EarlyFacts(u: Target, times: Stamps)
    requires AlwaysHits(u) && AllQuiet(u, times)
    ensures var run := ReferenceRun(u.cfg, EventsAt(u.pkt, times));
            run.1 == [] && IsLogged(u, run.0.log, times) && (WithinASecond(times) ==> run.0.lastCleanup == 0.0)
  {
    hide AlwaysHits, AllQuiet, WithinASecond, ReferenceRun, IsLogged;
    ReferenceEarly(u, times);
  }

  lemma ReferenceBeforeLast(u: Target, times: Stamps)
    requires AlwaysHits(u) && AllQuiet(u, times) && WithinASecond(times)
    ensures var run := ReferenceRun(u.cfg, UpToStranger(u.pkt, times));
            run.1 == [] && IsLogged(u, run.0.log, times)
  {
    var before := EventsAt(u.pkt, times);
    var run := ReferenceRun(u.cfg, before);
    ReferenceEarly(u, times);
    hide AlwaysHits, AllQuiet, WithinASecond, ReferenceRun, ReferenceStep, IsLogged, Stranger, EventsAt;
    ReferenceSnoc(u.cfg, before, Event(Stranger(u.pkt), WINDOW));
    NothingMore(ReferenceStep(u.cfg, run.0, Stranger(u.pkt), WINDOW).1);
    ReferenceStranger(u, run.0, WINDOW, times);
  }

  // The engine

  /** The stamps of the key are among these, and those it counts among what the limit sees of them. */
  ghost predicate HoldsAtMost(u: Target, s: State, stamps: Stamps) {
    && Within(CellOf(s, u.rule.id, Key(u)).rates, stamps)
    && Within(CellOf(s, u.rule.id, Key(u)).opens, Counted(u, stamps))
  }

  lemma DominatedHolds(u: Target, s: State, r: Reference, stamps: Stamps)
    requires Dominated(u.cfg, u.rule, s, r) && IsLogged(u, r.log, stamps)
    ensures HoldsAtMost(u, s, stamps) && s.lastCleanup == r.lastCleanup
  {
    hide Within, CellOf, Since;
    assert DominatedAt(u.cfg, u.rule, s, r.log, Key(u));
  }

  /** The stranger's cleanup prunes the key, and the stranger adds nothing to it. */
  lemma StrangerPrunes(u: Target, s: State, stamps: Stamps)
    requires AlwaysHits(u) && HoldsAtMost(u, s, stamps) && s.lastCleanup == 0.0
    ensures HoldsAtMost(u, Step(u.cfg, s, Stranger(u.pkt), WINDOW).0, Recent(stamps, WINDOW, WINDOW))
  {
    var pkt, id, k := Stranger(u.pkt), u.rule.id, Key(u);
    var o := Observe(s, pkt, WINDOW);
    var c := CellOf(s, id, k);
    assert TickDue(s, WINDOW);
    StrangerIsOther(u);
    TargetIsPlain(u);
    assert !Hits(u.cfg, o.conns, u.rule, pkt, id, k);
    assert Recent([], WINDOW, WINDOW) == [];
    hide AlwaysHits, Within, Hits, Observe, Step, EvalRule, Stranger, Key, StampsOf, Recent, IsFresh;
    WithinRecent(c.rates, stamps, WINDOW, WINDOW);
    WithinRecent(c.opens, Counted(u, stamps), WINDOW, WINDOW);
    ObserveCell(s, pkt, WINDOW, id, k);
    EvalRuleCell(u.cfg, o, u.rule, pkt, WINDOW, id, k);
    StepIsRule(u.cfg, s, u.rule, pkt, WINDOW);
  }

  /** What the engine finds on the packet's arrival. */
  function EngineTrigger(u: Target, o: State, now: Time): Option<nat> {
    Trigger(u.rule, CountRates(o, u.rule, Key(u), now), CountOpens(o, u.rule, u.pkt, Key(u), now), Key(u), now)
  }

  /** Where the bounding stamps are quiet, the trigger is too. */
  lemma TriggerSilentBelow(u: Target, o: State, stamps: Stamps, now: Time)
    requires AlwaysHits(u) && HoldsAtMost(u, o, stamps) && Quiet(u, stamps + [now], now)
    ensures EngineTrigger(u, o, now).None?
  {
    var id, k := u.rule.id, Key(u);
    var c := CellOf(o, id, k);
    var g := Extended(c, u.pkt, now);
    assert u.rule.maxConnRate.Some? ==> u.rule.maxConnRate.value.connections >= 1;
    NothingMore(Counted(u, stamps));
    hide AlwaysHits, Matches, Within, StampsOf, Recent, IsFresh, CountRates, CountOpens, Trigger, Threshold, Key;
    CountAt(o, u.rule, u.pkt, k, now, id, k);
    WithinGrows(c.rates, stamps, now);
    WithinGrows(c.opens, Counted(u, stamps), now);
    FewerStampsMeetLess(u.rule, g.rates, stamps + [now], g.opens, Counted(u, stamps + [now]), now);
    TriggerByStamps(u.rule, CountRates(o, u.rule, k, now), CountOpens(o, u.rule, u.pkt, k, now), k, now);
  }

  /** Where the bounding stamps are quiet, so is the engine. */
  lemma EngineSilentBelow(u: Target, s: State, stamps: Stamps, now: Time)
    requires AlwaysHits(u) && HoldsAtMost(u, s, stamps) && Quiet(u, stamps + [now], now)
    ensures Step(u.cfg, s, u.pkt, now).1 == []
  {
    var o := Observe(s, u.pkt, now);
    TargetIsPlain(u);
    hide AlwaysHits, HoldsAtMost, Quiet, Step, Observe, CountRates, CountOpens, Trigger, EvalRule, Key;
    ObserveHoldsAtMost(u, s, stamps, now);
    TriggerSilentBelow(u, o, stamps, now);
    SilentWithoutTrigger(u, o, now);
    StepIsRule(u.cfg, s, u.rule, u.pkt, now);
  }

  lemma SilentWithoutTrigger(u: Target, o: State, now: Time)
    requires EngineTrigger(u, o, now).None?
    ensures EvalRule(u.cfg, o, u.rule, u.pkt, now).1 == []
  {
    hide Matches, CountRates, CountOpens, Trigger, Settle;
  }

  lemma ObserveHoldsAtMost(u: Target, s: State, stamps: Stamps, now: Time)
    requires HoldsAtMost(u, s, stamps)
    ensures HoldsAtMost(u, Observe(s, u.pkt, now), stamps)
  {
    var c := CellOf(s, u.rule.id, Key(u));
    hide Within, Observe, StampsOf, Recent, Key, Counted;
    ObserveCell(s, u.pkt, now, u.rule.id, Key(u));
    RecentStaysWithin(c.rates, stamps, now, WINDOW);
    RecentStaysWithin(c.opens, Counted(u, stamps), now, WINDOW);
  }

  /** By the time of the last packet the engine holds only what a minute's pruning leaves. */
  lemma EngineBeforeLast(u: Target, times: Stamps)
    requires AlwaysHits(u) && AllQuiet(u, times) && WithinASecond(times)
    ensures Alerts(u.cfg, UpToStranger(u.pkt, times)) == []
    ensures HoldsAtMost(u, After(u.cfg, UpToStranger(u.pkt, times)), Recent(times, WINDOW, WINDOW))
  {
    var before := EventsAt(u.pkt, times);
    var s, r := After(u.cfg, before), ReferenceRun(u.cfg, before).0;
    TargetIsPlain(u);
    hide AlwaysHits, AllQuiet, WithinASecond, ReferenceRun, IsLogged, Stranger, EventsAt, Run, Step, Dominated,
         HoldsAtMost, IsPlain;
    EarlyFacts(u, times);
    ReferenceBeforeLast(u, times);
    SilentRun(u.cfg, u.rule, before);
    SilentRun(u.cfg, u.rule, UpToStranger(u.pkt, times));
    DominatedHolds(u, s, r, times);
    AfterSnoc(u.cfg, before, Event(Stranger(u.pkt), WINDOW));
    StrangerPrunes(u, s, times);
  }

  /** If the log meets a limit on the late packet and what pruning leaves does not, only the reference engine alerts. */
  lemma ShortRunDiffers(u: Target, times: Stamps, late: Time)
    requires AlwaysHits(u) && AllQuiet(u, times) && WithinASecond(times)
    requires Quiet(u, Recent(times, WINDOW, WINDOW) + [late], late) && !Quiet(u, times + [late], late)
    ensures Alerts(u.cfg, ShortRun(u.pkt, times, late)) == []
    ensures ReferenceRun(u.cfg, ShortRun(u.pkt, times, late)).1 != []
  {
    var before, e := UpToStranger(u.pkt, times), Event(u.pkt, late);
    hide AlwaysHits, AllQuiet, WithinASecond, ReferenceRun, ReferenceStep, IsLogged, Run, Step, HoldsAtMost, Quiet,
         UpToStranger;
    ReferenceBeforeLast(u, times);
    EngineBeforeLast(u, times);
    AfterSnoc(u.cfg, before, e);
    ReferenceSnoc(u.cfg, before, e);
    EngineSilentBelow(u, After(u.cfg, before), Recent(times, WINDOW, WINDOW), late);
    ReferenceHit(u, ReferenceRun(u.cfg, before).0, late, times);
  }

  // Its clock

  ghost predicate Ascending(times: Stamps) {
    forall i, j :: 0 <= i < j < |times| ==> times[i] <= times[j]
  }

  lemma {:induction false} EventsAtTimes(pkt: Packet, times: Stamps)
    ensures |EventsAt(pkt, times)| == |times|
    ensures forall i :: 0 <= i < |times| ==> EventsAt(pkt, times)[i] == Event(pkt, times[i])
    decreases |times|
  {
    if times == [] {
    } else {
      EventsAtTimes(pkt, times[..|times| - 1]);
    }
  }

  lemma ShortRunIsLate(pkt: Packet, times: Stamps, late: Time, d: Time)
    requires Ascending(times) && WithinASecond(times) && d >= 0.0 && late >= WINDOW - d
    ensures DisorderAtMost(ShortRun(pkt, times, late), d)
  {
    EventsAtTimes(pkt, times);
    hide EventsAt, Stranger;
    assert forall i :: 0 <= i < |times| ==> times[i] in times;
  }

  // Early packets all at once

  function Zeros(n: nat): Stamps {
    if n == 0 then [] else Zeros(n - 1) + [0.0]
  }

  lemma {:induction false} ZerosAre(n: nat)
    ensures |Zeros(n)| == n && forall i :: 0 <= i < n ==> Zeros(n)[i] == 0.0
    decreases n
  {
    if n == 0 {
    } else {
      ZerosAre(n - 1);
    }
  }

  lemma ZerosPrefix(n: nat, i: nat)
    requires i <= n
    ensures |Zeros(n)| == n && Zeros(n)[..i] == Zeros(i)
  {
    ZerosAre(n);
    ZerosAre(i);
  }

  lemma {:induction false} ZerosCount(n: nat, now: Time, window: Time)
    ensures |Recent(Zeros(n), now, window)| == if now < window then n else 0
    decreases n
  {
    if n == 0 {
    } else {
      ZerosCount(n - 1, now, window);
      RecentSnoc(Zeros(n - 1), 0.0, now, window);
    }
  }

  /** What so many packets at once may be: below both limits, until one more comes back within a window. */
  ghost predicate AtOnce(u: Target, n: nat, late: Time) {
    && n >= 1 && u.rule.maxRps.Some? && n < u.rule.maxRps.value
    && (u.rule.maxConnRate.Some? ==>
          var limit := u.rule.maxConnRate.value;
          limit.connections >= 1 && (IsFresh(u.pkt) && limit.interval > 0.0 ==> n < limit.connections))
    && ((late < 1.0 && n + 1 >= u.rule.maxRps.value)
        || (u.rule.maxConnRate.Some? && IsFresh(u.pkt)
            && var limit := u.rule.maxConnRate.value;
               late < limit.interval && n + (if limit.interval > 0.0 then 1 else 0) >= limit.connections))
  }

  lemma ZerosAreQuiet(u: Target, n: nat, late: Time, i: nat)
    requires AtOnce(u, n, late) && i < n
    ensures Quiet(u, Zeros(i + 1), 0.0)
  {
    ZerosCount(i + 1, 0.0, 1.0);
    if u.rule.maxConnRate.Some? {
      ZerosCount(i + 1, 0.0, u.rule.maxConnRate.value.interval);
    }
  }

  lemma ZerosAllQuiet(u: Target, n: nat, late: Time)
    requires AtOnce(u, n, late)
    ensures AllQuiet(u, Zeros(n)) && WithinASecond(Zeros(n)) && Ascending(Zeros(n))
  {
    ZerosAre(n);
    hide Quiet, AtOnce, Zeros;
    forall i | 0 <= i < |Zeros(n)| ensures Quiet(u, Zeros(n)[..i + 1], Zeros(n)[i]) {
      ZerosPrefix(n, i + 1);
      ZerosAreQuiet(u, n, late, i);
    }
  }

  lemma AtOnceIsPositive(u: Target, n: nat, late: Time)
    requires AtOnce(u, n, late)
    ensures u.rule.maxRps.Some? && u.rule.maxRps.value >= 2
    ensures u.rule.maxConnRate.Some? ==>
              var limit := u.rule.maxConnRate.value;
              limit.connections >= 1 && (IsFresh(u.pkt) && limit.interval > 0.0 ==> limit.connections >= 2)
  {
  }

  lemma OneIsQuiet(u: Target, n: nat, t: Time)
    requires AtOnce(u, n, t)
    ensures Quiet(u, [t], t)
  {
    hide AtOnce, Recent, IsFresh;
    AtOnceIsPositive(u, n, t);
    RecentShrinks([t], t, 1.0);
    if u.rule.maxConnRate.Some? {
      RecentOfOne(t, t, u.rule.maxConnRate.value.interval);
      NoneRecent(t, u.rule.maxConnRate.value.interval);
    }
  }

  lemma NoneRecent(now: Time, window: Time)
    ensures Recent([], now, window) == []
  {
  }

  /** A minute's cleanup leaves none of them. */
  lemma NothingLeft(u: Target, n: nat, late: Time)
    requires AtOnce(u, n, late)
    ensures Recent(Zeros(n), WINDOW, WINDOW) == [] && Quiet(u, [] + [late], late)
  {
    hide *;
    ZerosCount(n, WINDOW, WINDOW);
    assert [] + [late] == [late];
    OneIsQuiet(u, n, late);
  }

  lemma ComesBack(u: Target, n: nat, late: Time)
    requires AtOnce(u, n, late)
    ensures !Quiet(u, Zeros(n) + [late], late)
  {
    ZerosCount(n, late, 1.0);
    RecentSnoc(Zeros(n), late, late, 1.0);
    if u.rule.maxConnRate.Some? {
      ZerosCount(n, late, u.rule.maxConnRate.value.interval);
      RecentSnoc(Zeros(n), late, late, u.rule.maxConnRate.value.interval);
    }
  }

  lemma AtOnceDiffers(u: Target, n: nat, late: Time, d: Time)
    requires AlwaysHits(u) && AtOnce(u, n, late) && d >= 0.0 && late >= WINDOW - d
    ensures var run := ShortRun(u.pkt, Zeros(n), late);
            DisorderAtMost(run, d) && Alerts(u.cfg, run) == [] && ReferenceRun(u.cfg, run).1 != []
  {
    hide *;
    ZerosAllQuiet(u, n, late);
    NothingLeft(u, n, late);
    ComesBack(u, n, late);
    ShortRunDiffers(u, Zeros(n), late);
    ShortRunIsLate(u.pkt, Zeros(n), late, d);
  }

  // Early packets spread until the first is forgotten, `q` at a time

  function Spread(q: nat, step: Time, n: nat): Stamps
    requires q >= 1
  {
    if n == 0 then [] else Spread(q, step, n - 1) + [EndToEnd((n - 1) / q, step)]
  }

  lemma SpreadNext(q: nat, step: Time, n: nat)
    requires q >= 1
    ensures Spread(q, step, n + 1) == Spread(q, step, n) + [EndToEnd(n / q, step)]
  {
  }

  lemma {:induction false} EndToEndGrows(a: nat, b: nat, step: Time)
    requires step > 0.0 && a <= b
    ensures 0.0 <= EndToEnd(a, step) <= EndToEnd(b, step)
    ensures a < b ==> EndToEnd(a, step) + step <= EndToEnd(b, step)
    decreases b
  {
    if a == b {
      if a > 0 {
        EndToEndGrows(a - 1, b - 1, step);
      }
    } else {
      EndToEndGrows(a, b - 1, step);
    }
  }

  lemma NoneInLastStep(q: nat, step: Time, g: nat, now: Time)
    requires q >= 1
    ensures |Recent(Spread(q, step, 0), now, step)| <= LateRuns.SentFrom(q, 0, g)
  {
  }

  lemma OldBefore(k: nat, g: nat, step: Time, now: Time)
    requires step > 0.0 && now >= EndToEnd(g, step)
    ensures k < g ==> now - EndToEnd(k, step) >= step
  {
    hide EndToEnd;
    if k < g {
      EndToEndGrows(k, g, step);
    }
  }

  /** Counted from the g-th step on, only what is sent from then on is recent. */
  lemma {:induction false} SpreadInLastStep(q: nat, step: Time, n: nat, g: nat, now: Time)
    requires q >= 1 && step > 0.0 && now >= EndToEnd(g, step)
    ensures |Recent(Spread(q, step, n), now, step)| <= LateRuns.SentFrom(q, n, g)
    decreases n
  {
    hide *;
    if n == 0 {
      NoneInLastStep(q, step, g, now);
    } else {
      var init: nat := n - 1;
      SpreadNext(q, step, init);
      SpreadInLastStep(q, step, init, g, now);
      LateRuns.SentNext(q, init, g);
      RecentSnoc(Spread(q, step, init), EndToEnd(init / q, step), now, step);
      OldBefore(init / q, g, step, now);
    }
  }

  lemma {:induction false} SpreadAre(q: nat, step: Time, n: nat)
    requires q >= 1
    ensures |Spread(q, step, n)| == n
    ensures forall i :: 0 <= i < n ==> Spread(q, step, n)[i] == EndToEnd(i / q, step)
    decreases n
  {
    if n == 0 {
    } else {
      SpreadAre(q, step, n - 1);
    }
  }

  lemma SpreadPrefix(q: nat, step: Time, n: nat, i: nat)
    requires q >= 1 && i <= n
    ensures |Spread(q, step, n)| == n && Spread(q, step, n)[..i] == Spread(q, step, i)
  {
    SpreadAre(q, step, n);
    SpreadAre(q, step, i);
  }

  lemma SpreadAt(q: nat, step: Time, n: nat, i: nat, g: nat)
    requires q >= 1 && i < n && g == i / q
    ensures var times := Spread(q, step, n);
            |times| == n && times[..i + 1] == Spread(q, step, i + 1) && times[i] == EndToEnd(g, step)
  {
    hide *;
    SpreadAre(q, step, n);
    SpreadPrefix(q, step, n, i + 1);
  }

  lemma OneMoreRecent(stamps: Stamps, g: nat, step: Time, now: Time, length: Time)
    requires step > 0.0 && now < length
    ensures |Recent(stamps + [EndToEnd(g, step)], now, length)| == |Recent(stamps, now, length)| + 1
  {
    hide Recent, EndToEnd;
    EndToEndGrows(g, g, step);
    RecentSnoc(stamps, EndToEnd(g, step), now, length);
  }

  lemma NoneSpread(q: nat, step: Time, now: Time, length: Time)
    requires q >= 1
    ensures |Recent(Spread(q, step, 0), now, length)| == 0
  {
  }

  lemma {:induction false} SpreadAllRecent(q: nat, step: Time, n: nat, now: Time, length: Time)
    requires q >= 1 && step > 0.0 && now < length
    ensures |Recent(Spread(q, step, n), now, length)| == n
    decreases n
  {
    hide *;
    if n == 0 {
      NoneSpread(q, step, now, length);
    } else {
      var init: nat := n - 1;
      SpreadNext(q, step, init);
      SpreadAllRecent(q, step, init, now, length);
      OneMoreRecent(Spread(q, step, init), init / q, step, now, length);
    }
  }

  lemma FirstPruned(q: nat, step: Time, now: Time)
    requires q >= 1 && now >= WINDOW
    ensures Recent(Spread(q, step, 1), now, WINDOW) == []
  {
    SpreadNext(q, step, 0);
    assert EndToEnd(0, step) == 0.0 && Spread(q, step, 0) == [] && [] + [0.0] == [0.0];
    hide Recent, Spread, EndToEnd;
    LateRuns.FirstSecond(q, 0);
    RecentOfOne(0.0, now, WINDOW);
  }

  /** A minute later, pruning drops the first. */
  lemma {:induction false} SpreadPruned(q: nat, step: Time, n: nat, now: Time)
    requires q >= 1 && n >= 1 && now >= WINDOW
    ensures |Recent(Spread(q, step, n), now, WINDOW)| <= n - 1
    decreases n
  {
    hide *;
    if n == 1 {
      FirstPruned(q, step, now);
    } else {
      var init: nat := n - 1;
      SpreadNext(q, step, init);
      SpreadPruned(q, step, init, now);
      RecentSnoc(Spread(q, step, init), EndToEnd(init / q, step), now, WINDOW);
    }
  }

  /** Fresh packets, one short of the per-second limit, one short of the connection limit at a time. */
  ghost predicate SpreadOut(u: Target, q: nat, early: nat, step: Time) {
    && q >= 1 && early >= 1 && IsFresh(u.pkt)
    && u.rule.maxRps.Some? && u.rule.maxRps.value == early + 1
    && u.rule.maxConnRate.Some? && u.rule.maxConnRate.value.connections == q + 1
    && 0.0 < u.rule.maxConnRate.value.interval <= step
  }

  lemma SpreadOutMeans(u: Target, q: nat, early: nat, step: Time)
    requires SpreadOut(u, q, early, step)
    ensures q >= 1 && early >= 1 && step > 0.0 && u.rule.maxRps == Some(early + 1)
  {
  }

  lemma QuietByCounts(u: Target, stamps: Stamps, now: Time)
    requires u.rule.maxRps.Some? && u.rule.maxConnRate.Some? && IsFresh(u.pkt)
    ensures Quiet(u, stamps, now) <==>
              && |Recent(stamps, now, 1.0)| < u.rule.maxRps.value
              && |Recent(stamps, now, u.rule.maxConnRate.value.interval)| < u.rule.maxConnRate.value.connections
  {
    hide Recent;
  }

  lemma SpreadIsQuiet(u: Target, q: nat, early: nat, step: Time, i: nat, g: nat)
    requires SpreadOut(u, q, early, step) && i < early && g == i / q
    ensures Quiet(u, Spread(q, step, i + 1), EndToEnd(g, step))
  {
    var now := EndToEnd(g, step);
    hide Quiet, Recent, Spread, EndToEnd, IsFresh, LateRuns.SentFrom;
    SpreadAre(q, step, i + 1);
    RecentShrinks(Spread(q, step, i + 1), now, 1.0);
    SpreadInLastStep(q, step, i + 1, g, now);
    LongerWindowCountsMore(Spread(q, step, i + 1), now, u.rule.maxConnRate.value.interval, step);
    LateRuns.SentInSecond(q, i);
    QuietByCounts(u, Spread(q, step, i + 1), now);
  }

  lemma SpreadQuietAt(u: Target, q: nat, early: nat, step: Time, i: nat)
    requires SpreadOut(u, q, early, step) && i < early
    ensures var times := Spread(q, step, early); |times| == early && Quiet(u, times[..i + 1], times[i])
  {
    hide *;
    SpreadOutMeans(u, q, early, step);
    var g: nat := i / q;
    SpreadAt(q, step, early, i, g);
    SpreadIsQuiet(u, q, early, step, i, g);
  }

  lemma SpreadAllQuiet(u: Target, q: nat, early: nat, step: Time)
    requires SpreadOut(u, q, early, step)
    ensures AllQuiet(u, Spread(q, step, early))
  {
    assert q >= 1;
    SpreadPrefix(q, step, early, 0);
    hide Quiet, SpreadOut, Spread, EndToEnd;
    forall i | 0 <= i < early ensures Quiet(u, Spread(q, step, early)[..i + 1], Spread(q, step, early)[i]) {
      SpreadQuietAt(u, q, early, step, i);
    }
  }

  lemma AtLeastOnce(k: int, q: nat)
    ensures k >= 1 ==> k * q >= q
  {
  }

  lemma QuotientGrows(i: nat, j: nat, q: nat)
    requires q >= 1 && i <= j
    ensures i / q <= j / q
  {
    var k := i / q - j / q;
    assert k * q == i - i % q - j + j % q;
    AtLeastOnce(k, q);
  }

  lemma SpreadInOrder(q: nat, step: Time, i: nat, j: nat)
    requires q >= 1 && step > 0.0 && i <= j
    ensures EndToEnd(i / q, step) <= EndToEnd(j / q, step)
  {
    hide *;
    QuotientGrows(i, j, q);
    EndToEndGrows(i / q, j / q, step);
  }

  /** The early packets come in order. */
  lemma SpreadAscends(q: nat, step: Time, early: nat)
    requires q >= 1 && step > 0.0
    ensures Ascending(Spread(q, step, early))
  {
    hide Spread, EndToEnd;
    SpreadPrefix(q, step, early, 0);
    forall i, j | 0 <= i < j < early ensures Spread(q, step, early)[i] <= Spread(q, step, early)[j] {
      SpreadAt(q, step, early, i, i / q);
      SpreadAt(q, step, early, j, j / q);
      SpreadInOrder(q, step, i, j);
    }
  }

  // The packet that comes back makes the per-second count in the log only

  /** The key's own packet prunes it as well. */
  lemma OwnPrunes(u: Target, s: State, stamps: Stamps, now: Time)
    requires AlwaysHits(u) && HoldsAtMost(u, s, stamps) && Step(u.cfg, s, u.pkt, now).1 == []
    ensures HoldsAtMost(u, Step(u.cfg, s, u.pkt, now).0, Recent(stamps + [now], now, WINDOW))
  {
    var id, k, o := u.rule.id, Key(u), Observe(s, u.pkt, now);
    var c := CellOf(o, id, k);
    TargetIsPlain(u);
    TargetIsHit(u, s, now);
    assert Recent([], now, WINDOW) == [];
    NothingMore(Counted(u, stamps));
    hide AlwaysHits, Within, Hits, Observe, Step, EvalRule, Key, StampsOf, Recent, IsFresh;
    ObserveHoldsAtMost(u, s, stamps, now);
    WithinGrows(c.rates, stamps, now);
    WithinGrows(c.opens, Counted(u, stamps), now);
    WithinRecent(c.rates + [now], stamps + [now], now, WINDOW);
    WithinRecent(c.opens, Counted(u, stamps), now, WINDOW);
    WithinRecent(c.opens + [now], Counted(u, stamps) + [now], now, WINDOW);
    EvalRuleCell(u.cfg, o, u.rule, u.pkt, now, id, k);
    StepIsRule(u.cfg, s, u.rule, u.pkt, now);
  }

  lemma TargetIsHit(u: Target, s: State, now: Time)
    requires AlwaysHits(u)
    ensures Hits(u.cfg, Observe(s, u.pkt, now).conns, u.rule, u.pkt, u.rule.id, Key(u))
  {
    hide Matches;
  }

  lemma ThresholdBounded(rule: Rule, all: Stamps, counted: Stamps, now: Time, most: nat)
    requires |all| <= most && |counted| <= most
    ensures var t := Threshold(rule, all, counted, now); t.Some? ==> t.value <= most
  {
    hide Recent;
    RecentShrinks(all, now, 1.0);
    if rule.maxConnRate.Some? {
      RecentShrinks(counted, now, rule.maxConnRate.value.interval);
    }
  }

  /** What an alert reports is bounded by the stamps there are. */
  lemma TriggerBounded(u: Target, o: State, stamps: Stamps, now: Time)
    requires AlwaysHits(u) && HoldsAtMost(u, o, stamps)
    ensures var t := EngineTrigger(u, o, now); t.Some? ==> t.value <= |stamps| + 1
  {
    var id, k := u.rule.id, Key(u);
    var c := CellOf(o, id, k);
    var g := Extended(c, u.pkt, now);
    assert u.rule.maxConnRate.Some? ==> u.rule.maxConnRate.value.connections >= 1;
    hide AlwaysHits, Matches, Within, StampsOf, Recent, IsFresh, CountRates, CountOpens, Trigger, Key, Threshold;
    CountAt(o, u.rule, u.pkt, k, now, id, k);
    WithinSize(c.rates, stamps);
    WithinSize(c.opens, Counted(u, stamps));
    ThresholdBounded(u.rule, g.rates, g.opens, now, |stamps| + 1);
    TriggerByStamps(u.rule, CountRates(o, u.rule, k, now), CountOpens(o, u.rule, u.pkt, k, now), k, now);
  }

  lemma RateOfTrigger(u: Target, o: State, now: Time, counter: nat, most: nat)
    requires var t := EngineTrigger(u, o, now); t.Some? ==> t.value <= most
    requires most < 0x1_0000_0000
    ensures forall a :: a in Conclude(counter, EvalRule(u.cfg, o, u.rule, u.pkt, now)).1 ==> a.rate <= most
  {
    hide Matches, CountRates, CountOpens, Trigger, Settle;
  }

  lemma EngineRate(u: Target, s: State, stamps: Stamps, now: Time)
    requires AlwaysHits(u) && HoldsAtMost(u, s, stamps) && |stamps| + 1 < 0x1_0000_0000
    ensures forall a :: a in Step(u.cfg, s, u.pkt, now).1 ==> a.rate <= |stamps| + 1
  {
    var o := Observe(s, u.pkt, now);
    TargetIsPlain(u);
    hide AlwaysHits, HoldsAtMost, Step, Observe, CountRates, CountOpens, Trigger, EvalRule, Key, Conclude;
    ObserveHoldsAtMost(u, s, stamps, now);
    TriggerBounded(u, o, stamps, now);
    RateOfTrigger(u, o, now, s.alertCounter, |stamps| + 1);
    StepIsRule(u.cfg, s, u.rule, u.pkt, now);
  }

  lemma VerdictOnSecond(u: Target, log: seq<Entry>, stamps: Stamps, now: Time)
    requires AlwaysHits(u) && Since(log, u.rule.id, Key(u), false) == stamps
    requires |Recent(stamps, now, 1.0)| == u.rule.maxRps.value
    ensures Verdict(u.rule, log, Key(u), now) == Some(u.rule.maxRps.value as nat)
  {
    hide Since, Recent, Matches, Key;
  }

  lemma LogRuleAlerts(cfg: Config, conns: ConnTable, log: seq<Entry>, rule: Rule, pkt: Packet, now: Time, rate: u32)
    requires Matches(cfg, rule, pkt, conns)
    requires var k := TrackingKey(rule, pkt);
             Verdict(rule, log + [Hit(rule.id, k, now, IsFresh(pkt))], k, now) == Some(rate as nat)
    ensures LogRule(cfg, conns, log, rule, pkt, now).1 == [Pending(rule.id, TrackingKey(rule, pkt), rate)]
  {
    hide Matches, Verdict, IsFresh, TrackingKey;
  }

  lemma LoggedHit(u: Target, log: seq<Entry>, stamps: Stamps, now: Time)
    requires IsLogged(u, log, stamps)
    ensures Since(log + [Hit(u.rule.id, Key(u), now, IsFresh(u.pkt))], u.rule.id, Key(u), false) == stamps + [now]
  {
    hide Since, Key, IsFresh;
    SinceHit(log, Hit(u.rule.id, Key(u), now, IsFresh(u.pkt)), u.rule.id, Key(u), false);
  }

  lemma TargetMatches(u: Target, r: Reference, now: Time)
    requires AlwaysHits(u)
    ensures Matches(u.cfg, u.rule, u.pkt, ConnsOf(r, u.pkt, now)) && u.rule.maxRps.Some?
  {
    hide Matches;
  }

  /** The reference engine reports the per-second count once the limit is met. */
  lemma ReferenceRate(u: Target, r: Reference, stamps: Stamps, now: Time)
    requires AlwaysHits(u) && IsLogged(u, r.log, stamps)
    requires |Recent(stamps + [now], now, 1.0)| == u.rule.maxRps.value
    ensures exists a :: a in ReferenceStep(u.cfg, r, u.pkt, now).1 && a.rate == u.rule.maxRps.value
  {
    assert Key(u) == TrackingKey(u.rule, u.pkt);
    hide *;
    TargetIsPlain(u);
    TargetMatches(u, r, now);
    var conns, hit := ConnsOf(r, u.pkt, now), Hit(u.rule.id, Key(u), now, IsFresh(u.pkt));
    LoggedHit(u, r.log, stamps, now);
    VerdictOnSecond(u, r.log + [hit], stamps + [now], now);
    LogRuleAlerts(u.cfg, conns, r.log, u.rule, u.pkt, now, u.rule.maxRps.value);
    ReferenceStepIsRule(u.cfg, r, u.rule, u.pkt, now);
    OneNumbered(r.alertCounter, Pending(u.rule.id, Key(u), u.rule.maxRps.value));
  }

  lemma OneNumbered(counter: nat, p: Pending)
    ensures exists a :: a in Number(counter, [p]) && a.rate == p.rate
  {
    assert Number(counter, [p])[0] in Number(counter, [p]);
  }

  function SpreadRun(pkt: Packet, q: nat, early: nat, step: Time, late: Time): seq<Event>
    requires q >= 1
  {
    EventsAt(pkt, Spread(q, step, early)) + [Event(pkt, late)]
  }

  /** Once the last early packet is a minute after the first, the engine holds fewer. */
  lemma SpreadIsForgotten(u: Target, q: nat, early: nat, step: Time, g: nat)
    requires AlwaysHits(u) && SpreadOut(u, q, early, step) && g == (early - 1) / q && EndToEnd(g, step) >= WINDOW
    ensures var now, times := EndToEnd(g, step), Spread(q, step, early);
            && Alerts(u.cfg, EventsAt(u.pkt, times)) == []
            && HoldsAtMost(u, After(u.cfg, EventsAt(u.pkt, times)), Recent(times, now, WINDOW))
  {
    hide *;
    SpreadOutMeans(u, q, early, step);
    var init: nat, now := early - 1, EndToEnd(g, step);
    var before, events := EventsAt(u.pkt, Spread(q, step, init)), EventsAt(u.pkt, Spread(q, step, early));
    SpreadNext(q, step, init);
    SpreadAllQuiet(u, q, early, step);
    SpreadPrefix(q, step, early, init);
    EventsNext(u.pkt, Spread(q, step, init), now);
    QuietPrefix(u, Spread(q, step, early));
    SilentAfter(u, Spread(q, step, early));
    SilentAfter(u, Spread(q, step, init));
    AfterSnoc(u.cfg, before, Event(u.pkt, now));
    NothingMore(Step(u.cfg, After(u.cfg, before), u.pkt, now).1);
    OwnPrunes(u, After(u.cfg, before), Spread(q, step, init), now);
  }

  lemma EventsNext(pkt: Packet, times: Stamps, t: Time)
    ensures EventsAt(pkt, times + [t]) == EventsAt(pkt, times) + [Event(pkt, t)]
  {
    assert (times + [t])[..|times|] == times;
  }

  lemma SilentAfter(u: Target, times: Stamps)
    requires AlwaysHits(u) && AllQuiet(u, times)
    ensures Alerts(u.cfg, EventsAt(u.pkt, times)) == []
    ensures HoldsAtMost(u, After(u.cfg, EventsAt(u.pkt, times)), times)
  {
    var before := EventsAt(u.pkt, times);
    TargetIsPlain(u);
    hide AlwaysHits, AllQuiet, WithinASecond, ReferenceRun, IsLogged, EventsAt, Run, Dominated, HoldsAtMost, IsPlain;
    EarlyFacts(u, times);
    SilentRun(u.cfg, u.rule, before);
    DominatedHolds(u, After(u.cfg, before), ReferenceRun(u.cfg, before).0, times);
  }

  lemma LateMakesSecond(q: nat, early: nat, step: Time, late: Time)
    requires q >= 1 && step > 0.0 && late < 1.0
    ensures |Recent(Spread(q, step, early) + [late], late, 1.0)| == early + 1
  {
    hide *;
    SpreadAllRecent(q, step, early, late, 1.0);
    RecentSnoc(Spread(q, step, early), late, late, 1.0);
  }

  lemma DifferentLast(a: seq<Alert>, b: seq<Alert>, rate: nat)
    requires forall x :: x in a ==> x.rate < rate
    requires exists x :: x in b && x.rate == rate
    ensures a != b
  {
  }

  /** The reference engine reports the whole count, and the engine, if anything, less. */
  lemma SpreadRunDiffers(u: Target, q: nat, early: nat, step: Time, g: nat, late: Time)
    requires AlwaysHits(u) && SpreadOut(u, q, early, step) && g == (early - 1) / q && EndToEnd(g, step) >= WINDOW
    requires late < 1.0
    ensures Alerts(u.cfg, SpreadRun(u.pkt, q, early, step, late))
         != ReferenceRun(u.cfg, SpreadRun(u.pkt, q, early, step, late)).1
  {
    assert SpreadRun(u.pkt, q, early, step, late) == EventsAt(u.pkt, Spread(q, step, early)) + [Event(u.pkt, late)];
    hide *;
    SpreadOutMeans(u, q, early, step);
    var times, now := Spread(q, step, early), EndToEnd(g, step);
    var before, e := EventsAt(u.pkt, times), Event(u.pkt, late);
    SpreadAllQuiet(u, q, early, step);
    SpreadIsForgotten(u, q, early, step, g);
    SpreadPruned(q, step, early, now);
    EarlyFacts(u, times);
    LateMakesSecond(q, early, step, late);
    ReferenceRate(u, ReferenceRun(u.cfg, before).0, times, late);
    EngineRate(u, After(u.cfg, before), Recent(times, now, WINDOW), late);
    AfterSnoc(u.cfg, before, e);
    ReferenceSnoc(u.cfg, before, e);
    NothingMore(Step(u.cfg, After(u.cfg, before), u.pkt, late).1);
    NothingMore(ReferenceStep(u.cfg, ReferenceRun(u.cfg, before).0, u.pkt, late).1);
    DifferentLast(Step(u.cfg, After(u.cfg, before), u.pkt, late).1,
                  ReferenceStep(u.cfg, ReferenceRun(u.cfg, before).0, u.pkt, late).1, early + 1);
  }

  lemma AscendingIsOrdered(pkt: Packet, times: Stamps, late: Time, d: Time)
    requires Ascending(times) && d >= 0.0 && (forall t :: t in times ==> late >= t - d)
    ensures DisorderAtMost(EventsAt(pkt, times) + [Event(pkt, late)], d)
  {
    EventsAtTimes(pkt, times);
    hide EventsAt;
    assert forall i :: 0 <= i < |times| ==> times[i] in times;
  }

  lemma SpreadIsEarly(q: nat, early: nat, step: Time, g: nat, t: Time)
    requires q >= 1 && early >= 1 && step > 0.0 && g == (early - 1) / q && t in Spread(q, step, early)
    ensures t <= EndToEnd(g, step)
  {
    hide *;
    SpreadPrefix(q, step, early, 0);
    var i :| 0 <= i < early && Spread(q, step, early)[i] == t;
    SpreadAt(q, step, early, i, i / q);
    SpreadInOrder(q, step, i, early - 1);
  }

  lemma SpreadRunIsLate(pkt: Packet, q: nat, early: nat, step: Time, g: nat, late: Time, d: Time)
    requires q >= 1 && early >= 1 && step > 0.0 && g == (early - 1) / q && d >= 0.0 && late >= EndToEnd(g, step) - d
    ensures DisorderAtMost(SpreadRun(pkt, q, early, step, late), d)
  {
    assert SpreadRun(pkt, q, early, step, late) == EventsAt(pkt, Spread(q, step, early)) + [Event(pkt, late)];
    hide *;
    SpreadAscends(q, step, early);
    forall t | t in Spread(q, step, early) ensures late >= t - d {
      SpreadIsEarly(q, early, step, g, t);
    }
    AscendingIsOrdered(pkt, Spread(q, step, early), late, d);
  }
}
