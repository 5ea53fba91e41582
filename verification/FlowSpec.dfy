/** The flow table as a map from flow keys to unbounded packet histories, and what its runs keep. */
module FlowSpec {
  import opened Prelude

  datatype FlowKey = FlowKey(srcIp: u32, srcPort: u16, dstIp: u32, dstPort: u16)

  /** Timestamps are nanoseconds on a common clock. */
  datatype Packet = Packet(ts: int, data: Bytes)

  const SLOTS := 100
  const MINUTE := 60_000_000_000

  /** Every packet of each present flow since it was last admitted. */
  type Table = map<FlowKey, seq<Packet>>

  function Saturating(d: int): nat {
    if d >= 0 then d else 0
  }

  function LastN(history: seq<Packet>, n: nat): seq<Packet> {
    history[|history| - Min(n, |history|)..]
  }

  /** A packet completes a burst when the hundredth packet before it is less than a minute old. */
  predicate IsBurst(history: seq<Packet>, pkt: Packet) {
    |history| >= SLOTS && Saturating(pkt.ts - history[|history| - SLOTS].ts) < MINUTE
  }

  function LastSeen(history: seq<Packet>): int {
    if history == [] then 0 else history[|history| - 1].ts
  }

  ghost predicate IsLeastRecent(t: Table, victim: FlowKey) {
    victim in t && forall k :: k in t ==> LastSeen(t[victim]) <= LastSeen(t[k])
  }

  /** `kept` is `t` after making room for `key`: at most one least recently seen flow is gone. */
  ghost predicate MakesRoom(t: Table, maxFlows: nat, key: FlowKey, kept: Table) {
    if key in t || |t| < maxFlows || |t| == 0 then kept == t
    else exists victim :: IsLeastRecent(t, victim) && kept == t - {victim}
  }

  function Append(t: Table, key: FlowKey, pkt: Packet): Table {
    t[key := (if key in t then t[key] else []) + [pkt]]
  }

  ghost predicate PacketStep(t: Table, maxFlows: nat, key: FlowKey, pkt: Packet, t': Table) {
    exists kept :: MakesRoom(t, maxFlows, key, kept) && t' == Append(kept, key, pkt)
  }

  /** Making room, admitting the key with an empty history if need be, and appending is a packet step. */
  lemma PacketStepIntro(t: Table, maxFlows: nat, key: FlowKey, pkt: Packet, kept: Table)
    requires MakesRoom(t, maxFlows, key, kept)
    ensures var before := if key in kept then kept[key] else [];
            PacketStep(t, maxFlows, key, pkt, kept[key := before][key := before + [pkt]])
  {
    var before := if key in kept then kept[key] else [];
    assert kept[key := before][key := before + [pkt]] == Append(kept, key, pkt);
  }

  predicate IsActive(history: seq<Packet>, now: int) {
    now >= LastSeen(history) ==> now - LastSeen(history) <= MINUTE
  }

  function Cleaned(t: Table, now: int): Table {
    map k | k in t && IsActive(t[k], now) :: t[k]
  }

  /** Slot `i` modulo the ring size holds the i-th packet of the history. */
  ghost predicate InSlot(slots: seq<Option<Packet>>, stamps: seq<int>, history: seq<Packet>, i: nat)
    requires |slots| == |stamps| == SLOTS && i < |history|
  {
    slots[i % SLOTS] == Some(history[i]) && stamps[i % SLOTS] == history[i].ts
  }

  /** The ring holds the newest packets of the history. */
  ghost predicate RingHolds(slots: seq<Option<Packet>>, stamps: seq<int>, history: seq<Packet>) {
    && |slots| == |stamps| == SLOTS
    && forall i :: |history| - Min(|history|, SLOTS) <= i < |history| ==> InSlot(slots, stamps, history, i)
  }

  lemma HeadNext(n: nat)
    ensures (n % SLOTS + 1) % SLOTS == (n + 1) % SLOTS
    ensures n >= SLOTS ==> (n + 1 - SLOTS) % SLOTS == (n + 1) % SLOTS && (n - SLOTS) % SLOTS == n % SLOTS
  {
  }

  lemma RingSlot(slots: seq<Option<Packet>>, stamps: seq<int>, history: seq<Packet>, i: nat)
    requires RingHolds(slots, stamps, history) && |history| - Min(|history|, SLOTS) <= i < |history|
    ensures slots[i % SLOTS] == Some(history[i]) && stamps[i % SLOTS] == history[i].ts
  {
    assert InSlot(slots, stamps, history, i);
  }

  lemma SliceSnoc(history: seq<Packet>, a: nat, b: nat)
    requires a <= b < |history|
    ensures history[a..b + 1] == history[a..b] + [history[b]]
  {
  }

  lemma SlotOf(n: nat, i: nat)
    requires n >= SLOTS
    ensures (n % SLOTS + i) % SLOTS == (n - SLOTS + i) % SLOTS
  {
  }

  /** Writing a packet at the head overwrites only the packet that is no longer among the newest. */
  lemma RingPush(slots: seq<Option<Packet>>, stamps: seq<int>, history: seq<Packet>, pkt: Packet)
    requires RingHolds(slots, stamps, history)
    ensures RingHolds(slots[|history| % SLOTS := Some(pkt)], stamps[|history| % SLOTS := pkt.ts], history + [pkt])
  {
    var n, at := |history|, |history| % SLOTS;
    var slots', stamps', history' := slots[at := Some(pkt)], stamps[at := pkt.ts], history + [pkt];
    forall i | n + 1 - Min(n + 1, SLOTS) <= i < n + 1 ensures InSlot(slots', stamps', history', i) {
      if i < n {
        assert InSlot(slots, stamps, history, i);
        assert i % SLOTS != at;
      }
    }
  }

  lemma RemoveIdle(t: Table, idle: set<FlowKey>, now: int)
    requires forall k :: k in t ==> (k in idle <==> !IsActive(t[k], now))
    ensures t - idle == Cleaned(t, now)
    ensures |Cleaned(t, now)| <= |t|
  {
    assert Cleaned(t, now).Keys <= t.Keys;
    SubsetSize(Cleaned(t, now).Keys, t.Keys);
  }

  // Runs: packets and cleanups are atomic, since each holds the table's lock, and interleave freely.

  datatype Event = Arrive(key: FlowKey, pkt: Packet) | Cleanup(now: int)

  ghost predicate Step(t: Table, maxFlows: nat, e: Event, t': Table) {
    match e
    case Arrive(key, pkt) => PacketStep(t, maxFlows, key, pkt, t')
    case Cleanup(now) => t' == Cleaned(t, now)
  }

  ghost predicate IsRun(maxFlows: nat, events: seq<Event>, tables: seq<Table>) {
    && |tables| == |events| + 1
    && tables[0] == map[]
    && forall i :: 0 <= i < |events| ==> Step(tables[i], maxFlows, events[i], tables[i + 1])
  }

  /** The packets of one key among the events, in order. */
  function Arrivals(events: seq<Event>, key: FlowKey): seq<Packet> {
    if events == [] then []
    else
      var earlier, e := Arrivals(events[..|events| - 1], key), events[|events| - 1];
      if e.Arrive? && e.key == key then earlier + [e.pkt] else earlier
  }

  lemma RunPrefix(maxFlows: nat, events: seq<Event>, tables: seq<Table>, n: nat)
    requires IsRun(maxFlows, events, tables) && n <= |events|
    ensures IsRun(maxFlows, events[..n], tables[..n + 1])
  {
  }

  /** One step admits at most the arriving key, and extends or keeps each other history unchanged. */
  lemma StepHistories(t: Table, maxFlows: nat, e: Event, t': Table, k: FlowKey)
    requires Step(t, maxFlows, e, t') && k in t'
    ensures e.Arrive? && e.key == k ==> t'[k] == (if k in t then t[k] else []) + [e.pkt]
    ensures !(e.Arrive? && e.key == k) ==> k in t && t'[k] == t[k]
  {
  }

  /** A packet costs at most one other flow its place, and only one seen no later than any other. */
  lemma EvictedIsLeastRecent(t: Table, maxFlows: nat, key: FlowKey, pkt: Packet, t': Table, gone: FlowKey, k: FlowKey)
    requires PacketStep(t, maxFlows, key, pkt, t')
    requires gone in t && gone !in t' && k in t
    ensures key !in t && |t| >= maxFlows
    ensures k != gone ==> k in t'
    ensures LastSeen(t[gone]) <= LastSeen(t[k])
  {
    var kept :| MakesRoom(t, maxFlows, key, kept) && t' == Append(kept, key, pkt);
    assert gone !in kept;
    var victim :| IsLeastRecent(t, victim) && kept == t - {victim};
  }

  lemma RoomSize(t: Table, maxFlows: nat, key: FlowKey, kept: Table)
    requires MakesRoom(t, maxFlows, key, kept)
    requires |t| <= if maxFlows == 0 then 1 else maxFlows
    ensures |kept.Keys| <= (if maxFlows == 0 then 1 else maxFlows) - if key in kept then 0 else 1
  {
    if kept != t {
      var victim :| IsLeastRecent(t, victim) && kept == t - {victim};
      assert kept.Keys == t.Keys - {victim};
    }
  }

  lemma PacketStepSize(t: Table, maxFlows: nat, key: FlowKey, pkt: Packet, t': Table)
    requires PacketStep(t, maxFlows, key, pkt, t')
    requires |t| <= if maxFlows == 0 then 1 else maxFlows
    ensures |t'| <= if maxFlows == 0 then 1 else maxFlows
  {
    hide MakesRoom;
    var kept :| MakesRoom(t, maxFlows, key, kept) && t' == Append(kept, key, pkt);
    RoomSize(t, maxFlows, key, kept);
    assert t'.Keys == kept.Keys + {key};
  }

  /** The table never outgrows its limit, except that it always holds the flow just seen. */
  lemma {:induction false} SizeBound(maxFlows: nat, events: seq<Event>, tables: seq<Table>)
    requires IsRun(maxFlows, events, tables)
    ensures |tables[|events|]| <= if maxFlows == 0 then 1 else maxFlows
  {
    if events == [] {
    } else {
      var n := |events| - 1;
      RunPrefix(maxFlows, events, tables, n);
      SizeBound(maxFlows, events[..n], tables[..n + 1]);
      assert Step(tables[n], maxFlows, events[n], tables[n + 1]);
      match events[n]
      case Arrive(key, pkt) => PacketStepSize(tables[n], maxFlows, key, pkt, tables[n + 1]);
      case Cleanup(now) =>
        assert tables[n + 1].Keys <= tables[n].Keys;
        SubsetSize(tables[n + 1].Keys, tables[n].Keys);
    }
  }

  lemma {:induction false} SubsetSize<T>(a: set<T>, b: set<T>)
    requires a <= b
    ensures |a| <= |b|
  {
    if a == {} {
    } else {
      var x :| x in a;
      SubsetSize(a - {x}, b - {x});
    }
  }

  /** Present flows have seen a packet, and their history is a run of arrivals ending now. */
  lemma {:induction false} PresentIsNonempty(maxFlows: nat, events: seq<Event>, tables: seq<Table>, k: FlowKey)
    requires IsRun(maxFlows, events, tables) && k in tables[|events|]
    ensures tables[|events|][k] != []
    ensures Arrivals(events, k) != [] && LastSeen(Arrivals(events, k)) == LastSeen(tables[|events|][k])
  {
    var n := |events| - 1;
    assert Step(tables[n], maxFlows, events[n], tables[n + 1]);
    StepHistories(tables[n], maxFlows, events[n], tables[n + 1], k);
    if !(events[n].Arrive? && events[n].key == k) {
      RunPrefix(maxFlows, events, tables, n);
      PresentIsNonempty(maxFlows, events[..n], tables[..n + 1], k);
    }
  }

  /**
    Per-flow refinement: a flow absent after `a` events and present ever since holds exactly the
    packets of its own key that arrived since then, in arrival order.
   */
  lemma {:induction false} HistorySinceAdmission(maxFlows: nat, events: seq<Event>, tables: seq<Table>, k: FlowKey,
                                                 a: nat)
    requires IsRun(maxFlows, events, tables)
    requires a < |events| && k !in tables[a]
    requires forall j :: a < j <= |events| ==> k in tables[j]
    ensures tables[|events|][k] == Arrivals(events[a..], k)
  {
    var n := |events| - 1;
    assert Step(tables[n], maxFlows, events[n], tables[n + 1]);
    RunPrefix(maxFlows, events, tables, n);
    assert events[a..][..n - a] == events[..n][a..] && events[a..][n - a] == events[n];
    hide IsRun, Step;
    StepHistories(tables[n], maxFlows, events[n], tables[n + 1], k);
    if a < n {
      HistorySinceAdmission(maxFlows, events[..n], tables[..n + 1], k, a);
    } else {
      assert events[..n][a..] == [];
    }
  }

  /**
    Burst exactness over whole runs: the flag for the next packet of a flow admitted after `a` events
    compares it with the hundredth of the flow's own packets before it, counted since that admission,
    and those hundred packets are what the ring reports.
   */
  lemma {:induction false} BurstSinceAdmission(maxFlows: nat, events: seq<Event>, tables: seq<Table>, k: FlowKey,
                                               a: nat, pkt: Packet)
    requires IsRun(maxFlows, events, tables)
    requires a < |events| && k !in tables[a]
    requires forall j :: a < j <= |events| ==> k in tables[j]
    ensures var since := Arrivals(events[a..], k);
            var i := |since|;
            && (IsBurst(tables[|events|][k], pkt) <==> i >= 100 && pkt.ts - since[i - 100].ts < 60_000_000_000)
            && (i >= 100 ==> LastN(tables[|events|][k], SLOTS) == since[i - 100..])
  {
    hide IsRun, Arrivals;
    HistorySinceAdmission(maxFlows, events, tables, k, a);
  }

  ghost predicate ArrivalsInOrder(events: seq<Event>) {
    forall i, j :: 0 <= i < j < |events| && events[i].Arrive? && events[j].Arrive? ==>
                     events[i].pkt.ts <= events[j].pkt.ts
  }

  /** When the key was last used, by the packets that arrived. */
  function LastUse(events: seq<Event>, k: FlowKey): int {
    LastSeen(Arrivals(events, k))
  }

  lemma {:induction false} UsedBefore(events: seq<Event>, k: FlowKey, ts: int)
    requires Arrivals(events, k) != []
    requires forall i :: 0 <= i < |events| && events[i].Arrive? ==> events[i].pkt.ts <= ts
    ensures LastUse(events, k) <= ts
  {
    var n := |events| - 1;
    if !(events[n].Arrive? && events[n].key == k) {
      UsedBefore(events[..n], k, ts);
    }
  }

  lemma UseStep(events: seq<Event>, k: FlowKey)
    requires events != []
    ensures var e, earlier := events[|events| - 1], events[..|events| - 1];
            if e.Arrive? && e.key == k then Arrivals(events, k) != [] && LastUse(events, k) == e.pkt.ts
            else Arrivals(events, k) == Arrivals(earlier, k)
  {
  }

  /** One step keeps the order: what leaves was used no later than what stays. */
  lemma LeavingIsLessRecent(t: Table, maxFlows: nat, e: Event, t': Table, inside: FlowKey, outside: FlowKey)
    requires Step(t, maxFlows, e, t')
    requires inside in t && inside in t' && outside in t && outside !in t'
    ensures LastSeen(t[outside]) <= LastSeen(t[inside])
  {
    if e.Arrive? {
      EvictedIsLeastRecent(t, maxFlows, e.key, e.pkt, t', outside, inside);
    }
  }

  /**
    Least-recently-used order over whole runs: when packet times do not decrease, no flow outside the
    table was used more recently than one inside it. The cleanup clock may read anything.
   */
  lemma {:induction false} OutsideIsLessRecent(maxFlows: nat, events: seq<Event>, tables: seq<Table>, inside: FlowKey,
                                               outside: FlowKey)
    requires IsRun(maxFlows, events, tables) && ArrivalsInOrder(events)
    requires inside in tables[|events|] && outside !in tables[|events|]
    requires Arrivals(events, outside) != []
    ensures LastUse(events, outside) <= LastUse(events, inside)
  {
    var n := |events| - 1;
    var e, before, after := events[n], tables[n], tables[n + 1];
    assert Step(before, maxFlows, e, after);
    assert e.Arrive? ==> e.key in after;
    RunPrefix(maxFlows, events, tables, n);
    hide IsRun, Step, Arrivals;
    UseStep(events, inside);
    UseStep(events, outside);
    if e.Arrive? && e.key == inside {
      UsedBefore(events, outside, e.pkt.ts);
    } else if outside in before {
      StepHistories(before, maxFlows, e, after, inside);
      PresentIsNonempty(maxFlows, events[..n], tables[..n + 1], inside);
      PresentIsNonempty(maxFlows, events[..n], tables[..n + 1], outside);
      LeavingIsLessRecent(before, maxFlows, e, after, inside, outside);
    } else {
      StepHistories(before, maxFlows, e, after, inside);
      OutsideIsLessRecent(maxFlows, events[..n], tables[..n + 1], inside, outside);
    }
  }
  // Who leaves, and why

  lemma {:induction false} LastUseIsLastSeen(maxFlows: nat, events: seq<Event>, tables: seq<Table>, n: nat, k: FlowKey)
    requires IsRun(maxFlows, events, tables) && n <= |events| && k in tables[n]
    ensures LastUse(events[..n], k) == LastSeen(tables[n][k])
  {
    hide Arrivals, LastSeen, Step;
    RunPrefix(maxFlows, events, tables, n);
    PresentIsNonempty(maxFlows, events[..n], tables[..n + 1], k);
  }

  /** A cleanup keeps a flow if and only if its last packet is at most sixty seconds old, or yet to come. */
  lemma {:induction false} CleanupKeepsIff(maxFlows: nat, events: seq<Event>, tables: seq<Table>, n: nat, k: FlowKey)
    requires IsRun(maxFlows, events, tables) && n < |events| && events[n].Cleanup? && k in tables[n]
    ensures k in tables[n + 1] <==> events[n].now - LastUse(events[..n], k) <= 60_000_000_000
  {
    assert Step(tables[n], maxFlows, events[n], tables[n + 1]);
    LastUseIsLastSeen(maxFlows, events, tables, n, k);
    hide IsRun, LastSeen, Arrivals;
  }

  /** The flow leaves at an arrival for the reason an eviction has. */
  ghost predicate IsEvicted(maxFlows: nat, events: seq<Event>, tables: seq<Table>, n: nat, k: FlowKey)
    requires n < |events| && |tables| == |events| + 1
  {
    && events[n].Arrive? && events[n].key !in tables[n] && |tables[n]| >= maxFlows
    && forall other :: other in tables[n] ==> LastUse(events[..n], k) <= LastUse(events[..n], other)
  }

  /** A flow leaves only as the least recently used of a full table, or idle for over sixty seconds at a cleanup. */
  lemma {:induction false} LeavesOnlyIf(maxFlows: nat, events: seq<Event>, tables: seq<Table>, n: nat, k: FlowKey)
    requires IsRun(maxFlows, events, tables) && n < |events| && k in tables[n] && k !in tables[n + 1]
    ensures || IsEvicted(maxFlows, events, tables, n, k)
            || (events[n].Cleanup? && events[n].now - LastUse(events[..n], k) > 60_000_000_000)
  {
    assert Step(tables[n], maxFlows, events[n], tables[n + 1]);
    if events[n].Cleanup? {
      CleanupKeepsIff(maxFlows, events, tables, n, k);
    } else {
      EvictedIsLeastRecent(tables[n], maxFlows, events[n].key, events[n].pkt, tables[n + 1], k, k);
      hide IsRun, LastSeen, Arrivals, Step;
      LastUseIsLastSeen(maxFlows, events, tables, n, k);
      forall other | other in tables[n] ensures LastUse(events[..n], k) <= LastUse(events[..n], other) {
        EvictedIsLeastRecent(tables[n], maxFlows, events[n].key, events[n].pkt, tables[n + 1], k, other);
        LastUseIsLastSeen(maxFlows, events, tables, n, other);
      }
    }
  }

  /** A cleanup at the i-th event finds the flow used within sixty seconds. */
  predicate InUseAt(events: seq<Event>, i: nat, k: FlowKey)
    requires i < |events|
  {
    events[i].Cleanup? ==> events[i].now - LastUse(events[..i], k) <= 60_000_000_000
  }

  predicate ArrivesAt(events: seq<Event>, c: nat, k: FlowKey)
    requires c < |events|
  {
    events[c].Arrive? && events[c].key == k
  }

  ghost predicate InUseSince(events: seq<Event>, c: nat, k: FlowKey) {
    forall i :: c < i < |events| ==> InUseAt(events, i, k)
  }

  /** A packet of the flow arrived, and every cleanup since has found it in use. */
  ghost predicate StaysInUse(events: seq<Event>, k: FlowKey) {
    exists c :: 0 <= c < |events| && ArrivesAt(events, c, k) && InUseSince(events, c, k)
  }

  lemma InUsePrefix(events: seq<Event>, i: nat, k: FlowKey)
    requires i < |events| - 1
    ensures InUseAt(events[..|events| - 1], i, k) <==> InUseAt(events, i, k)
    ensures ArrivesAt(events[..|events| - 1], i, k) <==> ArrivesAt(events, i, k)
  {
    assert events[..|events| - 1][..i] == events[..i];
  }

  lemma InUseNext(events: seq<Event>, k: FlowKey)
    requires events != []
    ensures StaysInUse(events, k)
       <==> || (StaysInUse(events[..|events| - 1], k) && InUseAt(events, |events| - 1, k))
            || ArrivesAt(events, |events| - 1, k)
  {
    hide InUseAt, ArrivesAt;
    var n, init := |events| - 1, events[..|events| - 1];
    if ArrivesAt(events, n, k) {
      assert InUseSince(events, n, k);
    }
    if StaysInUse(init, k) && InUseAt(events, n, k) {
      var c :| 0 <= c < |init| && ArrivesAt(init, c, k) && InUseSince(init, c, k);
      forall i | c < i < |events| ensures InUseAt(events, i, k) {
        if i < n {
          InUsePrefix(events, i, k);
        }
      }
      InUsePrefix(events, c, k);
      assert ArrivesAt(events, c, k) && InUseSince(events, c, k);
    }
    if StaysInUse(events, k) && !ArrivesAt(events, n, k) {
      var c :| 0 <= c < |events| && ArrivesAt(events, c, k) && InUseSince(events, c, k);
      forall i | c < i < |init| ensures InUseAt(init, i, k) {
        InUsePrefix(events, i, k);
      }
      InUsePrefix(events, c, k);
      assert ArrivesAt(init, c, k) && InUseSince(init, c, k);
    }
  }

  /** What one event makes of a flow's presence while there is room. */
  lemma {:induction false} PresenceNext(maxFlows: nat, events: seq<Event>, tables: seq<Table>, n: nat, k: FlowKey)
    requires IsRun(maxFlows, events, tables) && n < |events| && |tables[n]| < maxFlows
    ensures k in tables[n + 1] <==> (k in tables[n] && InUseAt(events, n, k)) || ArrivesAt(events, n, k)
  {
    assert Step(tables[n], maxFlows, events[n], tables[n + 1]);
    if events[n].Cleanup? && k in tables[n] {
      CleanupKeepsIff(maxFlows, events, tables, n, k);
    }
  }

  /** While the table has room, it holds exactly the flows in use. */
  lemma {:induction false} PresentIff(maxFlows: nat, events: seq<Event>, tables: seq<Table>, k: FlowKey)
    requires IsRun(maxFlows, events, tables)
    requires forall i :: 0 <= i < |events| ==> |tables[i]| < maxFlows
    ensures k in tables[|events|] <==> StaysInUse(events, k)
    decreases |events|
  {
    hide Step, StaysInUse, InUseAt, ArrivesAt;
    if events == [] {
      NothingInUse(k);
    } else {
      var n := |events| - 1;
      RunPrefix(maxFlows, events, tables, n);
      PresentIff(maxFlows, events[..n], tables[..n + 1], k);
      PresenceNext(maxFlows, events, tables, n, k);
      InUseNext(events, k);
    }
  }

  lemma NothingInUse(k: FlowKey)
    ensures !StaysInUse([], k)
  {
  }
}
