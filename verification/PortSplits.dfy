/**
  Why the packets of a key must share a port. For every connection limit of two or more over a positive interval,
  counted packets of one key on two ports make a batch on which grouping costs an alert.
 */
module PortSplits {
  import opened Prelude
  import opened Packets
  import opened Rules
  import opened EngineSpec
  import opened Windows
  import opened Pruning
  import opened SingleRules
  import opened LocalitySpec
  import opened Capture
  import opened Regrouping
  import opened LateRuns
  import Frames

  // What one packet of a setup does to its key's stamps

  /** How often a time occurs. */
  function Count(stamps: Stamps, t: Time): nat {
    if stamps == [] then 0
    else Count(stamps[..|stamps| - 1], t) + if stamps[|stamps| - 1] == t then 1 else 0
  }

  lemma CountSnoc(stamps: Stamps, x: Time, t: Time)
    ensures Count(stamps + [x], t) == Count(stamps, t) + if x == t then 1 else 0
  {
    assert (stamps + [x])[..|stamps|] == stamps;
  }

  /** Every stamp is of this time, or an interval older. */
  ghost predicate Settled(stamps: Stamps, t: Time, interval: Time) {
    forall x :: x in stamps ==> x == t || t - x >= interval
  }

  /** Of settled stamps, those of this time are counted. */
  lemma {:induction false} SettledCount(stamps: Stamps, t: Time, interval: Time)
    requires interval > 0.0 && Settled(stamps, t, interval)
    ensures |Recent(stamps, t, interval)| == Count(stamps, t)
    decreases |stamps|
  {
    if stamps == [] {
    } else {
      var init, x := stamps[..|stamps| - 1], stamps[|stamps| - 1];
      assert x in stamps && stamps == init + [x];
      assert forall y :: y in init ==> y in stamps;
      SettledCount(init, t, interval);
    }
  }

  /** Pruning keeps what is not a window older. */
  lemma {:induction false} PruneKeepsCount(stamps: Stamps, t: Time, now: Time, window: Time)
    requires now - t < window
    ensures Count(Recent(stamps, now, window), t) == Count(stamps, t)
    decreases |stamps|
  {
    if stamps == [] {
    } else {
      var init, x := stamps[..|stamps| - 1], stamps[|stamps| - 1];
      PruneKeepsCount(init, t, now, window);
      CountSnoc(Recent(init, now, window), x, t);
    }
  }

  /** At least the stamps of a time within the interval are counted. */
  lemma {:induction false} CountedAtLeast(stamps: Stamps, t: Time, now: Time, interval: Time)
    requires now - t < interval
    ensures |Recent(stamps, now, interval)| >= Count(stamps, t)
    decreases |stamps|
  {
    if stamps == [] {
    } else {
      CountedAtLeast(stamps[..|stamps| - 1], t, now, interval);
    }
  }

  /** The stamps a packet finds, itself included. */
  function Met(u: Setup, s: State, now: Time): Stamps {
    Kept(u, s, now, Key(u)) + [now]
  }

  ghost predicate OnlyConnections(u: Setup) {
    Counts(u) && u.rule.maxRps.None? && u.limit.interval > 0.0
  }

  lemma VerdictOnMet(u: Setup, o: State, now: Time)
    requires OnlyConnections(u)
    ensures var pending := EvalRule(u.cfg, o, u.rule, u.pkt, now).1;
            |pending| == if |Recent(Opens(u, o, Key(u)) + [now], now, u.limit.interval)| >= u.limit.connections
                         then 1 else 0
  {
    var id, k := u.rule.id, Key(u);
    assert Matches(u.cfg, u.rule, u.pkt, o.conns) && IsFresh(u.pkt);
    LimitIsPositive(u);
    assert u.rule.maxRps.None?;
    hide Counts, OnlyConnections, Recent, CountRates, CountOpens, StampsOf, Matches, Settle, IsFresh;
    CountAt(o, u.rule, u.pkt, k, now, id, k);
    TriggerByStamps(u.rule, CountRates(o, u.rule, k, now), CountOpens(o, u.rule, u.pkt, k, now), k, now);
  }

  /** An alert empties the key; without one the packet joins what pruning keeps. */
  lemma OneHit(u: Setup, s: State, now: Time)
    requires OnlyConnections(u)
    ensures var (s', alerts) := Step(u.cfg, s, u.pkt, now);
            if |Recent(Met(u, s, now), now, u.limit.interval)| >= u.limit.connections
            then |alerts| == 1 && Opens(u, s', Key(u)) == []
            else alerts == [] && Opens(u, s', Key(u)) == Recent(Met(u, s, now), now, WINDOW)
  {
    var o := Observe(s, u.pkt, now);
    assert Counts(u);
    hide OnlyConnections, Counts, Step, EvalRule, Observe, Opens, Kept, Recent, Hits, IsFresh, Key;
    SetupHits(u, o.conns);
    ObserveOpens(u, s, u.pkt, now, Key(u));
    StepOpens(u, s, u.pkt, now, Key(u));
    VerdictOnMet(u, o, now);
    RuleOpens(u, o, u.pkt, now, Key(u));
  }

  /** The key's stamps are settled at `t`, with `j` of them of that time. */
  ghost predicate HasSettled(u: Setup, s: State, t: Time, j: nat) {
    Settled(Opens(u, s, Key(u)), t, u.limit.interval) && Count(Opens(u, s, Key(u)), t) == j
  }

  lemma RecentStaysSettled(stamps: Stamps, t: Time, interval: Time, now: Time, window: Time)
    requires Settled(stamps, t, interval)
    ensures Settled(Recent(stamps, now, window), t, interval)
  {
    RecentShrinks(stamps, now, window);
  }

  lemma MetIsSettled(u: Setup, s: State, t: Time, j: nat)
    requires HasSettled(u, s, t, j)
    ensures Settled(Met(u, s, t), t, u.limit.interval) && Count(Met(u, s, t), t) == j + 1
  {
    hide Opens, Key, Recent, Count;
    RecentStaysSettled(Opens(u, s, Key(u)), t, u.limit.interval, t, WINDOW);
    PruneKeepsCount(Opens(u, s, Key(u)), t, t, WINDOW);
    CountSnoc(Kept(u, s, t, Key(u)), t, t);
  }

  /** Of the packets of one time, those before the limit are counted in silence, and the next one alerts. */
  lemma SettledHit(u: Setup, s: State, t: Time, j: nat)
    requires OnlyConnections(u) && HasSettled(u, s, t, j)
    ensures var (s', alerts) := Step(u.cfg, s, u.pkt, t);
            if j + 1 >= u.limit.connections then |alerts| == 1 && Opens(u, s', Key(u)) == []
            else alerts == [] && HasSettled(u, s', t, j + 1)
  {
    assert u.limit.interval > 0.0;
    hide OnlyConnections, Step, Opens, Kept, Key, Recent, Count, Met, Settled;
    MetIsSettled(u, s, t, j);
    SettledCount(Met(u, s, t), t, u.limit.interval);
    OneHit(u, s, t);
    RecentStaysSettled(Met(u, s, t), t, u.limit.interval, t, WINDOW);
    PruneKeepsCount(Met(u, s, t), t, t, WINDOW);
  }

  // Runs of equal packets

  function Repeat<T>(x: T, n: nat): seq<T> {
    if n == 0 then [] else Repeat(x, n - 1) + [x]
  }

  lemma RepeatNext<T>(a: seq<T>, x: T, n: nat)
    ensures a + Repeat(x, n + 1) == (a + Repeat(x, n)) + [x]
    ensures a + Repeat(x, 0) == a
  {
  }

  /** After these events the engine has raised so many alerts, and the key's stamps are settled like this. */
  ghost predicate Stands(u: Setup, events: seq<Event>, alerts: nat, t: Time, j: nat) {
    |Alerts(u.cfg, events)| == alerts && HasSettled(u, After(u.cfg, events), t, j)
  }

  lemma StandsNext(u: Setup, events: seq<Event>, alerts: nat, t: Time, j: nat)
    requires OnlyConnections(u) && Stands(u, events, alerts, t, j) && j + 1 < u.limit.connections
    ensures Stands(u, events + [Event(u.pkt, t)], alerts, t, j + 1)
  {
    hide OnlyConnections, HasSettled, Run, Step;
    AfterSnoc(u.cfg, events, Event(u.pkt, t));
    SettledHit(u, After(u.cfg, events), t, j);
  }

  lemma {:induction false} StandsRepeat(u: Setup, events: seq<Event>, alerts: nat, t: Time, n: nat)
    requires OnlyConnections(u) && Stands(u, events, alerts, t, 0) && n < u.limit.connections
    ensures Stands(u, events + Repeat(Event(u.pkt, t), n), alerts, t, n)
    decreases n
  {
    hide OnlyConnections, Stands, Repeat;
    if n == 0 {
      RepeatNext(events, Event(u.pkt, t), 0);
    } else {
      var m: nat := n - 1;
      StandsRepeat(u, events, alerts, t, m);
      StandsNext(u, events + Repeat(Event(u.pkt, t), m), alerts, t, m);
      RepeatNext(events, Event(u.pkt, t), m);
    }
  }

  /** The engine has raised so many alerts, and the key has no stamps. */
  ghost predicate StandsEmpty(u: Setup, events: seq<Event>, alerts: nat) {
    |Alerts(u.cfg, events)| == alerts && Opens(u, After(u.cfg, events), Key(u)) == []
  }

  lemma EmptyIsSettled(u: Setup, events: seq<Event>, alerts: nat, t: Time)
    requires StandsEmpty(u, events, alerts)
    ensures Stands(u, events, alerts, t, 0)
  {
  }

  lemma LastAlerts(u: Setup, events: seq<Event>, alerts: nat, t: Time, j: nat)
    requires OnlyConnections(u) && Stands(u, events, alerts, t, j) && j + 1 == u.limit.connections
    ensures StandsEmpty(u, events + [Event(u.pkt, t)], alerts + 1)
  {
    hide OnlyConnections, HasSettled, Run, Step, Opens, Key;
    AfterSnoc(u.cfg, events, Event(u.pkt, t));
    SettledHit(u, After(u.cfg, events), t, j);
  }

  /** An interval later, what was settled is settled as older. */
  lemma SettledLater(u: Setup, events: seq<Event>, alerts: nat, t: Time, j: nat, later: Time)
    requires Stands(u, events, alerts, t, j) && u.limit.interval > 0.0 && later - t >= u.limit.interval
    ensures Stands(u, events, alerts, later, 0)
  {
    var stamps := Opens(u, After(u.cfg, events), Key(u));
    hide Run, Opens, Key;
    assert forall x :: x in stamps ==> later - x >= u.limit.interval;
    NoneOf(stamps, later);
  }

  lemma {:induction false} NoneOf(stamps: Stamps, t: Time)
    requires forall x :: x in stamps ==> x != t
    ensures Count(stamps, t) == 0
    decreases |stamps|
  {
    if stamps == [] {
    } else {
      var init := stamps[..|stamps| - 1];
      assert stamps[|stamps| - 1] in stamps && forall x :: x in init ==> x in stamps;
      NoneOf(init, t);
    }
  }

  /** A packet sent before the limit's last stamps but processed after them counts them too. */
  lemma EarlierAlerts(u: Setup, events: seq<Event>, alerts: nat, t: Time, j: nat, earlier: Time)
    requires OnlyConnections(u) && Stands(u, events, alerts, t, j) && j + 1 >= u.limit.connections && earlier <= t
    ensures StandsEmpty(u, events + [Event(u.pkt, earlier)], alerts + 1)
  {
    var s := After(u.cfg, events);
    assert u.limit.interval > 0.0;
    hide OnlyConnections, Run, Step, Opens, Key, Count, Recent, Settled;
    AfterSnoc(u.cfg, events, Event(u.pkt, earlier));
    PruneKeepsCount(Opens(u, s, Key(u)), t, earlier, WINDOW);
    CountedAtLeast(Kept(u, s, earlier, Key(u)), t, earlier, u.limit.interval);
    RecentSnoc(Kept(u, s, earlier, Key(u)), earlier, earlier, u.limit.interval);
    OneHit(u, s, earlier);
  }

  // The batch

  /** Two counted packets of one key that the same rule always matches. */
  ghost predicate SameKey(u: Setup, v: Setup) {
    && u.cfg == v.cfg && u.rule == v.rule && u.limit == v.limit && Key(u) == Key(v)
    && OnlyConnections(u) && OnlyConnections(v)
  }

  lemma SameStands(u: Setup, v: Setup, events: seq<Event>, alerts: nat, t: Time, j: nat)
    requires SameKey(u, v)
    ensures Stands(u, events, alerts, t, j) <==> Stands(v, events, alerts, t, j)
    ensures StandsEmpty(u, events, alerts) <==> StandsEmpty(v, events, alerts)
  {
  }

  lemma Starts(u: Setup)
    ensures StandsEmpty(u, [], 0)
  {
  }

  /** A volley on an empty key raises an alert with its last packet. */
  lemma VolleyAlerts(u: Setup, v: Setup, events: seq<Event>, alerts: nat, t: Time, n: nat)
    requires SameKey(u, v) && StandsEmpty(u, events, alerts) && n + 1 == u.limit.connections
    ensures StandsEmpty(u, (events + Repeat(Event(u.pkt, t), n)) + [Event(v.pkt, t)], alerts + 1)
  {
    assert OnlyConnections(u) && OnlyConnections(v) && v.limit == u.limit;
    hide OnlyConnections, Stands, StandsEmpty, SameKey, Repeat;
    EmptyIsSettled(u, events, alerts, t);
    StandsRepeat(u, events, alerts, t, n);
    SameStands(u, v, events + Repeat(Event(u.pkt, t), n), alerts, t, n);
    LastAlerts(v, events + Repeat(Event(u.pkt, t), n), alerts, t, n);
    SameStands(u, v, (events + Repeat(Event(u.pkt, t), n)) + [Event(v.pkt, t)], alerts + 1, t, 0);
  }

  function InArrivalOrder(u: Setup, v: Setup, later: Time, n: nat): seq<Event> {
    ((Repeat(Event(u.pkt, 0.0), n) + [Event(v.pkt, 0.0)]) + Repeat(Event(u.pkt, later), n)) + [Event(v.pkt, later)]
  }

  function ByPort(u: Setup, v: Setup, later: Time, n: nat): seq<Event> {
    ((Repeat(Event(u.pkt, 0.0), n) + Repeat(Event(u.pkt, later), n)) + [Event(v.pkt, 0.0)]) + [Event(v.pkt, later)]
  }

  /** In order of arrival each volley raises its alert. */
  lemma ArrivalAlertsTwice(u: Setup, v: Setup, later: Time, n: nat)
    requires SameKey(u, v) && n + 1 == u.limit.connections
    ensures |Alerts(u.cfg, InArrivalOrder(u, v, later, n))| == 2
  {
    var first := Repeat(Event(u.pkt, 0.0), n) + [Event(v.pkt, 0.0)];
    hide SameKey, Run, Repeat, Opens, Key;
    NothingMore(Repeat(Event(u.pkt, 0.0), n));
    Starts(u);
    VolleyAlerts(u, v, [], 0, 0.0, n);
    VolleyAlerts(u, v, first, 1, later, n);
  }

  /**
    Grouped, the first port's packets all come first, in silence: an interval apart they do not count together.
    The second port's first packet then counts those sent after it and alerts, and its second finds nothing left.
   */
  lemma GroupedAlertsOnce(u: Setup, v: Setup, later: Time, n: nat)
    requires SameKey(u, v) && n + 1 == u.limit.connections && later >= u.limit.interval
    ensures |Alerts(u.cfg, ByPort(u, v, later, n))| == 1
  {
    var zeros, all := Repeat(Event(u.pkt, 0.0), n), Repeat(Event(u.pkt, 0.0), n) + Repeat(Event(u.pkt, later), n);
    var before := all + [Event(v.pkt, 0.0)];
    assert OnlyConnections(u) && OnlyConnections(v) && v.limit == u.limit && u.cfg == v.cfg;
    assert u.limit.interval > 0.0 && u.limit.connections >= 2;
    NothingMore(zeros);
    hide OnlyConnections, Stands, StandsEmpty, SameKey, Repeat;
    Starts(u);
    EmptyIsSettled(u, [], 0, 0.0);
    StandsRepeat(u, [], 0, 0.0, n);
    SettledLater(u, zeros, 0, 0.0, n, later);
    StandsRepeat(u, zeros, 0, later, n);
    SameStands(u, v, all, 0, later, n);
    EarlierAlerts(v, all, 0, later, n, 0.0);
    EmptyIsSettled(v, before, 1, later);
    StandsNext(v, before, 1, later, 0);
    StandsCounts(v, before + [Event(v.pkt, later)], 1, later, 1);
  }

  lemma StandsCounts(u: Setup, events: seq<Event>, alerts: nat, t: Time, j: nat)
    requires Stands(u, events, alerts, t, j)
    ensures |Alerts(u.cfg, events)| == alerts
  {
  }

  // On blocks of captured packets

  /** `n` of the first, one of the second, `n` of the third and one of the fourth. */
  function Mixed<T>(a: T, b: T, c: T, d: T, n: nat): seq<T> {
    ((Repeat(a, n) + [b]) + Repeat(c, n)) + [d]
  }

  lemma {:induction false} RepeatBucket(r: PacketRef, n: nat, port: u16)
    ensures Bucket(Repeat(r, n), port) == if r.portKey == port then Repeat(r, n) else []
    decreases n
  {
    if n == 0 {
    } else {
      RepeatBucket(r, n - 1, port);
      BucketSnoc(Repeat(r, n - 1), r, port);
    }
  }

  lemma OneBucket(r: PacketRef, port: u16)
    ensures Bucket([r], port) == if r.portKey == port then [r] else []
  {
    assert [] + [r] == [r] && Bucket([], port) == [];
    BucketSnoc([], r, port);
  }

  lemma MixedBucket(a: PacketRef, b: PacketRef, c: PacketRef, d: PacketRef, n: nat, port: u16)
    ensures Bucket(Mixed(a, b, c, d, n), port)
         == (((if a.portKey == port then Repeat(a, n) else []) + (if b.portKey == port then [b] else []))
             + (if c.portKey == port then Repeat(c, n) else [])) + (if d.portKey == port then [d] else [])
  {
    hide Bucket, Repeat;
    BucketConcat((Repeat(a, n) + [b]) + Repeat(c, n), [d], port);
    BucketConcat(Repeat(a, n) + [b], Repeat(c, n), port);
    BucketConcat(Repeat(a, n), [b], port);
    RepeatBucket(a, n, port);
    RepeatBucket(c, n, port);
    OneBucket(b, port);
    OneBucket(d, port);
  }

  lemma {:induction false} RepeatPorts(batch: seq<PacketRef>, r: PacketRef, n: nat)
    requires r.portKey in Ports(batch)
    ensures Ports(batch + Repeat(r, n)) == Ports(batch)
    decreases n
  {
    if n == 0 {
      NothingMore(batch);
    } else {
      RepeatPorts(batch, r, n - 1);
      hide Ports;
      RepeatNext(batch, r, n - 1);
      PortsSnoc(batch + Repeat(r, n - 1), r);
    }
  }

  lemma {:induction false} FirstPorts(r: PacketRef, n: nat)
    requires n >= 1
    ensures Ports(Repeat(r, n)) == [r.portKey]
    decreases n
  {
    if n == 1 {
      assert Ports([]) == [] && Repeat(r, 0) == [] && [] + [r] == [r];
      PortsSnoc([], r);
    } else {
      FirstPorts(r, n - 1);
      PortsSnoc(Repeat(r, n - 1), r);
    }
  }

  lemma MixedPorts(a: PacketRef, b: PacketRef, c: PacketRef, d: PacketRef, n: nat)
    requires n >= 1 && a.portKey == c.portKey != b.portKey == d.portKey
    ensures Ports(Mixed(a, b, c, d, n)) == [a.portKey] + [b.portKey]
  {
    hide Ports, Repeat;
    FirstPorts(a, n);
    PortsSnoc(Repeat(a, n), b);
    RepeatPorts(Repeat(a, n) + [b], c, n);
    PortsSnoc((Repeat(a, n) + [b]) + Repeat(c, n), d);
  }

  /** Grouping brings the two ports' packets together. */
  lemma MixedGrouped(a: PacketRef, b: PacketRef, c: PacketRef, d: PacketRef, n: nat)
    requires n >= 1 && a.portKey == c.portKey != b.portKey == d.portKey
    ensures Grouped(Mixed(a, b, c, d, n)) == ((Repeat(a, n) + Repeat(c, n)) + [b]) + [d]
  {
    var batch, p, q := Mixed(a, b, c, d, n), a.portKey, b.portKey;
    assert Concat(batch, []) == [] && [] + [p] == [p];
    hide Ports, Bucket, Concat, Repeat, Mixed;
    MixedPorts(a, b, c, d, n);
    MixedBucket(a, b, c, d, n, p);
    MixedBucket(a, b, c, d, n, q);
    ConcatLast(batch, [], p);
    ConcatLast(batch, [p], q);
    TwoBuckets(Repeat(a, n), [b], Repeat(c, n), [d]);
  }

  lemma TwoBuckets<T>(a: seq<T>, b: seq<T>, c: seq<T>, d: seq<T>)
    ensures ([] + (((a + []) + c) + [])) + ((([] + b) + []) + d) == ((a + c) + b) + d
  {
  }

  lemma {:induction false} RepeatEvents(parse: Parser, r: PacketRef, n: nat)
    ensures EventsOf(parse, Repeat(r, n)) == Repeat(EventOf(parse, r), n)
    decreases n
  {
    if n == 0 {
    } else {
      RepeatEvents(parse, r, n - 1);
      EventsConcat(parse, Repeat(r, n - 1), [r]);
    }
  }

  lemma EventsOfFour(parse: Parser, a: seq<PacketRef>, b: seq<PacketRef>, c: seq<PacketRef>, d: seq<PacketRef>)
    ensures EventsOf(parse, ((a + b) + c) + d)
         == ((EventsOf(parse, a) + EventsOf(parse, b)) + EventsOf(parse, c)) + EventsOf(parse, d)
  {
    hide EventsOf;
    EventsConcat(parse, (a + b) + c, d);
    EventsConcat(parse, a + b, c);
    EventsConcat(parse, a, b);
  }

  lemma EventsOfOne(parse: Parser, r: PacketRef)
    ensures EventsOf(parse, [r]) == [EventOf(parse, r)]
  {
  }

  /** What the four captured packets are: two of each kind, on different ports, at zero and an interval later. */
  ghost predicate IsSplit(u: Setup, v: Setup, parse: Parser, later: Time, a: PacketRef, b: PacketRef, c: PacketRef,
                          d: PacketRef)
  {
    && SameKey(u, v) && later >= u.limit.interval
    && EventOf(parse, a) == Event(u.pkt, 0.0) && EventOf(parse, b) == Event(v.pkt, 0.0)
    && EventOf(parse, c) == Event(u.pkt, later) && EventOf(parse, d) == Event(v.pkt, later)
    && a.portKey == c.portKey != b.portKey == d.portKey
  }

  /** Such a batch raises two alerts in order of arrival, and one grouped by port. */
  lemma {:induction false} GroupingCostsAnAlert(u: Setup, v: Setup, parse: Parser, later: Time, a: PacketRef,
                                                b: PacketRef, c: PacketRef, d: PacketRef, n: nat)
    requires IsSplit(u, v, parse, later, a, b, c, d) && n + 1 == u.limit.connections
    ensures |Alerts(u.cfg, EventsOf(parse, Mixed(a, b, c, d, n)))| == 2
    ensures |Alerts(u.cfg, EventsOf(parse, Grouped(Mixed(a, b, c, d, n))))| == 1
  {
    assert u.limit.connections >= 2;
    hide Alerts, EventsOf, EventOf, Repeat, Grouped, SameKey;
    MixedGrouped(a, b, c, d, n);
    EventsOfFour(parse, Repeat(a, n), [b], Repeat(c, n), [d]);
    EventsOfFour(parse, Repeat(a, n), Repeat(c, n), [b], [d]);
    RepeatEvents(parse, a, n);
    RepeatEvents(parse, c, n);
    EventsOfOne(parse, b);
    EventsOfOne(parse, d);
    ArrivalAlertsTwice(u, v, later, n);
    GroupedAlertsOnce(u, v, later, n);
  }

  lemma OneBlock(parse: Parser, block: seq<RawPacket>)
    ensures ArrivalEvents(parse, [block]) == EventsOf(parse, Accepted(parse, block))
    ensures CaptureEvents(parse, [block]) == EventsOf(parse, Grouped(Accepted(parse, block)))
  {
    hide Accepted, EventsOf, Grouped;
    assert [block][..0] == [] && ArrivalEvents(parse, []) == [] && CaptureEvents(parse, []) == [];
    NothingMore(EventsOf(parse, Accepted(parse, block)));
    NothingMore(EventsOf(parse, Grouped(Accepted(parse, block))));
  }

  lemma {:induction false} RepeatRefs(parse: Parser, raw: RawPacket, n: nat)
    ensures RefsOf(parse, Repeat(raw, n)) == Repeat(RefOf(parse, raw), n)
    decreases n
  {
    if n == 0 {
    } else {
      RepeatRefs(parse, raw, n - 1);
      RefsConcat(parse, Repeat(raw, n - 1), [raw]);
    }
  }

  lemma RefsConcat(parse: Parser, a: seq<RawPacket>, b: seq<RawPacket>)
    ensures RefsOf(parse, a + b) == RefsOf(parse, a) + RefsOf(parse, b)
    ensures |b| == 1 ==> RefsOf(parse, b) == [RefOf(parse, b[0])]
  {
  }

  lemma MixedRefs(parse: Parser, a: RawPacket, b: RawPacket, c: RawPacket, d: RawPacket, n: nat)
    ensures RefsOf(parse, Mixed(a, b, c, d, n))
         == Mixed(RefOf(parse, a), RefOf(parse, b), RefOf(parse, c), RefOf(parse, d), n)
  {
    hide RefsOf, RefOf, Repeat;
    RefsConcat(parse, (Repeat(a, n) + [b]) + Repeat(c, n), [d]);
    RefsConcat(parse, Repeat(a, n) + [b], Repeat(c, n));
    RefsConcat(parse, Repeat(a, n), [b]);
    RepeatRefs(parse, a, n);
    RepeatRefs(parse, c, n);
  }

  lemma SmallBlockAccepted(parse: Parser, block: seq<RawPacket>)
    requires |block| <= MAX_BATCH_SIZE
    ensures Accepted(parse, block) == RefsOf(parse, block)
  {
    assert block[..|block|] == block;
  }

  /** For limits of up to 2048 that batch is a block of captured packets. */
  lemma {:induction false} PortsMatter(u: Setup, v: Setup, parse: Parser, later: Time, a: RawPacket, b: RawPacket,
                                       c: RawPacket, d: RawPacket, n: nat)
    requires IsSplit(u, v, parse, later, RefOf(parse, a), RefOf(parse, b), RefOf(parse, c), RefOf(parse, d))
    requires n + 1 == u.limit.connections && |Mixed(a, b, c, d, n)| <= MAX_BATCH_SIZE
    ensures |Alerts(u.cfg, ArrivalEvents(parse, [Mixed(a, b, c, d, n)]))| == 2
    ensures |Alerts(u.cfg, CaptureEvents(parse, [Mixed(a, b, c, d, n)]))| == 1
  {
    hide Alerts, EventsOf, Grouped, IsSplit, Mixed, RefOf, ArrivalEvents, CaptureEvents;
    OneBlock(parse, Mixed(a, b, c, d, n));
    SmallBlockAccepted(parse, Mixed(a, b, c, d, n));
    MixedRefs(parse, a, b, c, d, n);
    GroupingCostsAnAlert(u, v, parse, later, RefOf(parse, a), RefOf(parse, b), RefOf(parse, c), RefOf(parse, d), n);
  }

  /** The Ethernet parser. */
  function ParseFrame(data: Bytes): Packet {
    Frames.PacketOf(Frames.FrameView(data))
  }

  function CatchAll(limit: ConnLimit): Rule {
    Rule(1, ["any"], AnyDirection, AnyAddr, AnyAddr, {4, 6}, AnyState, OtherClass, [AnyProto], AnyPort, AnyPort,
         Some(limit), None)
  }

  /** A catch-all rule with this limit, and a datagram of one host to the given port. */
  function SetupTo(limit: ConnLimit, port: u8): Setup {
    Setup(Config("eth0", {}, [CatchAll(limit)]), CatchAll(limit), limit, ParseFrame(Frames.UdpFrame(port)))
  }

  lemma SetupCounts(limit: ConnLimit, port: u8)
    requires limit.connections >= 2 && limit.interval > 0.0
    ensures OnlyConnections(SetupTo(limit, port))
    ensures Key(SetupTo(limit, port)) == if limit.per == PerDst then V4(0x0A00_0002) else V4(0x0A00_0001)
    ensures 1 <= port <= 9 ==> PortKey(ParseFrame(Frames.UdpFrame(port))) == port
  {
    hide Frames.UdpFrame, Frames.FrameView;
    Frames.UdpFrameView(port);
    var rule, pkt := CatchAll(limit), ParseFrame(Frames.UdpFrame(port));
    assert "any" in rule.scope && AnyProto in rule.protocols && ProtocolMatches(AnyProto, pkt) && 4 in rule.ipVersions;
  }

  /** Such packets exist for every limit whose interval fits the timestamps: datagrams of one host to two ports. */
  lemma SplitOccurs(limit: ConnLimit, sec: u32) returns (a: RawPacket, b: RawPacket, c: RawPacket, d: RawPacket)
    requires limit.connections >= 2 && 0.0 < limit.interval <= sec as real
    ensures IsSplit(SetupTo(limit, 1), SetupTo(limit, 2), ParseFrame, sec as real, RefOf(ParseFrame, a),
                    RefOf(ParseFrame, b), RefOf(ParseFrame, c), RefOf(ParseFrame, d))
  {
    a, b := RawPacket(Frames.UdpFrame(1), 0, 0, 0), RawPacket(Frames.UdpFrame(2), 0, 0, 0);
    c, d := RawPacket(Frames.UdpFrame(1), sec, 0, 0), RawPacket(Frames.UdpFrame(2), sec, 0, 0);
    hide Frames.UdpFrame, Frames.FrameView, OnlyConnections, Key, PortKey, ParseFrame;
    SetupCounts(limit, 1);
    SetupCounts(limit, 2);
  }
}
