/** The detection engine as a state machine: one step per packet, and runs of steps. */
module EngineSpec {
  import opened Prelude
  import opened Packets
  import opened Rules

  /** Seconds, exactly. */
  type Time = real

  type Stamps = seq<Time>
  type Tracker = map<u32, map<Addr, Stamps>>

  datatype AccessPoint = AccessPoint(ssid: string, channel: nat, secured: bool, lastSeen: Time, beacons: nat, rssi: int)
  datatype Client = Client(lastSeen: Time, rssi: int, ip: Option<Addr>)

  datatype Pending = Pending(ruleId: u32, sender: Addr, rate: u32)
  datatype Alert = Alert(seqNo: nat, ruleId: u32, sender: Addr, rate: u32)

  datatype State = State(
    alertCounter: nat,
    aps: map<Mac, AccessPoint>,
    clients: map<Mac, Client>,
    lastCleanup: Time,
    conns: ConnTable,
    rates: Tracker,
    opens: Tracker)

  const INITIAL := State(0, map[], map[], 0.0, map[], map[], map[])

  const TICK: Time := 5.0
  const WINDOW: Time := 60.0
  const IDLE: Time := 300.0

  // Timestamp trackers

  /** The stamps less than `window` older than `now`, in order. */
  function Recent(stamps: Stamps, now: Time, window: Time): Stamps {
    if stamps == [] then []
    else
      var last, earlier := stamps[|stamps| - 1], Recent(stamps[..|stamps| - 1], now, window);
      if now - last < window then earlier + [last] else earlier
  }

  function StampsOf(tr: Tracker, id: u32, k: Addr): Stamps {
    if id in tr && k in tr[id] then tr[id][k] else []
  }

  function Push(tr: Tracker, id: u32, k: Addr, now: Time): Tracker {
    var perKey := if id in tr then tr[id] else map[];
    tr[id := perKey[k := StampsOf(tr, id, k) + [now]]]
  }

  function PruneAt(tr: Tracker, id: u32, k: Addr, now: Time): Tracker {
    if id in tr && k in tr[id] then tr[id := tr[id][k := Recent(tr[id][k], now, WINDOW)]] else tr
  }

  function RemoveAt(tr: Tracker, id: u32, k: Addr): Tracker {
    if id in tr then tr[id := tr[id] - {k}] else tr
  }

  function PruneKeys(perKey: map<Addr, Stamps>, now: Time): map<Addr, Stamps> {
    map k | k in perKey && Recent(perKey[k], now, WINDOW) != [] :: Recent(perKey[k], now, WINDOW)
  }

  function PruneAll(tr: Tracker, now: Time): Tracker {
    map id | id in tr :: PruneKeys(tr[id], now)
  }

  // One packet

  predicate TickDue(s: State, now: Time) {
    now - s.lastCleanup >= TICK
  }

  predicate Alive(c: Conn, now: Time) {
    c.state != Closing && now - c.lastSeen < IDLE
  }

  /** The periodic cleanup. */
  function Expire(s: State, now: Time): State {
    if !TickDue(s, now) then s
    else
      State(
        s.alertCounter,
        map m | m in s.aps && now - s.aps[m].lastSeen < IDLE :: s.aps[m],
        map m | m in s.clients && now - s.clients[m].lastSeen < IDLE :: s.clients[m],
        now,
        map k | k in s.conns && Alive(s.conns[k], now) :: s.conns[k],
        PruneAll(s.rates, now),
        PruneAll(s.opens, now))
  }

  function Rssi(pkt: Packet): int {
    if pkt.signalDbm.Some? then pkt.signalDbm.value else -50
  }

  /** A beacon refreshes its access point; the network name is kept from the first beacon. */
  function UpdateAps(aps: map<Mac, AccessPoint>, pkt: Packet, now: Time): map<Mac, AccessPoint> {
    if pkt.bssid.None? || pkt.mgmt.None? || pkt.mgmt.value.subtype != 8 then aps
    else
      var bssid, mgmt := pkt.bssid.value, pkt.mgmt.value;
      var ssid := if bssid in aps then aps[bssid].ssid else if mgmt.ssid.Some? then mgmt.ssid.value else "";
      var beacons := if bssid in aps then aps[bssid].beacons else 0;
      var channel := if mgmt.channel.Some? then mgmt.channel.value else 0;
      aps[bssid := AccessPoint(ssid, channel, mgmt.rsn, now, beacons + 1, Rssi(pkt))]
  }

  function UpdateClients(clients: map<Mac, Client>, pkt: Packet, now: Time): map<Mac, Client> {
    if pkt.srcMac == ZERO_MAC || pkt.srcMac == BROADCAST_MAC then clients
    else
      var ip := if pkt.network.Ipv4? || pkt.network.Ipv6? then Some(SrcAddr(pkt))
                else if pkt.srcMac in clients then clients[pkt.srcMac].ip
                else None;
      clients[pkt.srcMac := Client(now, Rssi(pkt), ip)]
  }

  /** Everything before rule evaluation: cleanup, link-layer state, connection table. */
  function Observe(s: State, pkt: Packet, now: Time): State {
    var e := Expire(s, now);
    e.(aps := UpdateAps(e.aps, pkt, now), clients := UpdateClients(e.clients, pkt, now),
       conns := UpdateConns(e.conns, pkt, now))
  }

  /** The count that trips a rule just after its trackers were extended, if any. */
  function Trigger(rule: Rule, rates: Tracker, opens: Tracker, k: Addr, now: Time): Option<nat> {
    var perSecond := |Recent(StampsOf(rates, rule.id, k), now, 1.0)|;
    if rule.maxRps.Some? && perSecond >= rule.maxRps.value then Some(perSecond)
    else if rule.maxConnRate.Some? && rule.id in opens && k in opens[rule.id] then
      var newConns := |Recent(opens[rule.id][k], now, rule.maxConnRate.value.interval)|;
      if newConns >= rule.maxConnRate.value.connections then Some(newConns) else None
    else None
  }

  function Truncate(count: nat): u32 {
    count % 0x1_0000_0000
  }

  /** The trackers once the packet is counted. */
  function CountRates(s: State, rule: Rule, k: Addr, now: Time): Tracker {
    Push(s.rates, rule.id, k, now)
  }

  function CountOpens(s: State, rule: Rule, pkt: Packet, k: Addr, now: Time): Tracker {
    if IsFresh(pkt) then Push(s.opens, rule.id, k, now) else s.opens
  }

  /** A tracker after the verdict: pruned, and emptied for this key by an alert. */
  function Settle(tr: Tracker, id: u32, k: Addr, now: Time, alerted: bool): Tracker {
    if alerted then RemoveAt(PruneAt(tr, id, k, now), id, k) else PruneAt(tr, id, k, now)
  }

  function EvalRule(cfg: Config, s: State, rule: Rule, pkt: Packet, now: Time): (State, seq<Pending>) {
    if !Matches(cfg, rule, pkt, s.conns) then (s, [])
    else
      var k := TrackingKey(rule, pkt);
      var rates, opens := CountRates(s, rule, k, now), CountOpens(s, rule, pkt, k, now);
      var trigger := Trigger(rule, rates, opens, k, now);
      (s.(rates := Settle(rates, rule.id, k, now, trigger.Some?),
          opens := Settle(opens, rule.id, k, now, trigger.Some?)),
       if trigger.Some? then [Pending(rule.id, k, Truncate(trigger.value))] else [])
  }

  function EvalRules(cfg: Config, s: State, rules: seq<Rule>, pkt: Packet, now: Time): (State, seq<Pending>) {
    if rules == [] then (s, [])
    else
      var (s1, p1) := EvalRules(cfg, s, rules[..|rules| - 1], pkt, now);
      var (s2, p2) := EvalRule(cfg, s1, rules[|rules| - 1], pkt, now);
      (s2, p1 + p2)
  }

  /** Numbers the pending alerts from the counter on. */
  function Number(counter: nat, pending: seq<Pending>): seq<Alert> {
    seq(|pending|, i requires 0 <= i < |pending| =>
      Alert(counter + 1 + i, pending[i].ruleId, pending[i].sender, pending[i].rate))
  }

  /** Messages are created once all rules are evaluated. */
  function Conclude(counter: nat, evaluated: (State, seq<Pending>)): (State, seq<Alert>) {
    (evaluated.0.(alertCounter := counter + |evaluated.1|), Number(counter, evaluated.1))
  }

  function Step(cfg: Config, s: State, pkt: Packet, now: Time): (State, seq<Alert>) {
    Conclude(s.alertCounter, EvalRules(cfg, Observe(s, pkt, now), cfg.rules, pkt, now))
  }

  // Runs

  datatype Event = Event(pkt: Packet, now: Time)

  function Run(cfg: Config, s: State, events: seq<Event>): (State, seq<Alert>) {
    if events == [] then (s, [])
    else
      var (s1, a1) := Run(cfg, s, events[..|events| - 1]);
      var e := events[|events| - 1];
      var (s2, a2) := Step(cfg, s1, e.pkt, e.now);
      (s2, a1 + a2)
  }

  lemma RunEmpty(cfg: Config, s: State)
    ensures Run(cfg, s, []) == (s, [])
  {
  }

  /** One more packet extends a run by one step. */
  lemma RunSnoc(cfg: Config, s: State, events: seq<Event>, e: Event)
    ensures var r, t := Run(cfg, s, events), Run(cfg, s, events + [e]);
            && t.0 == Step(cfg, r.0, e.pkt, e.now).0
            && t.1 == r.1 + Step(cfg, r.0, e.pkt, e.now).1
  {
    assert (events + [e])[..|events|] == events;
  }

  function After(cfg: Config, events: seq<Event>): State {
    Run(cfg, INITIAL, events).0
  }

  function Alerts(cfg: Config, events: seq<Event>): seq<Alert> {
    Run(cfg, INITIAL, events).1
  }

  /** A run is a run of all but the last packet, then one step. */
  lemma RunLast(cfg: Config, events: seq<Event>)
    requires events != []
    ensures var init, e := events[..|events| - 1], events[|events| - 1];
            && After(cfg, events) == Step(cfg, After(cfg, init), e.pkt, e.now).0
            && Alerts(cfg, events) == Alerts(cfg, init) + Step(cfg, After(cfg, init), e.pkt, e.now).1
  {
  }

  /** Timestamps never decrease and start at or after zero. */
  ghost predicate Monotone(events: seq<Event>) {
    && (forall i :: 0 <= i < |events| ==> events[i].now >= 0.0)
    && forall i, j :: 0 <= i < j < |events| ==> events[i].now <= events[j].now
  }

  // What rule evaluation leaves alone

  lemma {:induction false} EvalRulesFrame(cfg: Config, s: State, rules: seq<Rule>, pkt: Packet, now: Time)
    ensures var s' := EvalRules(cfg, s, rules, pkt, now).0;
            s' == s.(rates := s'.rates, opens := s'.opens)
  {
    if rules == [] {
    } else {
      EvalRulesFrame(cfg, s, rules[..|rules| - 1], pkt, now);
    }
  }

  /** Evaluating rules is evaluating all but the last, then the last, on the same connection table. */
  lemma EvalRulesLast(cfg: Config, s: State, rules: seq<Rule>, pkt: Packet, now: Time)
    requires rules != []
    ensures var (s1, p1) := EvalRules(cfg, s, rules[..|rules| - 1], pkt, now);
            var (s2, p2) := EvalRule(cfg, s1, rules[|rules| - 1], pkt, now);
            && EvalRules(cfg, s, rules, pkt, now) == (s2, p1 + p2)
            && s1.conns == s.conns && s1.lastCleanup == s.lastCleanup
  {
    EvalRulesFrame(cfg, s, rules[..|rules| - 1], pkt, now);
  }

  // Stamps of one (rule, key) pair through the tracker operations

  lemma PushAt(tr: Tracker, id: u32, k: Addr, now: Time, id': u32, k': Addr)
    ensures StampsOf(Push(tr, id, k, now), id', k')
         == StampsOf(tr, id', k') + if id == id' && k == k' then [now] else []
  {
  }

  lemma PruneAtAt(tr: Tracker, id: u32, k: Addr, now: Time, id': u32, k': Addr)
    ensures StampsOf(PruneAt(tr, id, k, now), id', k')
         == if id == id' && k == k' then Recent(StampsOf(tr, id, k), now, WINDOW) else StampsOf(tr, id', k')
  {
  }

  lemma RemoveAtAt(tr: Tracker, id: u32, k: Addr, id': u32, k': Addr)
    ensures StampsOf(RemoveAt(tr, id, k), id', k') == if id == id' && k == k' then [] else StampsOf(tr, id', k')
  {
  }

  lemma PruneAllAt(tr: Tracker, now: Time, id: u32, k: Addr)
    ensures StampsOf(PruneAll(tr, now), id, k) == Recent(StampsOf(tr, id, k), now, WINDOW)
  {
  }

  /** The two stamp sequences a (rule, key) pair keeps. */
  datatype Cell = Cell(rates: Stamps, opens: Stamps)

  function CellOf(s: State, id: u32, k: Addr): Cell {
    Cell(StampsOf(s.rates, id, k), StampsOf(s.opens, id, k))
  }

  /** Whether evaluating `rule` concerns the pair (id, k). */
  predicate Hits(cfg: Config, conns: ConnTable, rule: Rule, pkt: Packet, id: u32, k: Addr) {
    Matches(cfg, rule, pkt, conns) && rule.id == id && TrackingKey(rule, pkt) == k
  }

  function Extended(c: Cell, pkt: Packet, now: Time): Cell {
    Cell(c.rates + [now], if IsFresh(pkt) then c.opens + [now] else c.opens)
  }

  function Pruned(c: Cell, now: Time): Cell {
    Cell(Recent(c.rates, now, WINDOW), Recent(c.opens, now, WINDOW))
  }

  lemma SettleAt(tr: Tracker, id: u32, k: Addr, now: Time, alerted: bool, id': u32, k': Addr)
    ensures StampsOf(Settle(tr, id, k, now, alerted), id', k')
         == if id != id' || k != k' then StampsOf(tr, id', k')
            else if alerted then [] else Recent(StampsOf(tr, id, k), now, WINDOW)
  {
    PruneAtAt(tr, id, k, now, id', k');
    RemoveAtAt(PruneAt(tr, id, k, now), id, k, id', k');
  }

  lemma CountAt(s: State, rule: Rule, pkt: Packet, k: Addr, now: Time, id': u32, k': Addr)
    ensures Cell(StampsOf(CountRates(s, rule, k, now), id', k'), StampsOf(CountOpens(s, rule, pkt, k, now), id', k'))
         == if rule.id == id' && k == k' then Extended(CellOf(s, id', k'), pkt, now) else CellOf(s, id', k')
  {
    PushAt(s.rates, rule.id, k, now, id', k');
    PushAt(s.opens, rule.id, k, now, id', k');
  }

  /** Evaluating a rule touches one cell: it is extended, then emptied by an alert or else pruned. */
  lemma EvalRuleCell(cfg: Config, s: State, rule: Rule, pkt: Packet, now: Time, id: u32, k: Addr)
    ensures var (s', pending) := EvalRule(cfg, s, rule, pkt, now);
            var c, c' := CellOf(s, id, k), CellOf(s', id, k);
            if !Hits(cfg, s.conns, rule, pkt, id, k) then c' == c
            else if pending == [] then c' == Pruned(Extended(c, pkt, now), now)
            else c' == Cell([], [])
  {
    if Matches(cfg, rule, pkt, s.conns) {
      var key := TrackingKey(rule, pkt);
      var rates, opens := CountRates(s, rule, key, now), CountOpens(s, rule, pkt, key, now);
      var alerted := Trigger(rule, rates, opens, key, now).Some?;
      CountAt(s, rule, pkt, key, now, id, k);
      SettleAt(rates, rule.id, key, now, alerted, id, k);
      SettleAt(opens, rule.id, key, now, alerted, id, k);
    }
  }

  /** Observing a packet prunes every cell at a tick and leaves every cell alone otherwise. */
  lemma ObserveCell(s: State, pkt: Packet, now: Time, id: u32, k: Addr)
    ensures CellOf(Observe(s, pkt, now), id, k)
         == if TickDue(s, now) then Pruned(CellOf(s, id, k), now) else CellOf(s, id, k)
  {
    PruneAllAt(s.rates, now, id, k);
    PruneAllAt(s.opens, now, id, k);
  }

  lemma RecentSnoc(stamps: Stamps, t: Time, now: Time, window: Time)
    ensures Recent(stamps + [t], now, window)
         == if now - t < window then Recent(stamps, now, window) + [t] else Recent(stamps, now, window)
  {
    assert (stamps + [t])[..|stamps|] == stamps;
  }

  lemma {:induction false} RecentShrinks(stamps: Stamps, now: Time, window: Time)
    ensures |Recent(stamps, now, window)| <= |stamps|
    ensures forall t :: t in Recent(stamps, now, window) ==> t in stamps && now - t < window
  {
    if stamps == [] {
    } else {
      RecentShrinks(stamps[..|stamps| - 1], now, window);
    }
  }
}
