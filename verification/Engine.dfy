/** The stateful detection engine, updating its tables in place. */
module Engine {
  import opened Prelude
  import opened Packets
  import opened Rules
  import opened EngineSpec

  class DetectionEngine {
    const cfg: Config
    var alertCounter: nat
    var accessPoints: map<Mac, AccessPoint>
    var clients: map<Mac, Client>
    var lastCleanupTime: Time
    var tcpConnTable: ConnTable
    var ruleRateTracker: Tracker
    var connRateTracker: Tracker

    ghost function View(): State
      reads this
    {
      State(alertCounter, accessPoints, clients, lastCleanupTime, tcpConnTable, ruleRateTracker, connRateTracker)
    }

    constructor (cfg: Config)
      ensures this.cfg == cfg && View() == INITIAL
    {
      this.cfg := cfg;
      alertCounter, lastCleanupTime := 0, 0.0;
      accessPoints, clients, tcpConnTable := map[], map[], map[];
      ruleRateTracker, connRateTracker := map[], map[];
    }

    /** Runs the cleanup at most once per tick. */
    method ExpireStates(now: Time)
      modifies this
      ensures View() == Expire(old(View()), now)
    {
      if now - lastCleanupTime < TICK {
        return;
      }
      lastCleanupTime := now;
      ruleRateTracker := PruneTracker(ruleRateTracker, now);
      connRateTracker := PruneTracker(connRateTracker, now);
      tcpConnTable := map k | k in tcpConnTable && Alive(tcpConnTable[k], now) :: tcpConnTable[k];
      clients := map m | m in clients && now - clients[m].lastSeen < IDLE :: clients[m];
      accessPoints := map m | m in accessPoints && now - accessPoints[m].lastSeen < IDLE :: accessPoints[m];
    }

    method UpdateAccessPoint(pkt: Packet, now: Time)
      modifies this`accessPoints
      ensures accessPoints == UpdateAps(old(accessPoints), pkt, now)
    {
      if pkt.bssid.Some? && pkt.mgmt.Some? && pkt.mgmt.value.subtype == 8 {
        var bssid, mgmt := pkt.bssid.value, pkt.mgmt.value;
        var channel := if mgmt.channel.Some? then mgmt.channel.value else 0;
        if bssid !in accessPoints {
          var ssid := if mgmt.ssid.Some? then mgmt.ssid.value else "";
          accessPoints := accessPoints[bssid := AccessPoint(ssid, channel, mgmt.rsn, now, 0, Rssi(pkt))];
        }
        var ap := accessPoints[bssid];
        accessPoints := accessPoints[bssid := AccessPoint(ap.ssid, channel, mgmt.rsn, now, ap.beacons + 1, Rssi(pkt))];
      }
    }

    method UpdateClient(pkt: Packet, now: Time)
      modifies this`clients
      ensures clients == UpdateClients(old(clients), pkt, now)
    {
      if pkt.srcMac != ZERO_MAC && pkt.srcMac != BROADCAST_MAC {
        if pkt.srcMac !in clients {
          clients := clients[pkt.srcMac := Client(now, Rssi(pkt), None)];
        }
        clients := clients[pkt.srcMac := clients[pkt.srcMac].(lastSeen := now, rssi := Rssi(pkt))];
        if pkt.network.Ipv4? || pkt.network.Ipv6? {
          clients := clients[pkt.srcMac := clients[pkt.srcMac].(ip := Some(SrcAddr(pkt)))];
        }
      }
    }

    method UpdateConnTable(pkt: Packet, now: Time)
      modifies this`tcpConnTable
      ensures tcpConnTable == UpdateConns(old(tcpConnTable), pkt, now)
    {
      if pkt.transport.Tcp? {
        var key, flags := KeyOf(pkt), pkt.transport.flags;
        var revKey := Reverse(key);
        if Syn(flags) && !Ack(flags) {
          tcpConnTable := tcpConnTable[key := Conn(New, now)];
        } else if Syn(flags) && Ack(flags) {
          tcpConnTable := tcpConnTable[revKey := Conn(Established, now)];
          tcpConnTable := tcpConnTable[key := Conn(Established, now)];
        } else if Fin(flags) || Rst(flags) {
          if key in tcpConnTable {
            tcpConnTable := tcpConnTable[key := Conn(Closing, now)];
          }
        } else if key in tcpConnTable {
          tcpConnTable := tcpConnTable[key := tcpConnTable[key].(lastSeen := now)];
        }
      }
    }

    /** Counts the packet for one rule, decides, prunes and re-arms. */
    method EvaluateRule(rule: Rule, pkt: Packet, now: Time) returns (pending: seq<Pending>)
      modifies this`ruleRateTracker, this`connRateTracker
      ensures (View(), pending) == EvalRule(cfg, old(View()), rule, pkt, now)
    {
      hide Matches, Trigger, CountRates, CountOpens, Settle;
      pending := [];
      var matched := MatchesRule(cfg, rule, pkt, tcpConnTable);
      if !matched {
        return;
      }
      var key := TrackingKey(rule, pkt);
      CountPacket(rule, pkt, key, now);
      var triggered, count := Decide(rule, key, now);
      PruneAndRearm(rule.id, key, now, triggered);
      if triggered {
        pending := [Pending(rule.id, key, Truncate(count))];
      }
    }

    /** Every matching packet counts towards the packet rate, fresh ones also towards the connection rate. */
    method CountPacket(rule: Rule, pkt: Packet, key: Addr, now: Time)
      modifies this`ruleRateTracker, this`connRateTracker
      ensures ruleRateTracker == CountRates(old(View()), rule, key, now)
      ensures connRateTracker == CountOpens(old(View()), rule, pkt, key, now)
      ensures rule.id in ruleRateTracker && key in ruleRateTracker[rule.id]
    {
      ruleRateTracker := PushStamp(ruleRateTracker, rule.id, key, now);
      if IsFresh(pkt) {
        connRateTracker := PushStamp(connRateTracker, rule.id, key, now);
      }
    }

    /** The packet rate is checked first; the connection rate only when the key has an entry. */
    method Decide(rule: Rule, key: Addr, now: Time) returns (triggered: bool, count: nat)
      requires rule.id in ruleRateTracker && key in ruleRateTracker[rule.id]
      ensures (if triggered then Some(count) else None) == Trigger(rule, ruleRateTracker, connRateTracker, key, now)
    {
      hide Recent;
      triggered, count := false, 0;
      if rule.maxRps.Some? {
        var perSecond := CountWithin(ruleRateTracker[rule.id][key], now, 1.0);
        if perSecond >= rule.maxRps.value {
          triggered, count := true, perSecond;
        }
      }
      if !triggered && rule.maxConnRate.Some? {
        if rule.id in connRateTracker && key in connRateTracker[rule.id] {
          var newConns := CountWithin(connRateTracker[rule.id][key], now, rule.maxConnRate.value.interval);
          if newConns >= rule.maxConnRate.value.connections {
            triggered, count := true, newConns;
          }
        }
      }
    }

    method PruneAndRearm(id: u32, key: Addr, now: Time, triggered: bool)
      modifies this`ruleRateTracker, this`connRateTracker
      ensures ruleRateTracker == Settle(old(ruleRateTracker), id, key, now, triggered)
      ensures connRateTracker == Settle(old(connRateTracker), id, key, now, triggered)
    {
      ruleRateTracker := RetainAt(ruleRateTracker, id, key, now);
      connRateTracker := RetainAt(connRateTracker, id, key, now);
      if triggered {
        connRateTracker := Forget(connRateTracker, id, key);
        ruleRateTracker := Forget(ruleRateTracker, id, key);
      }
    }

    /** One packet: the in-place update is exactly one step of the state machine. */
    method ProcessPacket(pkt: Packet, now: Time) returns (alerts: seq<Alert>)
      modifies this
      ensures (View(), alerts) == Step(cfg, old(View()), pkt, now)
    {
      hide Observe, EvalRules, Number;
      ObservePacket(pkt, now);
      var pending := EvaluateRules(pkt, now);
      ghost var evaluated := View();
      alerts := CreateMessages(pending);
      assert (View(), alerts) == Conclude(old(alertCounter), (evaluated, pending));
    }

    method ObservePacket(pkt: Packet, now: Time)
      modifies this
      ensures View() == Observe(old(View()), pkt, now)
      ensures alertCounter == old(alertCounter)
    {
      ExpireStates(now);
      UpdateAccessPoint(pkt, now);
      UpdateClient(pkt, now);
      UpdateConnTable(pkt, now);
    }

    method EvaluateRules(pkt: Packet, now: Time) returns (pending: seq<Pending>)
      modifies this`ruleRateTracker, this`connRateTracker
      ensures (View(), pending) == EvalRules(cfg, old(View()), cfg.rules, pkt, now)
    {
      pending := [];
      for i := 0 to |cfg.rules|
        invariant (View(), pending) == EvalRules(cfg, old(View()), cfg.rules[..i], pkt, now)
      {
        assert cfg.rules[..i + 1][..i] == cfg.rules[..i];
        var p := EvaluateRule(cfg.rules[i], pkt, now);
        pending := pending + p;
      }
      assert cfg.rules[..|cfg.rules|] == cfg.rules;
    }

    method CreateMessages(pending: seq<Pending>) returns (alerts: seq<Alert>)
      modifies this`alertCounter
      ensures alertCounter == old(alertCounter) + |pending|
      ensures alerts == Number(old(alertCounter), pending)
    {
      alerts := [];
      for i := 0 to |pending|
        invariant alertCounter == old(alertCounter) + i
        invariant alerts == Number(old(alertCounter), pending)[..i]
      {
        var message := CreateMessage(pending[i]);
        alerts := alerts + [message];
      }
    }

    /** Messages take the next sequence number. */
    method CreateMessage(p: Pending) returns (a: Alert)
      modifies this`alertCounter
      ensures alertCounter == old(alertCounter) + 1
      ensures a == Alert(alertCounter, p.ruleId, p.sender, p.rate)
    {
      alertCounter := alertCounter + 1;
      a := Alert(alertCounter, p.ruleId, p.sender, p.rate);
    }
  }

  // Timestamp vectors

  /** Counts the stamps less than `window` older than `now`. */
  method CountWithin(stamps: Stamps, now: Time, window: Time) returns (count: nat)
    ensures count == |Recent(stamps, now, window)|
  {
    count := 0;
    for i := 0 to |stamps|
      invariant count == |Recent(stamps[..i], now, window)|
    {
      assert stamps[..i + 1] == stamps[..i] + [stamps[i]];
      RecentSnoc(stamps[..i], stamps[i], now, window);
      if now - stamps[i] < window {
        count := count + 1;
      }
    }
    assert stamps[..|stamps|] == stamps;
  }

  /** Keeps the stamps less than `window` older than `now`, in order. */
  method Retain(stamps: Stamps, now: Time, window: Time) returns (kept: Stamps)
    ensures kept == Recent(stamps, now, window)
  {
    kept := [];
    for i := 0 to |stamps|
      invariant kept == Recent(stamps[..i], now, window)
    {
      assert stamps[..i + 1] == stamps[..i] + [stamps[i]];
      RecentSnoc(stamps[..i], stamps[i], now, window);
      if now - stamps[i] < window {
        kept := kept + [stamps[i]];
      }
    }
    assert stamps[..|stamps|] == stamps;
  }

  // One entry of a tracker; a missing inner map or vector is entered empty first.

  method PushStamp(tr: Tracker, id: u32, k: Addr, now: Time) returns (pushed: Tracker)
    ensures pushed == Push(tr, id, k, now)
  {
    pushed := tr;
    if id !in pushed {
      pushed := pushed[id := map[]];
    }
    if k !in pushed[id] {
      pushed := pushed[id := pushed[id][k := []]];
    }
    pushed := pushed[id := pushed[id][k := pushed[id][k] + [now]]];
    assert pushed[id] == (if id in tr then tr[id] else map[])[k := StampsOf(tr, id, k) + [now]];
  }

  method RetainAt(tr: Tracker, id: u32, k: Addr, now: Time) returns (pruned: Tracker)
    ensures pruned == PruneAt(tr, id, k, now)
  {
    pruned := tr;
    if id in pruned && k in pruned[id] {
      var kept := Retain(pruned[id][k], now, WINDOW);
      pruned := pruned[id := pruned[id][k := kept]];
    }
  }

  method Forget(tr: Tracker, id: u32, k: Addr) returns (rest: Tracker)
    ensures rest == RemoveAt(tr, id, k)
  {
    rest := tr;
    if id in rest {
      rest := rest[id := rest[id] - {k}];
    }
  }

  /** Prunes every key of every rule, visiting rules in any order. */
  method PruneTracker(tr: Tracker, now: Time) returns (pruned: Tracker)
    ensures pruned == PruneAll(tr, now)
  {
    pruned := tr;
    var todo := tr.Keys;
    while todo != {}
      invariant todo <= tr.Keys == pruned.Keys
      invariant forall id :: id in tr ==> pruned[id] == if id in todo then tr[id] else PruneKeys(tr[id], now)
      decreases todo
    {
      var id :| id in todo;
      todo := todo - {id};
      var kept := PruneStamps(tr[id], now);
      pruned := pruned[id := kept];
    }
  }

  method PruneStamps(perKey: map<Addr, Stamps>, now: Time) returns (kept: map<Addr, Stamps>)
    ensures kept == PruneKeys(perKey, now)
  {
    var stamps := perKey;
    var todo := perKey.Keys;
    while todo != {}
      invariant todo <= perKey.Keys == stamps.Keys
      invariant forall k :: k in perKey ==> stamps[k] == if k in todo then perKey[k] else Recent(perKey[k], now, WINDOW)
      decreases todo
    {
      var k :| k in todo;
      todo := todo - {k};
      var recent := Retain(stamps[k], now, WINDOW);
      stamps := stamps[k := recent];
    }
    kept := map k | k in stamps && stamps[k] != [] :: stamps[k];
  }
}
