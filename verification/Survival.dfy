/** Who stays in the engine's tables, and with what, over every run and on any clock. */
module Survival {
  import opened Prelude
  import opened Packets
  import opened Rules
  import opened EngineSpec
  import opened Connections

  /** When the last cleanup ran, by the times of the packets alone. */
  function LastTick(events: seq<Event>): Time {
    if events == [] then 0.0
    else
      var before, now := LastTick(events[..|events| - 1]), events[|events| - 1].now;
      if now - before >= 5.0 then now else before
  }

  /** The i-th packet sets off a cleanup. */
  predicate Ticks(events: seq<Event>, i: nat)
    requires i < |events|
  {
    events[i].now - LastTick(events[..i]) >= 5.0
  }

  /** One more packet: the tables are cleaned if it is time, then updated. */
  lemma TablesNext(cfg: Config, events: seq<Event>)
    requires events != []
    ensures var s, e, s' := After(cfg, events[..|events| - 1]), events[|events| - 1], After(cfg, events);
            && s'.conns == UpdateConns(Expire(s, e.now).conns, e.pkt, e.now)
            && s'.clients == UpdateClients(Expire(s, e.now).clients, e.pkt, e.now)
            && s'.aps == UpdateAps(Expire(s, e.now).aps, e.pkt, e.now)
            && s'.lastCleanup == Expire(s, e.now).lastCleanup
  {
    var s, e := After(cfg, events[..|events| - 1]), events[|events| - 1];
    hide UpdateConns, UpdateClients, UpdateAps, Expire, EvalRules;
    EvalRulesFrame(cfg, Observe(s, e.pkt, e.now), cfg.rules, e.pkt, e.now);
  }

  lemma {:induction false} TickTimes(cfg: Config, events: seq<Event>)
    ensures After(cfg, events).lastCleanup == LastTick(events)
    decreases |events|
  {
    if events == [] {
    } else {
      hide Run, UpdateConns, UpdateClients, UpdateAps, PruneAll;
      TickTimes(cfg, events[..|events| - 1]);
      TablesNext(cfg, events);
    }
  }

  // Connections

  /** The opener's SYN enters its key, a SYN-ACK both directions. */
  predicate Creates(pkt: Packet, k: ConnKey) {
    (IsOpening(pkt) && KeyOf(pkt) == k) || (IsSynAck(pkt) && Touches(pkt, k))
  }

  /** A cleanup at the i-th packet finds the connection not torn down, and refreshed less than 300 s before. */
  predicate KeptAt(events: seq<Event>, i: nat, k: ConnKey)
    requires i < |events|
  {
    Ticks(events, i) ==>
      var control, refresh := LastControl(events[..i], k), LastRefresh(events[..i], k);
      && control.Some? && !IsTeardown(control.value)
      && refresh.Some? && events[i].now - refresh.value < 300.0
  }

  ghost predicate KeptSince(events: seq<Event>, c: nat, k: ConnKey) {
    forall i :: c < i < |events| ==> KeptAt(events, i, k)
  }

  /** Some packet entered the connection, and every cleanup since has kept it. */
  ghost predicate LivesOn(events: seq<Event>, k: ConnKey) {
    exists c :: 0 <= c < |events| && Creates(events[c].pkt, k) && KeptSince(events, c, k)
  }

  /** The tick of the last packet keeps exactly the entries that were refreshed in time and not torn down. */
  lemma ExpireKeepsIff(cfg: Config, events: seq<Event>, k: ConnKey)
    requires events != []
    ensures var s, e := After(cfg, events[..|events| - 1]), events[|events| - 1];
            k in Expire(s, e.now).conns <==> k in s.conns && KeptAt(events, |events| - 1, k)
  {
    var init, e := events[..|events| - 1], events[|events| - 1];
    var s := After(cfg, init);
    TickTimes(cfg, init);
    if k in s.conns {
      TableReflectsLastControl(cfg, init, k);
      OutcomeOfControl(init, k);
    }
    hide Run, PruneAll, IsTeardown, IsOpening, IsSynAck;
    assert TickDue(s, e.now) <==> Ticks(events, |events| - 1);
    assert k in Expire(s, e.now).conns <==>
           k in s.conns && (TickDue(s, e.now) ==> s.conns[k].state != Closing && e.now - s.conns[k].lastSeen < 300.0);
  }

  lemma {:induction false} OutcomeOfControl(events: seq<Event>, k: ConnKey)
    requires LastControl(events, k).Some?
    ensures Outcome(LastControl(events, k).value) == Closing <==> IsTeardown(LastControl(events, k).value)
    decreases |events|
  {
    if Controls(events[|events| - 1].pkt, k) {
    } else {
      OutcomeOfControl(events[..|events| - 1], k);
    }
  }

  lemma UpdateKeepsOrCreates(conns: ConnTable, pkt: Packet, now: Time, k: ConnKey)
    ensures k in UpdateConns(conns, pkt, now) <==> k in conns || Creates(pkt, k)
  {
  }

  lemma KeptPrefix(events: seq<Event>, i: nat, k: ConnKey)
    requires i < |events| - 1
    ensures KeptAt(events[..|events| - 1], i, k) <==> KeptAt(events, i, k)
  {
    assert events[..|events| - 1][..i] == events[..i];
  }

  /** One more packet: a connection lives on if it did and the cleanup keeps it, or if the packet enters it. */
  lemma LivesNext(events: seq<Event>, k: ConnKey)
    requires events != []
    ensures LivesOn(events, k)
       <==> || (LivesOn(events[..|events| - 1], k) && KeptAt(events, |events| - 1, k))
            || Creates(events[|events| - 1].pkt, k)
  {
    hide Creates, KeptAt;
    var n, init := |events| - 1, events[..|events| - 1];
    if Creates(events[n].pkt, k) {
      assert KeptSince(events, n, k);
    }
    if LivesOn(init, k) && KeptAt(events, n, k) {
      var c :| 0 <= c < |init| && Creates(init[c].pkt, k) && KeptSince(init, c, k);
      forall i | c < i < |events| ensures KeptAt(events, i, k) {
        if i < n {
          KeptPrefix(events, i, k);
        }
      }
      assert Creates(events[c].pkt, k) && KeptSince(events, c, k);
    }
    if LivesOn(events, k) && !Creates(events[n].pkt, k) {
      var c :| 0 <= c < |events| && Creates(events[c].pkt, k) && KeptSince(events, c, k);
      forall i | c < i < |init| ensures KeptAt(init, i, k) {
        KeptPrefix(events, i, k);
      }
      assert Creates(init[c].pkt, k) && KeptSince(init, c, k);
    }
  }

  /**
    Over every run, whatever the clock, a connection is in the table if and only if a SYN or SYN-ACK entered it and
    no cleanup since has found it torn down or 300 s old.
   */
  lemma {:induction false} ConnectionPresentIff(cfg: Config, events: seq<Event>, k: ConnKey)
    ensures k in After(cfg, events).conns <==> LivesOn(events, k)
    decreases |events|
  {
    hide Run, Creates, KeptAt, Expire, UpdateConns, LivesOn;
    if events == [] {
      NothingAtFirst(cfg, k);
    } else {
      var init, e := events[..|events| - 1], events[|events| - 1];
      ConnectionPresentIff(cfg, init, k);
      ExpireKeepsIff(cfg, events, k);
      TablesNext(cfg, events);
      UpdateKeepsOrCreates(Expire(After(cfg, init), e.now).conns, e.pkt, e.now, k);
      LivesNext(events, k);
    }
  }

  lemma NothingAtFirst(cfg: Config, k: ConnKey)
    ensures k !in After(cfg, []).conns && !LivesOn([], k)
  {
  }

  // Clients

  /** The packet's sender is a client: its address is neither zero nor broadcast. */
  predicate SentBy(pkt: Packet, m: Mac) {
    pkt.srcMac == m && m != [0, 0, 0, 0, 0, 0] && m != [0xFF, 0xFF, 0xFF, 0xFF, 0xFF, 0xFF]
  }

  /** The packets of one client, in order. */
  function Sent(events: seq<Event>, m: Mac): seq<Event> {
    if events == [] then []
    else
      var earlier, e := Sent(events[..|events| - 1], m), events[|events| - 1];
      if SentBy(e.pkt, m) then earlier + [e] else earlier
  }

  /** The signal strength of a packet, or -50 where the capture has none. */
  function Signal(pkt: Packet): int {
    match pkt.signalDbm
    case Some(dbm) => dbm
    case None => -50
  }

  /** The source address of the last IPv4 or IPv6 packet. */
  function LastIp(sent: seq<Event>): Option<Addr> {
    if sent == [] then None
    else
      match sent[|sent| - 1].pkt.network
      case Ipv4(src, _) => Some(V4(src))
      case Ipv6(src, _) => Some(V6(src))
      case _ => LastIp(sent[..|sent| - 1])
  }

  /** A client as its packets since it was last entered make it. */
  function ClientOf(sent: seq<Event>): Client
    requires sent != []
  {
    var last := sent[|sent| - 1];
    Client(last.now, Signal(last.pkt), LastIp(sent))
  }

  /** The packets of a client since a cleanup last dropped it: none if it is not in the table. */
  function SentSince(events: seq<Event>, m: Mac): seq<Event> {
    if events == [] then []
    else
      var n := |events| - 1;
      var earlier := SentSince(events[..n], m);
      var kept := if earlier != [] && Ticks(events, n) && events[n].now - earlier[|earlier| - 1].now >= 300.0 then []
                  else earlier;
      if SentBy(events[n].pkt, m) then kept + [events[n]] else kept
  }

  ghost predicate ClientIs(clients: map<Mac, Client>, m: Mac, sent: seq<Event>) {
    if sent == [] then m !in clients else m in clients && clients[m] == ClientOf(sent)
  }

  lemma SentMore(clients: map<Mac, Client>, m: Mac, sent: seq<Event>, e: Event)
    requires ClientIs(clients, m, sent)
    ensures ClientIs(UpdateClients(clients, e.pkt, e.now), m, if SentBy(e.pkt, m) then sent + [e] else sent)
  {
    var more := sent + [e];
    assert more[..|more| - 1] == sent && more[|more| - 1] == e;
    assert LastIp([]) == None;
    assert LastIp(more) == match e.pkt.network
                           case Ipv4(src, _) => Some(V4(src))
                           case Ipv6(src, _) => Some(V6(src))
                           case _ => LastIp(sent);
  }

  /**
    Over every run, whatever the clock, the table holds exactly the clients with packets since the last cleanup that
    found them silent for 300 s, each with the time and signal of its last packet and its last IP address.
   */
  lemma {:induction false} ClientsReflectSent(cfg: Config, events: seq<Event>, m: Mac)
    ensures ClientIs(After(cfg, events).clients, m, SentSince(events, m))
    decreases |events|
  {
    if events == [] {
    } else {
      var init, e := events[..|events| - 1], events[|events| - 1];
      hide Run, UpdateConns, UpdateClients, UpdateAps, PruneAll, SentBy, LastIp, Signal;
      ClientsReflectSent(cfg, init, m);
      TickTimes(cfg, init);
      TablesNext(cfg, events);
      var s, earlier := After(cfg, init), SentSince(init, m);
      var kept := if earlier != [] && Ticks(events, |init|) && e.now - earlier[|earlier| - 1].now >= 300.0 then []
                  else earlier;
      assert ClientIs(Expire(s, e.now).clients, m, kept);
      SentMore(Expire(s, e.now).clients, m, kept, e);
    }
  }

  // Access points

  /** A beacon of the access point. */
  predicate IsBeacon(pkt: Packet, m: Mac) {
    pkt.bssid == Some(m) && pkt.mgmt.Some? && pkt.mgmt.value.subtype == 8
  }

  /** The beacons of an access point since a cleanup last dropped it. */
  function BeaconsSince(events: seq<Event>, m: Mac): (beacons: seq<Event>)
    ensures forall b :: b in beacons ==> IsBeacon(b.pkt, m)
  {
    if events == [] then []
    else
      var n := |events| - 1;
      var earlier := BeaconsSince(events[..n], m);
      var kept := if earlier != [] && Ticks(events, n) && events[n].now - earlier[|earlier| - 1].now >= 300.0 then []
                  else earlier;
      if IsBeacon(events[n].pkt, m) then kept + [events[n]] else kept
  }

  /** An access point is named by its first beacon, counts them, and takes the rest from the last. */
  function AccessPointOf(beacons: seq<Event>, m: Mac): AccessPoint
    requires beacons != [] && forall b :: b in beacons ==> IsBeacon(b.pkt, m)
  {
    assert IsBeacon(beacons[0].pkt, m) && IsBeacon(beacons[|beacons| - 1].pkt, m);
    var first, last := beacons[0].pkt.mgmt.value, beacons[|beacons| - 1];
    AccessPoint(match first.ssid case Some(name) => name case None => "",
                match last.pkt.mgmt.value.channel case Some(number) => number case None => 0,
                last.pkt.mgmt.value.rsn, last.now, |beacons|, Signal(last.pkt))
  }

  ghost predicate AccessPointIs(aps: map<Mac, AccessPoint>, m: Mac, beacons: seq<Event>)
    requires forall b :: b in beacons ==> IsBeacon(b.pkt, m)
  {
    if beacons == [] then m !in aps else m in aps && aps[m] == AccessPointOf(beacons, m)
  }

  lemma OneMoreBeacon(aps: map<Mac, AccessPoint>, m: Mac, beacons: seq<Event>, e: Event)
    requires (forall b :: b in beacons ==> IsBeacon(b.pkt, m)) && AccessPointIs(aps, m, beacons)
    ensures AccessPointIs(UpdateAps(aps, e.pkt, e.now), m, if IsBeacon(e.pkt, m) then beacons + [e] else beacons)
  {
    if IsBeacon(e.pkt, m) {
      assert (beacons + [e])[0] == if beacons == [] then e else beacons[0];
    }
  }

  /** Likewise the access points with beacons since the last cleanup that found them silent for 300 s. */
  lemma {:induction false} AccessPointsReflectBeacons(cfg: Config, events: seq<Event>, m: Mac)
    ensures AccessPointIs(After(cfg, events).aps, m, BeaconsSince(events, m))
    decreases |events|
  {
    if events == [] {
    } else {
      var init, e := events[..|events| - 1], events[|events| - 1];
      hide Run, UpdateConns, UpdateClients, UpdateAps, PruneAll, IsBeacon, Signal;
      AccessPointsReflectBeacons(cfg, init, m);
      TickTimes(cfg, init);
      TablesNext(cfg, events);
      var s, earlier := After(cfg, init), BeaconsSince(init, m);
      var kept := if earlier != [] && Ticks(events, |init|) && e.now - earlier[|earlier| - 1].now >= 300.0 then []
                  else earlier;
      assert AccessPointIs(Expire(s, e.now).aps, m, kept);
      OneMoreBeacon(Expire(s, e.now).aps, m, kept, e);
    }
  }
}
