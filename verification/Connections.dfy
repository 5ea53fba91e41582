/** What the connection table means, and why regrouping a batch does not change it. */
module Connections {
  import opened Prelude
  import opened Packets
  import opened Rules
  import opened EngineSpec

  /** The packet belongs to the connection of `k`, in either direction. */
  predicate Touches(pkt: Packet, k: ConnKey) {
    pkt.transport.Tcp? && (KeyOf(pkt) == k || Reverse(KeyOf(pkt)) == k)
  }

  /** The packet decides the state of entry `k`: its own SYN or teardown, or a SYN-ACK either way. */
  predicate Controls(pkt: Packet, k: ConnKey) {
    || ((IsOpening(pkt) || IsTeardown(pkt)) && KeyOf(pkt) == k)
    || (IsSynAck(pkt) && Touches(pkt, k))
  }

  /** The packet refreshes entry `k`. */
  predicate Refreshes(pkt: Packet, k: ConnKey) {
    Controls(pkt, k) || (pkt.transport.Tcp? && KeyOf(pkt) == k)
  }

  function Outcome(pkt: Packet): ConnState {
    if IsOpening(pkt) then New else if IsSynAck(pkt) then Established else Closing
  }

  function LastControl(events: seq<Event>, k: ConnKey): Option<Packet> {
    if events == [] then None
    else if Controls(events[|events| - 1].pkt, k) then Some(events[|events| - 1].pkt)
    else LastControl(events[..|events| - 1], k)
  }

  function LastRefresh(events: seq<Event>, k: ConnKey): Option<Time> {
    if events == [] then None
    else if Refreshes(events[|events| - 1].pkt, k) then Some(events[|events| - 1].now)
    else LastRefresh(events[..|events| - 1], k)
  }

  /**
    Over whole runs, with cleanups: the state of an entry is decided by its last controlling packet and
    its time by its last refreshing packet. In particular an entry is established only if that packet
    was a SYN-ACK; a data packet with the ACK flag never establishes anything.
   */
  lemma {:induction false} TableReflectsLastControl(cfg: Config, events: seq<Event>, k: ConnKey)
    requires k in After(cfg, events).conns
    ensures LastControl(events, k).Some? && LastRefresh(events, k).Some?
    ensures After(cfg, events).conns[k] == Conn(Outcome(LastControl(events, k).value), LastRefresh(events, k).value)
  {
    var init, e := events[..|events| - 1], events[|events| - 1];
    var o := Observe(After(cfg, init), e.pkt, e.now);
    EvalRulesFrame(cfg, o, cfg.rules, e.pkt, e.now);
    assert k in o.conns;
    if !Controls(e.pkt, k) {
      TableReflectsLastControl(cfg, init, k);
    }
  }

  // The table as a fold, one entry at a time

  function FoldConns(conns: ConnTable, events: seq<Event>): ConnTable {
    if events == [] then conns
    else
      var e := events[|events| - 1];
      UpdateConns(FoldConns(conns, events[..|events| - 1]), e.pkt, e.now)
  }

  function Entry(conns: ConnTable, k: ConnKey): Option<Conn> {
    if k in conns then Some(conns[k]) else None
  }

  /** How one packet of its connection changes an entry. */
  function UpdateEntry(entry: Option<Conn>, k: ConnKey, e: Event): Option<Conn> {
    if IsSynAck(e.pkt) && Touches(e.pkt, k) then Some(Conn(Established, e.now))
    else if !e.pkt.transport.Tcp? || KeyOf(e.pkt) != k then entry
    else if IsOpening(e.pkt) then Some(Conn(New, e.now))
    else if entry.None? then None
    else if IsTeardown(e.pkt) then Some(Conn(Closing, e.now))
    else Some(entry.value.(lastSeen := e.now))
  }

  function FoldEntry(entry: Option<Conn>, k: ConnKey, events: seq<Event>): Option<Conn> {
    if events == [] then entry
    else UpdateEntry(FoldEntry(entry, k, events[..|events| - 1]), k, events[|events| - 1])
  }

  function Touching(events: seq<Event>, k: ConnKey): seq<Event> {
    if events == [] then []
    else
      var init, e := Touching(events[..|events| - 1], k), events[|events| - 1];
      if Touches(e.pkt, k) then init + [e] else init
  }

  lemma {:induction false} FoldByEntry(conns: ConnTable, k: ConnKey, events: seq<Event>)
    ensures Entry(FoldConns(conns, events), k) == FoldEntry(Entry(conns, k), k, events)
  {
    if events == [] {
    } else {
      FoldByEntry(conns, k, events[..|events| - 1]);
    }
  }

  /** An entry depends only on the packets of its own connection. */
  lemma {:induction false} FoldByTouching(entry: Option<Conn>, k: ConnKey, events: seq<Event>)
    ensures FoldEntry(entry, k, events) == FoldEntry(entry, k, Touching(events, k))
  {
    if events == [] {
    } else {
      var init, e := events[..|events| - 1], events[|events| - 1];
      FoldByTouching(entry, k, init);
      if Touches(e.pkt, k) {
        var kept := Touching(events, k);
        assert kept[..|kept| - 1] == Touching(init, k);
      }
    }
  }

  /** Two orders of packets that agree on every connection leave the same table. */
  lemma SameTouchingSameTable(conns: ConnTable, a: seq<Event>, b: seq<Event>)
    requires forall k :: Touching(a, k) == Touching(b, k)
    ensures FoldConns(conns, a) == FoldConns(conns, b)
  {
    var ta, tb := FoldConns(conns, a), FoldConns(conns, b);
    forall k ensures Entry(ta, k) == Entry(tb, k) {
      assert Touching(a, k) == Touching(b, k);
      FoldByEntry(conns, k, a);
      FoldByEntry(conns, k, b);
      FoldByTouching(Entry(conns, k), k, a);
      FoldByTouching(Entry(conns, k), k, b);
    }
    assert forall k :: k in ta ==> Entry(tb, k) == Some(ta[k]);
    assert forall k :: k in tb ==> Entry(ta, k) == Some(tb[k]);
  }

  /** No packet of the batch falls due for a cleanup. */
  ghost predicate NoTick(s: State, events: seq<Event>) {
    forall e :: e in events ==> !TickDue(s, e.now)
  }

  /** Without a tick, a run leaves the fold of its packets in the connection table. */
  lemma {:induction false} RunWithoutTick(cfg: Config, s: State, events: seq<Event>)
    requires NoTick(s, events)
    ensures Run(cfg, s, events).0.conns == FoldConns(s.conns, events)
    ensures Run(cfg, s, events).0.lastCleanup == s.lastCleanup
  {
    if events == [] {
    } else {
      var init, e := events[..|events| - 1], events[|events| - 1];
      assert e in events;
      RunWithoutTick(cfg, s, init);
      EvalRulesFrame(cfg, Observe(Run(cfg, s, init).0, e.pkt, e.now), cfg.rules, e.pkt, e.now);
    }
  }
}
