/** Per-flow ring buffers behind a bounded table with least-recently-used eviction and idle cleanup. */
module FlowTable {
  import opened Prelude
  import opened FlowSpec

  class FlowState {
    const buffer: array<Option<Packet>>
    const timestamps: array<int>
    var head: nat
    var count: nat
    var oldestTs: int
    var lastSeenTs: int

    /** Every packet since the flow was admitted. */
    ghost var history: seq<Packet>

    /** The slots hold the newest packets by index modulo the ring size; `oldestTs` caches the oldest of them. */
    ghost predicate Ring()
      reads this, buffer, timestamps
    {
      && buffer.Length == timestamps.Length == SLOTS
      && count == Min(|history|, SLOTS)
      && head == |history| % SLOTS
      && RingHolds(buffer[..], timestamps[..], history)
      && (history != [] ==> oldestTs == history[|history| - count].ts)
    }

    ghost predicate Valid()
      reads this, buffer, timestamps
    {
      Ring() && (history != [] ==> lastSeenTs == LastSeen(history))
    }

    ghost predicate Holds(packets: seq<Packet>)
      reads this, buffer, timestamps
    {
      Valid() && history == packets
    }

    /** The cleanup test: seen at most a minute before `now`, or after it. */
    predicate SeenSince(now: int)
      reads this
    {
      if now >= lastSeenTs then now - lastSeenTs <= MINUTE else true
    }

    lemma SeenIsLast(packets: seq<Packet>)
      requires Holds(packets) && packets != []
      ensures lastSeenTs == LastSeen(packets)
    {
    }

    constructor (now: int)
      ensures Valid() && fresh(this) && fresh(buffer) && fresh(timestamps) && history == []
    {
      buffer := new Option<Packet>[SLOTS](_ => None);
      timestamps := new int[SLOTS](_ => now);
      head, count, oldestTs, lastSeenTs := 0, 0, now, now;
      history := [];
    }

    /**
      The flag is exact: it compares the new packet with the hundredth before it, however often the
      ring has wrapped, and the snapshot is exactly those hundred packets.
     */
    method AddPacket(pkt: Packet) returns (burst: bool, snapshot: Option<seq<Packet>>)
      requires Valid()
      modifies this, buffer, timestamps
      ensures Valid() && history == old(history) + [pkt]
      ensures burst == IsBurst(old(history), pkt)
      ensures snapshot == if burst then Some(LastN(old(history), SLOTS)) else None
    {
      hide RingHolds, LastN;
      var now := pkt.ts;
      ghost var h := history;
      lastSeenTs := now;
      RingPush(buffer[..], timestamps[..], h, pkt);
      HeadNext(|h|);
      if count < SLOTS {
        WriteHead(pkt);
        if count == 0 {
          oldestTs := now;
        }
        count := count + 1;
        burst, snapshot := false, None;
      } else {
        var timeSpan := if now >= oldestTs then now - oldestTs else 0;
        burst := timeSpan < MINUTE;
        snapshot := None;
        if burst {
          var packets := GetOrderedPackets();
          snapshot := Some(packets);
        }
        WriteHead(pkt);
        RingSlot(buffer[..], timestamps[..], h + [pkt], |h| + 1 - SLOTS);
        oldestTs := timestamps[(head + 1) % SLOTS];
      }
      head := (head + 1) % SLOTS;
      history := h + [pkt];
    }

    method WriteHead(pkt: Packet)
      requires head < SLOTS == buffer.Length == timestamps.Length
      modifies buffer, timestamps
      ensures buffer[..] == old(buffer[..])[head := Some(pkt)]
      ensures timestamps[..] == old(timestamps[..])[head := pkt.ts]
    {
      buffer[head] := Some(pkt);
      timestamps[head] := pkt.ts;
    }

    /** The last hundred packets of the flow (all of them, if fewer) in arrival order. */
    method GetOrderedPackets() returns (result: seq<Packet>)
      requires Ring()
      ensures result == LastN(history, SLOTS)
    {
      hide RingHolds;
      result := [];
      if count == 0 {
        return;
      }
      if count < SLOTS {
        for i := 0 to count
          invariant result == history[0..i]
        {
          RingSlot(buffer[..], timestamps[..], history, i);
          SliceSnoc(history, 0, i);
          if buffer[i].Some? {
            result := result + [buffer[i].value];
          }
        }
      } else {
        ghost var oldest := |history| - SLOTS;
        for i := 0 to SLOTS
          invariant result == history[oldest..oldest + i]
        {
          RingSlot(buffer[..], timestamps[..], history, oldest + i);
          SliceSnoc(history, oldest, oldest + i);
          SlotOf(|history|, i);
          var idx := (head + i) % SLOTS;
          if buffer[idx].Some? {
            result := result + [buffer[idx].value];
          }
        }
      }
    }
  }

  type Owners = map<object, FlowKey>

  /** All three objects of the flow were made for `k`. */
  ghost predicate Serves(owner: Owners, k: FlowKey, flow: FlowState) {
    && flow in owner && owner[flow] == k
    && flow.buffer in owner && owner[flow.buffer] == k
    && flow.timestamps in owner && owner[flow.timestamps] == k
  }

  ghost predicate IsUnowned(owner: Owners, flow: FlowState) {
    flow !in owner && flow.buffer !in owner && flow.timestamps !in owner
  }

  ghost function WithFlow(owner: Owners, key: FlowKey, flow: FlowState): (owner': Owners)
    ensures owner'.Keys == owner.Keys + {flow, flow.buffer, flow.timestamps}
  {
    owner[flow := key][flow.buffer := key][flow.timestamps := key]
  }

  /** Entering an unowned flow makes it serve its key and leaves every other flow serving its own. */
  lemma WithFlowServes(owner: Owners, key: FlowKey, flow: FlowState, k: FlowKey, other: FlowState)
    requires IsUnowned(owner, flow)
    ensures Serves(WithFlow(owner, key, flow), key, flow)
    ensures Serves(owner, k, other) ==> Serves(WithFlow(owner, key, flow), k, other)
  {
  }

  class SharedState {
    var flowTable: map<FlowKey, FlowState>
    const maxFlows: nat

    /** Which flow every object behind the table was made for; no object serves two flows. */
    ghost var owner: Owners
    /** What the table means: each present flow's packets since admission. */
    ghost var histories: Table

    ghost function Repr(): set<object>
      reads this
    {
      {this} + owner.Keys
    }

    ghost predicate Owns()
      reads this
    {
      && this !in owner
      && forall k :: k in flowTable ==> Serves(owner, k, flowTable[k])
    }

    ghost predicate Linked()
      reads Repr()
    {
      && Owns()
      && flowTable.Keys == histories.Keys
      && forall k :: k in flowTable ==> flowTable[k].Holds(histories[k])
    }

    ghost predicate Valid()
      reads Repr()
    {
      Linked() && forall k :: k in histories ==> histories[k] != []
    }

    constructor (maxFlows: nat)
      ensures Valid() && fresh(Repr()) && histories == map[] && this.maxFlows == maxFlows
    {
      flowTable, histories, owner := map[], map[], map[];
      this.maxFlows := maxFlows;
    }

    /**
      One packet under the lock: makes room if the key is new and the table is full, admits the key,
      and feeds the ring buffer, whose verdict concerns this flow's packets only.
     */
    method ProcessPacket(key: FlowKey, pkt: Packet) returns (burst: bool, snapshot: Option<seq<Packet>>)
      requires Valid()
      modifies Repr()
      ensures Valid() && fresh(Repr() - old(Repr()))
      ensures PacketStep(old(histories), maxFlows, key, pkt, histories)
      ensures var before := if key in old(histories) then old(histories)[key] else [];
              && burst == IsBurst(before, pkt)
              && snapshot == if burst then Some(LastN(before, SLOTS)) else None
    {
      hide FlowState.Holds, PacketStep, IsBurst, LastN;
      Prepare(key, pkt);
      burst, snapshot := Feed(key, pkt);
    }

    /** Makes sure `key` is in the table, evicting one flow for it if need be. */
    method Prepare(key: FlowKey, pkt: Packet)
      requires Valid()
      modifies this
      ensures Linked() && fresh(Repr() - old(Repr())) && key in histories
      ensures PacketStep(old(histories), maxFlows, key, pkt, histories[key := histories[key] + [pkt]])
      ensures histories[key] == if key in old(histories) then old(histories)[key] else []
      ensures forall k :: k in histories && k != key ==> histories[k] != []
    {
      hide FlowState.Holds, Serves, PacketStep, MakesRoom;
      MakeRoom(key);
      ghost var kept := histories;
      PacketStepIntro(old(histories), maxFlows, key, pkt, kept);
      if key !in flowTable {
        Admit(key, pkt.ts);
      } else {
        assert histories[key := histories[key]] == histories;
      }
    }

    /** For a new key, a full table loses its least recently seen flow. */
    method MakeRoom(key: FlowKey)
      requires Valid()
      modifies this`flowTable, this`histories
      ensures Valid()
      ensures MakesRoom(old(histories), maxFlows, key, histories)
      ensures key in histories <==> key in old(histories)
      ensures key in histories ==> histories[key] == old(histories)[key]
    {
      hide FlowState.Holds, Serves;
      assert |histories.Keys| == |flowTable.Keys|;
      if key !in flowTable && |flowTable| >= maxFlows {
        EvictLeastRecent();
      }
    }

    method EvictLeastRecent()
      requires Valid()
      modifies this`flowTable, this`histories
      ensures Valid()
      ensures histories.Keys <= old(histories).Keys && owner == old(owner)
      ensures if |old(histories)| == 0 then histories == old(histories)
              else exists victim :: IsLeastRecent(old(histories), victim) && histories == old(histories) - {victim}
    {
      hide FlowState.Holds;
      var oldest := FindLeastRecent();
      if oldest.Some? {
        assert IsLeastRecent(histories, oldest.value) && |histories| != 0;
        Remove({oldest.value});
      }
    }

    method Remove(keys: set<FlowKey>)
      requires Valid()
      modifies this`flowTable, this`histories
      ensures Valid()
      ensures histories == old(histories) - keys
    {
      hide FlowState.Holds;
      ghost var table, t := flowTable, histories;
      flowTable := flowTable - keys;
      histories := histories - keys;
      forall k | k in flowTable ensures k in histories && flowTable[k].Holds(histories[k]) {
        assert table[k].Holds(t[k]);
      }
    }

    /** A new flow starts from an empty ring. */
    method Admit(key: FlowKey, now: int)
      requires Valid() && key !in flowTable
      modifies this
      ensures Linked() && fresh(Repr() - old(Repr()))
      ensures histories == old(histories)[key := []]
    {
      hide FlowState.Valid, FlowState.Ring, FlowState.Holds;
      var flow := NewFlow(now);
      Link(key, flow);
    }

    static method NewFlow(now: int) returns (flow: FlowState)
      ensures fresh(flow) && fresh(flow.buffer) && fresh(flow.timestamps) && flow.Holds([])
    {
      flow := new FlowState(now);
    }

    /** Enters an empty flow that no other key uses. */
    method Link(key: FlowKey, flow: FlowState)
      requires Linked() && key !in flowTable && flow.Holds([])
      requires IsUnowned(owner, flow)
      modifies this`flowTable, this`histories, this`owner
      ensures Linked()
      ensures histories == old(histories)[key := []]
      ensures owner == WithFlow(old(owner), key, flow)
    {
      hide FlowState.Holds, Serves, WithFlow;
      ghost var table, t, owner0 := flowTable, histories, owner;
      owner := WithFlow(owner, key, flow);
      histories := histories[key := []];
      flowTable := flowTable[key := flow];
      forall k | k in flowTable ensures Serves(owner, k, flowTable[k]) && flowTable[k].Holds(histories[k]) {
        WithFlowServes(owner0, key, flow, k, flowTable[k]);
        if k != key {
          assert Serves(owner0, k, table[k]) && old(table[k].Holds(t[k]));
        }
      }
    }

    method Feed(key: FlowKey, pkt: Packet) returns (burst: bool, snapshot: Option<seq<Packet>>)
      requires Linked() && key in flowTable
      modifies Repr()
      ensures Linked() && owner == old(owner)
      ensures histories == old(histories)[key := old(histories)[key] + [pkt]]
      ensures burst == IsBurst(old(histories)[key], pkt)
      ensures snapshot == if burst then Some(LastN(old(histories)[key], SLOTS)) else None
    {
      hide FlowState.Valid, FlowState.Ring, IsBurst, LastN;
      var flow := flowTable[key];
      assert flow.Holds(histories[key]);
      burst, snapshot := flow.AddPacket(pkt);
      histories := histories[key := histories[key] + [pkt]];
      forall k | k in flowTable ensures flowTable[k].Holds(histories[k]) {
        if k != key {
          assert old(flowTable[k].Holds(histories[k]));
        }
      }
    }

    /** The eviction scan, in whatever order the table is iterated. */
    method FindLeastRecent() returns (oldestKey: Option<FlowKey>)
      requires Valid()
      ensures oldestKey.None? <==> histories == map[]
      ensures oldestKey.Some? ==> IsLeastRecent(histories, oldestKey.value)
    {
      oldestKey := None;
      var oldestSeen: Option<int> := None;
      var todo := flowTable.Keys;
      while todo != {}
        invariant todo <= flowTable.Keys
        invariant oldestKey.None? <==> todo == flowTable.Keys
        invariant oldestKey.None? <==> oldestSeen.None?
        invariant oldestKey.Some? ==>
                    && oldestKey.value in histories
                    && oldestSeen.value == LastSeen(histories[oldestKey.value])
                    && forall k :: k in histories && k !in todo ==> oldestSeen.value <= LastSeen(histories[k])
        decreases todo
      {
        var k :| k in todo;
        todo := todo - {k};
        assert flowTable[k].Holds(histories[k]);
        var seen := flowTable[k].lastSeenTs;
        if oldestSeen.None? || seen < oldestSeen.value {
          oldestSeen := Some(seen);
          oldestKey := Some(k);
        }
      }
    }

    /** Idle cleanup: drops exactly the flows last seen more than a minute before `now`. */
    method CleanupInactiveFlows(now: int) returns (removed: nat)
      requires Valid()
      modifies this`flowTable, this`histories
      ensures Valid()
      ensures histories == Cleaned(old(histories), now)
      ensures removed == |old(histories)| - |histories|
    {
      var initialLen := |flowTable|;
      ghost var t := histories;
      assert |t.Keys| == |flowTable.Keys|;
      var idle := set k | k in flowTable && !flowTable[k].SeenSince(now);
      forall k | k in t ensures k in idle <==> !IsActive(t[k], now) {
        flowTable[k].SeenIsLast(t[k]);
      }
      RemoveIdle(t, idle, now);
      Remove(idle);
      assert |histories.Keys| == |flowTable.Keys|;
      removed := initialLen - |flowTable|;
    }
  }
}
