/** The counting-sort locality buffer: fixed tables, sparse clearing, stable grouping by port. */
module Locality {
  import opened Prelude
  import opened LocalitySpec

  const MAX_ACTIVE_BUCKETS := 4096

  class LocalityBuffer {
    const inputRefs: array<PacketRef>
    const sortedRefs: array<PacketRef>
    const counts: array<u16>
    const offsets: array<u16>
    const startOffsets: array<u16>
    const activeBuckets: array<u16>
    var activeCount: nat
    var currentSize: nat

    ghost const Repr: set<object>

    /** The packets accepted since the last clear, in arrival order. */
    ghost function Batch(): seq<PacketRef>
      reads this, inputRefs
      requires currentSize <= inputRefs.Length
    {
      inputRefs[..currentSize]
    }

    /** The tables are separate arrays of their fixed sizes. */
    ghost predicate Shape()
      reads this
    {
      && Repr == {this, inputRefs, sortedRefs, counts, offsets, startOffsets, activeBuckets}
      && inputRefs.Length == sortedRefs.Length == MAX_BATCH_SIZE
      && activeBuckets.Length == MAX_ACTIVE_BUCKETS
      && counts.Length == offsets.Length == startOffsets.Length == PORTS
      && inputRefs != sortedRefs
      && counts != offsets && counts != startOffsets && counts != activeBuckets
      && offsets != startOffsets && offsets != activeBuckets && startOffsets != activeBuckets
      && activeCount <= currentSize <= MAX_BATCH_SIZE
    }

    /**
      Holds in every reachable state, whatever the order of adds, groupings and clears: outside the
      active ports all three tables are zero, which is why a sparse clear is a full reset.
     */
    ghost predicate Valid()
      reads this, Repr
    {
      && Shape()
      && TablesHold(Batch(), activeBuckets[..activeCount], counts[..], offsets[..], startOffsets[..])
    }

    /** The sorted half reflects the current batch; true after a grouping until the next add. */
    ghost predicate IsGrouped()
      reads this, Repr
      requires Valid()
    {
      && sortedRefs[..currentSize] == Grouped(Batch())
      && StartsAt(Batch(), startOffsets[..], activeCount)
    }

    constructor ()
      ensures Valid() && fresh(Repr) && Batch() == []
    {
      inputRefs := new PacketRef[MAX_BATCH_SIZE](_ => DEFAULT_REF);
      sortedRefs := new PacketRef[MAX_BATCH_SIZE](_ => DEFAULT_REF);
      counts := new u16[PORTS](_ => 0);
      offsets := new u16[PORTS](_ => 0);
      startOffsets := new u16[PORTS](_ => 0);
      activeBuckets := new u16[MAX_ACTIVE_BUCKETS](_ => 0);
      activeCount, currentSize := 0, 0;
      Repr := {this, inputRefs, sortedRefs, counts, offsets, startOffsets, activeBuckets};
    }

    /** Clearing only the active ports leaves all three tables zero everywhere. */
    method Clear()
      requires Valid()
      modifies Repr
      ensures Valid() && IsGrouped()
      ensures Batch() == [] && activeCount == 0
      ensures forall p: u16 :: counts[p] == 0 && offsets[p] == 0 && startOffsets[p] == 0
    {
      hide Bucket, Ports, Grouped;
      ghost var active := Ports(Batch());
      CountedPortsAreActive(Batch(), counts[..]);
      for i := 0 to activeCount
        invariant Shape() && activeCount == old(activeCount) && activeBuckets[..activeCount] == active
        invariant ZeroOutside(active[i..], counts[..])
        invariant ZeroOutside(active[i..], offsets[..])
        invariant ZeroOutside(active[i..], startOffsets[..])
      {
        var port := activeBuckets[i];
        assert active[i..] == [port] + active[i + 1..];
        counts[port] := 0;
        offsets[port] := 0;
        startOffsets[port] := 0;
      }
      activeCount := 0;
      currentSize := 0;
      EmptyBatch(counts[..]);
    }

    /**
      Adds one packet, or refuses it and changes nothing when the batch is full. The guard on the
      active-bucket capacity and the 16-bit increment can neither skip a port nor wrap.
     */
    method AddPacket(data: Bytes, sec: u32, nsec: u32, blockIdx: u32, portKey: u16) returns (ok: bool)
      requires Valid()
      modifies Repr
      ensures Valid()
      ensures ok == (|old(Batch())| < MAX_BATCH_SIZE)
      ensures Batch() == old(Batch()) + if ok then [PacketRef(data, sec, nsec, blockIdx, portKey)] else []
    {
      if currentSize >= MAX_BATCH_SIZE {
        return false;
      }
      hide TablesHold;
      ghost var batch, active := Batch(), activeBuckets[..activeCount];
      var r := PacketRef(data, sec, nsec, blockIdx, portKey);
      CountKeepsTables(batch, r, active, counts[..], offsets[..], startOffsets[..]);
      CountPort(portKey);
      Store(r);
      return true;
    }

    /** Appends the reference to the batch. */
    method Store(r: PacketRef)
      requires currentSize < MAX_BATCH_SIZE == inputRefs.Length
      modifies inputRefs, this`currentSize
      ensures currentSize == old(currentSize) + 1
      ensures Batch() == old(inputRefs[..currentSize]) + [r]
    {
      inputRefs[currentSize] := r;
      currentSize := currentSize + 1;
    }

    /** Lists the port if this is its first packet of the batch, and counts it. */
    method CountPort(portKey: u16)
      requires activeCount < MAX_ACTIVE_BUCKETS == activeBuckets.Length && counts.Length == PORTS
      requires counts != activeBuckets && counts[portKey] < MAX_BATCH_SIZE
      modifies counts, activeBuckets, this`activeCount
      ensures activeCount <= old(activeCount) + 1
      ensures activeBuckets[..activeCount]
           == old(activeBuckets[..activeCount]) + if old(counts[portKey]) == 0 then [portKey] else []
      ensures counts[..] == old(counts[..])[portKey := old(counts[portKey]) + 1]
    {
      if counts[portKey] == 0 {
        if activeCount < MAX_ACTIVE_BUCKETS {
          activeBuckets[activeCount] := portKey;
          activeCount := activeCount + 1;
        }
      }
      counts[portKey] := counts[portKey] + 1;
    }

    /** Counting sort: afterwards the sorted half is the batch grouped by port, each port in arrival order. */
    method GroupPackets()
      requires Valid()
      modifies sortedRefs, offsets, startOffsets
      ensures Valid() && IsGrouped()
    {
      hide Bucket, Concat, Ports, Start, Filled, CountsBuckets, Grouped, ZeroOutside;
      if currentSize == 0 {
        NothingActive();
        return;
      }
      PlaceStarts();
      PlacePackets();
      GroupedIsPermutation(Batch());
      FilledMakesGrouped(Batch(), offsets[..], sortedRefs[..]);
    }

    /** First pass: running sums of the counts of the active ports; the 16-bit sum never wraps. */
    method PlaceStarts()
      requires Valid()
      modifies offsets, startOffsets
      ensures Valid()
      ensures StartsAt(Batch(), startOffsets[..], activeCount)
      ensures StartsAt(Batch(), offsets[..], activeCount)
    {
      hide Bucket, Ports, Concat;
      assert Start(Batch(), 0) == 0 by {
        StartOfNone(Batch());
      }
      hide Start;
      var sum: u16 := 0;
      for i := 0 to activeCount
        invariant Valid()
        invariant sum == Start(Batch(), i)
        invariant StartsAt(Batch(), startOffsets[..], i)
        invariant StartsAt(Batch(), offsets[..], i)
      {
        ghost var batch, offsets0, starts0 := Batch(), offsets[..], startOffsets[..];
        var port := activeBuckets[i];
        assert port == Ports(batch)[i];
        StartsNext(batch, offsets0, i);
        StartsNext(batch, starts0, i);
        StartNext(batch, i);
        StartMonotone(batch, i + 1, i + 1);
        offsets[port] := sum;
        startOffsets[port] := sum;
        assert offsets[..] == offsets0[port := sum] && startOffsets[..] == starts0[port := sum];
        sum := sum + counts[port];
      }
    }

    /** Second pass: each packet goes to the next free slot of its port; the slot is always in range. */
    method PlacePackets()
      requires Valid()
      requires StartsAt(Batch(), startOffsets[..], activeCount)
      requires StartsAt(Batch(), offsets[..], activeCount)
      modifies offsets, sortedRefs
      ensures Valid()
      ensures Filled(Batch(), Batch(), offsets[..], sortedRefs[..])
    {
      hide Bucket, Ports, Concat, Start, StartsAt, Filled, CountsBuckets;
      FillNone(Batch(), offsets[..], sortedRefs[..]);
      for i := 0 to currentSize
        invariant Valid()
        invariant Filled(Batch(), Batch()[..i], offsets[..], sortedRefs[..])
      {
        ghost var batch, offsets0, sorted0 := Batch(), offsets[..], sortedRefs[..];
        var pktRef := inputRefs[i];
        var port := pktRef.portKey;
        var destIdx := offsets[port];
        FillNext(batch, i, offsets0, sorted0);
        assert port in Ports(batch) by {
          var at := ActiveIndex(batch, i);
        }
        if destIdx < MAX_BATCH_SIZE {
          sortedRefs[destIdx] := pktRef;
          offsets[port] := offsets[port] + 1;
        }
        ghost var nextFree: u16 := destIdx + 1;
        assert offsets[..] == offsets0[port := nextFree] && sortedRefs[..] == sorted0[destIdx := pktRef];
      }
      assert Batch()[..currentSize] == Batch();
    }

    /** The packets of one port in arrival order, and nothing for a port without packets. */
    method GetBucketSlice(port: u16) returns (slice: seq<PacketRef>)
      requires Valid()
      ensures IsGrouped() ==> slice == Bucket(Batch(), port)
      ensures Bucket(Batch(), port) == [] ==> slice == []
    {
      hide Bucket, Ports, Concat, Start, Grouped, StartsAt;
      var start: nat, count: nat := startOffsets[port], counts[port];
      if start + count <= currentSize {
        slice := sortedRefs[start..start + count];
      } else {
        slice := [];
      }
      assert port !in Ports(Batch()) <==> Bucket(Batch(), port) == [] by {
        PortsAreActive(Batch());
      }
      if IsGrouped() && port in Ports(Batch()) {
        GroupedSlice(Batch(), counts[..], startOffsets[..], port, start, count);
        SliceOfPrefix(sortedRefs[..], currentSize, start, start + count);
      }
    }
  }
}
