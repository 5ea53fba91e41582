/** What grouping a batch by port means, independently of the counting sort that computes it. */
module LocalitySpec {
  import opened Prelude

  /** A reference to one captured packet; `data` stands for the bytes behind the pointer and length. */
  datatype PacketRef = PacketRef(data: Bytes, sec: u32, nsec: u32, blockIdx: u32, portKey: u16)

  const DEFAULT_REF := PacketRef([], 0, 0, 0, 0)

  /** The packets of `batch` with the given port, in arrival order. */
  function Bucket(batch: seq<PacketRef>, port: u16): seq<PacketRef> {
    if batch == [] then []
    else
      var init, last := batch[..|batch| - 1], batch[|batch| - 1];
      Bucket(init, port) + if last.portKey == port then [last] else []
  }

  /** The ports of `batch` in order of first occurrence. */
  function Ports(batch: seq<PacketRef>): seq<u16> {
    if batch == [] then []
    else
      var ports, port := Ports(batch[..|batch| - 1]), batch[|batch| - 1].portKey;
      if port in ports then ports else ports + [port]
  }

  /** The buckets of `ports`, one after the other. */
  function Concat(batch: seq<PacketRef>, ports: seq<u16>): seq<PacketRef> {
    if ports == [] then []
    else Concat(batch, ports[..|ports| - 1]) + Bucket(batch, ports[|ports| - 1])
  }

  /** The whole batch, grouped by port. */
  function Grouped(batch: seq<PacketRef>): seq<PacketRef> {
    Concat(batch, Ports(batch))
  }

  /** Where the bucket of the i-th port starts in `Grouped(batch)`. */
  function Start(batch: seq<PacketRef>, i: nat): nat
    requires i <= |Ports(batch)|
  {
    |Concat(batch, Ports(batch)[..i])|
  }

  ghost predicate Distinct<T(!new)>(s: seq<T>) {
    forall i, j :: 0 <= i < j < |s| ==> s[i] != s[j]
  }

  lemma BucketSnoc(batch: seq<PacketRef>, r: PacketRef, port: u16)
    ensures Bucket(batch + [r], port) == Bucket(batch, port) + if r.portKey == port then [r] else []
  {
    assert (batch + [r])[..|batch|] == batch;
  }

  lemma PortsSnoc(batch: seq<PacketRef>, r: PacketRef)
    ensures Ports(batch + [r]) == if r.portKey in Ports(batch) then Ports(batch) else Ports(batch) + [r.portKey]
  {
    assert (batch + [r])[..|batch|] == batch;
  }

  /** Active ports are distinct, no more numerous than the packets, and exactly those with a packet. */
  lemma {:induction false} PortsAreActive(batch: seq<PacketRef>)
    ensures Distinct(Ports(batch))
    ensures |Ports(batch)| <= |batch|
    ensures forall p: u16 :: p in Ports(batch) <==> Bucket(batch, p) != []
  {
    if batch == [] {
    } else {
      PortsAreActive(batch[..|batch| - 1]);
    }
  }

  /** A bucket holds exactly the packets with its port. */
  lemma {:induction false} BucketPorts(batch: seq<PacketRef>, port: u16)
    ensures |Bucket(batch, port)| <= |batch|
    ensures forall r :: r in Bucket(batch, port) ==> r in batch && r.portKey == port
  {
    if batch == [] {
    } else {
      BucketPorts(batch[..|batch| - 1], port);
    }
  }

  /** A bucket only grows as the batch does, and grows by the next packet of its port. */
  lemma {:induction false} BucketPrefix(batch: seq<PacketRef>, i: nat, port: u16)
    requires i <= |batch|
    ensures Bucket(batch[..i], port) <= Bucket(batch, port)
    ensures i < |batch| && batch[i].portKey == port ==> |Bucket(batch[..i], port)| < |Bucket(batch, port)|
    decreases |batch| - i
  {
    if i < |batch| {
      BucketPrefix(batch, i + 1, port);
      assert batch[..i + 1] == batch[..i] + [batch[i]];
      BucketSnoc(batch[..i], batch[i], port);
    } else {
      assert batch[..i] == batch;
    }
  }

  lemma ConcatLast(batch: seq<PacketRef>, init: seq<u16>, port: u16)
    ensures Concat(batch, init + [port]) == Concat(batch, init) + Bucket(batch, port)
  {
    assert (init + [port])[..|init|] == init;
  }

  /** Adding a packet adds it once to the concatenation, if its port is listed. */
  lemma {:induction false} ConcatSnoc(batch: seq<PacketRef>, r: PacketRef, ports: seq<u16>)
    requires Distinct(ports)
    ensures multiset(Concat(batch + [r], ports))
         == multiset(Concat(batch, ports)) + if r.portKey in ports then multiset{r} else multiset{}
  {
    if ports == [] {
      assert Concat(batch + [r], ports) == Concat(batch, ports) == [];
    } else {
      var init, p := ports[..|ports| - 1], ports[|ports| - 1];
      assert ports == init + [p] && p !in init;
      hide Concat, Bucket;
      ConcatSnoc(batch, r, init);
      BucketSnoc(batch, r, p);
      ConcatLast(batch, init, p);
      ConcatLast(batch + [r], init, p);
    }
  }

  /** One more packet adds itself to the grouping. */
  lemma GroupedSnoc(batch: seq<PacketRef>, r: PacketRef)
    ensures multiset(Grouped(batch + [r])) == multiset(Grouped(batch)) + multiset{r}
  {
    hide Concat, Bucket, Ports;
    PortsAreActive(batch);
    PortsSnoc(batch, r);
    ConcatSnoc(batch, r, Ports(batch));
    if r.portKey !in Ports(batch) {
      ConcatLast(batch + [r], Ports(batch), r.portKey);
      BucketSnoc(batch, r, r.portKey);
      NothingMore([r]);
    }
  }

  lemma MultisetSnoc(batch: seq<PacketRef>, r: PacketRef)
    ensures multiset(batch + [r]) == multiset(batch) + multiset{r}
  {
  }

  lemma LastOff(batch: seq<PacketRef>)
    requires batch != []
    ensures batch == batch[..|batch| - 1] + [batch[|batch| - 1]]
  {
  }

  /** Grouping permutes the batch. */
  lemma {:induction false} GroupedIsPermutation(batch: seq<PacketRef>)
    ensures multiset(Grouped(batch)) == multiset(batch)
    ensures |Grouped(batch)| == |batch|
    decreases |batch|
  {
    hide Grouped;
    if batch == [] {
      NothingGrouped();
    } else {
      var init, r := batch[..|batch| - 1], batch[|batch| - 1];
      GroupedIsPermutation(init);
      GroupedSnoc(init, r);
      MultisetSnoc(init, r);
      LastOff(batch);
    }
    SizeOfMultiset(Grouped(batch), batch);
  }

  lemma NothingGrouped()
    ensures Grouped([]) == []
  {
    NothingActive();
  }

  lemma SizeOfMultiset(a: seq<PacketRef>, b: seq<PacketRef>)
    requires multiset(a) == multiset(b)
    ensures |a| == |b|
  {
    assert |multiset(a)| == |multiset(b)|;
  }

  /** Each start is the previous one plus the previous bucket's size. */
  lemma StartNext(batch: seq<PacketRef>, i: nat)
    requires i < |Ports(batch)|
    ensures Concat(batch, Ports(batch)[..i + 1]) == Concat(batch, Ports(batch)[..i]) + Bucket(batch, Ports(batch)[i])
    ensures Start(batch, i + 1) == Start(batch, i) + |Bucket(batch, Ports(batch)[i])|
  {
    var ports := Ports(batch)[..i + 1];
    assert ports[..|ports| - 1] == Ports(batch)[..i];
  }

  lemma StartOfNone(batch: seq<PacketRef>)
    ensures Concat(batch, Ports(batch)[..0]) == [] && Start(batch, 0) == 0
  {
  }

  lemma {:induction false} ConcatPrefix(batch: seq<PacketRef>, i: nat, j: nat)
    requires i <= j <= |Ports(batch)|
    ensures Concat(batch, Ports(batch)[..i]) <= Concat(batch, Ports(batch)[..j])
  {
    hide Concat, Ports, Bucket;
    if i < j {
      ConcatPrefix(batch, i, j - 1);
      StartNext(batch, j - 1);
      PrefixExtends(Concat(batch, Ports(batch)[..i]), Concat(batch, Ports(batch)[..j - 1]),
                    Bucket(batch, Ports(batch)[j - 1]));
    }
  }

  lemma PrefixExtends<T>(a: seq<T>, b: seq<T>, c: seq<T>)
    requires a <= b
    ensures a <= b + c
  {
  }

  /** Starts increase and stay within the batch. */
  lemma StartMonotone(batch: seq<PacketRef>, i: nat, j: nat)
    requires i <= j <= |Ports(batch)|
    ensures Start(batch, i) <= Start(batch, j) <= |batch|
  {
    ConcatPrefix(batch, i, j);
    ConcatPrefix(batch, j, |Ports(batch)|);
    assert Ports(batch)[..|Ports(batch)|] == Ports(batch);
    GroupedIsPermutation(batch);
  }

  // The tables of the counting sort, seen as sequences indexed by port.

  const PORTS := 0x1_0000
  const MAX_BATCH_SIZE := 4096

  type Table = t: seq<u16> | |t| == PORTS witness seq(PORTS, _ => 0)

  ghost predicate CountsBuckets(batch: seq<PacketRef>, counts: Table) {
    forall p: u16 :: counts[p] == |Bucket(batch, p)|
  }

  ghost predicate ZeroOutside(ports: seq<u16>, table: Table) {
    forall p: u16 :: p !in ports ==> table[p] == 0
  }

  /** The first `n` active ports have their starts recorded. */
  ghost predicate StartsAt(batch: seq<PacketRef>, starts: Table, n: nat)
    requires n <= |Ports(batch)|
  {
    forall j :: 0 <= j < n ==> starts[Ports(batch)[j]] == Start(batch, j)
  }

  /** The j-th bucket of `prefix` fills the front of its slice, and its offset is the next free slot. */
  ghost predicate FilledAt(batch: seq<PacketRef>, prefix: seq<PacketRef>, offsets: Table, sorted: seq<PacketRef>,
                           j: nat)
    requires j < |Ports(batch)|
  {
    var start, bucket := Start(batch, j), Bucket(prefix, Ports(batch)[j]);
    && offsets[Ports(batch)[j]] == start + |bucket| <= |sorted|
    && sorted[start..start + |bucket|] == bucket
  }

  ghost predicate Filled(batch: seq<PacketRef>, prefix: seq<PacketRef>, offsets: Table, sorted: seq<PacketRef>) {
    forall j :: 0 <= j < |Ports(batch)| ==> FilledAt(batch, prefix, offsets, sorted, j)
  }

  /** The tables of a batch: its active ports, their counts, and zeros everywhere else. */
  ghost predicate TablesHold(batch: seq<PacketRef>, active: seq<u16>, counts: Table, offsets: Table, starts: Table) {
    && active == Ports(batch)
    && CountsBuckets(batch, counts)
    && ZeroOutside(Ports(batch), offsets)
    && ZeroOutside(Ports(batch), starts)
  }

  /** Counting one packet keeps the tables; no count reaches the batch size before, and so none wraps. */
  lemma CountKeepsTables(batch: seq<PacketRef>, r: PacketRef, active: seq<u16>, counts: Table, offsets: Table,
                         starts: Table)
    requires TablesHold(batch, active, counts, offsets, starts) && |batch| < MAX_BATCH_SIZE
    ensures counts[r.portKey] <= |batch| && |active| <= |batch|
    ensures TablesHold(batch + [r], active + if counts[r.portKey] == 0 then [r.portKey] else [],
                       counts[r.portKey := counts[r.portKey] + 1], offsets, starts)
  {
    hide Ports, CountsBuckets, ZeroOutside;
    CountOne(batch, r, counts, offsets, starts);
  }

  /** One more packet: its port is new exactly when its count is zero, and only its own count moves. */
  lemma CountOne(batch: seq<PacketRef>, r: PacketRef, counts: Table, offsets: Table, starts: Table)
    requires CountsBuckets(batch, counts) && ZeroOutside(Ports(batch), offsets) && ZeroOutside(Ports(batch), starts)
    ensures counts[r.portKey] <= |batch|
    ensures counts[r.portKey] == 0 <==> r.portKey !in Ports(batch)
    ensures |Ports(batch)| <= |batch|
    ensures Ports(batch + [r]) == Ports(batch) + if counts[r.portKey] == 0 then [r.portKey] else []
    ensures counts[r.portKey] + 1 < PORTS ==> CountsBuckets(batch + [r], counts[r.portKey := counts[r.portKey] + 1])
    ensures ZeroOutside(Ports(batch + [r]), offsets) && ZeroOutside(Ports(batch + [r]), starts)
  {
    PortsAreActive(batch);
    PortsSnoc(batch, r);
    BucketPorts(batch, r.portKey);
    hide Ports, Bucket;
    assert Ports(batch) + [] == Ports(batch);
    forall p: u16 ensures Bucket(batch + [r], p) == Bucket(batch, p) + if r.portKey == p then [r] else [] {
      BucketSnoc(batch, r, p);
    }
  }

  /** Recording one more start does not disturb the others, as the ports are distinct. */
  lemma StartsNext(batch: seq<PacketRef>, starts: Table, i: nat)
    requires i < |Ports(batch)| && StartsAt(batch, starts, i)
    requires Start(batch, i) < 0x1_0000
    ensures StartsAt(batch, starts[Ports(batch)[i] := Start(batch, i)], i + 1)
  {
    PortsAreActive(batch);
  }

  /** The position of the i-th packet's port among the active ports. */
  lemma ActiveIndex(batch: seq<PacketRef>, i: nat) returns (j: nat)
    requires i < |batch|
    ensures j < |Ports(batch)| && Ports(batch)[j] == batch[i].portKey
  {
    BucketPrefix(batch, i, batch[i].portKey);
    PortsAreActive(batch);
    assert batch[i].portKey in Ports(batch);
    j :| 0 <= j < |Ports(batch)| && Ports(batch)[j] == batch[i].portKey;
  }

  /** Before the first packet is placed, the offsets are the starts. */
  lemma FillNone(batch: seq<PacketRef>, starts: Table, sorted: seq<PacketRef>)
    requires StartsAt(batch, starts, |Ports(batch)|) && |batch| <= |sorted|
    ensures Filled(batch, batch[..0], starts, sorted)
  {
    assert batch[..0] == [];
    forall j | 0 <= j < |Ports(batch)| ensures FilledAt(batch, batch[..0], starts, sorted, j) {
      StartMonotone(batch, j, j);
    }
  }

  /** The next packet has a free slot in its own slice; writing it there disturbs no other slice. */
  lemma FillNext(batch: seq<PacketRef>, i: nat, offsets: Table, sorted: seq<PacketRef>)
    requires i < |batch| <= |sorted|
    requires Filled(batch, batch[..i], offsets, sorted)
    ensures offsets[batch[i].portKey] < |batch|
    ensures offsets[batch[i].portKey] + 1 < PORTS ==>
              Filled(batch, batch[..i + 1], offsets[batch[i].portKey := offsets[batch[i].portKey] + 1],
                     sorted[offsets[batch[i].portKey] := batch[i]])
  {
    hide FilledAt;
    var port := batch[i].portKey;
    var at := ActiveIndex(batch, i);
    SlotInBounds(batch, i, offsets, sorted, at);
    if offsets[port] + 1 < PORTS {
      var slot: u16, next: u16 := offsets[port], offsets[port] + 1;
      var prefix, offsets', sorted' := batch[..i + 1], offsets[port := next], sorted[slot := batch[i]];
      forall j | 0 <= j < |Ports(batch)| ensures FilledAt(batch, prefix, offsets', sorted', j) {
        assert FilledAt(batch, batch[..i], offsets, sorted, j);
        if j == at {
          FillSame(batch, i, offsets, sorted, j, slot, next);
        } else {
          FillOther(batch, i, offsets, sorted, at, j, slot, next);
        }
      }
    }
  }

  lemma SlotInBounds(batch: seq<PacketRef>, i: nat, offsets: Table, sorted: seq<PacketRef>, at: nat)
    requires i < |batch| <= |sorted| && Filled(batch, batch[..i], offsets, sorted)
    requires at < |Ports(batch)| && Ports(batch)[at] == batch[i].portKey
    ensures offsets[batch[i].portKey] < |batch|
  {
    assert FilledAt(batch, batch[..i], offsets, sorted, at);
    BucketPrefix(batch, i, batch[i].portKey);
    StartNext(batch, at);
    StartMonotone(batch, at + 1, at + 1);
  }

  lemma SliceOfPrefix<T>(s: seq<T>, n: nat, a: nat, b: nat)
    requires a <= b <= n <= |s|
    ensures s[..n][a..b] == s[a..b]
  {
  }

  lemma SliceUpdate<T>(s: seq<T>, a: nat, b: nat, at: nat, x: T)
    requires a <= b <= |s| && at < |s|
    ensures at < a || b <= at ==> s[at := x][a..b] == s[a..b]
    ensures at == b ==> s[at := x][a..b + 1] == s[a..b] + [x]
  {
  }

  lemma FillSame(batch: seq<PacketRef>, i: nat, offsets: Table, sorted: seq<PacketRef>, j: nat, slot: u16, next: u16)
    requires i < |batch| <= |sorted| && j < |Ports(batch)| && Ports(batch)[j] == batch[i].portKey
    requires FilledAt(batch, batch[..i], offsets, sorted, j)
    requires slot == offsets[batch[i].portKey] < |batch| && next == slot + 1
    ensures FilledAt(batch, batch[..i + 1], offsets[batch[i].portKey := next], sorted[slot := batch[i]], j)
  {
    hide Ports, Bucket, Concat, Start;
    var p := batch[i].portKey;
    var bucket, bucket' := Bucket(batch[..i], p), Bucket(batch[..i + 1], p);
    assert bucket' == bucket + [batch[i]] by {
      assert batch[..i + 1] == batch[..i] + [batch[i]];
      BucketSnoc(batch[..i], batch[i], p);
    }
    SliceUpdate(sorted, Start(batch, j), Start(batch, j) + |bucket|, slot, batch[i]);
  }

  lemma FillOther(batch: seq<PacketRef>, i: nat, offsets: Table, sorted: seq<PacketRef>, at: nat, j: nat,
                  slot: u16, next: u16)
    requires i < |batch| <= |sorted| && j < |Ports(batch)| && at < |Ports(batch)| && at != j
    requires Ports(batch)[at] == batch[i].portKey
    requires FilledAt(batch, batch[..i], offsets, sorted, at)
    requires FilledAt(batch, batch[..i], offsets, sorted, j)
    requires slot == offsets[batch[i].portKey] < |batch|
    ensures FilledAt(batch, batch[..i + 1], offsets[batch[i].portKey := next], sorted[slot := batch[i]], j)
  {
    hide Ports, Bucket, Concat, Start;
    var p, start := Ports(batch)[j], Start(batch, j);
    SlotsAreDisjoint(batch, i, at, j);
    assert batch[..i + 1] == batch[..i] + [batch[i]];
    BucketSnoc(batch[..i], batch[i], p);
    assert Bucket(batch[..i], p) + [] == Bucket(batch[..i], p);
    SliceUpdate(sorted, start, start + |Bucket(batch[..i], p)|, slot, batch[i]);
  }

  /** The next free slot of one port lies outside the filled slice of every other. */
  lemma SlotsAreDisjoint(batch: seq<PacketRef>, i: nat, at: nat, j: nat)
    requires i < |batch| && at < |Ports(batch)| && j < |Ports(batch)| && at != j
    requires Ports(batch)[at] == batch[i].portKey
    ensures Ports(batch)[j] != batch[i].portKey
    ensures var slot := Start(batch, at) + |Bucket(batch[..i], Ports(batch)[at])|;
            slot < Start(batch, j) || Start(batch, j) + |Bucket(batch[..i], Ports(batch)[j])| <= slot
  {
    PortsAreActive(batch);
    BucketPrefix(batch, i, Ports(batch)[at]);
    BucketPrefix(batch, i, Ports(batch)[j]);
    if at < j {
      StartNext(batch, at);
      StartMonotone(batch, at + 1, j);
    } else {
      StartNext(batch, j);
      StartMonotone(batch, j + 1, at);
    }
  }

  lemma PrefixGrows<T>(s: seq<T>, i: nat, j: nat, a: seq<T>, b: seq<T>)
    requires i <= j <= |s| && s[..i] == a && s[i..j] == b
    ensures s[..j] == a + b
  {
    assert s[..j] == s[..i] + s[i..j];
  }

  /** Once every packet is placed, the sorted half is the grouped batch. */
  lemma {:induction false} FilledMakesConcat(batch: seq<PacketRef>, offsets: Table, sorted: seq<PacketRef>, n: nat)
    requires n <= |Ports(batch)|
    requires |sorted| >= |batch|
    requires Filled(batch, batch, offsets, sorted)
    ensures Start(batch, n) <= |sorted|
    ensures sorted[..Start(batch, n)] == Concat(batch, Ports(batch)[..n])
  {
    StartMonotone(batch, n, n);
    if n == 0 {
      assert Concat(batch, Ports(batch)[..0]) == [];
    } else {
      hide Ports, Concat, Bucket, Start;
      FilledMakesConcat(batch, offsets, sorted, n - 1);
      StartNext(batch, n - 1);
      assert FilledAt(batch, batch, offsets, sorted, n - 1);
      PrefixGrows(sorted, Start(batch, n - 1), Start(batch, n), Concat(batch, Ports(batch)[..n - 1]),
                  Bucket(batch, Ports(batch)[n - 1]));
    }
  }

  lemma FilledMakesGrouped(batch: seq<PacketRef>, offsets: Table, sorted: seq<PacketRef>)
    requires |sorted| >= |batch| && Filled(batch, batch, offsets, sorted)
    ensures sorted[..|batch|] == Grouped(batch)
  {
    hide Ports, Concat, Bucket, Filled;
    GroupedIsPermutation(batch);
    FilledMakesConcat(batch, offsets, sorted, |Ports(batch)|);
    assert Ports(batch)[..|Ports(batch)|] == Ports(batch);
  }

  lemma NothingActive()
    ensures Ports([]) == [] && Grouped([]) == []
  {
  }

  lemma CountedPortsAreActive(batch: seq<PacketRef>, counts: Table)
    requires CountsBuckets(batch, counts)
    ensures ZeroOutside(Ports(batch), counts)
  {
    PortsAreActive(batch);
  }

  lemma EmptyBatch(counts: Table)
    requires ZeroOutside([], counts)
    ensures CountsBuckets([], counts) && Ports([]) == [] && Grouped([]) == []
  {
  }

  lemma PrefixSlice<T>(a: seq<T>, b: seq<T>, whole: seq<T>)
    requires a + b <= whole
    ensures whole[|a|..|a| + |b|] == b
  {
    assert whole[..|a + b|] == a + b;
  }

  /** In the grouped batch, the slice of the j-th active port is its bucket. */
  lemma GroupedSliceAt(batch: seq<PacketRef>, port: u16, j: nat)
    requires j < |Ports(batch)| && Ports(batch)[j] == port
    ensures Start(batch, j) + |Bucket(batch, port)| <= |batch| == |Grouped(batch)|
    ensures Grouped(batch)[Start(batch, j)..Start(batch, j) + |Bucket(batch, port)|] == Bucket(batch, port)
  {
    GroupedIsPermutation(batch);
    assert Ports(batch)[..|Ports(batch)|] == Ports(batch);
    hide Ports, Concat, Bucket;
    StartNext(batch, j);
    ConcatPrefix(batch, j + 1, |Ports(batch)|);
    PrefixSlice(Concat(batch, Ports(batch)[..j]), Bucket(batch, port), Grouped(batch));
  }

  /** The recorded start and count of a port delimit its bucket in the grouped batch. */
  lemma GroupedSlice(batch: seq<PacketRef>, counts: Table, starts: Table, port: u16, start: nat, count: nat)
    requires port in Ports(batch) && CountsBuckets(batch, counts) && StartsAt(batch, starts, |Ports(batch)|)
    requires start == starts[port] && count == counts[port]
    ensures start + count <= |batch| == |Grouped(batch)|
    ensures Grouped(batch)[start..start + count] == Bucket(batch, port)
  {
    hide Ports, Concat, Bucket, Grouped, Start;
    var j :| 0 <= j < |Ports(batch)| && Ports(batch)[j] == port;
    assert start == Start(batch, j) && count == |Bucket(batch, port)|;
    GroupedSliceAt(batch, port, j);
  }
}
