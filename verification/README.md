# A verified model of the network sensor's deterministic core

The sensor captures blocks of packets, groups each block by port with a counting sort, feeds the packets to a
stateful rule engine, and in parallel keeps a bounded table of per-flow ring buffers. Its decoders turn raw frames
into the fields these parts read. Each part is a fast or bounded structure; this project models them as the source
builds them and proves them equal to simple unbounded specifications.

`dafny verify dfyconfig.toml` checks everything (Dafny 4.11).

| module | what it models |
|---|---|
| `Prelude` | fixed-width integers, byte order, places in a byte sequence |
| `LocalitySpec`, `Locality` | the counting-sort buffer of `src/locality.rs`, as a class over its six arrays |
| `FlowSpec`, `FlowTable` | the flow table of `src/flow_table.rs`: ring buffer and shared table as classes, runs as interleavings of locked steps |
| `Packets`, `Rules` | what the engine reads of a packet, and rule matching |
| `EngineSpec`, `Engine` | the detection engine: a state machine, and the class that updates its tables in place, proved to take exactly its steps |
| `Windows` | subsequences of timestamps, and how many fit an interval when no shorter window holds too many |
| `Pruning` | equality with a reference engine that logs everything and prunes nothing |
| `SingleRules`, `PruningLimits`, `RuleSets` | exactly which limits keep that equality, for one rule and for any set of rules with distinct identifiers |
| `Lockstep`, `Domination` | invariants behind it: trackers and log in step, and trackers inside the log |
| `LateRuns`, `ShortRuns` | the runs on which all other limits break it |
| `MemoryBound`, `Alerting`, `FlowStateRules`, `Staleness`, `Connections`, `Survival` | what every run of the engine keeps, and exactly who is in its tables |
| `RuleFields` | what each field of a rule asks of a packet's fields, and what an alert says of the packet behind it |
| `Capture` | the batch loop of `src/main.rs`, joining the buffer and the engine |
| `Regrouping`, `PortSplits` | what grouping by port does to alerts |
| `DnsName`, `DnsMessage`, `Ipv6Chain`, `TcpOptions`, `Radiotap` | the loop-heavy decoders of `src/parser.rs` |
| `RadiotapCodec` | radiotap headers as drivers write them, read back |
| `Frames`, `FlowKeys` | the Ethernet path of the full parser, and the lightweight flow-key parser |
| `SegmentCodec`, `FrameCodec` | segments, datagrams and frames as the standards lay them out, read back |
| `FrameEffects` | from the bytes of a frame to rule matching and the connection table |

Conventions:

- Engine timestamps are reals (seconds), flow-table timestamps are integers (nanoseconds). Claims about clocks state
  what they need: none, never decreasing (`Monotone`), or at most `d` out of order (`DisorderAtMost`). The batch loop
  replays a block grouped by port with its original timestamps, so the second does not hold in general.
- Addresses are values; the engine compares their printed forms, which are distinct for distinct addresses and never
  coincide between IPv4, IPv6 and MAC forms. Rule texts are read into enumerations; unknown texts become the case the
  source treats them as.
- A hash map is a `map`; where the source iterates over one, the model visits the keys in an arbitrary order.
- Slices of a packet are byte sequences or index ranges into one; bit masks are written as division and remainder.
- The trackers are keyed by rule identifier, so claims about an identifier speak of all rules that carry it; only
  `RuleSets` and `Regrouping` ask for distinct ones, and say so.

Where the code and its documentation differ, the model follows the code:

- `src/engine.rs:26` and `docs/AUTOMOTIVE_NIDS_TECHNICAL_SPECIFICATION.md:262` say that a data packet with ACK
  establishes a connection. It only refreshes the time; `Connections.TableReflectsLastControl` states what decides.
- `src/engine.rs:560-566` speaks of re-arming the connection tracker; both trackers are emptied.
- Section 4.5 of RFC 8200 gives the fragment header a fixed length of eight octets and reserves its second byte.
  `src/parser.rs:1430-1453` reads that byte as a length, as for the other extension headers
  (`Ipv6Chain.WalkIsStandardIff` says when that matters, `Frames.ReservedByteMisread` is a datagram that the parser
  accepts and whose ports it takes from eight bytes too far).

Results that are findings about the source:

- A rule for established flows never counts a connection, so the count and interval of its `max_conn_rate` have no
  effect; only the choice of address it is kept by has (`FlowStateRules.EstablishedLimitsAreInert`).
- A limit of n >= 2 connections over an interval longer than sixty seconds, less the clock disorder, misses alerts,
  unless the rule counts nothing or a per-second limit m always trips first: m at most one, or n above m - 1 times the
  interval rounded up to whole seconds. A limit of one over a positive interval never misses any. A limit of zero is
  safe when every matching packet is counted, or m is at most one, and otherwise not
  (`PruningLimits.PruningInvisibleIff`; `PruningLimits.EveryCaseOccurs` shows that each side is met).
- On a clock more than 59 seconds out of order the one-second window is cut short as well. A per-second limit of
  m >= 2 on a rule that matches anything then keeps its reports only beside a connection limit that is always met
  first: every match counted, and n zero, n one over a positive interval, or n - 1 packets per interval too few to
  make m in the disorder and a second (`PruningLimits.BothSidesBeyond` has both sides, one packet apart).
- Rules with distinct identifiers do not affect each other, so a sensor is safe if and only if each of its rules is
  (`RuleSets.PruningInvisibleForAllIff`).
- For every connection limit of two or more over a positive interval, grouping by port can cost an alert when a key's
  packets use two ports (`PortSplits.GroupingCostsAnAlert`; `PortSplits.SplitOccurs` has the Ethernet frames). With
  one port per block it cannot (`Regrouping.GroupingKeepsPairAlerts`).
- The flow-key parser takes a frame of any type but 0x0800 for a bare datagram when its destination address starts
  with nibble 4, and does not look behind VLAN tags (`FlowKeys.MisreadsArpFrame`, `FlowKeys.MissesTaggedFrame`;
  `FlowKeys.ParsersAgreeIff` is the exact condition on all frames).
- A DNS name of exactly 128 labels without a pointer is decoded with all its labels but an end one byte short
  (`DnsName.NameOf128EndsShort`, `DnsName.ShortEndOccurs` for a name of 257 bytes; `DnsName.DecodesExactly` is the
  exact condition).

## Model

| member | source | states |
|---|---|---|
| Pruning.PruningIsInvisible | src/engine.rs:315-347 | over every run of clock disorder at most d, with windows of at most 60 - d seconds and zero limits only where every match is counted, the alerts are those of an engine that keeps every match since the last alert and never prunes |
| PruningLimits.PruningInvisibleIff | src/engine.rs:502-568 | for every sensor with one rule, whatever its connection limit (n per interval, or none), per-second limit (m, or none) and clock disorder d, that equality holds on all runs if and only if m is at most 1, or: without m or with d at most 59, there is no connection limit, or n is 0 and only counted packets match, or n is at least 1 and the interval is at most 60 - d, the rule counts nothing, n is 1 over a positive interval, or n exceeds m - 1 per second begun of the interval; with m and a larger d, nothing matches, or only counted packets match and n is 0, n is 1 over a positive interval, or the interval is positive, at most 60 - d, and m exceeds n - 1 per interval begun of 1 + d seconds by two or more |
| RuleSets.PruningInvisibleForAllIff | src/engine.rs:468-595 | for every sensor whose rules have distinct identifiers, it holds if and only if every rule meets that condition |
| RuleSets.MineIsAlone | src/engine.rs:468-587 | over every run, each rule of such a set raises the alerts it would raise alone, in the engine and in the reference |
| PruningLimits.BothSidesBeyond | src/engine.rs:502-568 | at 59.5 seconds of disorder, with two connections per half second for new flows, pruning shows at 122 packets per second and not at 123 |
| LateRuns.LateRunDiffers | src/engine.rs:315-347 | a run on which the engine is silent and the reference alerts: counted packets paced below m per second, another key's packet a minute after the first, and one late counted packet |
| ShortRuns.AtOnceDiffers | src/engine.rs:502-568 | another such run, and one on which the per-second limit shows it: packets all at once, another key's packet a minute later, and one more packet within a second or an interval of the first |
| ShortRuns.SpreadRunDiffers | src/engine.rs:502-568 | a run on which the reports differ: counted packets sent n - 1 at a time over a minute or more, and a late one that makes the per-second limit with the first, which the engine has dropped |
| Domination.SilentRun | src/engine.rs:468-568 | on every run the reference engine passes in silence, so does the engine, its trackers subsequences of the log |
| Windows.SparseCapacity | src/engine.rs:505-541 | however disordered the clock, stamps that never met a limit of m per window number at most m - 1 per window begun of any interval |
| PruningLimits.ZeroLimitShows | src/engine.rs:523-541 | a zero limit is not compared for an absent entry, so a match that is not counted tells the engines apart, whatever the disorder |
| PruningLimits.EveryCaseOccurs | src/engine.rs:735-975 | for any limits there is a rule that counts some but not all of its matches, and one that counts them all, so each side of the boundary is met |
| Pruning.RuleAgrees | src/engine.rs:468-587 | one rule evaluation reaches the same verdict on trackers as on the log and keeps them in agreement |
| MemoryBound.TrackerIsBounded | src/engine.rs:544-568 | with a non-decreasing clock and a limit of m packets per second, no tracker of that rule ever holds more than 60(m - 1) timestamps |
| MemoryBound.InsertKeepsSpacing | src/engine.rs:505-520 | an insertion that does not alert keeps stamps m - 1 places apart at least a second apart |
| MemoryBound.NoEmptyPacketEntries | src/engine.rs:332-338 | on every run the packet tracker has no entry without timestamps |
| MemoryBound.CleanupDropsEmptyEntries | src/engine.rs:332-346 | a cleanup leaves neither tracker one |
| Alerting.AlertsTimesThreshold | src/engine.rs:505-568 | alerts for a rule and key, times the smallest threshold, never exceed its matching packets |
| Alerting.AlertsArePaidFor | src/engine.rs:474-500 | the same with the packets still counted on top, and the connection tracker is always a subsequence of the packet tracker |
| Alerting.SequenceNumbersAreConsecutive | src/engine.rs:589-608 | the j-th message of a whole run has sequence number j |
| FlowStateRules.EstablishedRulesNeverCountConnections | src/engine.rs:484-541 | a rule for established flows never has a connection-tracker entry, and without a per-second limit never alerts |
| FlowStateRules.EstablishedLimitsAreInert | src/engine.rs:523-541 | changing the count or interval of such a rule's limit leaves every state and alert of every run as it was |
| FlowStateRules.EstablishedRuleStep | src/engine.rs:505-520 | such a rule alerts only when its per-second count is reached |
| FlowStateRules.NewRulesCountEveryMatch | src/engine.rs:474-500 | for a rule for new flows both trackers hold the same timestamps in every reachable state |
| FlowStateRules.NewExcludesEstablished | src/engine.rs:823-853 | no packet matches both a new and an established rule, as the table is updated before matching |
| Staleness.NothingIsStale | src/engine.rs:315-362 | with a non-decreasing clock, after every packet all connections, clients and access points were seen less than 305 s ago and all stamps are under 65 s old |
| Staleness.ClosingIsShort | src/engine.rs:349-354 | every closing connection entered that state less than 5 s ago |
| Survival.ConnectionPresentIff | src/engine.rs:315-362 | over every run and on any clock, a connection is in the table if and only if a SYN or SYN-ACK entered it and every cleanup since, at least 5 s after the one before, found its last controlling packet no teardown and its last refresh less than 300 s old |
| Survival.ClientsReflectSent | src/engine.rs:411-427 | over every run, the table holds exactly the senders with packets since a cleanup last found them silent for 300 s, each with the time and signal of its last packet and its last IP address |
| Survival.AccessPointsReflectBeacons | src/engine.rs:376-409 | likewise for beacons: the name of the first since then, their number, and everything else of the last |
| Connections.TableReflectsLastControl | src/engine.rs:429-461 | over whole runs with cleanups, an entry's state is decided by its last SYN, SYN-ACK or teardown, and its time by its last refreshing packet |
| Connections.SameTouchingSameTable | src/engine.rs:431-461 | two packet orders that agree on every connection leave the same table |
| Capture.GroupingPreservesConnections | src/main.rs:208-254 | without a cleanup tick, a batch grouped by port leaves the connection table of capture order |
| Capture.GroupingKeepsConnections | src/main.rs:212-220 | the port key puts all packets of a connection into one bucket, in arrival order |
| Capture.ProcessBlock | src/main.rs:204-257 | one block: the engine's state and alerts are those of the run over the first 4096 packets grouped by port, and its connection table that of capture order |
| Capture.RunCapture | src/main.rs:204-257 | over any sequence of blocks the engine's state and alerts are those of the run over all batches, each grouped by port |
| Capture.CaptureDisorder | src/main.rs:234-249 | when blocks follow one another in time and each spans at most d, grouping leaves the engine's clock at most d out of order |
| Capture.CaptureAlertsAsReference | src/main.rs:204-257 | hence, with windows of at most 60 - d seconds, the capture loop raises the alerts of the engine that never prunes |
| Regrouping.GroupingKeepsPairAlerts | src/main.rs:204-257 | a key whose packets share a port in each block gets the same alerts of a rule, in order and with the same rates, as in order of arrival; a rule for established flows does if cleanups fall due only at first packets of blocks |
| Regrouping.PairAlone | src/engine.rs:468-587 | in the reference engine a pair's alerts are a function of the packets that hit it alone |
| PortSplits.GroupingCostsAnAlert | src/main.rs:212-257 | for every limit of two or more connections over a positive interval, packets of one key on two ports make a batch with two alerts in order of arrival and one grouped by port |
| PortSplits.PortsMatter | src/main.rs:204-257 | for limits of at most 2048 that batch is a block of captured packets, with the same two and one alerts |
| PortSplits.SplitOccurs | src/main.rs:212-220 | Ethernet frames that make such a batch, for every such limit and interval |
| Capture.FillBatch | src/main.rs:206-231 | the batch holds the first 4096 packets of the block in arrival order |
| Capture.AcceptedAre | src/main.rs:206-231 | a batch holds the first 4096 packets of its block with their bytes and times |
| Capture.TimesAreNanoseconds | src/main.rs:246-247 | packets are as far apart on the engine's clock as their seconds and nanoseconds say |
| Capture.SmallerPort | src/main.rs:210-220 | the bucket of a TCP or UDP packet is its smaller port, of any other packet zero |
| Engine.DetectionEngine.ProcessPacket | src/engine.rs:366-595 | the in-place update and the messages are exactly one step of the state machine |
| Engine.DetectionEngine.ExpireStates | src/engine.rs:315-362 | the cleanup at most every five seconds, as the function whose survivors over whole runs `Survival.ConnectionPresentIff` and its companions determine from the packets |
| Engine.DetectionEngine.EvaluateRule | src/engine.rs:470-586 | counting, deciding, pruning and re-arming one rule |
| Engine.DetectionEngine.UpdateConnTable | src/engine.rs:429-461 | the table after one packet |
| Engine.PruneTracker | src/engine.rs:332-338 | all keys of all rules are pruned and empty ones removed, whatever the iteration order |
| EngineSpec.EvalRuleCell | src/engine.rs:468-568 | a rule evaluation touches one (rule, key) pair: extended, then emptied by an alert or else pruned |
| Rules.MatchesRule | src/engine.rs:735-975 | the early-return chain decides the conjunction that `RuleFields` takes apart field by field |
| Rules.ScanProtocols | src/engine.rs:883-947 | the protocol loop succeeds exactly when some listed protocol matches |
| RuleFields.MatchesInEveryRespect | src/engine.rs:735-975 | a rule matches a packet if and only if each of the rules that keep one of its respects (interface, direction, addresses, flow state, kind, ports) and ask nothing else does |
| RuleFields.DirectionIff | src/engine.rs:752-772 | ingress takes exactly packets whose IPv4, IPv6 or ARP target address is the sensor's, egress those whose source or sender is, and neither takes a packet without a network |
| RuleFields.AddressesIff | src/engine.rs:774-820 | version and both addresses of IP packets, both addresses of ARP, and wildcards only without a network |
| RuleFields.FlowStateIff | src/engine.rs:822-853 | new takes segments with the flag of weight 2 and without that of weight 16, established those whose key the table has as established |
| RuleFields.KindIff | src/engine.rs:855-951 | the class or a listed protocol names the packet's kind, by its layers or by TCP ports 80, 8080, 8081, 443, 22, 3389, 445, 20 and 21 at either end |
| RuleFields.PortsIff | src/engine.rs:953-988 | each side's port is the one asked for, or any, and packets without ports pass |
| RuleFields.ScopeIff | src/engine.rs:742-750 | an interface of the rule is the sensor's or any |
| RuleFields.AlertsHaveCause | src/engine.rs:470-586 | every alert of every run names the source of a packet that matched its rule, or its destination if the connection limit counts by destination, with a count, modulo 2^32, that meets a limit |
| RuleFields.IngressAlert | src/engine.rs:752-853 | an alert of an ingress rule for new flows means that a bare SYN for one of the sensor's addresses was seen |
| Locality.LocalityBuffer.Clear | src/locality.rs:68-78 | clearing only the active ports leaves all three 65536-entry tables zero, in every reachable state |
| Locality.LocalityBuffer.AddPacket | src/locality.rs:82-117 | appends one packet or refuses it at 4096; counts never wrap and no active port is skipped |
| Locality.LocalityBuffer.GroupPackets | src/locality.rs:121-147 | the sorted half becomes the batch grouped by port; the slot guard never fails and the 16-bit sum never wraps |
| Locality.LocalityBuffer.GetBucketSlice | src/locality.rs:152-162 | after grouping, exactly the packets of the port in arrival order, and nothing for an inactive port |
| LocalitySpec.GroupedIsPermutation | src/locality.rs:121-147 | grouping permutes the batch |
| LocalitySpec.PortsAreActive | src/locality.rs:105-112 | active ports are distinct, at most as many as packets, and exactly those with a packet |
| LocalitySpec.FillNext | src/locality.rs:136-146 | the next packet has a free slot in its own slice, and writing it there disturbs no other slice |
| FlowTable.FlowState.AddPacket | src/flow_table.rs:53-90 | the burst flag compares with the hundredth packet before, through any wraparound, and the snapshot is exactly those hundred |
| FlowTable.FlowState.GetOrderedPackets | src/flow_table.rs:93-114 | the last hundred packets, or all if fewer, in arrival order |
| FlowTable.SharedState.ProcessPacket | src/flow_table.rs:132-166 | one locked packet step: evicts at most one least recent flow, admits the key, and judges this flow's packets only |
| FlowTable.SharedState.FindLeastRecent | src/flow_table.rs:138-154 | the scan finds a flow with the least last-seen time in any iteration order, and none only on an empty table |
| FlowTable.SharedState.CleanupInactiveFlows | src/flow_table.rs:169-183 | removes the flows that `FlowSpec.CleanupKeepsIff` says, and counts them |
| FlowSpec.CleanupKeepsIff | src/flow_table.rs:169-183 | over any run, a cleanup keeps a present flow if and only if its last arrival is at most 60,000,000,000 ns before it |
| FlowSpec.LeavesOnlyIf | src/flow_table.rs:132-183 | a flow leaves only as the least recently used of a full table at another key's arrival, or idle for longer than that at a cleanup |
| FlowSpec.PresentIff | src/flow_table.rs:132-183 | while the table has room, it holds exactly the flows with an arrival since which every cleanup found them used within that time |
| FlowSpec.HistorySinceAdmission | src/flow_table.rs:132-166 | over any interleaving, a present flow holds exactly its own packets since its latest admission |
| FlowSpec.BurstSinceAdmission | src/flow_table.rs:74-80 | over any interleaving, the flag for packet i since admission holds iff i is at least 100 and packet i - 100 is less than 60,000,000,000 ns older |
| FlowSpec.OutsideIsLessRecent | src/flow_table.rs:135-159 | with non-decreasing packet times, no key outside the table was used more recently than one inside |
| FlowSpec.SizeBound | src/flow_table.rs:136-161 | the table never exceeds the larger of one and its limit |
| FlowSpec.EvictedIsLeastRecent | src/flow_table.rs:141-158 | a packet costs at most one flow its place, only when the table is full, and one seen no later than any other |
| DnsName.DecodesExactly | src/parser.rs:1887-1939 | a well-formed name is decoded to its labels and end if and only if it needs at most 127 steps, or its last label and some pointer are among the first 128 |
| DnsName.NameOf128EndsShort | src/parser.rs:1894-1938 | any encoded name of 128 labels, anywhere in a message, gives back its labels with an end one byte before its own |
| DnsName.ShortEndOccurs | src/parser.rs:1894-1938 | such a name of 128 one-letter labels in 257 bytes, with the end it is given |
| DnsName.NamePresentIffRootReached | src/parser.rs:1894-1936 | a well-formed name of at most 127 steps is present if and only if the walk reaches a root byte within bounds |
| DnsName.DecodedNameIsThere | src/parser.rs:1887-1939 | what is decoded from such a walk is the name that is there |
| DnsName.EndInBounds | src/parser.rs:1897-1932 | on every input a returned end lies between the start and the length |
| DnsName.RoundTrip | src/parser.rs:1919-1933 | decoding an encoded name anywhere in a message gives back its labels and end |
| DnsName.CompressedRoundTrip | src/parser.rs:1904-1918 | labels followed by a pointer to an earlier name decode to both in order |
| DnsName.DecodeName | src/parser.rs:1887-1939 | the loop terminates on every input and computes the decoding |
| DnsMessage.MessageReadsBack | src/parser.rs:1784-1883 | a message in which questions and records lie one after another, each name any reading of at most 127 steps, compressed or not, reports its first question and every answer |
| DnsMessage.MessageRoundTrip | src/parser.rs:1784-1883 | a message encoded with uncompressed names, its header included and whatever follows it, gives back identifier, flags, counts, first question and all answers |
| DnsMessage.ParseDns | src/parser.rs:1784-1883 | the section loops read records up to the first that does not parse |
| Ipv6Chain.WalkConserves | src/parser.rs:1425-1458 | headers in order followed by the payload are exactly the bytes walked over, each header naming the next |
| Ipv6Chain.LinkedHeaders | src/parser.rs:1443-1452 | every header is a positive multiple of eight bytes and its first byte names the next type |
| Ipv6Chain.WalkUndoesEncoding | src/parser.rs:1430-1456 | walking a well-linked chain gives back its headers and upper protocol |
| Ipv6Chain.WalkIsStandardIff | src/parser.rs:1430-1453 | the walk is that of section 4.5 of RFC 8200 if and only if every whole fragment header on it has a zero reserved byte |
| Frames.ReservedByteMisread | src/parser.rs:1392-1476 | an accepted IPv6 datagram whose fragment header has a nonzero reserved byte: the ports reported are 80 and 81, those of the standard walk 53 and 54 |
| Ipv6Chain.StopsAtUpperOrCutShort | src/parser.rs:1438-1455 | the walk ends at an upper protocol, or at an extension header that does not fit |
| Frames.ParsedPacket.ParseIpv6 | src/parser.rs:1392-1476 | headers and payload are conserved, and a chain cut short yields no transport |
| Frames.ParsedPacket.ParseTcp | src/parser.rs:1528-1575 | ports and flags of accepted headers, with at most four selective-acknowledgement blocks |
| Frames.ParsedPacket.ParseIpv4 | src/parser.rs:1324-1386 | addresses and transport of a well-formed header, bounded by the total length |
| Frames.ParsePacket | src/parser.rs:502-577 | the view of a frame on an Ethernet link, through at most two VLAN tags |
| FrameCodec.FrameReadsBack | src/parser.rs:1253-1526 | every frame laid out by the standards, with a service tag, an 802.1Q tag, both or none, over IPv4 with options, IPv6 with any chain of extension headers, ARP, EAPOL or another type, gives back hardware and network addresses, transport, ports and flags, and is not malformed |
| FrameCodec.Ipv4ReadsBack | src/parser.rs:1324-1386 | for any total length and any bytes at hand, addresses are read back and the transport parser gets the bytes up to the smaller end |
| FrameCodec.Ipv6ReadsBack | src/parser.rs:1392-1476 | addresses from bytes 8 to 23 and 24 to 39, and the upper layer behind any headers of kinds 0, 43, 44, 60 and 135 |
| FrameCodec.UpperEndsChain | src/parser.rs:1430-1456 | a protocol outside those five adds no header |
| FrameCodec.Ipv4AcceptedIff | src/parser.rs:1324-1367 | addresses are taken from exactly the encodings of an IPv4 header whose total length covers it |
| FrameCodec.Ipv6AcceptedIff | src/parser.rs:1392-1423 | addresses are taken from exactly the encodings of an IPv6 header |
| FrameCodec.ArpReadsBack | src/parser.rs:1482-1513 | both protocol addresses of a message for Ethernet and IPv4, and no network for another |
| FrameCodec.EapolReadsBack | src/parser.rs:2059-2077 | a packet of type 3 with a body of 97 bytes or more is a key exchange |
| FrameCodec.EapolAcceptedIff | src/parser.rs:2059-2074 | the bytes are accepted if and only if they are an encoded packet, with anything behind it |
| FrameCodec.IcmpAcceptedIff | src/parser.rs:1688-1692 | an ICMP message of either version is accepted if and only if it has type, code and checksum |
| FrameCodec.NoPayloadIsMalformed | src/parser.rs:1253-1307 | fewer than fourteen bytes, or a frame that ends with its type, are malformed and name no network |
| SegmentCodec.SegmentReadsBack | src/parser.rs:1528-1575 | every TCP header laid out by section 3.1 of RFC 9293, with any options, gives back its ports and all nine flags |
| SegmentCodec.FlagBits | src/engine.rs:436-440 | of those flags FIN, SYN, RST and ACK are the ones the engine tests |
| SegmentCodec.SegmentAcceptedIff | src/parser.rs:1528-1550 | bytes are accepted if and only if they are the encoding of a segment |
| SegmentCodec.DatagramAcceptedIff | src/parser.rs:1656-1672 | bytes are accepted if and only if they are the encoding of a UDP datagram, with anything behind it |
| FrameEffects.PacketReadsFrame | src/parser.rs:502-577 | the engine gets a frame's addresses, transport and key-exchange flag |
| FrameEffects.SegmentDecides | src/engine.rs:431-440 | of a frame with a TCP segment, SYN without ACK makes an opening, SYN with ACK an answer, FIN or RST without SYN a teardown, and addresses and ports the connection key |
| FrameEffects.SegmentMovesConnection | src/engine.rs:429-461 | after any run, the bytes of such a frame enter its connection as new, establish it in both directions, close it or refresh it |
| FrameEffects.NewIngressIff | src/engine.rs:752-853 | of all such frames exactly the bare SYNs for a sensor address match an open ingress rule for new flows |
| TcpOptions.ParseUndoesEncoding | src/parser.rs:1577-1654 | parsing an encoded option list gives back the last size, scale and timestamp, the permitted flag and all blocks in order |
| TcpOptions.BadLengthEndsList | src/parser.rs:1577-1654 | an option whose length byte is missing, below two or past the end is the last that is looked at |
| TcpOptions.AtMostFourBlocks | src/parser.rs:1605-1630 | on any forty option bytes at most four blocks are reported |
| TcpOptions.ParseTcpOptions | src/parser.rs:1577-1654 | the loop terminates on every input and records each option |
| Radiotap.ParseRadiotap | src/parser.rs:583-804 | the unrolled walk decodes exactly what a table of alignments and sizes reads |
| Radiotap.ReadsExactlyWhatFits | src/parser.rs:652-786 | a field is read if and only if it is announced and its bytes at their place in the uncut layout lie inside the header |
| Radiotap.NothingAfterACutField | src/parser.rs:619-627 | once an announced field does not fit, no later field is read |
| Radiotap.ParsePresence | src/parser.rs:595-614 | the mask is always the first word, however many are chained |
| RadiotapCodec.TapReadsBack | src/parser.rs:583-804 | every header written with any set of fields, padded to the standard's alignments, and any chain of presence words gives back the values written and nothing else |
| RadiotapCodec.AcceptedIff | src/parser.rs:583-590 | bytes are accepted if and only if they begin with version zero and a length of at least eight that is at hand |
| FlowKeys.FastAgreesWithFull | src/flow_parser.rs:28-81 | on every frame of EtherType 0x0800, whenever the full parser finds IPv4 with TCP or UDP the flow-key parser returns the same key |
| FlowKeys.FullAgreesWithFastIff | src/parser.rs:1360-1386 | conversely a fast key is also the full parser's if and only if the two lengths leave a complete transport header |
| FlowKeys.WhyNoKey | src/flow_parser.rs:42-78 | each error is returned exactly for its cause: under twenty bytes, another version, a header or ports cut short, or another protocol, which is named |
| FlowKeys.WhyNoFrameKey | src/flow_parser.rs:28-41 | a frame fails as the datagram at its start would, or for want of bytes, or of both type 0x0800 and version 4 |
| FlowKeys.ConnectionIsFlow | src/engine.rs:432-435 | the engine's connection key and the flow table's key name the same addresses and ports |
| FlowKeys.ParsersAgreeIff | src/flow_parser.rs:28-81 | on every byte sequence whatever, the parsers give the same key or both none if and only if either both find a datagram, each at its own offset, and the addresses and ports there are equal, or neither does |
| FlowKeys.OtherFramesAgree | src/parser.rs:1253-1322 | off type 0x0800, untagged frames agree exactly when their first bytes do not pass for a datagram, and tagged datagrams are missed unless the destination address starts with nibble 4 |
| FlowKeys.MisreadsArpFrame | src/flow_parser.rs:37-39 | an ARP frame for which the flow-key parser returns a key and the full parser sees no IPv4 |
| FlowKeys.MissesTaggedFrame | src/flow_parser.rs:34-39 | a TCP segment behind an 802.1Q tag that the full parser keys and the flow-key parser refuses |

## Left out

- Capture ring, sockets, logging, alert forwarding, link-type detection and command line: foreign calls; a block is a finite sequence of packets.
- The channel from the capture loop to the flow table: it may drop packets and stamps them with the time of sending.
- Floating-point rounding of timestamps, wall-clock text and message texts.
- Wrap-around of the 64-bit alert counter, which needs more alerts than a sensor can send.
- `sessions` and the client fields that nothing writes; they are only pruned.
- The 802.11 frame parser, information elements and DHCP: `Frames` covers the Ethernet link only, and `Capture` takes the parser as a parameter.
- The choice of DNS or DHCP by port 53, 67 or 68: `DnsMessage` starts from the payload.
- DNS flag bits, ICMP fields, VLAN tag fields, EAPOL key fields and IPv4 option bytes: fields read at fixed offsets.
- GroupingKeepsPairAlerts: says nothing of a rule bound to established flows when a cleanup falls due inside a block, as grouping moves it among the packets.
- PortsMatter: a batch for a limit above 2048 does not fit one block of 4096 packets; `PortSplits.GroupingCostsAnAlert` states it for the batch.
- Rule sets with repeated identifiers: their rules share trackers, so `RuleSets` does not speak of them.
- Labels as text: names are sequences of byte labels, without lossy decoding or joining by dots.
- EndInBounds: names that run off the payload, exceed the step limit or use length bytes 64 to 191 are decoded as the source does, not rejected.
