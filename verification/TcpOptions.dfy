/** TCP options: section 3.2 of RFC 9293, section 3 of RFC 2018 and section 3.2 of RFC 7323. */
module TcpOptions {
  import opened Prelude

  datatype Block = Block(left: u32, right: u32)
  datatype Stamp = Stamp(val: u32, echo: u32)

  datatype Options = Options(
    mss: Option<u16>,
    windowScale: Option<u8>,
    sackPermitted: bool,
    sackBlocks: seq<Block>,
    timestamp: Option<Stamp>)

  const NO_OPTIONS := Options(None, None, false, [], None)

  /** The complete eight-byte blocks between `from` and `to`. */
  function BlocksIn(data: Bytes, from: nat, to: nat): seq<Block>
    requires from <= to <= |data|
    decreases |data| - from
  {
    if from + 8 > to then []
    else [Block(Be32(data, from), Be32(data, from + 4))] + BlocksIn(data, from + 8, to)
  }

  /** What the option at `off` contributes, before its length byte is looked at for advancing. */
  function Record(data: Bytes, off: nat, opts: Options): Options
    requires off < |data|
  {
    var left, kind := |data| - off, data[off];
    if kind == 2 && left >= 4 then opts.(mss := Some(Be16(data, off + 2)))
    else if kind == 3 && left >= 3 then opts.(windowScale := Some(data[off + 2]))
    else if kind == 4 then opts.(sackPermitted := true)
    else if kind == 5 && left >= 2 && 2 <= data[off + 1] <= left then
      opts.(sackBlocks := opts.sackBlocks + BlocksIn(data, off + 2, off + data[off + 1]))
    else if kind == 8 && left >= 10 then opts.(timestamp := Some(Stamp(Be32(data, off + 2), Be32(data, off + 6))))
    else opts
  }

  predicate Advances(data: Bytes, off: nat)
    requires off < |data|
  {
    off + 2 <= |data| && 2 <= data[off + 1] <= |data| - off
  }

  function Parse(data: Bytes, off: nat, opts: Options): Options
    requires off <= |data|
    decreases |data| - off
  {
    if off == |data| || data[off] == 0 then opts
    else if data[off] == 1 then Parse(data, off + 1, opts)
    else if Advances(data, off) then Parse(data, off + data[off + 1], Record(data, off, opts))
    else Record(data, off, opts)
  }

  /** The blocks of one selective-acknowledgement option. */
  method ParseBlocks(data: Bytes, from: nat, to: nat) returns (blocks: seq<Block>)
    requires from <= to <= |data|
    ensures blocks == BlocksIn(data, from, to)
  {
    blocks := [];
    var i := from;
    NothingMore(BlocksIn(data, from, to));
    while i + 8 <= to
      invariant from <= i <= to
      invariant blocks + BlocksIn(data, i, to) == BlocksIn(data, from, to)
    {
      var block := Block(Be32(data, i), Be32(data, i + 4));
      AppendThenRest(blocks, block, BlocksIn(data, i + 8, to));
      blocks := blocks + [block];
      i := i + 8;
    }
    NothingMore(blocks);
  }

  method ParseTcpOptions(data: Bytes) returns (opts: Options)
    ensures opts == Parse(data, 0, NO_OPTIONS)
  {
    opts := NO_OPTIONS;
    var off: nat := 0;
    while off < |data|
      invariant off <= |data|
      invariant Parse(data, off, opts) == Parse(data, 0, NO_OPTIONS)
    {
      var kind, left := data[off], |data| - off;
      if kind == 0 {
        break;
      }
      if kind == 1 {
        off := off + 1;
        continue;
      }
      ghost var before := opts;
      match kind {
        case 2 =>
          if left >= 4 {
            opts := opts.(mss := Some(Be16(data, off + 2)));
          }
        case 3 =>
          if left >= 3 {
            opts := opts.(windowScale := Some(data[off + 2]));
          }
        case 4 =>
          opts := opts.(sackPermitted := true);
        case 5 =>
          if left >= 2 {
            var len: nat := data[off + 1];
            if len >= 2 && left >= len {
              var blocks := ParseBlocks(data, off + 2, off + len);
              opts := opts.(sackBlocks := opts.sackBlocks + blocks);
            }
          }
        case 8 =>
          if left >= 10 {
            opts := opts.(timestamp := Some(Stamp(Be32(data, off + 2), Be32(data, off + 6))));
          }
        case _ =>
      }
      assert opts == Record(data, off, before);
      if left < 2 {
        return;
      }
      var len: nat := data[off + 1];
      if len < 2 || len > left {
        return;
      }
      off := off + len;
    }
  }

  /** An option whose length byte is missing, below two or past the end is the last that is looked at. */
  lemma BadLengthEndsList(data: Bytes, off: nat, opts: Options)
    requires off < |data| && data[off] > 1
    requires off + 1 == |data| || data[off + 1] < 2 || data[off + 1] > |data| - off
    ensures Parse(data, off, opts) == Record(data, off, opts)
  {
    hide Record;
  }

  // At most four blocks

  /** Blocks cost eight bytes each and two more for the first option. */
  predicate Affordable(blocks: nat, consumed: nat) {
    blocks == 0 || 8 * blocks + 2 <= consumed
  }

  lemma {:induction false} BlocksInSize(data: Bytes, from: nat, to: nat)
    requires from <= to <= |data|
    ensures 8 * |BlocksIn(data, from, to)| <= to - from
    decreases |data| - from
  {
    if from + 8 <= to {
      BlocksInSize(data, from + 8, to);
    }
  }

  lemma {:induction false} BlocksAreAffordable(data: Bytes, off: nat, opts: Options)
    requires off <= |data| && Affordable(|opts.sackBlocks|, off)
    ensures Affordable(|Parse(data, off, opts).sackBlocks|, |data|)
    decreases |data| - off
  {
    if off < |data| && data[off] != 0 {
      if data[off] == 1 {
        BlocksAreAffordable(data, off + 1, opts);
      } else {
        if data[off] == 5 && Advances(data, off) {
          BlocksInSize(data, off + 2, off + data[off + 1]);
        }
        if Advances(data, off) {
          BlocksAreAffordable(data, off + data[off + 1], Record(data, off, opts));
        }
      }
    }
  }

  /** A TCP header has at most forty option bytes, hence at most four blocks are reported. */
  lemma AtMostFourBlocks(data: Bytes)
    requires |data| <= 40
    ensures |Parse(data, 0, NO_OPTIONS).sackBlocks| <= 4
  {
    BlocksAreAffordable(data, 0, NO_OPTIONS);
  }

  // Encoding

  datatype Opt =
    | Nop
    | Mss(mss: u16)
    | WindowScale(shift: u8)
    | SackPermitted
    | Sack(blocks: seq<Block>)
    | Timestamp(stamp: Stamp)
    | Unknown(kind: u8, body: Bytes)

  predicate WellFormed(o: Opt) {
    match o
    case Sack(blocks) => |blocks| <= 31
    case Unknown(kind, body) => kind > 5 && kind != 8 && |body| <= 253
    case _ => true
  }

  function BlockBytes(blocks: seq<Block>): (r: Bytes)
    ensures |r| == 8 * |blocks|
  {
    if blocks == [] then [] else Bytes32(blocks[0].left) + Bytes32(blocks[0].right) + BlockBytes(blocks[1..])
  }

  function Body(o: Opt): Bytes
    requires !o.Nop?
  {
    match o
    case Mss(v) => Bytes16(v)
    case WindowScale(v) => [v]
    case SackPermitted => []
    case Sack(blocks) => BlockBytes(blocks)
    case Timestamp(s) => Bytes32(s.val) + Bytes32(s.echo)
    case Unknown(_, body) => body
  }

  function Kind(o: Opt): u8 {
    match o
    case Nop => 1
    case Mss(_) => 2
    case WindowScale(_) => 3
    case SackPermitted => 4
    case Sack(_) => 5
    case Timestamp(_) => 8
    case Unknown(kind, _) => kind
  }

  function Encode(o: Opt): Bytes
    requires WellFormed(o)
  {
    if o.Nop? then [1]
    else
      var length: u8 := |Body(o)| + 2;
      [Kind(o), length] + Body(o)
  }

  predicate AllWellFormed(os: seq<Opt>) {
    forall i :: 0 <= i < |os| ==> WellFormed(os[i])
  }

  function EncodeAll(os: seq<Opt>): Bytes
    requires AllWellFormed(os)
  {
    if os == [] then [] else Encode(os[0]) + EncodeAll(os[1..])
  }

  /** What an option means: later values replace earlier ones, blocks accumulate. */
  function Apply(opts: Options, o: Opt): Options {
    match o
    case Mss(v) => opts.(mss := Some(v))
    case WindowScale(v) => opts.(windowScale := Some(v))
    case SackPermitted => opts.(sackPermitted := true)
    case Sack(blocks) => opts.(sackBlocks := opts.sackBlocks + blocks)
    case Timestamp(s) => opts.(timestamp := Some(s))
    case _ => opts
  }

  function ApplyAll(opts: Options, os: seq<Opt>): Options
    decreases |os|
  {
    if os == [] then opts else ApplyAll(Apply(opts, os[0]), os[1..])
  }

  lemma {:induction false} BlocksAtBytes(data: Bytes, at: nat, blocks: seq<Block>)
    requires At(data, at, BlockBytes(blocks))
    ensures BlocksIn(data, at, at + 8 * |blocks|) == blocks
    decreases |blocks|
  {
    if blocks == [] {
    } else {
      var l, r, more := Bytes32(blocks[0].left), Bytes32(blocks[0].right), BlockBytes(blocks[1..]);
      AtAppend(data, at, l + r, more);
      AtAppend(data, at, l, r);
      Be32Encoded(data, at, blocks[0].left);
      Be32Encoded(data, at + 4, blocks[0].right);
      BlocksAtBytes(data, at + 8, blocks[1..]);
    }
  }

  /** The kind and length bytes of an encoded option. */
  lemma OptionHeader(data: Bytes, at: nat, o: Opt)
    requires WellFormed(o) && !o.Nop? && At(data, at, Encode(o))
    ensures at + |Encode(o)| <= |data| && |Encode(o)| == |Body(o)| + 2
    ensures data[at] == Kind(o) && data[at + 1] == |Encode(o)| && At(data, at + 2, Body(o))
  {
    var length: u8 := |Body(o)| + 2;
    AtIndex(data, at, Encode(o), 0);
    AtIndex(data, at, Encode(o), 1);
    AtAppend(data, at, [Kind(o), length], Body(o));
  }

  /** An encoded option is read back as itself, and the walk moves past exactly its bytes. */
  lemma OneOption(data: Bytes, at: nat, o: Opt, opts: Options)
    requires WellFormed(o) && !o.Nop? && At(data, at, Encode(o))
    ensures at < |data| && data[at] == Kind(o) > 1 && Advances(data, at) && data[at + 1] == |Encode(o)|
    ensures Record(data, at, opts) == Apply(opts, o)
  {
    hide At, Encode, BlockBytes, Bytes16, Bytes32, BlocksIn, Be16, Be32;
    OptionHeader(data, at, o);
    match o
    case Mss(v) => Be16Encoded(data, at + 2, v);
    case WindowScale(v) => AtIndex(data, at + 2, [v], 0);
    case Sack(blocks) => BlocksAtBytes(data, at + 2, blocks);
    case Timestamp(s) =>
      AtAppend(data, at + 2, Bytes32(s.val), Bytes32(s.echo));
      Be32Encoded(data, at + 2, s.val);
      Be32Encoded(data, at + 6, s.echo);
    case _ =>
  }

  lemma NopMeansNothing(opts: Options)
    ensures Apply(opts, Nop) == opts
  {
  }

  /** The encoded list lies at `at`, up to the end of the header or an end-of-list byte. */
  predicate ListLies(data: Bytes, at: nat, os: seq<Opt>) {
    && AllWellFormed(os) && At(data, at, EncodeAll(os))
    && (at + |EncodeAll(os)| == |data| || data[at + |EncodeAll(os)|] == 0)
  }

  lemma NoOptionsLeft(data: Bytes, at: nat, opts: Options)
    requires ListLies(data, at, [])
    ensures Parse(data, at, opts) == ApplyAll(opts, [])
  {
  }

  /** One option, then the rest, on the wire and in meaning. */
  lemma OptionThenRest(data: Bytes, at: nat, os: seq<Opt>, opts: Options) returns (next: nat)
    requires os != [] && ListLies(data, at, os)
    ensures ListLies(data, next, os[1..])
    ensures Parse(data, at, opts) == Parse(data, next, Apply(opts, os[0]))
    ensures ApplyAll(opts, os) == ApplyAll(Apply(opts, os[0]), os[1..])
  {
    hide At, Record, Apply, Body;
    var o := os[0];
    next := at + |Encode(o)|;
    AtAppend(data, at, Encode(o), EncodeAll(os[1..]));
    if o.Nop? {
      NopMeansNothing(opts);
      AtIndex(data, at, [1], 0);
    } else {
      OneOption(data, at, o, opts);
    }
  }

  /** Round trip: an encoded list gives back its meaning. */
  lemma {:induction false} ParseUndoesEncoding(data: Bytes, at: nat, os: seq<Opt>, opts: Options)
    requires ListLies(data, at, os)
    ensures Parse(data, at, opts) == ApplyAll(opts, os)
    decreases |os|
  {
    hide *;
    if os == [] {
      NoOptionsLeft(data, at, opts);
    } else {
      var next := OptionThenRest(data, at, os, opts);
      ParseUndoesEncoding(data, next, os[1..], Apply(opts, os[0]));
    }
  }
}
