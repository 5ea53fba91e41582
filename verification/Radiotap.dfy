/** The radiotap header: chained presence words, then fields laid out by alignment and size. */
module Radiotap {
  import opened Prelude

  function Le16(data: Bytes, i: nat): u16
    requires i + 2 <= |data|
  {
    var high: int := data[i + 1];
    high * 0x100 + data[i]
  }

  function Le32(data: Bytes, i: nat): u32
    requires i + 4 <= |data|
  {
    var high: int := Le16(data, i + 2);
    high * 0x1_0000 + Le16(data, i)
  }

  function Le64(data: Bytes, i: nat): nat
    requires i + 8 <= |data|
  {
    var high: int := Le32(data, i + 4);
    high * 0x1_0000_0000 + Le32(data, i)
  }

  function Signed(b: u8): int {
    if b < 0x80 then b else b as int - 0x100
  }

  function Weight(bit: nat): (w: nat)
    ensures w > 0
  {
    if bit == 0 then 1 else 2 * Weight(bit - 1)
  }

  predicate Present(presence: u32, bit: nat) {
    (presence as int / Weight(bit)) % 2 == 1
  }

  // The layout, by table

  const FIELDS := 23

  /** A field's alignment, its size, and how many of its bytes are read (zero if it is only skipped). */
  datatype Field = Field(align: nat, size: nat, read: nat)

  function FieldOf(bit: nat): (f: Field)
    ensures f.align > 0 && f.size > 0 && f.read <= f.size
  {
    match bit
    case 0 => Field(8, 8, 0)  // TSFT
    case 1 => Field(1, 1, 0)  // flags
    case 2 => Field(1, 1, 1)  // rate
    case 3 => Field(2, 4, 4)  // channel
    case 4 => Field(1, 2, 0)  // FHSS
    case 5 => Field(1, 1, 1)  // antenna signal
    case 6 => Field(1, 1, 1)  // antenna noise
    case 7 => Field(2, 2, 0)  // lock quality
    case 8 => Field(2, 2, 0)  // TX attenuation
    case 9 => Field(2, 2, 0)  // TX attenuation in dB
    case 10 => Field(1, 1, 1)  // TX power
    case 11 => Field(1, 1, 1)  // antenna index
    case 12 => Field(1, 1, 0)  // antenna signal in dB
    case 13 => Field(1, 1, 0)  // antenna noise in dB
    case 14 => Field(2, 2, 2)  // RX flags
    case 15 => Field(2, 2, 0)  // TX flags
    case 16 => Field(1, 1, 0)  // RTS retries
    case 17 => Field(1, 1, 0)  // data retries
    case 18 => Field(4, 8, 0)  // extended channel
    case 19 => Field(1, 3, 3)  // MCS
    case 20 => Field(4, 8, 0)  // A-MPDU status
    case 21 => Field(2, 12, 0)  // VHT
    case _ => Field(8, 12, 8)  // timestamp
  }

  function AlignTo(off: nat, align: nat): (r: nat)
    requires align > 0
    ensures r >= off
  {
    (off + align - 1) / align * align
  }

  /** Moves past a field, or to the end of the header if it does not fit. */
  function Skip(off: nat, size: nat, headerLen: nat): nat {
    if off + size <= headerLen then off + size else headerLen
  }

  /** The walk's offset after the first `n` bits of the presence mask. */
  function Layout(presence: u32, headerLen: nat, start: nat, n: nat): nat {
    if n == 0 then start
    else
      var off := Layout(presence, headerLen, start, n - 1);
      if Present(presence, n - 1) then Skip(AlignTo(off, FieldOf(n - 1).align), FieldOf(n - 1).size, headerLen) else off
  }

  /** Where the walk reads a field from, if it reads it. */
  function ReadAt(presence: u32, headerLen: nat, start: nat, bit: nat): Option<nat> {
    var off := AlignTo(Layout(presence, headerLen, start, bit), FieldOf(bit).align);
    if Present(presence, bit) && off + FieldOf(bit).read <= headerLen then Some(off) else None
  }

  lemma LayoutStart(presence: u32, headerLen: nat, start: nat)
    ensures Layout(presence, headerLen, start, 0) == start
  {
  }

  /** One field: where it is read and where the walk goes on, from the offset reached before it. */
  lemma FieldStep(presence: u32, headerLen: nat, start: nat, bit: nat, off: nat)
    requires off == Layout(presence, headerLen, start, bit)
    ensures AlignTo(off, 1) == off
    ensures var f := FieldOf(bit);
            && Layout(presence, headerLen, start, bit + 1)
               == (if Present(presence, bit) then Skip(AlignTo(off, f.align), f.size, headerLen) else off)
            && ReadAt(presence, headerLen, start, bit)
               == (if Present(presence, bit) && AlignTo(off, f.align) + f.read <= headerLen
                   then Some(AlignTo(off, f.align)) else None)
  {
  }

  /** Where each field lies when nothing is cut short. */
  function Ideal(presence: u32, start: nat, n: nat): nat {
    if n == 0 then start
    else
      var off := Ideal(presence, start, n - 1);
      if Present(presence, n - 1) then AlignTo(off, FieldOf(n - 1).align) + FieldOf(n - 1).size else off
  }

  /** The walk follows the ideal layout and sticks to the end of the header once that runs past it. */
  lemma {:induction false} LayoutIsCapped(presence: u32, headerLen: nat, start: nat, n: nat)
    requires start <= headerLen
    ensures Layout(presence, headerLen, start, n) == Min(Ideal(presence, start, n), headerLen)
    decreases n, headerLen
  {
    if n == 0 {
    } else {
      LayoutIsCapped(presence, headerLen, start, n - 1);
      var align := FieldOf(n - 1).align;
      var off := Layout(presence, headerLen, start, n - 1);
      assert AlignTo(off, align) >= off;
    }
  }

  /**
    A field that is read at all is read exactly when it is announced and its bytes lie inside the header
    at their place in the ideal layout; it is read from that place, and no read passes the header.
   */
  lemma ReadsExactlyWhatFits(presence: u32, headerLen: nat, start: nat, bit: nat)
    requires start <= headerLen && bit < FIELDS && FieldOf(bit).read > 0
    ensures var place := AlignTo(Ideal(presence, start, bit), FieldOf(bit).align);
            ReadAt(presence, headerLen, start, bit)
            == if Present(presence, bit) && place + FieldOf(bit).read <= headerLen then Some(place) else None
  {
    LayoutIsCapped(presence, headerLen, start, bit);
  }

  lemma {:induction false} IdealGrows(presence: u32, start: nat, i: nat, j: nat)
    requires i <= j
    ensures Ideal(presence, start, i) <= Ideal(presence, start, j)
    decreases j, i
  {
    if i < j {
      IdealGrows(presence, start, i, j - 1);
    }
  }

  /** Once an announced field does not fit, no later field is read. */
  lemma {:induction false} NothingAfterACutField(presence: u32, headerLen: nat, start: nat, cut: nat, later: nat)
    requires start <= headerLen && cut < later < FIELDS && FieldOf(later).read > 0
    ensures var place := AlignTo(Layout(presence, headerLen, start, cut), FieldOf(cut).align);
            Present(presence, cut) && place + FieldOf(cut).size > headerLen ==>
              ReadAt(presence, headerLen, start, later) == None
  {
    hide Layout, Ideal, AlignTo, Present;
    var off := Layout(presence, headerLen, start, cut);
    if Present(presence, cut) && AlignTo(off, FieldOf(cut).align) + FieldOf(cut).size > headerLen {
      FieldStep(presence, headerLen, start, cut, off);
      assert Layout(presence, headerLen, start, cut + 1) == headerLen;
      LayoutIsCapped(presence, headerLen, start, cut + 1);
      IdealGrows(presence, start, cut + 1, later);
      LayoutIsCapped(presence, headerLen, start, later);
      FieldStep(presence, headerLen, start, later, headerLen);
    }
  }

  // What is read there

  function ByteAt(data: Bytes, at: Option<nat>, shift: nat): Option<u8>
    requires at.Some? ==> at.value + shift < |data|
  {
    if at.Some? then Some(data[at.value + shift]) else None
  }

  function SignedAt(data: Bytes, at: Option<nat>): Option<int>
    requires at.Some? ==> at.value < |data|
  {
    if at.Some? then Some(Signed(data[at.value])) else None
  }

  function WordAt(data: Bytes, at: Option<nat>, shift: nat): Option<u16>
    requires at.Some? ==> at.value + shift + 2 <= |data|
  {
    if at.Some? then Some(Le16(data, at.value + shift)) else None
  }

  function LongAt(data: Bytes, at: Option<nat>): Option<nat>
    requires at.Some? ==> at.value + 8 <= |data|
  {
    if at.Some? then Some(Le64(data, at.value)) else None
  }

  /** The two bandwidth bits of the MCS flags. */
  function Bandwidth(flags: Option<u8>): Option<u8> {
    if flags.Some? then Some(flags.value % 4) else None
  }

  // The parser

  datatype Info = Info(
    headerLen: nat,
    signal: Option<int>,
    channel: Option<u16>,
    channelFlags: Option<u16>,
    rate: Option<u8>,
    noise: Option<int>,
    txPower: Option<int>,
    rxFlags: Option<u16>,
    antenna: Option<u8>,
    mcsIndex: Option<u8>,
    bandwidth: Option<u8>,
    timestamp: Option<nat>)

  /** The end of the chain of presence words that starts at `off`: bit 31 announces another word. */
  function ChainEnd(data: Bytes, headerLen: nat, off: nat): (r: nat)
    requires off <= headerLen <= |data|
    ensures off <= r <= headerLen
    decreases headerLen - off
  {
    if off + 4 > headerLen then off
    else if Le32(data, off) < 0x8000_0000 then off + 4
    else ChainEnd(data, headerLen, off + 4)
  }

  /** However many words are chained, the mask that is used is the first one. */
  method ParsePresence(data: Bytes, headerLen: nat) returns (presence: u32, off: nat)
    requires 8 <= headerLen <= |data|
    ensures presence == Le32(data, 4)
    ensures off == ChainEnd(data, headerLen, 4)
  {
    presence, off := 0, 4;
    while true
      invariant 4 <= off <= headerLen
      invariant off == 4 ==> presence == 0
      invariant off > 4 ==> presence == Le32(data, 4) && presence != 0
      invariant ChainEnd(data, headerLen, off) == ChainEnd(data, headerLen, 4)
      decreases headerLen - off
    {
      if off + 4 > headerLen {
        break;
      }
      var f := Le32(data, off);
      if presence == 0 {
        presence := f;
      }
      off := off + 4;
      if f < 0x8000_0000 {
        break;
      }
    }
  }

  /** Bits 0 to 4. */
  method ParseFirstFields(data: Bytes, presence: u32, headerLen: nat, start: nat)
    returns (off: nat, rate: Option<u8>, channel: Option<u16>, channelFlags: Option<u16>)
    requires start <= headerLen <= |data|
    ensures off == Layout(presence, headerLen, start, 5)
    ensures rate == ByteAt(data, ReadAt(presence, headerLen, start, 2), 0)
    ensures channel == WordAt(data, ReadAt(presence, headerLen, start, 3), 0)
    ensures channelFlags == WordAt(data, ReadAt(presence, headerLen, start, 3), 2)
  {
    hide Layout, ReadAt, Present, AlignTo, Skip, Le16, Signed;
    off := start;
    assert off == Layout(presence, headerLen, start, 0) by {
      LayoutStart(presence, headerLen, start);
    }
    rate, channel, channelFlags := None, None, None;
    FieldStep(presence, headerLen, start, 0, off);
    if Present(presence, 0) {
      off := AlignTo(off, 8);
      off := Skip(off, 8, headerLen);
    }
    FieldStep(presence, headerLen, start, 1, off);
    if Present(presence, 1) {
      off := Skip(off, 1, headerLen);
    }
    FieldStep(presence, headerLen, start, 2, off);
    if Present(presence, 2) {
      if off < headerLen {
        rate := Some(data[off]);
      }
      off := Skip(off, 1, headerLen);
    }
    FieldStep(presence, headerLen, start, 3, off);
    if Present(presence, 3) {
      off := AlignTo(off, 2);
      if off + 4 <= headerLen {
        channel := Some(Le16(data, off));
        channelFlags := Some(Le16(data, off + 2));
      }
      off := Skip(off, 4, headerLen);
    }
    FieldStep(presence, headerLen, start, 4, off);
    if Present(presence, 4) {
      off := Skip(off, 2, headerLen);
    }
  }

  /** Bits 5 to 9. */
  method ParseSignalFields(data: Bytes, presence: u32, headerLen: nat, start: nat, at: nat)
    returns (off: nat, signal: Option<int>, noise: Option<int>)
    requires start <= headerLen <= |data| && at == Layout(presence, headerLen, start, 5)
    ensures off == Layout(presence, headerLen, start, 10)
    ensures signal == SignedAt(data, ReadAt(presence, headerLen, start, 5))
    ensures noise == SignedAt(data, ReadAt(presence, headerLen, start, 6))
  {
    hide Layout, ReadAt, Present, AlignTo, Skip, Signed;
    off := at;
    signal, noise := None, None;
    FieldStep(presence, headerLen, start, 5, off);
    if Present(presence, 5) {
      if off < headerLen {
        signal := Some(Signed(data[off]));
      }
      off := Skip(off, 1, headerLen);
    }
    FieldStep(presence, headerLen, start, 6, off);
    if Present(presence, 6) {
      if off < headerLen {
        noise := Some(Signed(data[off]));
      }
      off := Skip(off, 1, headerLen);
    }
    FieldStep(presence, headerLen, start, 7, off);
    if Present(presence, 7) {
      off := AlignTo(off, 2);
      off := Skip(off, 2, headerLen);
    }
    FieldStep(presence, headerLen, start, 8, off);
    if Present(presence, 8) {
      off := AlignTo(off, 2);
      off := Skip(off, 2, headerLen);
    }
    FieldStep(presence, headerLen, start, 9, off);
    if Present(presence, 9) {
      off := AlignTo(off, 2);
      off := Skip(off, 2, headerLen);
    }
  }

  /** Bits 10 to 18. */
  method ParseMiddleFields(data: Bytes, presence: u32, headerLen: nat, start: nat, at: nat)
    returns (off: nat, txPower: Option<int>, antenna: Option<u8>, rxFlags: Option<u16>)
    requires start <= headerLen <= |data| && at == Layout(presence, headerLen, start, 10)
    ensures off == Layout(presence, headerLen, start, 19)
    ensures txPower == SignedAt(data, ReadAt(presence, headerLen, start, 10))
    ensures antenna == ByteAt(data, ReadAt(presence, headerLen, start, 11), 0)
    ensures rxFlags == WordAt(data, ReadAt(presence, headerLen, start, 14), 0)
  {
    hide Layout, ReadAt, Present, AlignTo, Skip, Le16, Signed;
    off := at;
    txPower, antenna, rxFlags := None, None, None;
    FieldStep(presence, headerLen, start, 10, off);
    if Present(presence, 10) {
      if off < headerLen {
        txPower := Some(Signed(data[off]));
      }
      off := Skip(off, 1, headerLen);
    }
    FieldStep(presence, headerLen, start, 11, off);
    if Present(presence, 11) {
      if off < headerLen {
        antenna := Some(data[off]);
      }
      off := Skip(off, 1, headerLen);
    }
    FieldStep(presence, headerLen, start, 12, off);
    if Present(presence, 12) {
      off := Skip(off, 1, headerLen);
    }
    FieldStep(presence, headerLen, start, 13, off);
    if Present(presence, 13) {
      off := Skip(off, 1, headerLen);
    }
    FieldStep(presence, headerLen, start, 14, off);
    if Present(presence, 14) {
      off := AlignTo(off, 2);
      if off + 2 <= headerLen {
        rxFlags := Some(Le16(data, off));
      }
      off := Skip(off, 2, headerLen);
    }
    FieldStep(presence, headerLen, start, 15, off);
    if Present(presence, 15) {
      off := AlignTo(off, 2);
      off := Skip(off, 2, headerLen);
    }
    FieldStep(presence, headerLen, start, 16, off);
    if Present(presence, 16) {
      off := Skip(off, 1, headerLen);
    }
    FieldStep(presence, headerLen, start, 17, off);
    if Present(presence, 17) {
      off := Skip(off, 1, headerLen);
    }
    FieldStep(presence, headerLen, start, 18, off);
    if Present(presence, 18) {
      off := AlignTo(off, 4);
      off := Skip(off, 8, headerLen);
    }
  }

  /** Bits 19 to 22. */
  method ParseHighFields(data: Bytes, presence: u32, headerLen: nat, start: nat, at: nat)
    returns (mcsIndex: Option<u8>, bandwidth: Option<u8>, timestamp: Option<nat>)
    requires start <= headerLen <= |data| && at == Layout(presence, headerLen, start, 19)
    ensures mcsIndex == ByteAt(data, ReadAt(presence, headerLen, start, 19), 2)
    ensures bandwidth == Bandwidth(ByteAt(data, ReadAt(presence, headerLen, start, 19), 1))
    ensures timestamp == LongAt(data, ReadAt(presence, headerLen, start, 22))
  {
    hide Layout, ReadAt, Present, AlignTo, Skip, Le64;
    var off := at;
    mcsIndex, bandwidth, timestamp := None, None, None;
    FieldStep(presence, headerLen, start, 19, off);
    if Present(presence, 19) {
      if off + 3 <= headerLen {
        bandwidth := Some(data[off + 1] % 4);
        mcsIndex := Some(data[off + 2]);
      }
      off := Skip(off, 3, headerLen);
    }
    FieldStep(presence, headerLen, start, 20, off);
    if Present(presence, 20) {
      off := AlignTo(off, 4);
      off := Skip(off, 8, headerLen);
    }
    FieldStep(presence, headerLen, start, 21, off);
    if Present(presence, 21) {
      off := AlignTo(off, 2);
      off := Skip(off, 12, headerLen);
    }
    FieldStep(presence, headerLen, start, 22, off);
    if Present(presence, 22) {
      off := AlignTo(off, 8);
      if off + 8 <= headerLen {
        timestamp := Some(Le64(data, off));
      }
      off := Skip(off, 12, headerLen);
    }
  }

  predicate HeaderOk(data: Bytes) {
    |data| >= 8 && data[0] == 0 && 8 <= Le16(data, 2) <= |data|
  }

  /** Where the layout reads a field of the header `data`. */
  function Place(data: Bytes, bit: nat): (r: Option<nat>)
    requires HeaderOk(data)
    ensures r.Some? ==> r.value + FieldOf(bit).read <= |data|
  {
    ReadAt(Le32(data, 4), Le16(data, 2), ChainEnd(data, Le16(data, 2), 4), bit)
  }

  /** The table-driven decoding: every field from where the layout reads it. */
  function InfoOf(data: Bytes): Info
    requires HeaderOk(data)
  {
    Info(Le16(data, 2),
         SignedAt(data, Place(data, 5)), WordAt(data, Place(data, 3), 0), WordAt(data, Place(data, 3), 2),
         ByteAt(data, Place(data, 2), 0), SignedAt(data, Place(data, 6)), SignedAt(data, Place(data, 10)),
         WordAt(data, Place(data, 14), 0), ByteAt(data, Place(data, 11), 0), ByteAt(data, Place(data, 19), 2),
         Bandwidth(ByteAt(data, Place(data, 19), 1)), LongAt(data, Place(data, 22)))
  }

  /** The unrolled walk decodes exactly what the table-driven layout reads. */
  method ParseRadiotap(data: Bytes) returns (r: Option<Info>)
    ensures r == if HeaderOk(data) then Some(InfoOf(data)) else None
  {
    if |data| < 8 || data[0] != 0 {
      return None;
    }
    var headerLen := Le16(data, 2);
    if headerLen > |data| || headerLen < 8 {
      return None;
    }
    var presence, start := ParsePresence(data, headerLen);
    var off, rate, channel, channelFlags := ParseFirstFields(data, presence, headerLen, start);
    var signal, noise, txPower, antenna, rxFlags;
    off, signal, noise := ParseSignalFields(data, presence, headerLen, start, off);
    off, txPower, antenna, rxFlags := ParseMiddleFields(data, presence, headerLen, start, off);
    var mcsIndex, bandwidth, timestamp := ParseHighFields(data, presence, headerLen, start, off);
    return Some(Info(headerLen, signal, channel, channelFlags, rate, noise, txPower, rxFlags, antenna,
                     mcsIndex, bandwidth, timestamp));
  }
}
