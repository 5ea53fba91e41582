/**
  Radiotap headers as drivers write them: fields in the order of their bits, each padded to its alignment. The parser
  reads back every field that is there, however many presence words are chained.
 */
module RadiotapCodec {
  import opened Prelude
  import opened Radiotap

  const BITS := 23

  /** The bytes of each field that is there, by its bit. */
  type Fields = seq<Option<Bytes>>

  /** The sizes and alignments that the radiotap standard gives its fields. */
  function Size(bit: nat): nat {
    if bit in {1, 2, 5, 6, 10, 11, 12, 13, 16, 17} then 1
    else if bit in {4, 7, 8, 9, 14, 15} then 2
    else if bit == 19 then 3
    else if bit == 3 then 4
    else if bit in {0, 18, 20} then 8
    else 12
  }

  function Alignment(bit: nat): (a: nat)
    ensures a > 0
  {
    if bit in {0, 22} then 8
    else if bit in {18, 20} then 4
    else if bit in {3, 7, 8, 9, 14, 15, 21} then 2
    else 1
  }

  predicate FieldsOk(fields: Fields) {
    && |fields| == BITS
    && forall i :: 0 <= i < BITS ==> fields[i].Some? ==> |fields[i].value| == Size(i)
  }

  // The mask

  function Digit(b: bool): (r: nat)
    ensures r <= 1
  {
    if b then 1 else 0
  }

  /** The number with these bits, the lowest first. */
  function MaskOf(bits: seq<bool>): nat {
    if bits == [] then 0 else Digit(bits[0]) + 2 * MaskOf(bits[1..])
  }

  lemma {:induction false} MaskBound(bits: seq<bool>)
    ensures MaskOf(bits) < Weight(|bits|)
    decreases |bits|
  {
    if bits == [] {
    } else {
      MaskBound(bits[1..]);
    }
  }

  lemma HalfOfMask(n: nat, bit: nat, rest: nat)
    requires n == bit + 2 * rest && bit <= 1
    ensures n / 2 == rest && n % 2 == bit
  {
  }

  /** Dividing by twice a number is dividing by two first. */
  lemma DivideTwice(n: nat, d: nat)
    requires d > 0
    ensures n / (2 * d) == n / 2 / d
  {
    var q, r := n / 2 / d, n / 2 % d;
    assert n / 2 == d * q + r;
    assert n == 2 * (n / 2) + n % 2;
    assert n == 2 * d * q + (2 * r + n % 2);
    QuotientIs(n, 2 * d, q, 2 * r + n % 2);
  }

  lemma {:induction false} MaskBit(bits: seq<bool>, i: nat)
    requires i < |bits|
    ensures MaskOf(bits) / Weight(i) % 2 == Digit(bits[i])
    decreases i
  {
    HalfOfMask(MaskOf(bits), Digit(bits[0]), MaskOf(bits[1..]));
    if i == 0 {
    } else {
      MaskBit(bits[1..], i - 1);
      DivideTwice(MaskOf(bits), Weight(i - 1));
    }
  }

  lemma Weight32()
    ensures Weight(32) == 0x1_0000_0000 && Weight(31) == 0x8000_0000
  {
    assert Weight(8) == 0x100;
    assert Weight(16) == 0x1_0000;
    assert Weight(24) == 0x100_0000;
  }

  /** The presence bits: the fields', and the highest where another word follows. */
  function PresenceBits(fields: Fields, more: bool): (bits: seq<bool>)
    requires |fields| == BITS
    ensures |bits| == 32
  {
    seq(32, i requires 0 <= i < 32 => if i < BITS then fields[i].Some? else i == 31 && more)
  }

  function PresenceWord(fields: Fields, more: bool): u32
    requires |fields| == BITS
  {
    MaskBound(PresenceBits(fields, more));
    Weight32();
    MaskOf(PresenceBits(fields, more))
  }

  lemma PresenceTells(fields: Fields, more: bool, bit: nat)
    requires |fields| == BITS && bit < BITS
    ensures Present(PresenceWord(fields, more), bit) <==> fields[bit].Some?
  {
    MaskBit(PresenceBits(fields, more), bit);
    hide MaskOf, Weight;
  }

  lemma WordAnnounces(fields: Fields, more: bool)
    requires |fields| == BITS
    ensures Announces(PresenceWord(fields, more), fields)
  {
    forall i | 0 <= i < BITS ensures Present(PresenceWord(fields, more), i) <==> fields[i].Some? {
      PresenceTells(fields, more, i);
    }
  }

  lemma MoreTells(fields: Fields, more: bool)
    requires |fields| == BITS
    ensures PresenceWord(fields, more) >= 0x8000_0000 <==> more
  {
    Weight32();
    MaskBit(PresenceBits(fields, more), 31);
    hide MaskOf, Weight;
  }

  // The fields

  /** The zero bytes up to the next multiple of `align`. */
  function Padding(off: nat, align: nat): Bytes
    requires align > 0
  {
    seq((align - off % align) % align, _ => 0)
  }

  /** Fields below bit `n`, laid out from the offset `start` on. */
  function Body(fields: Fields, start: nat, n: nat): Bytes
    requires n <= |fields|
  {
    if n == 0 then []
    else
      var before := Body(fields, start, n - 1);
      match fields[n - 1]
      case None => before
      case Some(bytes) => before + Padding(start + |before|, Alignment(n - 1)) + bytes
  }

  /** Where a field lies. */
  function FieldStart(fields: Fields, start: nat, bit: nat): nat
    requires bit < |fields|
  {
    var off := start + |Body(fields, start, bit)|;
    off + |Padding(off, Alignment(bit))|
  }

  lemma TablesAgree(bit: nat)
    requires bit < BITS
    ensures FieldOf(bit).align == Alignment(bit) && FieldOf(bit).size == Size(bit)
  {
  }

  lemma DivisionOf(off: nat, align: nat)
    requires align > 0
    ensures off == align * (off / align) + off % align
  {
  }

  lemma SmallRemainder(r: nat, align: nat)
    requires 0 < r < align
    ensures (align - r) % align == align - r
  {
  }

  lemma AlignmentIs(off: nat, align: nat, q: nat)
    requires align > 0 && (off + align - 1) / align == q
    ensures AlignTo(off, align) == align * q
  {
  }

  lemma NextMultiple(off: nat, align: nat)
    requires align > 0
    ensures AlignTo(off, align) == off + (align - off % align) % align
  {
    hide AlignTo;
    var q, r := off / align, off % align;
    DivisionOf(off, align);
    if r == 0 {
      QuotientIs(off + align - 1, align, q, align - 1);
      AlignmentIs(off, align, q);
    } else {
      SmallRemainder(r, align);
      assert align * (q + 1) == align * q + align;
      QuotientIs(off + align - 1, align, q + 1, r - 1);
      AlignmentIs(off, align, q + 1);
    }
  }

  lemma PaddedIsAligned(off: nat, bit: nat)
    requires bit < BITS
    ensures AlignTo(off, FieldOf(bit).align) == off + |Padding(off, Alignment(bit))|
  {
    TablesAgree(bit);
    NextMultiple(off, Alignment(bit));
  }

  lemma IdealNext(presence: u32, start: nat, bit: nat)
    ensures var off := Ideal(presence, start, bit);
            Ideal(presence, start, bit + 1)
            == if Present(presence, bit) then AlignTo(off, FieldOf(bit).align) + FieldOf(bit).size else off
  {
    hide Present, AlignTo, FieldOf;
  }

  lemma BodyNext(fields: Fields, start: nat, bit: nat)
    requires bit < |fields|
    ensures var before := |Body(fields, start, bit)|;
            |Body(fields, start, bit + 1)|
            == match fields[bit]
               case None => before
               case Some(bytes) => before + |Padding(start + before, Alignment(bit))| + |bytes|
  {
    hide Padding, Alignment;
  }

  lemma StartsWithNothing(fields: Fields, presence: u32, start: nat)
    ensures Ideal(presence, start, 0) == start && Body(fields, start, 0) == []
  {
  }

  lemma OneMoreField(fields: Fields, presence: u32, start: nat, bit: nat)
    requires FieldsOk(fields) && Announces(presence, fields) && bit < BITS == |fields|
    requires Ideal(presence, start, bit) == start + |Body(fields, start, bit)|
    ensures Ideal(presence, start, bit + 1) == start + |Body(fields, start, bit + 1)|
  {
    hide *;
    Announced(fields, presence, bit);
    IdealNext(presence, start, bit);
    BodyNext(fields, start, bit);
    if fields[bit].Some? {
      PaddedIsAligned(start + |Body(fields, start, bit)|, bit);
    }
  }

  /** The bytes laid out so far end where the layout goes on. */
  lemma {:induction false} BodyIsIdeal(fields: Fields, presence: u32, start: nat, n: nat)
    requires FieldsOk(fields) && n <= BITS == |fields| && Announces(presence, fields)
    ensures Ideal(presence, start, n) == start + |Body(fields, start, n)|
    decreases n
  {
    hide *;
    if n == 0 {
      StartsWithNothing(fields, presence, start);
    } else {
      var bit: nat := n - 1;
      BodyIsIdeal(fields, presence, start, bit);
      OneMoreField(fields, presence, start, bit);
    }
  }

  /** The mask has the bits of the fields that are there. */
  ghost predicate Announces(presence: u32, fields: Fields) {
    |fields| == BITS && forall i :: 0 <= i < BITS ==> (Present(presence, i) <==> fields[i].Some?)
  }

  lemma Announced(fields: Fields, presence: u32, bit: nat)
    requires FieldsOk(fields) && Announces(presence, fields) && bit < BITS
    ensures |fields| == BITS && (Present(presence, bit) <==> fields[bit].Some?)
    ensures fields[bit].Some? ==> |fields[bit].value| == FieldOf(bit).size
  {
    hide Present;
    TablesAgree(bit);
  }

  lemma {:induction false} FieldIsThere(fields: Fields, start: nat, bit: nat, n: nat)
    requires bit < n <= |fields| && fields[bit].Some?
    ensures FieldStart(fields, start, bit) >= start
    ensures At(Body(fields, start, n), FieldStart(fields, start, bit) - start, fields[bit].value)
    decreases n
  {
    hide Padding, Alignment;
    if n == bit + 1 {
      var before := Body(fields, start, bit);
      var padding := Padding(start + |before|, Alignment(bit));
      assert Body(fields, start, n) == (before + padding) + fields[bit].value;
      assert |before + padding| == FieldStart(fields, start, bit) - start;
    } else {
      FieldIsThere(fields, start, bit, n - 1);
      var before := Body(fields, start, n - 1);
      assert before <= Body(fields, start, n);
      AtLonger(before, Body(fields, start, n), FieldStart(fields, start, bit) - start, fields[bit].value);
    }
  }

  lemma AtLonger(a: Bytes, b: Bytes, at: nat, part: Bytes)
    requires a <= b && At(a, at, part)
    ensures At(b, at, part)
  {
    assert b[at..at + |part|] == a[at..at + |part|];
  }

  // The header

  function LeBytes16(v: u16): (r: Bytes)
    ensures |r| == 2
  {
    [v % 0x100, v / 0x100]
  }

  function LeBytes32(v: u32): (r: Bytes)
    ensures |r| == 4
  {
    LeBytes16(v % 0x1_0000) + LeBytes16(v / 0x1_0000)
  }

  function LeBytes64(v: nat): (r: Bytes)
    requires v < 0x1_0000_0000_0000_0000
    ensures |r| == 8
  {
    LeBytes32(v % 0x1_0000_0000) + LeBytes32(v / 0x1_0000_0000)
  }

  lemma Le16Encoded(data: Bytes, at: nat, v: u16)
    requires At(data, at, LeBytes16(v))
    ensures Le16(data, at) == v
  {
    AtIndex(data, at, LeBytes16(v), 0);
    AtIndex(data, at, LeBytes16(v), 1);
  }

  lemma Le32Encoded(data: Bytes, at: nat, v: u32)
    requires At(data, at, LeBytes32(v))
    ensures Le32(data, at) == v
  {
    AtAppend(data, at, LeBytes16(v % 0x1_0000), LeBytes16(v / 0x1_0000));
    Le16Encoded(data, at, v % 0x1_0000);
    Le16Encoded(data, at + 2, v / 0x1_0000);
  }

  lemma Le64Encoded(data: Bytes, at: nat, v: nat)
    requires v < 0x1_0000_0000_0000_0000 && At(data, at, LeBytes64(v))
    ensures Le64(data, at) == v
  {
    AtAppend(data, at, LeBytes32(v % 0x1_0000_0000), LeBytes32(v / 0x1_0000_0000));
    Le32Encoded(data, at, v % 0x1_0000_0000);
    Le32Encoded(data, at + 4, v / 0x1_0000_0000);
  }

  /** Further presence words: each but the last announces another. */
  predicate WordsOk(words: seq<u32>) {
    forall i :: 0 <= i < |words| ==> (words[i] >= 0x8000_0000 <==> i < |words| - 1)
  }

  function WordBytes(words: seq<u32>): (r: Bytes)
    ensures |r| == 4 * |words|
  {
    if words == [] then [] else LeBytes32(words[0]) + WordBytes(words[1..])
  }

  /** The first word, and those that follow it. */
  function Words(fields: Fields, more: seq<u32>): seq<u32>
    requires |fields| == BITS
  {
    [PresenceWord(fields, more != [])] + more
  }

  function FieldsFrom(more: seq<u32>): nat {
    8 + 4 * |more|
  }

  predicate HeaderFits(fields: Fields, more: seq<u32>) {
    FieldsOk(fields) && WordsOk(more) && FieldsFrom(more) + |Body(fields, FieldsFrom(more), BITS)| < 0x1_0000
  }

  /** Bytes are accepted if and only if they begin with version zero and a length, from eight to what is at hand. */
  lemma AcceptedIff(data: Bytes)
    ensures HeaderOk(data)
       <==> exists pad: u8, length: u16, rest ::
              8 <= length <= |data| && data == [0, pad] + LeBytes16(length) + rest
  {
    if HeaderOk(data) {
      assert LeBytes16(Le16(data, 2)) == data[2..4];
      assert data == [0, data[1]] + LeBytes16(Le16(data, 2)) + data[4..];
    }
    hide LeBytes16, Le16;
    forall pad: u8, length: u16, rest | 8 <= length <= |data| && data == [0, pad] + LeBytes16(length) + rest
      ensures HeaderOk(data)
    {
      assert At(data, 2, LeBytes16(length));
      Le16Encoded(data, 2, length);
    }
  }

  /** Version zero, a pad byte, the length, the presence words and the fields. */
  function EncodeHeader(fields: Fields, more: seq<u32>, pad: u8): Bytes
    requires HeaderFits(fields, more)
  {
    var body := Body(fields, FieldsFrom(more), BITS);
    [0, pad] + LeBytes16(FieldsFrom(more) + |body|) + WordBytes(Words(fields, more)) + body
  }

  lemma HeaderParts(data: Bytes, fields: Fields, more: seq<u32>, pad: u8)
    requires HeaderFits(fields, more) && At(data, 0, EncodeHeader(fields, more, pad))
    ensures var body := Body(fields, FieldsFrom(more), BITS);
            && |data| >= FieldsFrom(more) + |body| && data[0] == 0
            && Le16(data, 2) == FieldsFrom(more) + |body|
            && At(data, 4, WordBytes(Words(fields, more))) && At(data, FieldsFrom(more), body)
  {
    hide Body, LeBytes16, Le16, WordBytes, PresenceWord, At;
    var body := Body(fields, FieldsFrom(more), BITS);
    var length := FieldsFrom(more) + |body|;
    AtIndex(data, 0, EncodeHeader(fields, more, pad), 0);
    AtAppend(data, 0, [0, pad] + LeBytes16(length) + WordBytes(Words(fields, more)), body);
    AtAppend(data, 0, [0, pad] + LeBytes16(length), WordBytes(Words(fields, more)));
    AtAppend(data, 0, [0, pad], LeBytes16(length));
    Le16Encoded(data, 2, length);
    AtFits(data, FieldsFrom(more), body);
  }

  lemma {:induction false} ChainOfWords(data: Bytes, headerLen: nat, off: nat, words: seq<u32>)
    requires words != [] && WordsOk(words) && off + 4 * |words| <= headerLen <= |data|
    requires At(data, off, WordBytes(words))
    ensures Le32(data, off) == words[0] && ChainEnd(data, headerLen, off) == off + 4 * |words|
    decreases |words|
  {
    hide LeBytes32, Le32;
    AtAppend(data, off, LeBytes32(words[0]), WordBytes(words[1..]));
    Le32Encoded(data, off, words[0]);
    if |words| > 1 {
      ChainOfWords(data, headerLen, off + 4, words[1..]);
    }
  }

  lemma AllWordsOk(fields: Fields, more: seq<u32>)
    requires |fields| == BITS && WordsOk(more)
    ensures WordsOk(Words(fields, more))
  {
    MoreTells(fields, more != []);
    hide PresenceWord;
  }

  /** The parser finds the mask and the start of the fields. */
  lemma PlaceIs(data: Bytes, fields: Fields, more: seq<u32>, pad: u8, bit: nat, headerLen: nat)
    requires HeaderFits(fields, more) && At(data, 0, EncodeHeader(fields, more, pad))
    requires headerLen == FieldsFrom(more) + |Body(fields, FieldsFrom(more), BITS)|
    ensures HeaderOk(data) && headerLen == Le16(data, 2)
    ensures Place(data, bit) == ReadAt(PresenceWord(fields, more != []), headerLen, FieldsFrom(more), bit)
  {
    AllWordsOk(fields, more);
    hide Body, WordBytes, EncodeHeader, PresenceWord, ReadAt, WordsOk, Le16, Le32;
    HeaderParts(data, fields, more, pad);
    ChainOfWords(data, headerLen, 4, Words(fields, more));
  }

  lemma ItsPlace(fields: Fields, presence: u32, start: nat, bit: nat)
    requires FieldsOk(fields) && bit < BITS && Announces(presence, fields)
    ensures |fields| == BITS
    ensures AlignTo(Ideal(presence, start, bit), FieldOf(bit).align) == FieldStart(fields, start, bit)
  {
    FieldCount(fields);
    hide *;
    BodyIsIdeal(fields, presence, start, bit);
    StartIsAligned(fields, start, bit);
  }

  lemma ItFits(fields: Fields, start: nat, bit: nat)
    requires FieldsOk(fields) && bit < BITS && |fields| == BITS && fields[bit].Some?
    ensures FieldStart(fields, start, bit) + FieldOf(bit).read <= start + |Body(fields, start, BITS)|
  {
    hide *;
    FieldIsThere(fields, start, bit, BITS);
    AtFits(Body(fields, start, BITS), FieldStart(fields, start, bit) - start, fields[bit].value);
    FieldFits(fields, bit);
  }

  /** By the layout, a field that is there is read from where it starts. */
  lemma ReadWhereItStarts(fields: Fields, presence: u32, start: nat, headerLen: nat, bit: nat)
    requires FieldsOk(fields) && bit < BITS && FieldOf(bit).read > 0 && Announces(presence, fields)
    requires headerLen == start + |Body(fields, start, BITS)|
    ensures ReadAt(presence, headerLen, start, bit)
         == if fields[bit].Some? then Some(FieldStart(fields, start, bit)) else None
  {
    FieldCount(fields);
    hide *;
    ItsPlace(fields, presence, start, bit);
    Announced(fields, presence, bit);
    ReadsExactlyWhatFits(presence, headerLen, start, bit);
    if fields[bit].Some? {
      ItFits(fields, start, bit);
    }
  }

  lemma StartIsAligned(fields: Fields, start: nat, bit: nat)
    requires bit < BITS == |fields|
    ensures FieldStart(fields, start, bit) == AlignTo(start + |Body(fields, start, bit)|, FieldOf(bit).align)
  {
    hide Body, AlignTo, FieldOf, Padding, Alignment;
    PaddedIsAligned(start + |Body(fields, start, bit)|, bit);
  }

  lemma FieldFits(fields: Fields, bit: nat)
    requires FieldsOk(fields) && bit < BITS && fields[bit].Some?
    ensures FieldOf(bit).read <= |fields[bit].value|
  {
    TablesAgree(bit);
  }

  lemma PlaceOfField(data: Bytes, fields: Fields, more: seq<u32>, pad: u8, bit: nat)
    requires HeaderFits(fields, more) && At(data, 0, EncodeHeader(fields, more, pad)) && FieldsOk(fields)
    requires bit < BITS == |fields| && FieldOf(bit).read > 0
    ensures HeaderOk(data)
    ensures Place(data, bit) == if fields[bit].Some? then Some(FieldStart(fields, FieldsFrom(more), bit)) else None
  {
    hide *;
    var start: nat, presence := FieldsFrom(more), PresenceWord(fields, more != []);
    var headerLen: nat := start + |Body(fields, start, BITS)|;
    WordAnnounces(fields, more != []);
    PlaceIs(data, fields, more, pad, bit, headerLen);
    ReadWhereItStarts(fields, presence, start, headerLen, bit);
  }

  /** Every field is read from its place, if it is there. */
  lemma PlacesReadBack(data: Bytes, fields: Fields, more: seq<u32>, pad: u8, bit: nat)
    requires HeaderFits(fields, more) && At(data, 0, EncodeHeader(fields, more, pad)) && FieldsOk(fields)
    requires bit < BITS == |fields| && FieldOf(bit).read > 0
    ensures HeaderOk(data)
    ensures fields[bit].None? ==> Place(data, bit) == None
    ensures fields[bit].Some? ==> Place(data, bit).Some? && At(data, Place(data, bit).value, fields[bit].value)
  {
    hide *;
    PlaceOfField(data, fields, more, pad, bit);
    if fields[bit].Some? {
      BytesThere(data, fields, more, pad, bit);
    }
  }

  lemma BytesThere(data: Bytes, fields: Fields, more: seq<u32>, pad: u8, bit: nat)
    requires HeaderFits(fields, more) && At(data, 0, EncodeHeader(fields, more, pad))
    requires bit < |fields| && fields[bit].Some?
    ensures At(data, FieldStart(fields, FieldsFrom(more), bit), fields[bit].value)
  {
    assert |fields| == BITS;
    hide *;
    var start := FieldsFrom(more);
    HeaderParts(data, fields, more, pad);
    FieldIsThere(fields, start, bit, |fields|);
    AtInside(data, start, Body(fields, start, |fields|), FieldStart(fields, start, bit) - start, fields[bit].value);
  }

  lemma FieldCount(fields: Fields)
    requires FieldsOk(fields)
    ensures |fields| == BITS
  {
  }

  lemma AtInside(data: Bytes, start: nat, body: Bytes, at: nat, part: Bytes)
    requires At(data, start, body) && At(body, at, part)
    ensures At(data, start + at, part)
  {
    forall i | 0 <= i < |part| ensures data[start + at + i] == part[i] {
      AtIndex(body, at, part, i);
      AtIndex(data, start, body, at + i);
    }
    assert data[start + at..start + at + |part|] == part;
  }

  // What a driver reports

  datatype Channel = Channel(frequency: u16, flags: u16)

  /** Which fields of an MCS are known, its flags and its index. */
  datatype Mcs = Mcs(known: u8, flags: u8, index: u8)

  /** A timestamp of 64 bits, with four bytes of accuracy and unit. */
  datatype Stamp = Stamp(time: nat, rest: Bytes)

  predicate StampOk(s: Option<Stamp>) {
    s.Some? ==> s.value.time < 0x1_0000_0000_0000_0000 && |s.value.rest| == 4
  }

  function StampBytes(s: Option<Stamp>): Option<Bytes>
    requires StampOk(s)
  {
    match s
    case None => None
    case Some(Stamp(time, rest)) => Some(LeBytes64(time) + rest)
  }

  /** The reported values; `skipped` are the fields that are not read, by their bits. */
  datatype Tap = Tap(
    rate: Option<u8>,
    channel: Option<Channel>,
    signal: Option<int>,
    noise: Option<int>,
    txPower: Option<int>,
    antenna: Option<u8>,
    rxFlags: Option<u16>,
    mcs: Option<Mcs>,
    timestamp: Option<Stamp>,
    skipped: map<nat, Bytes>)

  predicate IsByte(v: Option<int>) {
    v.Some? ==> -128 <= v.value < 128
  }

  predicate TapOk(t: Tap) {
    && IsByte(t.signal) && IsByte(t.noise) && IsByte(t.txPower)
    && StampOk(t.timestamp)
    && forall i :: i in t.skipped ==> |t.skipped[i]| == Size(i)
  }

  /** A number from -128 to 127 in two's complement. */
  function SignedByte(v: int): Bytes {
    [v % 0x100]
  }

  function Map<T, U>(f: T -> U, v: Option<T>): Option<U> {
    match v
    case None => None
    case Some(x) => Some(f(x))
  }

  function OneByte(v: u8): Bytes {
    [v]
  }

  function McsBytes(m: Mcs): Bytes {
    [m.known, m.flags, m.index]
  }

  function ChannelBytes(c: Channel): Bytes {
    LeBytes16(c.frequency) + LeBytes16(c.flags)
  }

  function TapField(t: Tap, bit: nat): Option<Bytes>
    requires TapOk(t)
  {
    match bit
    case 2 => Map(OneByte, t.rate)
    case 3 => Map(ChannelBytes, t.channel)
    case 5 => Map(SignedByte, t.signal)
    case 6 => Map(SignedByte, t.noise)
    case 10 => Map(SignedByte, t.txPower)
    case 11 => Map(OneByte, t.antenna)
    case 14 => Map(LeBytes16, t.rxFlags)
    case 19 => Map(McsBytes, t.mcs)
    case 22 => StampBytes(t.timestamp)
    case _ => if bit in t.skipped then Some(t.skipped[bit]) else None
  }

  function FieldsOf(t: Tap): (fields: Fields)
    requires TapOk(t)
    ensures FieldsOk(fields)
  {
    seq(BITS, i requires 0 <= i < BITS => TapField(t, i))
  }

  /** What the parser is to report: the values, and of the MCS its bandwidth bits and index. */
  function InfoOfTap(t: Tap, headerLen: nat): Info {
    Info(headerLen, t.signal,
         match t.channel case None => None case Some(c) => Some(c.frequency),
         match t.channel case None => None case Some(c) => Some(c.flags),
         t.rate, t.noise, t.txPower, t.rxFlags, t.antenna,
         match t.mcs case None => None case Some(m) => Some(m.index),
         match t.mcs case None => None case Some(m) => Some(m.flags % 4),
         match t.timestamp case None => None case Some(s) => Some(s.time))
  }

  /** The field is read from where its bytes are, if it is there. */
  predicate Located(data: Bytes, at: Option<nat>, field: Option<Bytes>) {
    match field
    case None => at == None
    case Some(bytes) => at.Some? && At(data, at.value, bytes)
  }

  lemma SignedBack(data: Bytes, at: Option<nat>, v: Option<int>)
    requires IsByte(v) && Located(data, at, Map(SignedByte, v))
    ensures (at.Some? ==> at.value < |data|) && SignedAt(data, at) == v
  {
    if v.Some? {
      AtIndex(data, at.value, SignedByte(v.value), 0);
    }
  }

  lemma ByteBack(data: Bytes, at: Option<nat>, v: Option<u8>)
    requires Located(data, at, Map(OneByte, v))
    ensures (at.Some? ==> at.value < |data|) && ByteAt(data, at, 0) == v
  {
    if v.Some? {
      AtIndex(data, at.value, OneByte(v.value), 0);
    }
  }

  lemma WordBack(data: Bytes, at: Option<nat>, v: Option<u16>)
    requires Located(data, at, Map(LeBytes16, v))
    ensures (at.Some? ==> at.value + 2 <= |data|) && WordAt(data, at, 0) == v
  {
    if v.Some? {
      Le16Encoded(data, at.value, v.value);
    }
  }

  lemma ChannelBack(data: Bytes, at: Option<nat>, v: Option<Channel>)
    requires Located(data, at, Map(ChannelBytes, v))
    ensures at.Some? ==> at.value + 4 <= |data|
    ensures WordAt(data, at, 0) == match v case None => None case Some(c) => Some(c.frequency)
    ensures WordAt(data, at, 2) == match v case None => None case Some(c) => Some(c.flags)
  {
    if v.Some? {
      AtAppend(data, at.value, LeBytes16(v.value.frequency), LeBytes16(v.value.flags));
      Le16Encoded(data, at.value, v.value.frequency);
      Le16Encoded(data, at.value + 2, v.value.flags);
    }
  }

  lemma McsBack(data: Bytes, at: Option<nat>, v: Option<Mcs>)
    requires Located(data, at, Map(McsBytes, v))
    ensures at.Some? ==> at.value + 3 <= |data|
    ensures ByteAt(data, at, 2) == match v case None => None case Some(m) => Some(m.index)
    ensures Bandwidth(ByteAt(data, at, 1)) == match v case None => None case Some(m) => Some(m.flags % 4)
  {
    if v.Some? {
      AtIndex(data, at.value, McsBytes(v.value), 1);
      AtIndex(data, at.value, McsBytes(v.value), 2);
    }
  }

  lemma StampBack(data: Bytes, at: Option<nat>, v: Option<Stamp>)
    requires StampOk(v) && Located(data, at, StampBytes(v))
    ensures at.Some? ==> at.value + 8 <= |data|
    ensures LongAt(data, at) == match v case None => None case Some(s) => Some(s.time)
  {
    hide Le64, LeBytes64;
    if v.Some? {
      AtAppend(data, at.value, LeBytes64(v.value.time), v.value.rest);
      Le64Encoded(data, at.value, v.value.time);
    }
  }

  predicate IsTap(data: Bytes, t: Tap, more: seq<u32>, pad: u8) {
    TapOk(t) && HeaderFits(FieldsOf(t), more) && At(data, 0, EncodeHeader(FieldsOf(t), more, pad))
  }

  lemma FieldLocated(data: Bytes, t: Tap, more: seq<u32>, pad: u8, bit: nat)
    requires IsTap(data, t, more, pad) && bit in {2, 3, 5, 6, 10, 11, 14, 19, 22}
    ensures HeaderOk(data) && Located(data, Place(data, bit), TapField(t, bit))
  {
    assert FieldOf(bit).read > 0 && FieldsOf(t)[bit] == TapField(t, bit);
    FieldCount(FieldsOf(t));
    hide HeaderFits, EncodeHeader, Place, HeaderOk, TapField, FieldOf, FieldsOf, At, TapOk, FieldsOk;
    PlacesReadBack(data, FieldsOf(t), more, pad, bit);
  }

  lemma LengthReadsBack(data: Bytes, t: Tap, more: seq<u32>, pad: u8)
    requires IsTap(data, t, more, pad)
    ensures HeaderOk(data) && Le16(data, 2) == |EncodeHeader(FieldsOf(t), more, pad)|
  {
    hide FieldsOf, Body, Le16, TapOk, At, HeaderOk;
    HeaderParts(data, FieldsOf(t), more, pad);
    FieldLocated(data, t, more, pad, 2);
  }

  /** Every value written is read back, and what was not written is not found, whatever follows the header. */
  lemma TapReadsBack(data: Bytes, t: Tap, more: seq<u32>, pad: u8)
    requires IsTap(data, t, more, pad)
    ensures HeaderOk(data)
    ensures InfoOf(data) == InfoOfTap(t, |EncodeHeader(FieldsOf(t), more, pad)|)
  {
    assert TapOk(t);
    hide HeaderOk, Place, EncodeHeader, FieldsOf, HeaderFits, IsTap, At, ChannelBytes, McsBytes, OneByte, SignedByte,
         LeBytes16, StampBytes, Located, SignedAt, ByteAt, WordAt, LongAt, Bandwidth, Le16;
    LengthReadsBack(data, t, more, pad);
    FieldLocated(data, t, more, pad, 2);
    FieldLocated(data, t, more, pad, 3);
    FieldLocated(data, t, more, pad, 5);
    FieldLocated(data, t, more, pad, 6);
    FieldLocated(data, t, more, pad, 10);
    FieldLocated(data, t, more, pad, 11);
    FieldLocated(data, t, more, pad, 14);
    FieldLocated(data, t, more, pad, 19);
    FieldLocated(data, t, more, pad, 22);
    ByteBack(data, Place(data, 2), t.rate);
    ChannelBack(data, Place(data, 3), t.channel);
    SignedBack(data, Place(data, 5), t.signal);
    SignedBack(data, Place(data, 6), t.noise);
    SignedBack(data, Place(data, 10), t.txPower);
    ByteBack(data, Place(data, 11), t.antenna);
    WordBack(data, Place(data, 14), t.rxFlags);
    McsBack(data, Place(data, 19), t.mcs);
    StampBack(data, Place(data, 22), t.timestamp);
  }
}
