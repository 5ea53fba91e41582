/** DNS names: the label and pointer walk, against an inductive reading of section 4.1.4 of RFC 1035. */
module DnsName {
  import opened Prelude

  /** A reading of a name: labels and strictly backward pointers, ended by the root. */
  datatype Name = Root | Part(text: Bytes, rest: Name) | Pointer(target: nat, rest: Name)

  predicate IsLabel(text: Bytes) {
    1 <= |text| <= 63
  }

  /** The pointer in the two bytes at `off`. */
  function TargetAt(p: Bytes, off: nat): nat
    requires off + 2 <= |p| && p[off] >= 0xC0
  {
    var high: int := p[off] - 0xC0;
    high * 0x100 + p[off + 1]
  }

  /** The bytes of `p` from `off` on spell the reading `d`. */
  predicate Reads(p: Bytes, off: nat, d: Name)
    decreases d
  {
    off < |p| &&
    match d
    case Root => p[off] == 0
    case Part(text, rest) =>
      && IsLabel(text)
      && off + 1 + |text| <= |p|
      && p[off] == |text| && p[off + 1..off + 1 + |text|] == text
      && Reads(p, off + 1 + |text|, rest)
    case Pointer(target, rest) =>
      && off + 2 <= |p| && p[off] >= 0xC0
      && target == TargetAt(p, off) < off
      && Reads(p, target, rest)
  }

  function Labels(d: Name): seq<Bytes> {
    match d
    case Root => []
    case Part(text, rest) => [text] + Labels(rest)
    case Pointer(_, rest) => Labels(rest)
  }

  /** Labels plus pointer hops. */
  function Steps(d: Name): nat {
    match d
    case Root => 0
    case Part(_, rest) => 1 + Steps(rest)
    case Pointer(_, rest) => 1 + Steps(rest)
  }

  /** Where the in-place part of the name ends: after the root byte or the first pointer. */
  function EndOf(off: nat, d: Name): nat
    decreases d
  {
    match d
    case Root => off + 1
    case Part(text, rest) => EndOf(off + 1 + |text|, rest)
    case Pointer(_, _) => off + 2
  }

  // The decoder

  const LIMIT := 128

  datatype Decoded = Decoded(labels: seq<Bytes>, end: nat)

  /** What the decoder returns from `off` with `budget` steps left, before any pointer was followed. */
  function Decode(p: Bytes, off: nat, budget: nat): Option<Decoded>
    decreases budget, |p|
  {
    if off >= |p| || budget == 0 then Some(Decoded([], off))
    else
      var n: nat := p[off];
      if n == 0 then Some(Decoded([], off + 1))
      else if n >= 0xC0 then
        if off + 2 > |p| then None
        else if TargetAt(p, off) >= off then None
        else
          var tail := Decode(p, TargetAt(p, off), budget - 1);
          if tail.None? then None else Some(Decoded(tail.value.labels, off + 2))
      else if off + 1 + n > |p| then None
      else
        var tail := Decode(p, off + 1 + n, budget - 1);
        if tail.None? then None
        else Some(Decoded([p[off + 1..off + 1 + n]] + tail.value.labels, tail.value.end))
  }

  /** The outcome of the whole walk, given what was read so far and what the rest decodes to. */
  function Resume(labels: seq<Bytes>, jumped: bool, end: nat, tail: Option<Decoded>): Option<Decoded> {
    if tail.None? then None
    else Some(Decoded(labels + tail.value.labels, if jumped then end else tail.value.end))
  }

  lemma ResumeDone(labels: seq<Bytes>, jumped: bool, end: nat, off: nat)
    ensures Resume(labels, jumped, end, Some(Decoded([], off))) == Some(Decoded(labels, if jumped then end else off))
    ensures Resume(labels, jumped, end, None) == None
  {
    NothingMore(labels);
  }

  lemma ResumeStart(end: nat, whole: Option<Decoded>)
    ensures Resume([], false, end, whole) == whole
  {
    if whole.Some? {
      NothingMore(whole.value.labels);
    }
  }

  /** One round of the walk: where it goes on, or what it returns. */
  lemma ResumeStep(p: Bytes, off: nat, budget: nat, labels: seq<Bytes>, jumped: bool, end: nat)
    requires off < |p| && budget > 0
    ensures var n: nat, now := p[off], Resume(labels, jumped, end, Decode(p, off, budget));
            if n == 0 then now == Some(Decoded(labels, if jumped then end else off + 1))
            else if n >= 0xC0 then
              now == if off + 2 > |p| || TargetAt(p, off) >= off then None
                     else Resume(labels, true, if jumped then end else off + 2, Decode(p, TargetAt(p, off), budget - 1))
            else
              now == if off + 1 + n > |p| then None
                     else Resume(labels + [p[off + 1..off + 1 + n]], jumped, end, Decode(p, off + 1 + n, budget - 1))
  {
    var n: nat := p[off];
    NothingMore(labels);
    if 0 < n < 0xC0 && off + 1 + n <= |p| {
      var tail := Decode(p, off + 1 + n, budget - 1);
      if tail.Some? {
        AppendThenRest(labels, p[off + 1..off + 1 + n], tail.value.labels);
      }
    }
  }

  /** Until a pointer is followed, the end recorded so far does not matter. */
  lemma ResumeIgnoresEnd(labels: seq<Bytes>, end: nat, end': nat, tail: Option<Decoded>)
    ensures Resume(labels, false, end, tail) == Resume(labels, false, end', tail)
  {
  }

  /** The loop: it always stops, as each round spends one of 128 steps even when pointers and labels cycle. */
  method DecodeName(payload: Bytes, start: nat) returns (r: Option<Decoded>)
    ensures r == Decode(payload, start, LIMIT)
  {
    hide Decode, Resume;
    var domain: seq<Bytes> := [];
    var offset: nat, endOffset: nat, visited: nat := start, start, 0;
    var jumped := false;
    ResumeStart(start, Decode(payload, start, LIMIT));
    while offset < |payload| && visited < LIMIT
      invariant visited <= LIMIT
      invariant !jumped ==> endOffset == offset
      invariant Decode(payload, start, LIMIT)
             == Resume(domain, jumped, endOffset, Decode(payload, offset, LIMIT - visited))
      decreases LIMIT - visited
    {
      var labelLen: nat := payload[offset];
      ResumeStep(payload, offset, LIMIT - visited, domain, jumped, endOffset);
      if labelLen == 0 {
        if !jumped {
          endOffset := offset + 1;
        }
        return Some(Decoded(domain, endOffset));
      }
      if labelLen >= 0xC0 {
        if offset + 2 > |payload| {
          return None;
        }
        if !jumped {
          endOffset := offset + 2;
        }
        var ptr := TargetAt(payload, offset);
        if ptr >= |payload| || ptr >= offset {
          return None;
        }
        offset := ptr;
        jumped := true;
      } else {
        if offset + 1 + labelLen > |payload| {
          return None;
        }
        domain := domain + [payload[offset + 1..offset + 1 + labelLen]];
        offset := offset + 1 + labelLen;
        if !jumped {
          ResumeIgnoresEnd(domain, endOffset, offset, Decode(payload, offset, LIMIT - visited - 1));
          endOffset := offset;
        }
      }
      visited := visited + 1;
    }
    DecodeStops(payload, offset, LIMIT - visited);
    ResumeDone(domain, jumped, endOffset, offset);
    return Some(Decoded(domain, endOffset));
  }

  lemma DecodeStops(p: Bytes, off: nat, budget: nat)
    requires off >= |p| || budget == 0
    ensures Decode(p, off, budget) == Some(Decoded([], off))
  {
  }

  // Completeness, exactly

  /** The labels that come only after the first `budget` steps. */
  function LabelsBeyond(d: Name, budget: nat): nat {
    if budget == 0 then |Labels(d)|
    else
      match d
      case Root => 0
      case Part(_, rest) => LabelsBeyond(rest, budget - 1)
      case Pointer(_, rest) => LabelsBeyond(rest, budget - 1)
  }

  /** A pointer is among the first `budget` steps. */
  predicate HopsWithin(d: Name, budget: nat) {
    if budget == 0 then false
    else
      match d
      case Root => false
      case Part(_, rest) => HopsWithin(rest, budget - 1)
      case Pointer(_, _) => true
  }

  lemma {:induction false} EndIsAhead(off: nat, d: Name)
    ensures EndOf(off, d) > off
    decreases d
  {
    if d.Part? {
      EndIsAhead(off + 1 + |d.text|, d.rest);
    }
  }

  lemma {:induction false} FewStepsFewLabels(d: Name, budget: nat)
    ensures Steps(d) <= budget ==> LabelsBeyond(d, budget) == 0
    ensures |Labels(d)| <= Steps(d)
  {
    if !d.Root? {
      FewStepsFewLabels(d.rest, if budget == 0 then 0 else budget - 1);
    }
  }

  lemma PrefixCons(x: Bytes, a: seq<Bytes>, b: seq<Bytes>)
    requires a <= b
    ensures [x] + a <= [x] + b
  {
  }

  /** On a well-formed name the decoder returns a prefix of the labels, and the end unless it stopped short of it. */
  lemma {:induction false} DecodesPrefix(p: Bytes, off: nat, d: Name, budget: nat)
    requires Reads(p, off, d)
    ensures var r := Decode(p, off, budget);
            && r.Some?
            && r.value.labels <= Labels(d)
            && |r.value.labels| + LabelsBeyond(d, budget) == |Labels(d)|
            && (r.value.end == EndOf(off, d) <==> Steps(d) < budget || HopsWithin(d, budget))
    decreases d
  {
    hide Decode, Reads;
    EndIsAhead(off, d);
    if budget == 0 {
      DecodeNothing(p, off, d);
    } else {
      match d
      case Root =>
        DecodeRoot(p, off, budget);
      case Part(text, rest) =>
        DecodePart(p, off, text, rest, budget);
        DecodesPrefix(p, off + 1 + |text|, rest, budget - 1);
        PrefixCons(text, Decode(p, off + 1 + |text|, budget - 1).value.labels, Labels(rest));
      case Pointer(target, rest) =>
        DecodePointer(p, off, target, rest, budget);
        DecodesPrefix(p, target, rest, budget - 1);
    }
  }

  lemma DecodeNothing(p: Bytes, off: nat, d: Name)
    ensures Decode(p, off, 0) == Some(Decoded([], off))
    ensures [] <= Labels(d)
  {
  }

  lemma DecodeRoot(p: Bytes, off: nat, budget: nat)
    requires Reads(p, off, Root) && budget > 0
    ensures Decode(p, off, budget) == Some(Decoded([], off + 1))
  {
  }

  lemma DecodePart(p: Bytes, off: nat, text: Bytes, rest: Name, budget: nat)
    requires Reads(p, off, Part(text, rest)) && budget > 0
    ensures Reads(p, off + 1 + |text|, rest)
    ensures var tail := Decode(p, off + 1 + |text|, budget - 1);
            Decode(p, off, budget)
            == if tail.None? then None else Some(Decoded([text] + tail.value.labels, tail.value.end))
  {
  }

  lemma DecodePointer(p: Bytes, off: nat, target: nat, rest: Name, budget: nat)
    requires Reads(p, off, Pointer(target, rest)) && budget > 0
    ensures Reads(p, target, rest)
    ensures var tail := Decode(p, target, budget - 1);
            Decode(p, off, budget) == if tail.None? then None else Some(Decoded(tail.value.labels, off + 2))
  {
  }

  /**
    Exactly when the decoder gets a well-formed name right: it needs at most 127 steps, or its last
    labels and at least one pointer are among the first 128.
   */
  lemma DecodesExactly(p: Bytes, start: nat, d: Name)
    requires Reads(p, start, d)
    ensures Decode(p, start, LIMIT) == Some(Decoded(Labels(d), EndOf(start, d)))
       <==> Steps(d) <= 127 || (LabelsBeyond(d, 128) == 0 && HopsWithin(d, 128))
  {
    DecodesPrefix(p, start, d, LIMIT);
    FewStepsFewLabels(d, LIMIT);
    var labels := Decode(p, start, LIMIT).value.labels;
    assert |labels| == |Labels(d)| ==> labels == Labels(d);
  }

  // Soundness

  /** The walk reaches a root byte within the budget, by labels of at most 63 bytes and backward pointers. */
  predicate ReachesRoot(p: Bytes, off: nat, budget: nat)
    decreases budget, |p|
  {
    off < |p| && budget > 0 &&
    var n: nat := p[off];
    if n == 0 then true
    else if n >= 0xC0 then off + 2 <= |p| && TargetAt(p, off) < off && ReachesRoot(p, TargetAt(p, off), budget - 1)
    else n <= 63 && off + 1 + n <= |p| && ReachesRoot(p, off + 1 + n, budget - 1)
  }

  lemma {:induction false} ReadingReachesRoot(p: Bytes, off: nat, d: Name, budget: nat)
    requires Reads(p, off, d) && Steps(d) < budget
    ensures ReachesRoot(p, off, budget)
    decreases d
  {
    match d
    case Root =>
    case Part(text, rest) => ReadingReachesRoot(p, off + 1 + |text|, rest, budget - 1);
    case Pointer(target, rest) => ReadingReachesRoot(p, target, rest, budget - 1);
  }

  lemma {:induction false} RootHasReading(p: Bytes, off: nat, budget: nat) returns (d: Name)
    requires ReachesRoot(p, off, budget)
    ensures Reads(p, off, d) && Steps(d) < budget
    decreases budget, |p|
  {
    var n: nat := p[off];
    if n == 0 {
      d := Root;
    } else if n >= 0xC0 {
      var rest := RootHasReading(p, TargetAt(p, off), budget - 1);
      d := Pointer(TargetAt(p, off), rest);
    } else {
      var rest := RootHasReading(p, off + 1 + n, budget - 1);
      d := Part(p[off + 1..off + 1 + n], rest);
    }
  }

  /** A name of at most 127 steps is present if and only if the walk reaches a root; the reading is unique. */
  lemma NamePresentIffRootReached(p: Bytes, start: nat)
    ensures (exists d :: Reads(p, start, d) && Steps(d) <= 127) <==> ReachesRoot(p, start, LIMIT)
  {
    if ReachesRoot(p, start, LIMIT) {
      var d := RootHasReading(p, start, LIMIT);
    } else if d :| Reads(p, start, d) && Steps(d) < LIMIT {
      ReadingReachesRoot(p, start, d, LIMIT);
    }
  }

  /** Whatever is decoded from a walk that reaches a root is the name that is there, and its true end. */
  lemma DecodedNameIsThere(p: Bytes, start: nat)
    requires ReachesRoot(p, start, LIMIT)
    ensures exists d :: Reads(p, start, d) && Decode(p, start, LIMIT) == Some(Decoded(Labels(d), EndOf(start, d)))
  {
    var d := RootHasReading(p, start, LIMIT);
    DecodesExactly(p, start, d);
  }

  /** On every input, a returned end lies between the start and the length, and labels fit in the payload. */
  lemma {:induction false} EndInBounds(p: Bytes, off: nat, budget: nat)
    requires off <= |p| && Decode(p, off, budget).Some?
    ensures off <= Decode(p, off, budget).value.end <= |p|
    ensures |Decode(p, off, budget).value.labels| <= budget
    ensures forall l :: l in Decode(p, off, budget).value.labels ==> 1 <= |l| < 0xC0
    decreases budget, |p|
  {
    if off < |p| && budget > 0 {
      var n: nat := p[off];
      if n >= 0xC0 {
        EndInBounds(p, TargetAt(p, off), budget - 1);
      } else if n > 0 {
        EndInBounds(p, off + 1 + n, budget - 1);
      }
    }
  }

  // Encoding

  predicate AllLabels(labels: seq<Bytes>) {
    forall i :: 0 <= i < |labels| ==> IsLabel(labels[i])
  }

  /** Labels on the wire, followed by `tail`: a root byte or a pointer. */
  function Encode(labels: seq<Bytes>, tail: Bytes): (r: Bytes)
    requires AllLabels(labels)
    ensures |r| >= |tail|
  {
    if labels == [] then tail
    else
      var length: u8 := |labels[0]|;
      [length] + labels[0] + Encode(labels[1..], tail)
  }

  function WithParts(labels: seq<Bytes>, rest: Name): Name {
    if labels == [] then rest else Part(labels[0], WithParts(labels[1..], rest))
  }

  lemma {:induction false} WithPartsLabels(labels: seq<Bytes>, rest: Name)
    ensures Labels(WithParts(labels, rest)) == labels + Labels(rest)
    ensures Steps(WithParts(labels, rest)) == |labels| + Steps(rest)
  {
    if labels == [] {
    } else {
      WithPartsLabels(labels[1..], rest);
    }
  }

  /** The first label of an encoding, its length byte, and the encoding of the rest. */
  lemma EncodedFirst(p: Bytes, at: nat, labels: seq<Bytes>, tail: Bytes)
    requires AllLabels(labels) && labels != [] && At(p, at, Encode(labels, tail))
    ensures |Encode(labels, tail)| == 1 + |labels[0]| + |Encode(labels[1..], tail)|
    ensures at < |p| && p[at] == |labels[0]|
    ensures At(p, at + 1, labels[0]) && At(p, at + 1 + |labels[0]|, Encode(labels[1..], tail))
  {
    var length: u8 := |labels[0]|;
    AtAppend(p, at, [length] + labels[0], Encode(labels[1..], tail));
    AtAppend(p, at, [length], labels[0]);
    AtIndex(p, at, [length], 0);
  }

  /** Where an encoding's tail lies. */
  function TailOf(at: nat, labels: seq<Bytes>, tail: Bytes): nat
    requires AllLabels(labels)
  {
    at + |Encode(labels, tail)| - |tail|
  }

  lemma {:induction false} TailIsThere(p: Bytes, at: nat, labels: seq<Bytes>, tail: Bytes)
    requires AllLabels(labels) && At(p, at, Encode(labels, tail))
    ensures At(p, TailOf(at, labels, tail), tail)
    decreases |labels|
  {
    if labels == [] {
    } else {
      EncodedFirst(p, at, labels, tail);
      TailIsThere(p, at + 1 + |labels[0]|, labels[1..], tail);
    }
  }

  /** Encoded labels read as those labels followed by whatever their tail reads as. */
  lemma {:induction false} EncodedReads(p: Bytes, at: nat, labels: seq<Bytes>, tail: Bytes, rest: Name)
    requires AllLabels(labels) && At(p, at, Encode(labels, tail))
    requires Reads(p, TailOf(at, labels, tail), rest)
    ensures Reads(p, at, WithParts(labels, rest))
    ensures EndOf(at, WithParts(labels, rest)) == EndOf(TailOf(at, labels, tail), rest)
    decreases |labels|
  {
    hide At, TailOf, Reads, Encode;
    if labels == [] {
      NoLabels(at, tail);
    } else {
      var text, next := labels[0], at + 1 + |labels[0]|;
      EncodedFirst(p, at, labels, tail);
      TailOfRest(at, labels, tail);
      EncodedReads(p, next, labels[1..], tail, rest);
      PartReads(p, at, text, WithParts(labels[1..], rest));
    }
  }

  lemma NoLabels(at: nat, tail: Bytes)
    ensures Encode([], tail) == tail && TailOf(at, [], tail) == at
  {
  }

  lemma TailOfRest(at: nat, labels: seq<Bytes>, tail: Bytes)
    requires AllLabels(labels) && labels != []
    ensures TailOf(at, labels, tail) == TailOf(at + 1 + |labels[0]|, labels[1..], tail)
  {
  }

  lemma PartReads(p: Bytes, at: nat, text: Bytes, rest: Name)
    requires at < |p| && p[at] == |text| && IsLabel(text) && At(p, at + 1, text) && Reads(p, at + 1 + |text|, rest)
    ensures Reads(p, at, Part(text, rest))
  {
  }

  /** Decoding an encoding gives back its labels, then those of its tail, and the end of the in-place part. */
  lemma EncodingDecodes(p: Bytes, at: nat, labels: seq<Bytes>, tail: Bytes, rest: Name)
    requires AllLabels(labels) && At(p, at, Encode(labels, tail))
    requires Reads(p, TailOf(at, labels, tail), rest) && |labels| + Steps(rest) < LIMIT
    ensures Decode(p, at, LIMIT) == Some(Decoded(labels + Labels(rest), EndOf(TailOf(at, labels, tail), rest)))
  {
    hide Decode, Encode, Reads, At, TailOf;
    EncodedReads(p, at, labels, tail, rest);
    WithPartsLabels(labels, rest);
    DecodesExactly(p, at, WithParts(labels, rest));
  }

  /** An uncompressed encoding reads as its labels, and ends where it ends. */
  lemma EncodedIsRead(p: Bytes, at: nat, labels: seq<Bytes>)
    requires AllLabels(labels) && At(p, at, Encode(labels, [0]))
    ensures var d := WithParts(labels, Root);
            && Reads(p, at, d) && Labels(d) == labels && Steps(d) == |labels|
            && EndOf(at, d) == at + |Encode(labels, [0])|
  {
    hide Encode, At;
    TailIsThere(p, at, labels, [0]);
    AtIndex(p, TailOf(at, labels, [0]), [0], 0);
    EncodedReads(p, at, labels, [0], Root);
    WithPartsLabels(labels, Root);
    NothingMore(labels);
  }

  /** Uncompressed round trip, at any place in a message. */
  lemma RoundTrip(p: Bytes, at: nat, labels: seq<Bytes>)
    requires |labels| <= 127 && forall i :: 0 <= i < |labels| ==> 1 <= |labels[i]| <= 63
    requires At(p, at, Encode(labels, [0]))
    ensures Decode(p, at, LIMIT) == Some(Decoded(labels, at + |Encode(labels, [0])|))
  {
    hide Decode, Encode, At, Reads;
    EncodedIsRead(p, at, labels);
    DecodesExactly(p, at, WithParts(labels, Root));
  }

  /** With a budget of just their number, encoded labels are all decoded, and the end is left at their tail. */
  lemma {:induction false} BudgetEndsAtTail(p: Bytes, at: nat, labels: seq<Bytes>, tail: Bytes)
    requires AllLabels(labels) && At(p, at, Encode(labels, tail))
    ensures Decode(p, at, |labels|) == Some(Decoded(labels, TailOf(at, labels, tail)))
    decreases |labels|
  {
    hide At, TailOf, Encode;
    if labels == [] {
      NoLabels(at, tail);
    } else {
      EncodedFirst(p, at, labels, tail);
      TailOfRest(at, labels, tail);
      HeadAndTail(labels);
      BudgetEndsAtTail(p, at + 1 + |labels[0]|, labels[1..], tail);
      LabelThere(p, at + 1, labels[0]);
    }
  }

  lemma LabelThere(p: Bytes, at: nat, text: Bytes)
    requires At(p, at, text)
    ensures at + |text| <= |p| && p[at..at + |text|] == text
  {
  }

  /**
    The bound is sharp: a name of exactly 128 labels, wherever it lies, is a well-formed name of 128 steps
    whose labels all come back, but the end returned is its root byte instead of the byte after it.
   */
  lemma NameOf128EndsShort(p: Bytes, at: nat, labels: seq<Bytes>)
    requires |labels| == 128 && AllLabels(labels)
    requires At(p, at, Encode(labels, [0]))
    ensures var d, next := WithParts(labels, Root), at + |Encode(labels, [0])|;
            && Reads(p, at, d) && Labels(d) == labels && Steps(d) == 128 && EndOf(at, d) == next
            && Decode(p, at, LIMIT) == Some(Decoded(labels, next - 1))
  {
    hide Decode, Encode, At, Reads;
    EncodedIsRead(p, at, labels);
    BudgetEndsAtTail(p, at, labels, [0]);
  }

  lemma {:induction false} LettersLength(labels: seq<Bytes>)
    requires forall i :: 0 <= i < |labels| ==> |labels[i]| == 1
    ensures |Encode(labels, [0])| == 2 * |labels| + 1
    decreases |labels|
  {
    if labels == [] {
    } else {
      LettersLength(labels[1..]);
    }
  }

  /** Such a name exists: 128 one-letter labels in 257 bytes. */
  lemma ShortEndOccurs()
    ensures var labels := seq(128, _ => [0x61]);
            |Encode(labels, [0])| == 257 && Decode(Encode(labels, [0]), 0, LIMIT) == Some(Decoded(labels, 256))
  {
    var labels: seq<Bytes> := seq(128, _ => [0x61]);
    LettersLength(labels);
    hide Decode, Encode;
    assert At(Encode(labels, [0]), 0, Encode(labels, [0]));
    NameOf128EndsShort(Encode(labels, [0]), 0, labels);
  }

  /** A pointer to `target` on the wire. */
  function PointerBytes(target: nat): Bytes
    requires target < 0x4000
  {
    [0xC0 + target / 0x100, target % 0x100]
  }

  /** Compressed round trip: labels followed by a pointer to a name that is earlier in the message. */
  lemma CompressedRoundTrip(p: Bytes, at: nat, labels: seq<Bytes>, target: nat, d: Name)
    requires AllLabels(labels)
    requires target < 0x4000 && target < at && Reads(p, target, d)
    requires At(p, at, Encode(labels, PointerBytes(target)))
    requires |labels| + 1 + Steps(d) < LIMIT
    ensures Decode(p, at, LIMIT) == Some(Decoded(labels + Labels(d), at + |Encode(labels, PointerBytes(target))|))
  {
    hide Decode, Encode, At, TailOf;
    var end := TailOf(at, labels, PointerBytes(target));
    TailIsThere(p, at, labels, PointerBytes(target));
    PointerThere(p, end, target);
    TailAhead(at, labels, PointerBytes(target));
    EncodingDecodes(p, at, labels, PointerBytes(target), Pointer(target, d));
  }

  lemma PointerThere(p: Bytes, end: nat, target: nat)
    requires target < 0x4000 && At(p, end, PointerBytes(target))
    ensures end + 2 <= |p| && p[end] >= 0xC0 && TargetAt(p, end) == target
  {
    AtIndex(p, end, PointerBytes(target), 0);
    AtIndex(p, end, PointerBytes(target), 1);
  }

  lemma TailAhead(at: nat, labels: seq<Bytes>, tail: Bytes)
    requires AllLabels(labels)
    ensures at <= TailOf(at, labels, tail) == at + |Encode(labels, tail)| - |tail|
  {
  }
}
