/** The IPv6 extension-header chain of section 4 of RFC 8200. */
module Ipv6Chain {
  import opened Prelude

  datatype ExtHeader = ExtHeader(kind: u8, data: Bytes)

  datatype Chain = Chain(headers: seq<ExtHeader>, final: u8, payloadAt: nat)

  /** Hop-by-hop, routing, fragment, destination options and mobility. */
  predicate IsExtension(kind: u8) {
    kind == 0 || kind == 43 || kind == 44 || kind == 60 || kind == 135
  }

  /** The length in octets that the second byte announces, the first eight octets not being counted. */
  function ExtLength(data: Bytes, off: nat): (r: nat)
    requires off + 2 <= |data|
    ensures r >= 8
  {
    var units: int := data[off + 1];
    (units + 1) * 8
  }

  predicate HeaderFits(data: Bytes, end: nat, off: nat)
    requires end <= |data|
  {
    off + 2 <= end && off + ExtLength(data, off) <= end
  }

  function Walk(data: Bytes, end: nat, kind: u8, off: nat): (c: Chain)
    requires off <= end <= |data|
    ensures off <= c.payloadAt <= end
    decreases end - off
  {
    if !IsExtension(kind) || !HeaderFits(data, end, off) then Chain([], kind, off)
    else
      var next := off + ExtLength(data, off);
      var rest := Walk(data, end, data[off], next);
      Chain([ExtHeader(kind, data[off..next])] + rest.headers, rest.final, rest.payloadAt)
  }

  lemma WalkNext(data: Bytes, end: nat, kind: u8, off: nat)
    requires off <= end <= |data| && IsExtension(kind) && HeaderFits(data, end, off)
    ensures var next := off + ExtLength(data, off);
            var rest := Walk(data, end, data[off], next);
            Walk(data, end, kind, off)
            == Chain([ExtHeader(kind, data[off..next])] + rest.headers, rest.final, rest.payloadAt)
  {
  }

  lemma WalkStops(data: Bytes, end: nat, kind: u8, off: nat)
    requires off <= end <= |data| && (!IsExtension(kind) || !HeaderFits(data, end, off))
    ensures Walk(data, end, kind, off) == Chain([], kind, off)
  {
  }

  method WalkChain(data: Bytes, end: nat, kind: u8, start: nat) returns (c: Chain)
    requires start <= end <= |data|
    ensures c == Walk(data, end, kind, start)
  {
    hide Walk, ExtLength;
    var headers: seq<ExtHeader> := [];
    var nextHdr, off := kind, start;
    ghost var whole := Walk(data, end, kind, start);
    NothingMore(whole.headers);
    while true
      invariant start <= off <= end
      invariant var rest := Walk(data, end, nextHdr, off);
                whole == Chain(headers + rest.headers, rest.final, rest.payloadAt)
      decreases end - off
    {
      if !IsExtension(nextHdr) {
        break;
      }
      if off + 2 > end {
        break;
      }
      var extNext := data[off];
      var extLen := ExtLength(data, off);
      if off + extLen > end {
        break;
      }
      WalkNext(data, end, nextHdr, off);
      ghost var rest := Walk(data, end, extNext, off + extLen).headers;
      var header := ExtHeader(nextHdr, data[off..off + extLen]);
      AppendThenRest(headers, header, rest);
      headers := headers + [header];
      nextHdr := extNext;
      off := off + extLen;
    }
    WalkStops(data, end, nextHdr, off);
    NothingMore(headers);
    return Chain(headers, nextHdr, off);
  }

  function Flatten(headers: seq<ExtHeader>): Bytes {
    if headers == [] then [] else headers[0].data + Flatten(headers[1..])
  }

  /** A header announces its own length, which is a positive multiple of eight. */
  predicate IsHeader(h: ExtHeader) {
    && IsExtension(h.kind)
    && |h.data| >= 8
    && |h.data| == ExtLength(h.data, 0)
  }

  /** Each header's first byte names the next, and the last one's names `final`. */
  predicate Linked(kind: u8, headers: seq<ExtHeader>, final: u8)
    decreases |headers|
  {
    if headers == [] then kind == final
    else headers[0].kind == kind && IsHeader(headers[0]) && Linked(headers[0].data[0], headers[1..], final)
  }

  lemma SplitAt(data: Bytes, a: nat, b: nat, c: nat)
    requires a <= b <= c <= |data|
    ensures data[a..b] + data[b..c] == data[a..c]
  {
  }

  lemma Regroup(a: Bytes, b: Bytes, c: Bytes)
    ensures (a + b) + c == a + (b + c)
  {
  }

  /** Conservation: the headers in order, then the payload, are exactly the bytes walked over. */
  lemma {:induction false} WalkConserves(data: Bytes, end: nat, kind: u8, off: nat)
    requires off <= end <= |data|
    ensures var c := Walk(data, end, kind, off);
            && Flatten(c.headers) + data[c.payloadAt..end] == data[off..end]
            && Linked(kind, c.headers, c.final)
    decreases end - off
  {
    if IsExtension(kind) && HeaderFits(data, end, off) {
      var next := off + ExtLength(data, off);
      WalkConserves(data, end, data[off], next);
      var c, rest := Walk(data, end, kind, off), Walk(data, end, data[off], next);
      assert c.headers[1..] == rest.headers;
      SplitAt(data, off, next, end);
      Regroup(data[off..next], Flatten(rest.headers), data[rest.payloadAt..end]);
    }
  }

  /** Linked headers are positive multiples of eight octets, each naming the next. */
  lemma {:induction false} LinkedHeaders(kind: u8, headers: seq<ExtHeader>, final: u8, i: nat)
    requires Linked(kind, headers, final) && i < |headers|
    ensures |headers[i].data| > 0 && |headers[i].data| % 8 == 0
    ensures headers[i].data[0] == if i + 1 < |headers| then headers[i + 1].kind else final
    decreases |headers|
  {
    if i == 0 {
    } else {
      LinkedHeaders(headers[0].data[0], headers[1..], final, i - 1);
    }
  }

  /** The walk stops at an upper-layer protocol, or at an extension header that does not fit. */
  lemma {:induction false} StopsAtUpperOrCutShort(data: Bytes, end: nat, kind: u8, off: nat)
    requires off <= end <= |data|
    ensures var c := Walk(data, end, kind, off);
            IsExtension(c.final) ==> !HeaderFits(data, end, c.payloadAt)
    decreases end - off
  {
    if IsExtension(kind) && HeaderFits(data, end, off) {
      StopsAtUpperOrCutShort(data, end, data[off], off + ExtLength(data, off));
    }
  }

  /** The inverse: walking a well-linked chain on the wire gives back its headers and upper protocol. */
  lemma {:induction false} WalkUndoesEncoding(data: Bytes, end: nat, off: nat, kind: u8, headers: seq<ExtHeader>,
                                              final: u8)
    requires end <= |data| && off + |Flatten(headers)| <= end
    requires At(data, off, Flatten(headers))
    requires Linked(kind, headers, final) && !IsExtension(final)
    ensures Walk(data, end, kind, off) == Chain(headers, final, off + |Flatten(headers)|)
    decreases |headers|
  {
    hide At, ExtLength;
    if headers == [] {
    } else {
      var h := headers[0];
      AtAppend(data, off, h.data, Flatten(headers[1..]));
      HeaderThere(data, off, h);
      WalkUndoesEncoding(data, end, off + |h.data|, h.data[0], headers[1..], final);
      HeadAndTail(headers);
    }
  }

  lemma HeaderThere(data: Bytes, off: nat, h: ExtHeader)
    requires IsHeader(h) && At(data, off, h.data)
    ensures off + |h.data| <= |data| && data[off] == h.data[0]
    ensures ExtLength(data, off) == |h.data| && data[off..off + |h.data|] == h.data
  {
    AtIndex(data, off, h.data, 0);
    AtIndex(data, off, h.data, 1);
  }

  // The fragment header as section 4.5 of RFC 8200 lays it out

  const FRAGMENT: u8 := 44

  /** Eight octets for a fragment header, whose second byte is reserved; the announced length for the others. */
  function StandardLength(data: Bytes, kind: u8, off: nat): (r: nat)
    requires off + 2 <= |data|
    ensures r >= 8
  {
    if kind == FRAGMENT then 8 else ExtLength(data, off)
  }

  predicate StandardFits(data: Bytes, end: nat, kind: u8, off: nat)
    requires end <= |data|
  {
    off + 2 <= end && off + StandardLength(data, kind, off) <= end
  }

  function StandardWalk(data: Bytes, end: nat, kind: u8, off: nat): (c: Chain)
    requires off <= end <= |data|
    ensures off <= c.payloadAt <= end
    decreases end - off
  {
    if !IsExtension(kind) || !StandardFits(data, end, kind, off) then Chain([], kind, off)
    else
      var next := off + StandardLength(data, kind, off);
      var rest := StandardWalk(data, end, data[off], next);
      Chain([ExtHeader(kind, data[off..next])] + rest.headers, rest.final, rest.payloadAt)
  }

  /** Every whole fragment header met on the standard walk has a zero reserved byte. */
  predicate ReservedZero(data: Bytes, end: nat, kind: u8, off: nat)
    requires off <= end <= |data|
    decreases end - off
  {
    if !IsExtension(kind) || !StandardFits(data, end, kind, off) then true
    else
      && (kind == FRAGMENT ==> data[off + 1] == 0)
      && ReservedZero(data, end, data[off], off + StandardLength(data, kind, off))
  }

  /** Where the two walks part, they differ: the first header is longer than eight octets, or missing. */
  lemma NonzeroReservedDiffers(data: Bytes, end: nat, off: nat)
    requires off <= end <= |data| && StandardFits(data, end, FRAGMENT, off) && data[off + 1] != 0
    ensures Walk(data, end, FRAGMENT, off) != StandardWalk(data, end, FRAGMENT, off)
  {
    assert |StandardWalk(data, end, FRAGMENT, off).headers[0].data| == 8;
    if HeaderFits(data, end, off) {
      WalkNext(data, end, FRAGMENT, off);
      assert |Walk(data, end, FRAGMENT, off).headers[0].data| > 8;
    } else {
      WalkStops(data, end, FRAGMENT, off);
    }
  }

  lemma FirstThenRest(h: ExtHeader, a: Chain, b: Chain)
    ensures Chain([h] + a.headers, a.final, a.payloadAt) == Chain([h] + b.headers, b.final, b.payloadAt) <==> a == b
  {
    assert ([h] + a.headers)[1..] == a.headers && ([h] + b.headers)[1..] == b.headers;
  }

  lemma StandardNext(data: Bytes, end: nat, kind: u8, off: nat)
    requires off <= end <= |data| && IsExtension(kind) && StandardFits(data, end, kind, off)
    ensures var next := off + StandardLength(data, kind, off);
            var rest := StandardWalk(data, end, data[off], next);
            && StandardWalk(data, end, kind, off)
               == Chain([ExtHeader(kind, data[off..next])] + rest.headers, rest.final, rest.payloadAt)
            && (ReservedZero(data, end, kind, off)
                <==> (kind == FRAGMENT ==> data[off + 1] == 0) && ReservedZero(data, end, data[off], next))
  {
  }

  lemma SameLength(data: Bytes, end: nat, kind: u8, off: nat)
    requires end <= |data| && StandardFits(data, end, kind, off) && (kind == FRAGMENT ==> data[off + 1] == 0)
    ensures HeaderFits(data, end, off) && ExtLength(data, off) == StandardLength(data, kind, off)
  {
  }

  /** Where they agree on a header, they differ exactly where the rests do. */
  lemma SameHeaderThenRest(data: Bytes, end: nat, kind: u8, off: nat)
    requires off <= end <= |data| && IsExtension(kind) && StandardFits(data, end, kind, off)
    requires kind == FRAGMENT ==> data[off + 1] == 0
    ensures var next := off + StandardLength(data, kind, off);
            && next <= end
            && (Walk(data, end, kind, off) == StandardWalk(data, end, kind, off)
                <==> Walk(data, end, data[off], next) == StandardWalk(data, end, data[off], next))
            && (ReservedZero(data, end, kind, off) <==> ReservedZero(data, end, data[off], next))
  {
    hide Walk, StandardWalk, ReservedZero, StandardLength, ExtLength, HeaderFits;
    var next := off + StandardLength(data, kind, off);
    SameLength(data, end, kind, off);
    WalkNext(data, end, kind, off);
    StandardNext(data, end, kind, off);
    FirstThenRest(ExtHeader(kind, data[off..next]), Walk(data, end, data[off], next),
                  StandardWalk(data, end, data[off], next));
  }

  /** Reading the reserved byte as a length is harmless exactly when it is zero in every fragment header. */
  lemma {:induction false} WalkIsStandardIff(data: Bytes, end: nat, kind: u8, off: nat)
    requires off <= end <= |data|
    ensures Walk(data, end, kind, off) == StandardWalk(data, end, kind, off) <==> ReservedZero(data, end, kind, off)
    decreases end - off
  {
    if !IsExtension(kind) || !StandardFits(data, end, kind, off) {
      WalkStops(data, end, kind, off);
    } else if kind == FRAGMENT && data[off + 1] != 0 {
      NonzeroReservedDiffers(data, end, off);
    } else {
      SameHeaderThenRest(data, end, kind, off);
      WalkIsStandardIff(data, end, data[off], off + StandardLength(data, kind, off));
    }
  }
}
