/** Vocabulary shared by every module: fixed-width integers, optional values and byte order. */
module Prelude {

  datatype Option<+T> = None | Some(value: T)

  type u8 = x: int | 0 <= x < 0x100
  type u16 = x: int | 0 <= x < 0x1_0000
  type u32 = x: int | 0 <= x < 0x1_0000_0000

  type Bytes = seq<u8>

  /** The big-endian 16-bit word that starts at `i`. */
  function Be16(data: Bytes, i: nat): u16
    requires i + 2 <= |data|
  {
    var high: int := data[i];
    high * 0x100 + data[i + 1]
  }

  /** The big-endian 32-bit word that starts at `i`. */
  function Be32(data: Bytes, i: nat): u32
    requires i + 4 <= |data|
  {
    var high: int := Be16(data, i);
    high * 0x1_0000 + Be16(data, i + 2)
  }

  function Min(a: int, b: int): int {
    if a <= b then a else b
  }

  // Steps of loops that append what a recursive specification prepends.

  lemma AppendThenRest<T>(done: seq<T>, x: T, rest: seq<T>)
    ensures done + ([x] + rest) == (done + [x]) + rest
  {
  }

  lemma NothingMore<T>(s: seq<T>)
    ensures s + [] == s && [] + s == s
  {
  }

  lemma HeadAndTail<T>(s: seq<T>)
    requires s != []
    ensures [s[0]] + s[1..] == s
  {
  }

  /** `part` occupies `data` from `at` on. */
  predicate At(data: Bytes, at: nat, part: Bytes) {
    at + |part| <= |data| && data[at..at + |part|] == part
  }

  /** Consecutive parts occupy consecutive places. */
  lemma AtAppend(data: Bytes, at: nat, a: Bytes, b: Bytes)
    ensures At(data, at, a + b) <==> At(data, at, a) && At(data, at + |a|, b)
  {
    if At(data, at, a + b) {
      assert data[at..at + |a|] == data[at..at + |a + b|][..|a|] == a;
      assert data[at + |a|..at + |a| + |b|] == data[at..at + |a + b|][|a|..] == b;
    }
  }

  lemma AtFits(data: Bytes, at: nat, part: Bytes)
    requires At(data, at, part)
    ensures at + |part| <= |data|
  {
  }

  lemma AtIndex(data: Bytes, at: nat, part: Bytes, i: nat)
    requires At(data, at, part) && i < |part|
    ensures at + i < |data| && data[at + i] == part[i]
  {
    assert data[at..at + |part|][i] == data[at + i];
  }

  function Bytes16(v: u16): (r: Bytes)
    ensures |r| == 2
  {
    [v / 0x100, v % 0x100]
  }

  function Bytes32(v: u32): (r: Bytes)
    ensures |r| == 4
  {
    Bytes16(v / 0x1_0000) + Bytes16(v % 0x1_0000)
  }

  lemma Be16Encoded(data: Bytes, at: nat, v: u16)
    requires At(data, at, Bytes16(v))
    ensures Be16(data, at) == v
  {
    AtIndex(data, at, Bytes16(v), 0);
    AtIndex(data, at, Bytes16(v), 1);
  }

  lemma Be32Encoded(data: Bytes, at: nat, v: u32)
    requires At(data, at, Bytes32(v))
    ensures Be32(data, at) == v
  {
    AtAppend(data, at, Bytes16(v / 0x1_0000), Bytes16(v % 0x1_0000));
    Be16Encoded(data, at, v / 0x1_0000);
    Be16Encoded(data, at + 2, v % 0x1_0000);
  }
  lemma ProductBound(k: int, d: int)
    requires d > 0
    ensures k >= 1 ==> k * d >= d
    ensures k <= -1 ==> k * d <= -d
  {
  }

  lemma QuotientIs(n: nat, d: nat, q: nat, r: nat)
    requires d > 0 && n == d * q + r && r < d
    ensures n / d == q
  {
    var k := n / d - q;
    assert k * d == r - n % d;
    ProductBound(k, d);
  }
}
