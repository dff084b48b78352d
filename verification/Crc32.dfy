/** CRC-32 by bytes, by words with four tables, and of a concatenation. */
module Crc32 {
  import opened Arithmetic
  import opened Gf32

  type byte = bv8

  // ---------------------------------------------------------------- reference: one byte at a time

  function Wide(b: byte): bv32 { b as bv32 }

  /** The register after one more input byte: eight multiplications by x. */
  function Feed(crc: bv32, b: byte): bv32 {
    MulXn(Xor(crc, Wide(b)), 8, POLY)
  }

  /** The register after all of `data`. */
  function Register(data: seq<byte>, crc: bv32): bv32 {
    if data == [] then crc else Feed(Register(data[..|data| - 1], crc), data[|data| - 1])
  }

  function Inverted(crc: bv32): bv32 { Xor(crc, 0xffffffff) }

  /** The checksum of a message: section 8 of RFC 1952. */
  function Crc(data: seq<byte>): bv32 {
    Inverted(Register(data, 0xffffffff))
  }

  lemma {:induction false} RegisterConcat(a: seq<byte>, b: seq<byte>, crc: bv32)
    ensures Register(a + b, crc) == Register(b, Register(a, crc))
    decreases |b|
  {
    hide Feed;
    if b == [] {
      assert a + b == a;
    } else {
      var b' := b[..|b| - 1];
      RegisterConcat(a, b', crc);
      assert (a + b)[..|a + b| - 1] == a + b';
    }
  }

  /** The register is linear in its initial value. */
  lemma {:induction false} RegisterLinear(data: seq<byte>, crc: bv32)
    ensures Register(data, crc) == Xor(MulXn(crc, 8 * |data|, POLY), Register(data, 0))
    decreases |data|
  {
    hide Xor, MulXn, Wide;
    if data == [] {
      assert MulXn(crc, 0, POLY) == crc by { MulXnNone(crc); }
      XorZero(crc);
    } else {
      var d, b := data[..|data| - 1], Wide(data[|data| - 1]);
      RegisterLinear(d, crc);
      var m, z := MulXn(crc, 8 * |d|, POLY), Register(d, 0);
      XorAssoc(m, z, b);
      MulXnLinear(m, Xor(z, b), 8, POLY);
      MulXnAdd(crc, 8 * |d|, 8, POLY);
    }
  }

  lemma MulXnNone(v: bv32)
    ensures MulXn(v, 0, POLY) == v
  {
  }

  // ---------------------------------------------------------------- tables

  /** The four tables of 256 words: entry i is i times x^8 (crc32_table), x^16 (2), x^24 (1)
      or x^32 (0). */
  function Table(i: bv32, shift: nat): bv32 {
    MulXn(i, shift, POLY)
  }

  function Low(v: bv32): bv32 { v & 0xff }
  function Down8(v: bv32): bv32 { v >> 8 }
  function Up8(v: bv32): bv32 { v << 8 }

  lemma SplitByte(v: bv32)
    ensures v == Xor(Low(v), Up8(Down8(v)))
  {
    assert v == (v & 0xff) ^ ((v >> 8) << 8);
  }

  /** A word whose low four bits are clear is shifted without any reduction. */
  lemma MulX4(w: bv32)
    requires w & 0xf == 0
    ensures MulXn(w, 4, POLY) == w >> 4
  {
    assert MulX(w, POLY) == w >> 1;
    assert MulX(w >> 1, POLY) == w >> 2;
    assert MulX(w >> 2, POLY) == w >> 3;
    assert MulX(w >> 3, POLY) == w >> 4;
    assert MulXn(w, 1, POLY) == w >> 1;
    assert MulXn(w, 2, POLY) == w >> 2;
    assert MulXn(w, 3, POLY) == w >> 3;
  }

  lemma Clear8(v: bv32)
    ensures Up8(v) & 0xf == 0 && (Up8(v) >> 4) & 0xf == 0
    ensures (Up8(v) >> 4) >> 4 == v & 0x00ffffff
  {
  }

  lemma Small(v: bv32)
    requires v & 0xff000000 == 0
    ensures v & 0x00ffffff == v
  {
  }

  lemma MulX8(v: bv32)
    requires v & 0xff000000 == 0
    ensures MulXn(Up8(v), 8, POLY) == v
  {
    hide MulXn, Up8;
    var w := Up8(v);
    Clear8(v);
    MulX4(w);
    MulX4(w >> 4);
    MulXnAdd(w, 4, 4, POLY);
    Small(v);
  }

  lemma Down8Small(v: bv32)
    ensures Down8(v) & 0xff000000 == 0
  {
  }

  /** Eight multiplications by x are one table look-up and a shift. */
  lemma TableStep(v: bv32)
    ensures MulXn(v, 8, POLY) == Xor(Table(Low(v), 8), Down8(v))
  {
    hide Xor, MulXn, Low, Down8, Up8;
    SplitByte(v);
    MulXnLinear(Low(v), Up8(Down8(v)), 8, POLY);
    Down8Small(v);
    MulX8(Down8(v));
  }

  /** n bytes: the low one goes through its own table, the rest is taken up n - 1 bytes later. */
  lemma TableStepLong(v: bv32, n: nat)
    ensures MulXn(v, n + 8, POLY) == Xor(Table(Low(v), n + 8), MulXn(Down8(v), n, POLY))
  {
    hide Xor, MulXn, Low, Down8;
    TableStep(v);
    MulXnAdd(v, 8, n, POLY);
    MulXnLinear(Table(Low(v), 8), Down8(v), n, POLY);
    MulXnAdd(Low(v), 8, n, POLY);
  }

  /** Four look-ups move the register by a whole word. */
  function Lookup4(v: bv32): bv32 {
    Xor(Xor(Xor(Table(Low(v), 32), Table(Low(Down8(v)), 24)), Table(Low(Down8(Down8(v))), 16)),
        Table(Down8(Down8(Down8(v))), 8))
  }

  lemma Lookup4Step(v: bv32)
    ensures Lookup4(v) == MulXn(v, 32, POLY)
  {
    hide Xor, MulXn, Low, Down8;
    var v1, v2, v3 := Down8(v), Down8(Down8(v)), Down8(Down8(Down8(v)));
    var t0, t1, t2, t3 := Table(Low(v), 32), Table(Low(v1), 24), Table(Low(v2), 16), Table(v3, 8);
    TableStepLong(v, 24);
    TableStepLong(v1, 16);
    TableStepLong(v2, 8);
    XorAssoc(t0, t1, Xor(t2, t3));
    XorAssoc(Xor(t0, t1), t2, t3);
  }

  // ---------------------------------------------------------------- words

  /** Four bytes read as a little-endian word. */
  function Word(b0: byte, b1: byte, b2: byte, b3: byte): bv32 {
    Wide(b0) | (Wide(b1) << 8) | (Wide(b2) << 16) | (Wide(b3) << 24)
  }

  lemma WideBytes(b0: byte, b1: byte, b2: byte, b3: byte)
    ensures Word(b0, b1, b2, b3) == Xor(Wide(b0), Up8(Xor(Wide(b1), Up8(Xor(Wide(b2), Up8(Wide(b3)))))))
    ensures Wide(b3) & 0xff000000 == 0
    ensures Xor(Wide(b2), Up8(Wide(b3))) & 0xff000000 == 0
    ensures Xor(Wide(b1), Up8(Xor(Wide(b2), Up8(Wide(b3))))) & 0xff000000 == 0
  {
  }

  /** A byte fed now, or the same byte added to the register eight powers of x earlier. */
  lemma FeedLater(crc: bv32, b: bv32, rest: bv32)
    requires rest & 0xff000000 == 0
    ensures MulXn(Xor(crc, Xor(b, Up8(rest))), 8, POLY) == Xor(MulXn(Xor(crc, b), 8, POLY), rest)
  {
    hide Xor, MulXn, Up8;
    XorAssoc(crc, b, Up8(rest));
    MulXnLinear(Xor(crc, b), Up8(rest), 8, POLY);
    MulX8(rest);
  }

  /** Feeding four bytes is adding the word and multiplying by x^32. */
  lemma FeedWord(crc: bv32, b0: byte, b1: byte, b2: byte, b3: byte)
    ensures MulXn(Xor(crc, Word(b0, b1, b2, b3)), 32, POLY) == Feed(Feed(Feed(Feed(crc, b0), b1), b2), b3)
  {
    hide Xor, MulXn, Wide, Up8, Word;
    WideBytes(b0, b1, b2, b3);
    var w3 := Wide(b3);
    var w2 := Xor(Wide(b2), Up8(w3));
    var w1 := Xor(Wide(b1), Up8(w2));
    var v := Xor(crc, Word(b0, b1, b2, b3));
    FeedLater(crc, Wide(b0), w1);
    var c1 := Feed(crc, b0);
    FeedLater(c1, Wide(b1), w2);
    var c2 := Feed(c1, b1);
    FeedLater(c2, Wide(b2), w3);
    var c3 := Feed(c2, b2);
    MulXnAdd(v, 8, 8, POLY);
    MulXnAdd(v, 16, 8, POLY);
    MulXnAdd(v, 24, 8, POLY);
  }

  lemma Register4(data: seq<byte>, crc: bv32)
    requires |data| == 4
    ensures Register(data, crc) == Feed(Feed(Feed(Feed(crc, data[0]), data[1]), data[2]), data[3])
  {
    hide Feed;
    assert data[..3][..2] == data[..2];
    assert data[..2][..1] == data[..1];
    assert data[..1][..0] == [];
    assert Register(data[..1], crc) == Feed(crc, data[0]);
    assert Register(data[..2], crc) == Feed(Feed(crc, data[0]), data[1]);
    assert Register(data[..3], crc) == Feed(Feed(Feed(crc, data[0]), data[1]), data[2]);
  }

  /** Having read up to p and then a stretch of the input, the register has read up to its end. */
  lemma RegisterExtend(data: seq<byte>, p: nat, q: nat, crc: bv32)
    requires p <= q <= |data|
    ensures Register(data[..q], crc) == Register(data[p..q], Register(data[..p], crc))
  {
    RegisterConcat(data[..p], data[p..q], crc);
    assert data[..p] + data[p..q] == data[..q];
  }

  lemma RegisterOne(data: seq<byte>, p: nat, crc: bv32)
    requires p < |data|
    ensures Register(data[..p + 1], crc) == Feed(Register(data[..p], crc), data[p])
  {
    hide Feed;
    assert data[..p + 1][..p] == data[..p];
  }

  /** DO_ONE */
  method ReadWord(data: seq<byte>, p: nat, crc: bv32, ghost start: bv32) returns (r: bv32)
    requires p + 4 <= |data|
    requires crc == Register(data[..p], start)
    ensures r == Register(data[..p + 4], start)
  {
    hide Feed, Xor, Register, Lookup4, Word;
    r := Lookup4(Xor(crc, Word(data[p], data[p + 1], data[p + 2], data[p + 3])));
    Lookup4Step(Xor(crc, Word(data[p], data[p + 1], data[p + 2], data[p + 3])));
    FeedWord(crc, data[p], data[p + 1], data[p + 2], data[p + 3]);
    Register4(data[p..p + 4], crc);
    RegisterExtend(data, p, p + 4, start);
  }

  /** DO_FOUR */
  method ReadFourWords(data: seq<byte>, p: nat, crc: bv32, ghost start: bv32) returns (r: bv32)
    requires p + 16 <= |data|
    requires crc == Register(data[..p], start)
    ensures r == Register(data[..p + 16], start)
  {
    hide Register;
    r := ReadWord(data, p, crc, start);
    r := ReadWord(data, p + 4, r, start);
    r := ReadWord(data, p + 8, r, start);
    r := ReadWord(data, p + 12, r, start);
  }

  method ReadByte(data: seq<byte>, p: nat, crc: bv32, ghost start: bv32) returns (r: bv32)
    requires p < |data|
    requires crc == Register(data[..p], start)
    ensures r == Register(data[..p + 1], start)
  {
    hide Register, Xor, Low, Down8, Wide;
    r := Xor(Table(Low(Xor(crc, Wide(data[p]))), 8), Down8(crc));
    TableStep(Xor(crc, Wide(data[p])));
    ShiftOut(crc, data[p]);
    RegisterOne(data, p, start);
  }

  lemma ShiftOut(crc: bv32, b: byte)
    ensures Down8(Xor(crc, Wide(b))) == Down8(crc)
  {
  }

  /** Whether the bit of weight `k` of a length is set. */
  function LengthBit(n: nat, k: nat): bool
    requires k > 0
  {
    n / k % 2 == 1
  }

  ghost function Weight(n: nat, k: nat): nat
    requires k > 0
  {
    if LengthBit(n, k) then k else 0
  }

  lemma HighBits(n: nat, k: nat)
    requires k > 0
    ensures n / k * k == n / (2 * k) * (2 * k) + Weight(n, k)
  {
    var q, m := n / k, n % k;
    assert n == q * k + m;
    assert q == q / 2 * 2 + q % 2;
    assert n == q / 2 * (2 * k) + (q % 2 * k + m);
    assert 0 <= q % 2 * k + m < 2 * k;
    DivUnique(n, 2 * k, q / 2, q % 2 * k + m);
  }

  lemma LowBits(n: nat)
    ensures n == n / 32 * 32 + Weight(n, 16) + Weight(n, 8) + Weight(n, 4) + Weight(n, 2) + Weight(n, 1)
  {
    hide Weight;
    HighBits(n, 16);
    HighBits(n, 8);
    HighBits(n, 4);
    HighBits(n, 2);
    HighBits(n, 1);
  }

  /** The end of crc32_partial_generic: what the low five bits of the length say is left. */
  method PartialTail(data: seq<byte>, from: nat, crc: bv32, ghost start: bv32) returns (r: bv32)
    requires from == |data| / 32 * 32
    requires crc == Register(data[..from], start)
    ensures r == Register(data, start)
  {
    hide Register, LengthBit;
    var len := |data|;
    LowBits(len);
    var p := from;
    r := crc;
    if LengthBit(len, 16) {
      r := ReadFourWords(data, p, r, start);
      p := p + 16;
    }
    if LengthBit(len, 8) {
      r := ReadWord(data, p, r, start);
      r := ReadWord(data, p + 4, r, start);
      p := p + 8;
    }
    if LengthBit(len, 4) {
      r := ReadWord(data, p, r, start);
      p := p + 4;
    }
    if LengthBit(len, 2) {
      r := ReadByte(data, p, r, start);
      r := ReadByte(data, p + 1, r, start);
      p := p + 2;
    }
    if LengthBit(len, 1) {
      r := ReadByte(data, p, r, start);
      p := p + 1;
    }
    assert data[..p] == data;
  }

  /** crc32_partial_generic: blocks of eight words, then the tail. */
  method Partial(data: seq<byte>, crc: bv32) returns (r: bv32)
    ensures r == Register(data, crc)
  {
    hide Register;
    r := crc;
    assert r == Register(data[..0], crc) by { RegisterNone(data, crc); }
    var len := |data|;
    var p := 0;
    var x := len / 32;
    ghost var whole := x;
    assert 32 * whole <= len;
    while x > 0
      invariant 0 <= x && p + 32 * x == 32 * whole
      invariant r == Register(data[..p], crc)
    {
      r := ReadFourWords(data, p, r, crc);
      r := ReadFourWords(data, p + 16, r, crc);
      p := p + 32;
      x := x - 1;
    }
    r := PartialTail(data, p, r, crc);
  }

  lemma RegisterNone(data: seq<byte>, crc: bv32)
    ensures Register(data[..0], crc) == crc
  {
  }

  /** compute_crc32 */
  method ComputeCrc32(data: seq<byte>) returns (r: bv32)
    ensures r == Crc(data)
  {
    hide Register;
    r := Partial(data, 0xffffffff);
    r := Inverted(r);
  }

  // ---------------------------------------------------------------- concatenation

  /** The checksum of a concatenation from the checksums of its halves and the length of the
      second. */
  lemma CrcConcat(a: seq<byte>, b: seq<byte>)
    ensures Crc(a + b) == Xor(MulXn(Crc(a), 8 * |b|, POLY), Crc(b))
  {
    hide Xor, Register, MulXn;
    var ones: bv32 := 0xffffffff;
    var n := 8 * |b|;
    var ra, z := Register(a, ones), Register(b, 0);
    RegisterConcat(a, b, ones);
    RegisterLinear(b, ra);
    RegisterLinear(b, ones);
    MulXnLinear(ra, ones, n, POLY);
    Cancel(MulXn(ra, n, POLY), MulXn(ones, n, POLY), z, ones);
  }

  lemma Cancel(m: bv32, i: bv32, z: bv32, ones: bv32)
    ensures Xor(Xor(m, z), ones) == Xor(Xor(m, i), Xor(Xor(i, z), ones))
  {
    hide Xor;
    XorAssoc(m, i, Xor(Xor(i, z), ones));
    XorAssoc(i, z, ones);
    XorAssoc(i, i, Xor(z, ones));
    XorZero(i);
    XorZero(Xor(z, ones));
    XorAssoc(m, z, ones);
  }
}
