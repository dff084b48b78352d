/** The check value of CRC-32, which fixes the polynomial, the bit order and both complements. */
module Crc32Check {
  import opened Gf32
  import opened Crc32

  /** The text 123456789. */
  const NINE: seq<byte> := [0x31, 0x32, 0x33, 0x34, 0x35, 0x36, 0x37, 0x38, 0x39]

  /** One bit through the register of the standard, and eight of them. */
  function Shift(c: bv32): bv32 {
    if c & 1 != 0 then (c >> 1) ^ 0xedb88320 else c >> 1
  }

  function Eight(c: bv32): bv32 {
    Shift(Shift(Shift(Shift(Shift(Shift(Shift(Shift(c))))))))
  }

  lemma ShiftIs(c: bv32)
    ensures MulX(c, POLY) == Shift(c)
  {
  }

  lemma {:induction false} ShiftsAre(c: bv32)
    ensures MulXn(c, 8, POLY) == Eight(c)
  {
    hide MulX, Shift;
    var c1, c2, c3 := Shift(c), Shift(Shift(c)), Shift(Shift(Shift(c)));
    var c4, c5, c6 := Shift(c3), Shift(Shift(c3)), Shift(Shift(Shift(c3)));
    var c7 := Shift(c6);
    ShiftIs(c);
    ShiftIs(c1);
    ShiftIs(c2);
    ShiftIs(c3);
    ShiftIs(c4);
    ShiftIs(c5);
    ShiftIs(c6);
    ShiftIs(c7);
    Times(c, 0);
    Times(c, 1);
    Times(c, 2);
    Times(c, 3);
    Times(c, 4);
    Times(c, 5);
    Times(c, 6);
    Times(c, 7);
    MulXnNone(c);
  }

  lemma Times(c: bv32, n: nat)
    ensures MulXn(c, n + 1, POLY) == MulX(MulXn(c, n, POLY), POLY)
  {
  }

  /** One more digit. */
  lemma Grows(before: bv32, b: byte, after: bv32, data: seq<byte>)
    requires Register(data, 0xffffffff) == before && Eight(before ^ (b as bv32)) == after
    ensures Register(data + [b], 0xffffffff) == after
  {
    hide Eight;
    ShiftsAre(before ^ (b as bv32));
    assert (data + [b])[..|data + [b]| - 1] == data;
  }

  /** The register from digit to digit. */
  lemma Digits()
    ensures Eight(0xffffffff ^ 0x31) == 0x7c231048
    ensures Eight(0x7c231048 ^ 0x32) == 0xb0acbb32
    ensures Eight(0xb0acbb32 ^ 0x33) == 0x77b79c2d
    ensures Eight(0x77b79c2d ^ 0x34) == 0x641c1f5c
    ensures Eight(0x641c1f5c ^ 0x35) == 0x340ac5e3
    ensures Eight(0x340ac5e3 ^ 0x36) == 0xf68d2c9e
    ensures Eight(0xf68d2c9e ^ 0x37) == 0xaffc9660
    ensures Eight(0xaffc9660 ^ 0x38) == 0x651f2550
    ensures Eight(0x651f2550 ^ 0x39) == 0x340bc6d9
  {
  }

  /** The checksum of 123456789. */
  lemma CheckValue()
    ensures Crc(NINE) == 0xcbf43926
  {
    hide Register, Eight;
    RegisterEmpty();
    Digits();
    Grows(0xffffffff, 0x31, 0x7c231048, NINE[..0]);
    assert NINE[..0] + [0x31] == NINE[..1];
    Grows(0x7c231048, 0x32, 0xb0acbb32, NINE[..1]);
    assert NINE[..1] + [0x32] == NINE[..2];
    Grows(0xb0acbb32, 0x33, 0x77b79c2d, NINE[..2]);
    assert NINE[..2] + [0x33] == NINE[..3];
    Grows(0x77b79c2d, 0x34, 0x641c1f5c, NINE[..3]);
    assert NINE[..3] + [0x34] == NINE[..4];
    Grows(0x641c1f5c, 0x35, 0x340ac5e3, NINE[..4]);
    assert NINE[..4] + [0x35] == NINE[..5];
    Grows(0x340ac5e3, 0x36, 0xf68d2c9e, NINE[..5]);
    assert NINE[..5] + [0x36] == NINE[..6];
    Grows(0xf68d2c9e, 0x37, 0xaffc9660, NINE[..6]);
    assert NINE[..6] + [0x37] == NINE[..7];
    Grows(0xaffc9660, 0x38, 0x651f2550, NINE[..7]);
    assert NINE[..7] + [0x38] == NINE[..8];
    Grows(0x651f2550, 0x39, 0x340bc6d9, NINE[..8]);
    assert NINE[..8] + [0x39] == NINE[..9];
    assert NINE[..9] == NINE;
  }

  lemma RegisterEmpty()
    ensures Register(NINE[..0], 0xffffffff) == 0xffffffff
  {
  }
}
