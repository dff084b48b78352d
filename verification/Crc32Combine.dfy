/** The checksum of a concatenation, computed with matrices of powers of x. */
module Crc32Combine {
  import opened Gf32
  import opened Crc32
  import opened Arithmetic

  // ---------------------------------------------------------------- matrices in an array

  ghost function TimesXn(n: nat, poly: bv32): bv32 -> bv32 {
    (v: bv32) => MulXn(v, n, poly)
  }

  lemma TimesXnLinear(n: nat, poly: bv32)
    ensures Linear(TimesXn(n, poly))
  {
    hide Xor, MulXn;
    forall a: bv32, b: bv32
      ensures Additive(TimesXn(n, poly), a, b)
    {
      MulXnLinear(a, b, n, poly);
    }
  }

  /** gf32_matrix_times on the 32 words from `at`. */
  method Times(a: array<bv32>, at: nat, v: bv32) returns (sum: bv32)
    requires at + 32 <= a.Length
    ensures sum == MatrixTimes(a[at..at + 32], v)
  {
    hide Xor, Half, Odd, Shifted;
    Shifted32(v);
    sum := 0;
    var rest, k := v, 0;
    ghost var m := a[at..at + 32];
    assert m[0..] == m;
    assert v == Shifted(v, 0) by { ShiftedNone(v); }
    XorZero(MatrixTimes(m, v));
    while rest != 0
      invariant k <= 32 && rest == Shifted(v, k)
      invariant Xor(sum, MatrixTimes(m[k..], rest)) == MatrixTimes(m, v)
      decreases 32 - k
    {
      assert k < 32;
      assert m[k..][1..] == m[k + 1..];
      if Odd(rest) {
        XorAssoc(sum, a[at + k], MatrixTimes(m[k + 1..], Half(rest)));
        sum := Xor(sum, a[at + k]);
      }
      ShiftedOne(v, k);
      rest := Half(rest);
      k := k + 1;
    }
    XorZero(sum);
  }

  lemma ShiftedNone(v: bv32)
    ensures Shifted(v, 0) == v
  {
  }

  lemma ShiftedOne(v: bv32, k: nat)
    ensures Half(Shifted(v, k)) == Shifted(v, k + 1)
  {
    ShiftedAdd(v, k, 1);
  }

  /** Row k of the table holds the columns of multiplication by x^(2^k). */
  ghost predicate Row(s: seq<bv32>, k: nat, poly: bv32) {
    32 * k + 32 <= |s| &&
    forall n :: 0 <= n < 32 ==> s[32 * k + n] == MulXn(Unit(n), Pow2(k), poly)
  }

  ghost predicate Rows(s: seq<bv32>, count: nat, poly: bv32) {
    forall k :: 0 <= k < count ==> Row(s, k, poly)
  }

  lemma RowTimes(s: seq<bv32>, k: nat, poly: bv32, v: bv32)
    requires Row(s, k, poly)
    ensures MatrixTimes(s[32 * k..32 * k + 32], v) == MulXn(v, Pow2(k), poly)
  {
    hide MulXn, Pow2, Unit, MatrixTimes, Linear, Shifted;
    var f, m := TimesXn(Pow2(k), poly), s[32 * k..32 * k + 32];
    TimesXnLinear(Pow2(k), poly);
    Shifted32(v);
    forall n | 0 <= n < |m| ensures m[n] == f(Unit(n)) {
      assert m[n] == s[32 * k + n];
    }
    MatrixIsMap(m, f, v);
  }

  /** gf32_matrix_square, from row k to row k + 1. */
  method Square(a: array<bv32>, k: nat, poly: bv32)
    requires 32 * k + 64 <= a.Length && Row(a[..], k, poly)
    modifies a
    ensures Row(a[..], k + 1, poly)
    ensures a[..32 * k + 32] == old(a[..32 * k + 32])
  {
    hide MulXn, Pow2, Unit, MatrixTimes;
    var n := 0;
    while n < 32
      invariant 0 <= n <= 32
      invariant a[..32 * k + 32] == old(a[..32 * k + 32])
      invariant forall i :: 0 <= i < n ==> a[32 * k + 32 + i] == MulXn(Unit(i), Pow2(k + 1), poly)
    {
      ghost var s := a[..32 * k + 32];
      assert Row(s, k, poly);
      assert s[32 * k..32 * k + 32] == a[32 * k..32 * k + 32];
      var square := Times(a, 32 * k, a[32 * k + n]);
      RowTimes(s, k, poly, a[32 * k + n]);
      assert a[32 * k + n] == s[32 * k + n];
      MulXnAdd(Unit(n), Pow2(k), Pow2(k), poly);
      DoublePow2(k);
      a[32 * k + 32 + n] := square;
      n := n + 1;
    }
  }

  lemma UnitStep(n: nat, poly: bv32)
    requires n <= 31
    ensures MulXn(Unit(n), Pow2(0), poly) == if n == 0 then poly else Unit(n - 1)
  {
    assert Pow2(0) == 1;
    if n == 0 {
      assert MulX(1, poly) == poly by { XorZero(poly); }
    } else {
      hide Half, Odd, Unit;
      HalfUnit(n - 1);
    }
    assert MulXn(Unit(n), 1, poly) == MulX(Unit(n), poly);
  }

  lemma {:induction false} UnitNonzero(n: nat)
    requires n <= 31
    ensures Unit(n) != 0
  {
    hide Half, Odd, Up;
    if n > 0 {
      UnitNonzero(n - 1);
      HalfUnit(n - 1);
      assert Half(0) == 0 by { HalfZero(); }
    }
  }

  lemma HalfZero()
    ensures Half(0) == 0
  {
  }

  /** No column vanishes, because multiplication by x is invertible. */
  lemma ColumnNonzero(s: seq<bv32>, k: nat, poly: bv32)
    requires poly & 0x80000000 != 0 && Row(s, k, poly)
    ensures s[32 * k + 31] != 0
  {
    hide MulXn, Pow2, Unit;
    if MulXn(Unit(31), Pow2(k), poly) == 0 {
      MulXnZero(Pow2(k), poly);
      MulXnInjective(Unit(31), 0, Pow2(k), poly);
      UnitNonzero(31);
    }
  }

  lemma RowsKept(s: seq<bv32>, t: seq<bv32>, count: nat, poly: bv32)
    requires Rows(s, count, poly)
    requires 32 * count <= |s| == |t| && s[..32 * count] == t[..32 * count]
    ensures Rows(t, count, poly)
  {
    hide MulXn, Pow2, Unit;
    forall k | 0 <= k < count ensures Row(t, k, poly) {
      assert Row(s, k, poly);
      forall n | 0 <= n < 32 ensures t[32 * k + n] == MulXn(Unit(n), Pow2(k), poly) {
        assert s[..32 * count][32 * k + n] == t[..32 * count][32 * k + n];
      }
    }
  }

  /** gf32_compute_powers_generic; the last word is the one its closing assertion tests. */
  method ComputePowers(a: array<bv32>, poly: bv32)
    requires a.Length >= 32 && a.Length % 32 == 0
    requires poly & 0x80000000 != 0
    modifies a
    ensures Rows(a[..], a.Length / 32, poly)
    ensures a[a.Length - 1] != 0
  {
    hide MulXn, Pow2, Unit, Row;
    FirstRow(a, poly);
    var n := 1;
    assert Rows(a[..], 1, poly);
    while n < a.Length / 32
      invariant 1 <= n <= a.Length / 32
      invariant Rows(a[..], n, poly)
    {
      ghost var before := a[..];
      assert Row(before, n - 1, poly);
      Square(a, n - 1, poly);
      RowsKept(before, a[..], n, poly);
      assert Row(a[..], n, poly);
      n := n + 1;
    }
    assert Row(a[..], n - 1, poly);
    ColumnNonzero(a[..], n - 1, poly);
  }

  method FirstRow(a: array<bv32>, poly: bv32)
    requires a.Length >= 32
    modifies a
    ensures Row(a[..], 0, poly)
  {
    hide MulXn, Pow2;
    a[0] := poly;
    UnitStep(0, poly);
    var n := 0;
    var unit: bv32 := 1;
    while n < 31
      invariant 0 <= n <= 31 && unit == Unit(n)
      invariant forall i :: 0 <= i <= n ==> a[i] == MulXn(Unit(i), Pow2(0), poly)
    {
      a[n + 1] := unit;
      UnitStep(n + 1, poly);
      unit := Up(unit);
      n := n + 1;
    }
  }

  // ---------------------------------------------------------------- binary exponentiation

  /** gf32_combine_generic: moves a checksum over `len` zero bytes. */
  method Advance(a: array<bv32>, crc: bv32, len: nat) returns (r: bv32)
    requires a.Length == 32 * 67 && Rows(a[..], 67, POLY)
    requires len < Pow2(63)
    ensures r == MulXn(crc, 8 * len, POLY)
  {
    hide MulXn, Pow2, Row;
    r := crc;
    var k: nat, rest: nat := 3, len;
    Pow2Three();
    ghost var done: nat := 0;
    assert r == MulXn(crc, 0, POLY) by { MulXnNone(crc); }
    while true
      invariant 3 <= k < 66
      invariant rest < Pow2(66 - k)
      invariant done + rest * Pow2(k) == 8 * len
      invariant r == MulXn(crc, done, POLY)
      decreases rest
    {
      ghost var e := Pow2(k);
      DoublePow2(k);
      DoublePow2(65 - k);
      if rest % 2 == 1 {
        assert Row(a[..], k, POLY);
        RowTimes(a[..], k, POLY, r);
        assert a[..][32 * k..32 * k + 32] == a[32 * k..32 * k + 32];
        r := Times(a, 32 * k, r);
        MulXnAdd(crc, done, e, POLY);
        done := done + e;
      }
      HalfStep(rest, e);
      rest := rest / 2;
      k := k + 1;
      if rest == 0 { break; }
    }
  }

  lemma Pow2Three()
    ensures Pow2(3) == 8
    ensures Pow2(0) == 1
  {
  }

  lemma HalfStep(n: nat, e: nat)
    ensures n * e == n / 2 * (e + e) + (if n % 2 == 1 then e else 0)
  {
    assert n == n / 2 * 2 + n % 2;
    assert n / 2 * 2 * e == n / 2 * (e + e);
  }

  // ---------------------------------------------------------------- the combined checksum

  /** The table of powers that the first combination fills in. */
  class Combiner {
    const powers: array<bv32>

    ghost predicate Valid()
      reads this, powers
    {
      powers.Length == 32 * 67 &&
      (powers[32 * 67 - 1] != 0 ==> Rows(powers[..], 67, POLY))
    }

    constructor ()
      ensures Valid() && fresh(powers)
    {
      powers := new bv32[32 * 67](_ => 0);
    }

    /** compute_crc32_combine_generic */
    method Combine(crc1: bv32, crc2: bv32, len2: int) returns (r: bv32)
      requires Valid()
      requires len2 < Pow2(63)
      modifies powers
      ensures Valid()
      ensures r == if len2 <= 0 then crc1 else Xor(MulXn(crc1, 8 * len2, POLY), crc2)
      ensures forall a: seq<byte>, b: seq<byte> ::
                crc1 == Crc(a) && crc2 == Crc(b) && len2 == |b| ==> r == Crc(a + b)
    {
      hide Rows, Pow2, Xor, MulXn, Crc;
      if len2 <= 0 {
        r := crc1;
      } else {
        if powers[32 * 67 - 1] == 0 {
          assert POLY & 0x80000000 != 0;
          ComputePowers(powers, POLY);
        }
        r := Advance(powers, crc1, len2);
        r := Xor(r, crc2);
      }
      forall a: seq<byte>, b: seq<byte> | crc1 == Crc(a) && crc2 == Crc(b) && len2 == |b|
        ensures r == Crc(a + b)
      {
        if b == [] {
          assert a + b == a;
        } else {
          CrcConcat(a, b);
        }
      }
    }
  }
}
