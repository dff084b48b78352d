/**
 Arithmetic of polynomials over GF(2) modulo a polynomial of degree 32, in the reflected
 bit order of CRC-32: bit 31 stands for x^0 and bit 0 for x^31, so that multiplying by x
 is a right shift.

 The machine operations have names of their own (Xor, Half, Odd, Up); their laws are
 proved once from the bit vectors, and the algebra above them hides the bits.
 */
module Gf32 {

  const POLY: bv32 := 0xedb88320
  /** The polynomial 1. */
  const ONE: bv32 := 0x80000000
  /** The polynomial 1/x. */
  const X_INVERSE: bv32 := 0xdb710641

  function Xor(a: bv32, b: bv32): bv32 { a ^ b }
  function Half(a: bv32): bv32 { a >> 1 }
  function Up(a: bv32): bv32 { a << 1 }
  predicate Odd(a: bv32) { a & 1 != 0 }

  // ---------------------------------------------------------------- laws of the machine operations

  lemma XorAssoc(a: bv32, b: bv32, c: bv32)
    ensures Xor(Xor(a, b), c) == Xor(a, Xor(b, c))
  {
  }

  lemma XorComm(a: bv32, b: bv32)
    ensures Xor(a, b) == Xor(b, a)
  {
  }

  lemma XorZero(a: bv32)
    ensures Xor(a, 0) == a && Xor(0, a) == a && Xor(a, a) == 0
  {
  }

  lemma XorHalf(a: bv32, b: bv32)
    ensures Half(Xor(a, b)) == Xor(Half(a), Half(b))
  {
  }

  lemma LowBit(a: bv32)
    ensures a & 1 == 0 || a & 1 == 1
  {
  }

  lemma XorOdd(a: bv32, b: bv32)
    ensures Odd(Xor(a, b)) == (Odd(a) != Odd(b))
  {
    LowBit(a);
    LowBit(b);
    assert (a ^ b) & 1 == (a & 1) ^ (b & 1);
  }

  lemma XorUp(a: bv32, b: bv32)
    ensures Up(Xor(a, b)) == Xor(Up(a), Up(b))
  {
  }

  lemma SplitLowBit(v: bv32)
    ensures v == if Odd(v) then Xor(Up(Half(v)), 1) else Up(Half(v))
  {
    LowBit(v);
    assert v == ((v >> 1) << 1) ^ (v & 1);
  }

  lemma UpEven(v: bv32)
    ensures !Odd(Up(v))
  {
    assert (v << 1) & 1 == 0;
  }

  /** (a + b) + (c + d) == (a + c) + (b + d) */
  lemma XorSwap(a: bv32, b: bv32, c: bv32, d: bv32)
    ensures Xor(Xor(a, b), Xor(c, d)) == Xor(Xor(a, c), Xor(b, d))
  {
    hide Xor;
    XorAssoc(a, b, Xor(c, d));
    XorAssoc(b, c, d);
    XorComm(b, c);
    XorAssoc(c, b, d);
    XorAssoc(a, c, Xor(b, d));
  }

  /** (a + b) + b == a */
  lemma XorCancel(a: bv32, b: bv32)
    ensures Xor(Xor(a, b), b) == a
  {
    hide Xor;
    XorAssoc(a, b, b);
    XorZero(b);
    XorZero(a);
  }

  // ---------------------------------------------------------------- multiplication by powers of x

  /** gf32_mulx */
  function MulX(a: bv32, poly: bv32): bv32 {
    if Odd(a) then Xor(Half(a), poly) else Half(a)
  }

  /** Multiplication by x^n. */
  function MulXn(a: bv32, n: nat, poly: bv32): bv32
    decreases n
  {
    if n == 0 then a else MulX(MulXn(a, n - 1, poly), poly)
  }

  lemma MulXZero(poly: bv32)
    ensures MulX(0, poly) == 0
  {
  }

  lemma MulXLinear(a: bv32, b: bv32, poly: bv32)
    ensures MulX(Xor(a, b), poly) == Xor(MulX(a, poly), MulX(b, poly))
  {
    hide Xor, Half, Odd;
    var x, y := Half(a), Half(b);
    XorHalf(a, b);
    XorOdd(a, b);
    if Odd(a) && Odd(b) {
      XorSwap(x, poly, y, poly);
      XorZero(poly);
      XorZero(Xor(x, y));
    } else if Odd(a) {
      XorAssoc(x, poly, y);
      XorComm(poly, y);
      XorAssoc(x, y, poly);
    } else if Odd(b) {
      XorAssoc(x, y, poly);
    }
  }

  lemma {:induction false} MulXnLinear(a: bv32, b: bv32, n: nat, poly: bv32)
    ensures MulXn(Xor(a, b), n, poly) == Xor(MulXn(a, n, poly), MulXn(b, n, poly))
  {
    hide Xor, MulX;
    if n > 0 {
      MulXnLinear(a, b, n - 1, poly);
      MulXLinear(MulXn(a, n - 1, poly), MulXn(b, n - 1, poly), poly);
    }
  }

  lemma {:induction false} MulXnZero(n: nat, poly: bv32)
    ensures MulXn(0, n, poly) == 0
  {
    hide MulX;
    if n > 0 {
      MulXnZero(n - 1, poly);
      MulXZero(poly);
    }
  }

  lemma {:induction false} MulXnAdd(a: bv32, m: nat, n: nat, poly: bv32)
    ensures MulXn(MulXn(a, m, poly), n, poly) == MulXn(a, m + n, poly)
  {
    hide MulX;
    if n > 0 { MulXnAdd(a, m, n - 1, poly); }
  }

  lemma TopBit(a: bv32, poly: bv32)
    requires poly & 0x80000000 != 0
    ensures (Half(a) & 0x80000000) == 0
    ensures Xor(Half(a), poly) & 0x80000000 != 0
  {
    assert (a >> 1) & 0x80000000 == 0;
    assert ((a >> 1) ^ poly) & 0x80000000 == ((a >> 1) & 0x80000000) ^ (poly & 0x80000000);
    assert poly & 0x80000000 == 0x80000000;
  }

  lemma HalfAndLowBit(a: bv32, b: bv32)
    requires Half(a) == Half(b) && Odd(a) == Odd(b)
    ensures a == b
  {
    hide Half, Odd, Up, Xor;
    SplitLowBit(a);
    SplitLowBit(b);
  }

  /** A modulus with a constant term makes multiplication by x invertible. */
  lemma MulXInjective(a: bv32, b: bv32, poly: bv32)
    requires poly & 0x80000000 != 0
    requires MulX(a, poly) == MulX(b, poly)
    ensures a == b
  {
    hide Half, Odd, Xor;
    TopBit(a, poly);
    TopBit(b, poly);
    XorCancel(Half(a), poly);
    XorCancel(Half(b), poly);
    assert Odd(a) == Odd(b);
    HalfAndLowBit(a, b);
  }

  lemma {:induction false} MulXnInjective(a: bv32, b: bv32, n: nat, poly: bv32)
    requires poly & 0x80000000 != 0
    requires MulXn(a, n, poly) == MulXn(b, n, poly)
    ensures a == b
  {
    hide MulX;
    if n > 0 {
      MulXInjective(MulXn(a, n - 1, poly), MulXn(b, n - 1, poly), poly);
      MulXnInjective(a, b, n - 1, poly);
    }
  }

  // ---------------------------------------------------------------- linear maps and matrices

  /** f keeps the sum of a and b. */
  ghost predicate Additive(f: bv32 -> bv32, a: bv32, b: bv32) {
    f(Xor(a, b)) == Xor(f(a), f(b))
  }

  ghost predicate Linear(f: bv32 -> bv32) {
    forall a, b :: Additive(f, a, b)
  }

  lemma LinearZero(f: bv32 -> bv32)
    requires Linear(f)
    ensures f(0) == 0
  {
    hide Xor;
    XorZero(0);
    assert Additive(f, 0, 0);
    XorZero(f(0));
  }

  /** The word with only bit n set; 0 from 32 on. */
  function Unit(n: nat): bv32 {
    if n == 0 then 1 else Up(Unit(n - 1))
  }

  /** n right shifts by one. */
  function Shifted(v: bv32, n: nat): bv32
    decreases n
  {
    if n == 0 then v else Shifted(Half(v), n - 1)
  }

  lemma {:induction false} ShiftedAdd(v: bv32, m: nat, n: nat)
    ensures Shifted(Shifted(v, m), n) == Shifted(v, m + n)
    decreases m
  {
    hide Half;
    if m > 0 { ShiftedAdd(Half(v), m - 1, n); }
  }

  lemma ShiftTwice(v: bv32)
    ensures (v >> 1) >> 1 == v >> 2 && (v >> 2) >> 2 == v >> 4 && (v >> 4) >> 4 == v >> 8
    ensures (((v >> 8) >> 8) >> 8) >> 8 == 0
  {
  }

  lemma Shifted2(v: bv32)
    ensures Shifted(v, 2) == v >> 2
  {
    ShiftTwice(v);
    assert Shifted(v, 2) == Half(Half(v));
  }

  lemma Shifted8(v: bv32)
    ensures Shifted(v, 8) == v >> 8
  {
    hide Shifted;
    ShiftTwice(v);
    var w := v >> 4;
    assert Shifted(v, 4) == w by { Shifted4(v); }
    assert Shifted(w, 4) == w >> 4 by { Shifted4(w); }
    ShiftedAdd(v, 4, 4);
  }

  lemma Shifted4(v: bv32)
    ensures Shifted(v, 4) == v >> 4
  {
    hide Shifted;
    ShiftTwice(v);
    var w := v >> 2;
    Shifted2(v);
    Shifted2(w);
    ShiftedAdd(v, 2, 2);
  }

  /** 32 shifts leave nothing. */
  lemma Shifted32(v: bv32)
    ensures Shifted(v, 32) == 0
  {
    hide Shifted;
    var w1 := v >> 8;
    var w2 := w1 >> 8;
    var w3 := w2 >> 8;
    Shifted8(v);
    Shifted8(w1);
    ShiftedAdd(v, 8, 8);
    Shifted8(w2);
    ShiftedAdd(v, 16, 8);
    Shifted8(w3);
    ShiftedAdd(v, 24, 8);
    ShiftTwice(v);
  }

  /** gf32_matrix_times as a sum: column n is added when bit n of the vector is set. */
  function MatrixTimes(m: seq<bv32>, v: bv32): bv32
    decreases |m|
  {
    if v == 0 || m == [] then 0
    else if Odd(v) then Xor(m[0], MatrixTimes(m[1..], Half(v)))
    else MatrixTimes(m[1..], Half(v))
  }

  lemma LinearAt(f: bv32 -> bv32, a: bv32, b: bv32)
    requires Linear(f)
    ensures f(Xor(a, b)) == Xor(f(a), f(b))
  {
    hide Xor;
    assert Additive(f, a, b);
  }

  /** The map applied one bit position higher. */
  ghost function Higher(f: bv32 -> bv32): bv32 -> bv32 {
    (x: bv32) => f(Up(x))
  }

  lemma HigherLinear(f: bv32 -> bv32)
    requires Linear(f)
    ensures Linear(Higher(f))
  {
    hide Xor, Up;
    var g := Higher(f);
    forall a: bv32, b: bv32 ensures Additive(g, a, b) {
      XorUp(a, b);
      LinearAt(f, Up(a), Up(b));
    }
  }

  /** A matrix whose columns are the images of the unit words is the linear map itself. */
  lemma {:induction false} MatrixIsMap(m: seq<bv32>, f: bv32 -> bv32, v: bv32)
    requires Linear(f)
    requires forall n :: 0 <= n < |m| ==> m[n] == f(Unit(n))
    requires Shifted(v, |m|) == 0
    ensures MatrixTimes(m, v) == f(v)
    decreases |m|
  {
    hide Xor, Half, Odd, Up, Linear;
    LinearZero(f);
    if v != 0 && m != [] {
      var g, m' := Higher(f), m[1..];
      HigherLinear(f);
      forall n | 0 <= n < |m'| ensures m'[n] == g(Unit(n)) {
        assert m'[n] == m[n + 1];
      }
      MatrixIsMap(m', g, Half(v));
      SplitLowBit(v);
      LinearAt(f, Up(Half(v)), 1);
      XorComm(f(Up(Half(v))), m[0]);
    }
  }

  // ---------------------------------------------------------------- products and powers

  ghost predicate Bit(b: bv32, k: nat) {
    Odd(Shifted(b, k))
  }

  /** What gf32_mul has accumulated after k of its 32 rounds. */
  ghost function Accumulated(a: bv32, b: bv32, k: nat, poly: bv32): bv32
    decreases k
  {
    if k == 0 then 0
    else
      var x := MulX(Accumulated(a, b, k - 1, poly), poly);
      if Bit(b, k - 1) then Xor(x, a) else x
  }

  /** The product of two polynomials. */
  ghost function Mul(a: bv32, b: bv32, poly: bv32): bv32 {
    Accumulated(a, b, 32, poly)
  }

  /** gf32_mul */
  method GfMul(a: bv32, b: bv32, poly: bv32) returns (x: bv32)
    ensures x == Mul(a, b, poly)
  {
    hide Xor, Half, Odd, MulX;
    x := 0;
    var rest := b;
    var i := 0;
    while i < 32
      invariant 0 <= i <= 32
      invariant rest == Shifted(b, i)
      invariant x == Accumulated(a, b, i, poly)
    {
      x := MulX(x, poly);
      if Odd(rest) {
        x := Xor(x, a);
      }
      ShiftedAdd(b, i, 1);
      rest := Half(rest);
      i := i + 1;
    }
  }

  lemma {:induction false} AccumulatedMulX(a: bv32, b: bv32, k: nat, poly: bv32)
    ensures Accumulated(MulX(a, poly), b, k, poly) == MulX(Accumulated(a, b, k, poly), poly)
  {
    hide Xor, MulX, Bit;
    MulXZero(poly);
    if k > 0 {
      AccumulatedMulX(a, b, k - 1, poly);
      MulXLinear(MulX(Accumulated(a, b, k - 1, poly), poly), a, poly);
    }
  }

  /** Multiplying a factor by x^n multiplies the product by x^n. */
  lemma {:induction false} MulShift(a: bv32, b: bv32, n: nat, poly: bv32)
    ensures Mul(MulXn(a, n, poly), b, poly) == MulXn(Mul(a, b, poly), n, poly)
  {
    hide MulX, Accumulated;
    if n > 0 {
      MulShift(a, b, n - 1, poly);
      AccumulatedMulX(MulXn(a, n - 1, poly), b, 32, poly);
    }
  }

  // ---------------------------------------------------------------- unit words

  function Ups(v: bv32, j: nat): bv32 {
    if j == 0 then v else Up(Ups(v, j - 1))
  }

  lemma ShiftAnd(a: bv32, b: bv32)
    ensures (a << 1) & (b << 1) == (a & b) << 1
  {
  }

  lemma UpAnd(a: bv32, b: bv32)
    ensures Up(a) & Up(b) == Up(a & b)
  {
    ShiftAnd(a, b);
    var u, v, w := Up(a), Up(b), Up(a & b);
    assert u == a << 1;
    assert v == b << 1;
    assert w == (a & b) << 1;
  }

  /** Shifting all ones further left only clears bits. */
  lemma {:induction false} UpsShrink(j: nat)
    ensures Ups(0xffffffff, j + 1) & Ups(0xffffffff, j) == Ups(0xffffffff, j + 1)
  {
    if j == 0 {
      assert Ups(0xffffffff, 1) == 0xfffffffe;
    } else {
      hide Up;
      UpsShrink(j - 1);
      UpAnd(Ups(0xffffffff, j), Ups(0xffffffff, j - 1));
    }
  }

  lemma Ups31()
    ensures Ups(0xffffffff, 31) == 0x80000000
  {
    assert Ups(0xffffffff, 8) == 0xffffff00;
    assert Ups(0xffffffff, 16) == 0xffff0000;
    assert Ups(0xffffffff, 24) == 0xff000000;
  }

  lemma {:induction false} UpsTop(j: nat)
    requires j <= 31
    ensures Ups(0xffffffff, j) & 0x80000000 == 0x80000000
    decreases 31 - j
  {
    if j == 31 {
      Ups31();
    } else {
      hide Ups;
      UpsTop(j + 1);
      UpsShrink(j);
    }
  }

  lemma {:induction false} UnitLow(n: nat)
    ensures Unit(n) & Ups(0xffffffff, n + 1) == 0
  {
    if n == 0 {
      assert Ups(0xffffffff, 1) == 0xfffffffe;
    } else {
      hide Up;
      UnitLow(n - 1);
      UpAnd(Unit(n - 1), Ups(0xffffffff, n));
      assert Up(0) == 0;
    }
  }

  lemma HalfUp(u: bv32, m: bv32)
    requires u & m == 0 && m & 0x80000000 == 0x80000000
    ensures Half(Up(u)) == u
  {
    assert u & 0x80000000 == 0;
    assert (u << 1) >> 1 == u & 0x7fffffff;
  }

  lemma HalfUnit(n: nat)
    requires n <= 30
    ensures Half(Unit(n + 1)) == Unit(n) && !Odd(Unit(n + 1))
  {
    hide Half, Odd, Up, Ups;
    UnitLow(n);
    UpsTop(n + 1);
    HalfUp(Unit(n), Ups(0xffffffff, n + 1));
    UpEven(Unit(n));
  }

  lemma Unit31()
    ensures Unit(31) == ONE
  {
    assert Unit(8) == 0x100;
    assert Unit(16) == 0x10000;
    assert Unit(24) == 0x1000000;
  }
}
