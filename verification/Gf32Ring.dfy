/** The product of gf32_mul is that of a commutative ring with unit, and gf32_pow raises to
    a power in it. */
module Gf32Ring {
  import opened Gf32

  // ---------------------------------------------------------------- bits of unit words

  lemma {:induction false} ShiftedZero(k: nat)
    ensures Shifted(0, k) == 0
  {
    if k > 0 { ShiftedZero(k - 1); }
  }

  lemma {:induction false} UnitBit(n: nat, k: nat)
    requires n <= 31
    ensures Bit(Unit(n), k) <==> k == n
    decreases k
  {
    if n == 0 {
      if k > 0 {
        assert Shifted(1, k) == Shifted(0, k - 1);
        ShiftedZero(k - 1);
      }
    } else {
      hide Half, Odd, Unit;
      HalfUnit(n - 1);
      if k > 0 { UnitBit(n - 1, k - 1); }
    }
  }

  /** x^j is a unit word as long as no reduction happens. */
  lemma {:induction false} PowerOfX(j: nat, poly: bv32)
    requires j <= 31
    ensures MulXn(ONE, j, poly) == Unit(31 - j)
  {
    hide Half, Odd, Unit;
    if j == 0 {
      Unit31();
    } else {
      PowerOfX(j - 1, poly);
      HalfUnit(31 - j);
    }
  }

  // ---------------------------------------------------------------- bilinearity

  lemma {:induction false} ShiftedXor(b: bv32, c: bv32, k: nat)
    ensures Shifted(Xor(b, c), k) == Xor(Shifted(b, k), Shifted(c, k))
    decreases k
  {
    hide Xor, Half;
    if k > 0 {
      XorHalf(b, c);
      ShiftedXor(Half(b), Half(c), k - 1);
    }
  }

  lemma BitXor(b: bv32, c: bv32, k: nat)
    ensures Bit(Xor(b, c), k) == (Bit(b, k) != Bit(c, k))
  {
    hide Xor, Odd, Shifted;
    ShiftedXor(b, c, k);
    XorOdd(Shifted(b, k), Shifted(c, k));
  }

  lemma {:induction false} AccumulatedXor(a: bv32, b: bv32, c: bv32, k: nat, poly: bv32)
    ensures Accumulated(a, Xor(b, c), k, poly) == Xor(Accumulated(a, b, k, poly), Accumulated(a, c, k, poly))
  {
    hide Xor, MulX, Bit;
    if k == 0 {
      XorZero(0);
    } else {
      AccumulatedXor(a, b, c, k - 1, poly);
      var x, y := Accumulated(a, b, k - 1, poly), Accumulated(a, c, k - 1, poly);
      var x', y' := MulX(x, poly), MulX(y, poly);
      MulXLinear(x, y, poly);
      BitXor(b, c, k - 1);
      AddBits(x', y', a, Bit(b, k - 1), Bit(c, k - 1));
    }
  }

  ghost function AddIf(x: bv32, a: bv32, bit: bool): bv32 {
    if bit then Xor(x, a) else x
  }

  lemma AddBits(x: bv32, y: bv32, a: bv32, p: bool, q: bool)
    ensures AddIf(Xor(x, y), a, p != q) == Xor(AddIf(x, a, p), AddIf(y, a, q))
  {
    hide Xor;
    if p && q {
      XorSwap(x, a, y, a);
      XorZero(a);
      XorZero(Xor(x, y));
    } else if p {
      XorAssoc(x, a, y);
      XorComm(a, y);
      XorAssoc(x, y, a);
    } else if q {
      XorAssoc(x, y, a);
    }
  }

  ghost function TimesLeft(a: bv32, poly: bv32): bv32 -> bv32 {
    (b: bv32) => Mul(a, b, poly)
  }

  lemma TimesLeftLinear(a: bv32, poly: bv32)
    ensures Linear(TimesLeft(a, poly))
  {
    hide Xor, Accumulated;
    forall b: bv32, c: bv32
      ensures Additive(TimesLeft(a, poly), b, c)
    {
      AccumulatedXor(a, b, c, 32, poly);
    }
  }

  lemma {:induction false} AccumulatedUnit(a: bv32, n: nat, k: nat, poly: bv32)
    requires n <= 31
    ensures Accumulated(a, Unit(n), k, poly) == if k <= n then 0 else MulXn(a, k - 1 - n, poly)
  {
    hide Xor, MulX, Bit, Unit;
    if k > 0 {
      AccumulatedUnit(a, n, k - 1, poly);
      UnitBit(n, k - 1);
      MulXZero(poly);
      XorZero(a);
    }
  }

  lemma MulUnit(a: bv32, n: nat, poly: bv32)
    requires n <= 31
    ensures Mul(a, Unit(n), poly) == MulXn(a, 31 - n, poly)
  {
    AccumulatedUnit(a, n, 32, poly);
  }

  // ---------------------------------------------------------------- equality of linear maps

  /** Two linear maps that agree on the 32 unit words are equal. */
  lemma SameOnUnits(f: bv32 -> bv32, g: bv32 -> bv32, v: bv32)
    requires Linear(f) && Linear(g)
    requires forall n :: 0 <= n <= 31 ==> f(Unit(n)) == g(Unit(n))
    ensures f(v) == g(v)
  {
    hide Linear, Shifted, Unit, MatrixTimes;
    var m := seq(32, n requires 0 <= n < 32 => f(Unit(n)));
    Shifted32(v);
    MatrixIsMap(m, f, v);
    MatrixIsMap(m, g, v);
  }

  ghost function Same(): bv32 -> bv32 {
    (b: bv32) => b
  }

  lemma SameLinear()
    ensures Linear(Same())
  {
  }

  lemma MulOneLeft(b: bv32, poly: bv32)
    ensures Mul(ONE, b, poly) == b
  {
    hide Linear, Accumulated, Unit, MulXn;
    TimesLeftLinear(ONE, poly);
    SameLinear();
    forall n | 0 <= n <= 31 ensures TimesLeft(ONE, poly)(Unit(n)) == Same()(Unit(n)) {
      MulUnit(ONE, n, poly);
      PowerOfX(31 - n, poly);
    }
    SameOnUnits(TimesLeft(ONE, poly), Same(), b);
  }

  lemma MulOneRight(a: bv32, poly: bv32)
    ensures Mul(a, ONE, poly) == a
  {
    hide Accumulated, Unit;
    Unit31();
    MulUnit(a, 31, poly);
  }

  /** x^n times b is b shifted n times. */
  lemma MulPowerOfX(n: nat, b: bv32, poly: bv32)
    ensures Mul(MulXn(ONE, n, poly), b, poly) == MulXn(b, n, poly)
  {
    hide Accumulated, MulXn;
    MulShift(ONE, b, n, poly);
    MulOneLeft(b, poly);
  }

  // ---------------------------------------------------------------- commutativity and associativity

  lemma MulUnitComm(n: nat, b: bv32, poly: bv32)
    requires n <= 31
    ensures Mul(Unit(n), b, poly) == Mul(b, Unit(n), poly)
  {
    hide Accumulated, Unit, MulXn;
    MulUnit(b, n, poly);
    PowerOfX(31 - n, poly);
    MulPowerOfX(31 - n, b, poly);
  }

  ghost function TimesRight(b: bv32, poly: bv32): bv32 -> bv32 {
    (a: bv32) => Mul(a, b, poly)
  }

  lemma {:induction false} AccumulatedXorLeft(a: bv32, b: bv32, c: bv32, k: nat, poly: bv32)
    ensures Accumulated(Xor(a, b), c, k, poly) == Xor(Accumulated(a, c, k, poly), Accumulated(b, c, k, poly))
  {
    hide Xor, MulX, Bit;
    if k == 0 {
      XorZero(0);
    } else {
      AccumulatedXorLeft(a, b, c, k - 1, poly);
      var x, y := Accumulated(a, c, k - 1, poly), Accumulated(b, c, k - 1, poly);
      MulXLinear(x, y, poly);
      XorSwap(MulX(x, poly), a, MulX(y, poly), b);
    }
  }

  lemma TimesRightLinear(b: bv32, poly: bv32)
    ensures Linear(TimesRight(b, poly))
  {
    hide Xor, Accumulated;
    forall a: bv32, c: bv32
      ensures Additive(TimesRight(b, poly), a, c)
    {
      AccumulatedXorLeft(a, c, b, 32, poly);
    }
  }

  lemma MulComm(a: bv32, b: bv32, poly: bv32)
    ensures Mul(a, b, poly) == Mul(b, a, poly)
  {
    hide Linear, Accumulated, Unit, Mul;
    TimesRightLinear(b, poly);
    TimesLeftLinear(b, poly);
    forall n | 0 <= n <= 31 ensures TimesRight(b, poly)(Unit(n)) == TimesLeft(b, poly)(Unit(n)) {
      MulUnitComm(n, b, poly);
    }
    SameOnUnits(TimesRight(b, poly), TimesLeft(b, poly), a);
  }

  ghost function TimesTwice(a: bv32, b: bv32, poly: bv32): bv32 -> bv32 {
    (c: bv32) => Mul(a, Mul(b, c, poly), poly)
  }

  lemma TimesTwiceLinear(a: bv32, b: bv32, poly: bv32)
    ensures Linear(TimesTwice(a, b, poly))
  {
    hide Xor, Accumulated, Mul;
    forall c: bv32, d: bv32
      ensures Additive(TimesTwice(a, b, poly), c, d)
    {
      TimesLeftLinear(b, poly);
      LinearAt(TimesLeft(b, poly), c, d);
      TimesLeftLinear(a, poly);
      LinearAt(TimesLeft(a, poly), Mul(b, c, poly), Mul(b, d, poly));
    }
  }

  lemma MulAssoc(a: bv32, b: bv32, c: bv32, poly: bv32)
    ensures Mul(Mul(a, b, poly), c, poly) == Mul(a, Mul(b, c, poly), poly)
  {
    hide Linear, Accumulated, Unit, Mul, MulXn;
    TimesLeftLinear(Mul(a, b, poly), poly);
    TimesTwiceLinear(a, b, poly);
    forall n | 0 <= n <= 31
      ensures TimesLeft(Mul(a, b, poly), poly)(Unit(n)) == TimesTwice(a, b, poly)(Unit(n))
    {
      MulUnit(Mul(a, b, poly), n, poly);
      MulUnit(b, n, poly);
      MulComm(a, MulXn(b, 31 - n, poly), poly);
      MulShift(b, a, 31 - n, poly);
      MulComm(a, b, poly);
    }
    SameOnUnits(TimesLeft(Mul(a, b, poly), poly), TimesTwice(a, b, poly), c);
  }

  // ---------------------------------------------------------------- powers

  /** a multiplied by itself k times. */
  ghost function Power(a: bv32, k: nat, poly: bv32): bv32 {
    if k == 0 then ONE else Mul(Power(a, k - 1, poly), a, poly)
  }

  lemma {:induction false} PowerAdd(a: bv32, m: nat, n: nat, poly: bv32)
    ensures Power(a, m + n, poly) == Mul(Power(a, m, poly), Power(a, n, poly), poly)
  {
    hide Mul;
    if n == 0 {
      MulOneRight(Power(a, m, poly), poly);
    } else {
      PowerAdd(a, m, n - 1, poly);
      MulAssoc(Power(a, m, poly), Power(a, n - 1, poly), a, poly);
    }
  }

  /** Squaring the base halves the exponent. */
  lemma {:induction false} PowerSquare(a: bv32, k: nat, poly: bv32)
    ensures Power(Mul(a, a, poly), k, poly) == Power(a, 2 * k, poly)
  {
    hide Mul;
    if k > 0 {
      PowerSquare(a, k - 1, poly);
      MulAssoc(Power(a, 2 * k - 2, poly), a, a, poly);
    }
  }

  /** gf32_pow: repeated squaring computes the k-fold product. */
  method GfPow(a: bv32, k: nat, poly: bv32) returns (x: bv32)
    ensures x == Power(a, k, poly)
    decreases k
  {
    hide Mul;
    if k == 0 {
      return ONE;
    }
    var square := GfMul(a, a, poly);
    x := GfPow(square, k / 2, poly);
    PowerSquare(a, k / 2, poly);
    if k % 2 == 1 {
      x := GfMul(x, a, poly);
    }
  }

  /** The powers of x are the iterated multiplications by x. */
  lemma {:induction false} PowerOfInverse(a: bv32, k: nat, poly: bv32)
    requires MulX(a, poly) == ONE
    ensures MulXn(Power(a, k, poly), k, poly) == ONE
  {
    hide Mul, MulX;
    if k > 0 {
      var p := Power(a, k - 1, poly);
      PowerOfInverse(a, k - 1, poly);
      MulComm(p, a, poly);
      assert MulXn(Mul(p, a, poly), 1, poly) == p by {
        MulShift(a, p, 1, poly);
        assert MulXn(a, 1, poly) == ONE;
        MulOneLeft(p, poly);
      }
      MulXnAdd(Mul(p, a, poly), 1, k - 1, poly);
    }
  }
}
