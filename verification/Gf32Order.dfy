/**
 The powers of x modulo the CRC-32 polynomial repeat only after 2^32 - 1 steps: the polynomial
 is primitive. 2^32 - 1 = 3 * 5 * 17 * 257 * 65537, and x is not 1 at any of the five largest
 proper divisors.
 */
module Gf32Order {
  import opened Gf32
  import opened Gf32Ring
  import opened Arithmetic

  const ORDER: nat := 0xffffffff

  /** x^e modulo the CRC-32 polynomial. */
  ghost function X(e: nat): bv32 {
    MulXn(ONE, e, POLY)
  }

  // ---------------------------------------------------------------- products of literal words

  /** One round of gf32_mul. */
  ghost function Round(x: bv32, a: bv32, b: bv32): bv32 {
    if b & 1 != 0 then
      if x & 1 != 0 then ((x >> 1) ^ 0xedb88320) ^ a else (x >> 1) ^ a
    else
      if x & 1 != 0 then (x >> 1) ^ 0xedb88320 else x >> 1
  }

  lemma RoundCases(x: bv32, a: bv32, b: bv32)
    ensures b & 1 != 0 && x & 1 != 0 ==> Round(x, a, b) == ((x >> 1) ^ 0xedb88320) ^ a
    ensures b & 1 != 0 && x & 1 == 0 ==> Round(x, a, b) == (x >> 1) ^ a
    ensures b & 1 == 0 && x & 1 != 0 ==> Round(x, a, b) == (x >> 1) ^ 0xedb88320
    ensures b & 1 == 0 && x & 1 == 0 ==> Round(x, a, b) == x >> 1
  {
  }

  lemma Names(x: bv32, a: bv32)
    ensures Odd(x) == (x & 1 != 0)
    ensures Xor(Half(x), POLY) == (x >> 1) ^ 0xedb88320 && Half(x) == x >> 1
    ensures Xor(Xor(Half(x), POLY), a) == ((x >> 1) ^ 0xedb88320) ^ a
    ensures Xor(Half(x), a) == (x >> 1) ^ a
  {
  }

  lemma RoundAdds(x: bv32, a: bv32, b: bv32)
    ensures Round(x, a, b) == AddIf(MulX(x, POLY), a, Odd(b))
  {
    hide Round, Odd, Xor, Half;
    RoundCases(x, a, b);
    Names(x, a);
    Names(b, a);
  }

  /** Eight rounds written out, so that literal arguments give a literal result. */
  ghost function Rounds8(x: bv32, a: bv32, b: bv32): bv32 {
    var x1 := Round(x, a, b);
    var b1 := Half(b);
    var x2 := Round(x1, a, b1);
    var b2 := Half(b1);
    var x3 := Round(x2, a, b2);
    var b3 := Half(b2);
    var x4 := Round(x3, a, b3);
    var b4 := Half(b3);
    var x5 := Round(x4, a, b4);
    var b5 := Half(b4);
    var x6 := Round(x5, a, b5);
    var b6 := Half(b5);
    var x7 := Round(x6, a, b6);
    Round(x7, a, Half(b6))
  }

  ghost function Half8(b: bv32): bv32 {
    Half(Half(Half(Half(Half(Half(Half(Half(b))))))))
  }

  ghost function Prod(a: bv32, b: bv32): bv32 {
    var b1 := Half8(b);
    var b2 := Half8(b1);
    Rounds8(Rounds8(Rounds8(Rounds8(0, a, b), a, b1), a, b2), a, Half8(b2))
  }

  lemma RoundStep(a: bv32, b: bv32, k: nat)
    ensures Accumulated(a, b, k + 1, POLY) == AddIf(MulX(Accumulated(a, b, k, POLY), POLY), a, Odd(Shifted(b, k)))
    ensures Shifted(b, k + 1) == Half(Shifted(b, k))
  {
    hide Xor, MulX, Odd, Half;
    ShiftedAdd(b, k, 1);
    assert Shifted(Shifted(b, k), 1) == Half(Shifted(b, k));
  }

  lemma Rounds8Step(a: bv32, b: bv32, k: nat)
    ensures Accumulated(a, b, k + 8, POLY) == Rounds8(Accumulated(a, b, k, POLY), a, Shifted(b, k))
    ensures Shifted(b, k + 8) == Half8(Shifted(b, k))
  {
    hide Accumulated, Shifted, Round, Half, MulX, AddIf, Odd;
    RoundStep(a, b, k);
    RoundAdds(Accumulated(a, b, k, POLY), a, Shifted(b, k));
    RoundStep(a, b, k + 1);
    RoundAdds(Accumulated(a, b, k + 1, POLY), a, Shifted(b, k + 1));
    RoundStep(a, b, k + 2);
    RoundAdds(Accumulated(a, b, k + 2, POLY), a, Shifted(b, k + 2));
    RoundStep(a, b, k + 3);
    RoundAdds(Accumulated(a, b, k + 3, POLY), a, Shifted(b, k + 3));
    RoundStep(a, b, k + 4);
    RoundAdds(Accumulated(a, b, k + 4, POLY), a, Shifted(b, k + 4));
    RoundStep(a, b, k + 5);
    RoundAdds(Accumulated(a, b, k + 5, POLY), a, Shifted(b, k + 5));
    RoundStep(a, b, k + 6);
    RoundAdds(Accumulated(a, b, k + 6, POLY), a, Shifted(b, k + 6));
    RoundStep(a, b, k + 7);
    RoundAdds(Accumulated(a, b, k + 7, POLY), a, Shifted(b, k + 7));
  }

  lemma ProdIsMul(a: bv32, b: bv32)
    ensures Prod(a, b) == Mul(a, b, POLY)
  {
    hide Accumulated, Shifted, Rounds8, Half8;
    assert Accumulated(a, b, 0, POLY) == 0 && Shifted(b, 0) == b by { Start(a, b); }
    Rounds8Step(a, b, 0);
    Rounds8Step(a, b, 8);
    Rounds8Step(a, b, 16);
    Rounds8Step(a, b, 24);
  }

  lemma Start(a: bv32, b: bv32)
    ensures Accumulated(a, b, 0, POLY) == 0 && Shifted(b, 0) == b
  {
  }

  /** Exponents add up. */
  lemma Product(m: nat, n: nat, u: bv32, v: bv32, w: bv32)
    requires X(m) == u && X(n) == v && Prod(u, v) == w
    ensures X(m + n) == w
  {
    hide Prod, Mul, MulXn;
    ProdIsMul(u, v);
    MulPowerOfX(m, v, POLY);
    MulXnAdd(ONE, n, m, POLY);
  }

  lemma SmallPower()
    ensures X(1) == 0x40000000 && X(0xf) == 0x00010000 && X(0x10) == 0x00008000 && X(0x1e) == 0x2
  {
    hide Unit;
    PowerOfX(1, POLY);
    PowerOfX(15, POLY);
    PowerOfX(16, POLY);
    PowerOfX(30, POLY);
    Units();
  }

  lemma Units()
    ensures Unit(30) == 0x40000000 && Unit(16) == 0x00010000 && Unit(15) == 0x00008000 && Unit(1) == 0x2
  {
    assert Unit(8) == 0x100;
    assert Unit(15) == 0x8000;
    assert Unit(22) == 0x400000;
  }

  // ---------------------------------------------------------------- the powers that matter

  lemma Squares4()
    ensures X(0x100) == 0xed627dae
  {
    hide X;
    SmallPower();
    Product(0x10, 0x10, 0x00008000, 0x00008000, 0xedb88320);
    Product(0x20, 0x20, 0xedb88320, 0xedb88320, 0xb1e6b092);
    Product(0x40, 0x40, 0xb1e6b092, 0xb1e6b092, 0xa06a2517);
    Product(0x80, 0x80, 0xa06a2517, 0xa06a2517, 0xed627dae);
  }

  lemma Squares8()
    ensures X(0x1000) == 0x8e7ea170
  {
    hide X;
    Squares4();
    Product(0x100, 0x100, 0xed627dae, 0xed627dae, 0x88d14467);
    Product(0x200, 0x200, 0x88d14467, 0x88d14467, 0xd7bbfe6a);
    Product(0x400, 0x400, 0xd7bbfe6a, 0xd7bbfe6a, 0xec447f11);
    Product(0x800, 0x800, 0xec447f11, 0xec447f11, 0x8e7ea170);
  }

  lemma Squares12()
    ensures X(0x10000) == 0x83852d0f
  {
    hide X;
    Squares8();
    Product(0x1000, 0x1000, 0x8e7ea170, 0x8e7ea170, 0x6427800e);
    Product(0x2000, 0x2000, 0x6427800e, 0x6427800e, 0x4d47bae0);
    Product(0x4000, 0x4000, 0x4d47bae0, 0x4d47bae0, 0x09fe548f);
    Product(0x8000, 0x8000, 0x09fe548f, 0x09fe548f, 0x83852d0f);
  }

  lemma Squares16()
    ensures X(0x100000) == 0x9fec022a
  {
    hide X;
    Squares12();
    Product(0x10000, 0x10000, 0x83852d0f, 0x83852d0f, 0x30362f1a);
    Product(0x20000, 0x20000, 0x30362f1a, 0x30362f1a, 0x7b5a9cc3);
    Product(0x40000, 0x40000, 0x7b5a9cc3, 0x7b5a9cc3, 0x31fec169);
    Product(0x80000, 0x80000, 0x31fec169, 0x31fec169, 0x9fec022a);
  }

  lemma Squares20()
    ensures X(0x1000000) == 0xbad90e37
  {
    hide X;
    Squares16();
    Product(0x100000, 0x100000, 0x9fec022a, 0x9fec022a, 0x6c8dedc4);
    Product(0x200000, 0x200000, 0x6c8dedc4, 0x6c8dedc4, 0x15d6874d);
    Product(0x400000, 0x400000, 0x15d6874d, 0x15d6874d, 0x5fde7a4e);
    Product(0x800000, 0x800000, 0x5fde7a4e, 0x5fde7a4e, 0xbad90e37);
  }

  lemma Half16()
    ensures X(0x10001) == 0xac7a15a7
    ensures X(0x1010101) == 0x316b5ba1
  {
    hide X;
    Squares12();
    Squares4();
    Squares20();
    SmallPower();
    Product(0x10000, 0x1, 0x83852d0f, 0x40000000, 0xac7a15a7);
    Product(0x1000000, 0x100, 0xbad90e37, 0xed627dae, 0x4630d51a);
    Product(0x10001, 0x1000100, 0xac7a15a7, 0x4630d51a, 0x316b5ba1);
  }

  lemma Multiples()
    ensures X(0x2020202) == 0x5b219b1c
    ensures X(0x4040404) == 0xaebf57a4
    ensures X(0x8080808) == 0x7db7e260
    ensures X(0x10101010) == 0x0c283ca0
  {
    hide X;
    Half16();
    Product(0x1010101, 0x1010101, 0x316b5ba1, 0x316b5ba1, 0x5b219b1c);
    Product(0x2020202, 0x2020202, 0x5b219b1c, 0x5b219b1c, 0xaebf57a4);
    Product(0x4040404, 0x4040404, 0xaebf57a4, 0xaebf57a4, 0x7db7e260);
    Product(0x8080808, 0x8080808, 0x7db7e260, 0x7db7e260, 0x0c283ca0);
  }

  lemma Order5()
    ensures X(0x11111111) == 0x3d436701
    ensures X(0x22222222) == 0xfa758c53
    ensures X(0x33333333) == 0x84011278
  {
    hide X;
    Multiples();
    Half16();
    Product(0x10101010, 0x1010101, 0x0c283ca0, 0x316b5ba1, 0x3d436701);
    Product(0x11111111, 0x11111111, 0x3d436701, 0x3d436701, 0xfa758c53);
    Product(0x22222222, 0x11111111, 0xfa758c53, 0x3d436701, 0x84011278);
  }

  lemma Order3()
    ensures X(0x55555555) == 0xc736eb52
  {
    hide X;
    Order5();
    Product(0x22222222, 0x22222222, 0xfa758c53, 0xfa758c53, 0xbd436701);
    Product(0x44444444, 0x11111111, 0xbd436701, 0x3d436701, 0xc736eb52);
  }

  lemma OrderAll()
    ensures X(0xffffffff) == 0x80000000
  {
    hide X;
    Order3();
    Product(0x55555555, 0x55555555, 0xc736eb52, 0xc736eb52, 0x4736eb52);
    Product(0xaaaaaaaa, 0x55555555, 0x4736eb52, 0xc736eb52, 0x80000000);
  }

  lemma Order17()
    ensures X(0xf0f0f0f) == 0x8c283ca0
  {
    hide X;
    Multiples();
    Half16();
    Product(0x2020202, 0x1010101, 0x5b219b1c, 0x316b5ba1, 0x8b030439);
    Product(0x8080808, 0x4040404, 0x7db7e260, 0xaebf57a4, 0x1f3d5aaf);
    Product(0xc0c0c0c, 0x3030303, 0x1f3d5aaf, 0x8b030439, 0x8c283ca0);
  }

  lemma Multiples15()
    ensures X(0xf000f) == 0x28545337
  {
    hide X;
    Half16();
    Product(0x10001, 0x10001, 0xac7a15a7, 0xac7a15a7, 0xe1b508e6);
    Product(0x20002, 0x10001, 0xe1b508e6, 0xac7a15a7, 0xc8986d7d);
    Product(0x30003, 0x30003, 0xc8986d7d, 0xc8986d7d, 0xdbbce6a9);
    Product(0x60006, 0x60006, 0xdbbce6a9, 0xdbbce6a9, 0x8fac3b58);
    Product(0xc000c, 0x30003, 0x8fac3b58, 0xc8986d7d, 0x28545337);
  }

  lemma Order257()
    ensures X(0xff00ff) == 0x351c22c9
  {
    hide X;
    Multiples15();
    Product(0xf000f, 0xf000f, 0x28545337, 0x28545337, 0xe51741c2);
    Product(0x1e001e, 0x1e001e, 0xe51741c2, 0xe51741c2, 0xbdb635ef);
    Product(0x3c003c, 0x3c003c, 0xbdb635ef, 0xbdb635ef, 0x3878d0af);
    Product(0x780078, 0x780078, 0x3878d0af, 0x3878d0af, 0xffa85b1d);
    Product(0xf000f0, 0xf000f, 0xffa85b1d, 0x28545337, 0x351c22c9);
  }

  lemma Multiples255()
    ensures X(0xff) == 0x01b5fd1d
  {
    hide X;
    SmallPower();
    Product(0x1e, 0x1e, 0x00000002, 0x00000002, 0xc5b428ef);
    Product(0x3c, 0x3c, 0xc5b428ef, 0xc5b428ef, 0x60c76fe0);
    Product(0x78, 0x78, 0x60c76fe0, 0x60c76fe0, 0x9e36506b);
    Product(0xf0, 0xf, 0x9e36506b, 0x00010000, 0x01b5fd1d);
  }

  lemma Shift4()
    ensures X(0xff0) == 0xf4e5307f
  {
    hide X;
    Multiples255();
    Product(0xff, 0xff, 0x01b5fd1d, 0x01b5fd1d, 0x4ed61b5f);
    Product(0x1fe, 0x1fe, 0x4ed61b5f, 0x4ed61b5f, 0x16d5d82a);
    Product(0x3fc, 0x3fc, 0x16d5d82a, 0x16d5d82a, 0x278d37c1);
    Product(0x7f8, 0x7f8, 0x278d37c1, 0x278d37c1, 0xf4e5307f);
  }

  lemma Order65537()
    ensures X(0xffff) == 0xdc7b5c5f
  {
    hide X;
    Shift4();
    Multiples255();
    Product(0xff0, 0xff0, 0xf4e5307f, 0xf4e5307f, 0x5df97b6b);
    Product(0x1fe0, 0x1fe0, 0x5df97b6b, 0x5df97b6b, 0x8ccf5292);
    Product(0x3fc0, 0x3fc0, 0x8ccf5292, 0x8ccf5292, 0xba1c8c47);
    Product(0x7f80, 0x7f80, 0xba1c8c47, 0xba1c8c47, 0x3ef534d3);
    Product(0xff00, 0xff, 0x3ef534d3, 0x01b5fd1d, 0xdc7b5c5f);
  }

  // ---------------------------------------------------------------- the five primes

  /** No odd number from d on divides p, up to the square root. */
  predicate NoDivisor(p: nat, d: nat)
    requires d >= 1
    decreases p - d
  {
    d * d > p || d >= p || (p % d != 0 && NoDivisor(p, d + 2))
  }

  ghost predicate Prime(p: nat) {
    p > 1 && forall d, e :: d > 1 && e > 1 ==> d * e != p
  }

  lemma {:induction false} NoSmallFactor(p: nat, from: nat, d: nat, e: nat)
    requires 1 < from <= d <= e && d * e == p && NoDivisor(p, from)
    requires from % 2 == 1 && d % 2 == 1
    ensures false
    decreases d - from
  {
    Dominates(from, d, e);
    if from < d {
      NoSmallFactor(p, from + 2, d, e);
    } else {
      ModProduct(d, e);
    }
  }

  lemma OddFactor(d: nat, e: nat)
    requires d * e % 2 == 1
    ensures d % 2 == 1
  {
    var h := d / 2;
    assert 2 * h * e == 2 * (h * e);
  }

  lemma Dominates(f: nat, d: nat, e: nat)
    requires 1 < f <= d <= e
    ensures f * f <= d * e && f < d * e
  {
    assert f * f <= d * f by { MulMono(f, d, f); }
    assert d * f <= d * e by { MulMono(f, e, d); }
    assert f * 2 <= f * f by { MulMono(2, f, f); }
  }

  /** A multiple of d has no remainder. */
  lemma ModProduct(d: nat, e: nat)
    requires d > 0
    ensures d * e % d == 0
  {
    var q, r := d * e / d, d * e % d;
    assert d * e == d * q + r;
    assert r == d * (e - q);
    if e > q { MulMono(1, e - q, d); } else { MulMono(e - q, 0, d); }
  }

  lemma PrimeByTrial(p: nat)
    requires p > 1 && p % 2 == 1 && NoDivisor(p, 3)
    ensures Prime(p)
  {
    forall d, e | d > 1 && e > 1 ensures d * e != p {
      if d * e == p {
        OddFactor(d, e);
        OddFactor(e, d);
        if d <= e { NoSmallFactor(p, 3, d, e); } else { NoSmallFactor(p, 3, e, d); }
      }
    }
  }

  lemma Trial3()
    ensures NoDivisor(65537, 3)
  {
    Trial33();
    assert NoDivisor(65537, 17);
  }

  lemma Trial33()
    ensures NoDivisor(65537, 33)
  {
    Trial65();
    assert NoDivisor(65537, 49);
  }

  lemma Trial65()
    ensures NoDivisor(65537, 65)
  {
    Trial97();
    assert NoDivisor(65537, 81);
  }

  lemma Trial97()
    ensures NoDivisor(65537, 97)
  {
    Trial129();
    assert NoDivisor(65537, 113);
  }

  lemma Trial129()
    ensures NoDivisor(65537, 129)
  {
    Trial161();
    assert NoDivisor(65537, 145);
  }

  lemma Trial161()
    ensures NoDivisor(65537, 161)
  {
    Trial193();
    assert NoDivisor(65537, 177);
  }

  lemma Trial193()
    ensures NoDivisor(65537, 193)
  {
    Trial225();
    assert NoDivisor(65537, 209);
  }

  lemma Trial225()
    ensures NoDivisor(65537, 225)
  {
    assert NoDivisor(65537, 241);
  }

  lemma Primes()
    ensures Prime(3) && Prime(5) && Prime(17) && Prime(257) && Prime(65537)
  {
    hide Prime;
    PrimeByTrial(3);
    PrimeByTrial(5);
    PrimeByTrial(17);
    PrimeByTrial(257);
    Trial3();
    PrimeByTrial(65537);
  }

  // ---------------------------------------------------------------- divisibility

  ghost predicate Divides(d: nat, n: nat) {
    exists q: nat :: d * q == n
  }

  /** A prime that divides a product divides one of the factors. */
  lemma {:induction false} Euclid(p: nat, a: nat, b: nat)
    requires Prime(p) && Divides(p, a * b)
    ensures Divides(p, a) || Divides(p, b)
    decreases a
  {
    hide Prime, Divides;
    if a == 0 {
      Times(p, 0);
    } else if a >= p {
      assert p > 0 by { PrimePositive(p); }
      EuclidDown(p, a, b);
      Euclid(p, a - p, b);
      if Divides(p, a - p) { DividesUp(p, a); }
    } else if a > 1 {
      EuclidRemainder(p, a, b);
      Euclid(p, p % a, b);
      TooSmall(p, p % a);
    }
  }

  lemma PrimePositive(p: nat)
    requires Prime(p)
    ensures p > 1
  {
  }

  lemma Times(p: nat, q: nat)
    ensures Divides(p, p * q)
  {
  }

  lemma DividesUp(p: nat, a: nat)
    requires a >= p && Divides(p, a - p)
    ensures Divides(p, a)
  {
    var t: nat :| p * t == a - p;
    assert p * (t + 1) == a;
  }

  lemma EuclidDown(p: nat, a: nat, b: nat)
    requires p > 0 && a >= p && Divides(p, a * b)
    ensures Divides(p, (a - p) * b)
  {
    var q: nat :| p * q == a * b;
    Expand3(p, a, b, q);
    NonNegative(p, q - b, (a - p) * b);
    assert p * (q - b) == (a - p) * b;
  }

  lemma EuclidRemainder(p: nat, a: nat, b: nat)
    requires Prime(p) && 1 < a < p && Divides(p, a * b)
    ensures 0 < p % a && Divides(p, p % a * b)
  {
    hide Prime, Divides;
    DivMod(p, a);
    Indivisible(p, a, p / a, p % a);
    EuclidLinear(p, a, b, p / a, p % a);
  }

  lemma DivMod(p: nat, a: nat)
    requires a > 0
    ensures p == p / a * a + p % a && p / a >= 0
  {
  }

  lemma EuclidLinear(p: nat, a: nat, b: nat, k: nat, c: nat)
    requires p > 0 && p == k * a + c && Divides(p, a * b)
    ensures Divides(p, c * b)
  {
    hide Divides;
    var q := Quotient(p, a * b);
    Expand(p, k, a, c, b);
    Expand2(p, k, q, b);
    NonNegative(p, b - k * q, c * b);
    Times(p, b - k * q);
  }

  lemma Indivisible(p: nat, a: nat, k: nat, c: nat)
    requires Prime(p) && 1 < a < p && p == k * a + c
    ensures c != 0
  {
    if k > 1 {
      assert a * k != p;
    } else {
      assert k == 0 || k == 1;
    }
  }

  lemma Expand(p: nat, k: nat, a: nat, c: nat, b: nat)
    requires p == k * a + c
    ensures c * b == p * b - k * (a * b)
  {
    assert c == p - k * a;
    assert (p - k * a) * b == p * b - k * a * b;
    assert k * a * b == k * (a * b);
  }

  lemma Expand2(p: nat, k: nat, q: nat, b: nat)
    ensures p * b - k * (p * q) == p * (b - k * q)
  {
    assert k * (p * q) == p * (k * q);
  }

  lemma Expand3(p: nat, a: nat, b: nat, q: nat)
    requires p * q == a * b && a >= p
    ensures (a - p) * b == p * q - p * b == p * (q - b)
  {
  }

  lemma NonNegative(p: nat, t: int, v: nat)
    requires p > 0 && p * t == v
    ensures t >= 0
  {
    if t < 0 { MulMono(t, -1, p); }
  }

  lemma TooSmall(p: nat, c: nat)
    requires 0 < c < p
    ensures !Divides(p, c)
  {
    forall t: nat ensures p * t != c {
      if t > 0 { MulMono(1, t, p); }
    }
  }

  lemma Regroup(p: nat, e: nat, c: nat)
    ensures p * e * c == p * (e * c)
  {
  }

  lemma Quotient(p: nat, e: nat) returns (e': nat)
    requires Divides(p, e)
    ensures e == p * e'
  {
    e' :| p * e' == e;
  }

  /** A prime factor of e * c that is not in c is in e, and cancels. */
  lemma Cancel(p: nat, e: nat, c: nat, rest: nat) returns (e': nat)
    requires Prime(p) && e * c == p * rest && !Divides(p, c)
    ensures e == p * e' && e' * c == rest
  {
    hide Prime, Divides;
    Times(p, rest);
    Euclid(p, e, c);
    e' := Quotient(p, e);
    Regroup(p, e', c);
    PrimePositive(p);
    SameProduct(p, e' * c, rest);
  }

  lemma SameProduct(p: nat, a: nat, b: nat)
    requires p > 0 && p * a == p * b
    ensures a == b
  {
    assert p * (a - b) == 0;
    if a > b { MulMono(1, a - b, p); }
    if a < b { MulMono(1, b - a, p); }
  }

  /** A proper divisor of 2^32 - 1 leaves a cofactor that one of the five primes divides. */
  lemma Cofactor(e: nat, c: nat)
    requires e * c == ORDER && c > 1
    ensures Divides(3, c) || Divides(5, c) || Divides(17, c) || Divides(257, c) || Divides(65537, c)
  {
    hide Prime, Divides;
    Primes();
    if !(Divides(3, c) || Divides(5, c) || Divides(17, c) || Divides(257, c) || Divides(65537, c)) {
      var e1 := Cancel(3, e, c, 0x55555555);
      var e2 := Cancel(5, e1, c, 0x11111111);
      var e3 := Cancel(17, e2, c, 0x01010101);
      var e4 := Cancel(257, e3, c, 65537);
      var e5 := Cancel(65537, e4, c, 1);
      OneFactor(e5, c);
    }
  }

  lemma OneFactor(e: nat, c: nat)
    requires e * c == 1
    ensures c == 1
  {
    if e > 0 { MulMono(1, e, c); }
  }

  // ---------------------------------------------------------------- the order of x

  lemma {:induction false} Multiple(e: nat, q: nat)
    requires X(e) == ONE
    ensures X(e * q) == ONE
    decreases q
  {
    hide MulXn;
    if q == 0 {
      XNone();
    } else {
      Multiple(e, q - 1);
      MulXnAdd(ONE, e * (q - 1), e, POLY);
      assert e * (q - 1) + e == e * q;
    }
  }

  lemma XNone()
    ensures X(0) == ONE
  {
  }

  lemma Remainder(n: nat, e: nat)
    requires e > 0 && X(n) == ONE && X(e) == ONE
    ensures X(n % e) == ONE
  {
    hide MulXn;
    Multiple(e, n / e);
    MulXnAdd(ONE, e * (n / e), n % e, POLY);
    assert e * (n / e) + n % e == n;
  }

  /** At none of the five largest proper divisors is the power of x equal to 1. */
  lemma ProperDivisors()
    ensures X(0x55555555) != ONE && X(0x33333333) != ONE && X(0x0f0f0f0f) != ONE
    ensures X(0x00ff00ff) != ONE && X(0xffff) != ONE
  {
    hide X;
    Order3();
    Order5();
    Order17();
    Order257();
    Order65537();
  }

  lemma NotThrough(p: nat, e: nat, c: nat, part: nat)
    requires p > 0 && e * c == ORDER == p * part && Divides(p, c)
    requires X(e) == ONE
    ensures X(part) == ONE
  {
    hide X;
    var t: nat :| p * t == c;
    assert e * c == p * (e * t) by { assert e * (p * t) == p * (e * t); }
    SameProduct(p, e * t, part);
    Multiple(e, t);
  }

  lemma {:induction false} NoShorterPeriod(e: nat)
    requires 0 < e < ORDER
    ensures X(e) != ONE
    decreases e
  {
    hide X;
    if X(e) == ONE {
      OrderAll();
      Remainder(ORDER, e);
      var m := ORDER % e;
      if m > 0 {
        NoShorterPeriod(m);
      } else {
        var c := ORDER / e;
        assert e * c == ORDER;
        assert c > 1;
        Cofactor(e, c);
        ProperDivisors();
        if Divides(3, c) { NotThrough(3, e, c, 0x55555555); }
        else if Divides(5, c) { NotThrough(5, e, c, 0x33333333); }
        else if Divides(17, c) { NotThrough(17, e, c, 0x0f0f0f0f); }
        else if Divides(257, c) { NotThrough(257, e, c, 0x00ff00ff); }
        else { NotThrough(65537, e, c, 0xffff); }
      }
    }
  }

  /** The first 2^32 - 1 powers of x are pairwise different. */
  lemma DistinctPowers(j: nat, k: nat)
    requires j < ORDER && k < ORDER && X(j) == X(k)
    ensures j == k
  {
    hide MulXn;
    if j < k {
      MulXnAdd(ONE, k - j, j, POLY);
      MulXnInjective(MulXn(ONE, k - j, POLY), ONE, j, POLY);
      NoShorterPeriod(k - j);
    } else if k < j {
      MulXnAdd(ONE, j - k, k, POLY);
      MulXnInjective(MulXn(ONE, j - k, POLY), ONE, k, POLY);
      NoShorterPeriod(j - k);
    }
  }
}
