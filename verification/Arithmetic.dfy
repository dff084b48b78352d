/** Powers of two, products and quotients. */
module Arithmetic {

  function Pow2(k: nat): nat {
    if k == 0 then 1 else 2 * Pow2(k - 1)
  }

  lemma DoublePow2(k: nat)
    ensures Pow2(k + 1) == Pow2(k) + Pow2(k)
  {
  }

  lemma MulMono(a: int, b: int, k: nat)
    requires a <= b
    ensures a * k <= b * k && k * a <= k * b
  {
    assert (b - a) * k == b * k - a * k;
  }

  lemma Quotient(q: int, r: int, q': int, r': int, d: nat)
    requires q * d + r == q' * d + r' && 0 <= r < d && 0 <= r' < d
    ensures q == q'
  {
    assert (q - q') * d == q * d - q' * d;
    assert (q' - q) * d == q' * d - q * d;
    if q > q' {
      MulMono(1, q - q', d);
    } else if q < q' {
      MulMono(1, q' - q, d);
    }
  }

  lemma DivUnique(n: nat, d: nat, q: nat, r: nat)
    requires d > 0 && n == q * d + r && r < d
    ensures n / d == q && n % d == r
  {
    Quotient(n / d, n % d, q, r, d);
  }

  lemma MultipleMod(k: int, e: nat)
    requires e > 0
    ensures k * e % e == 0
  {
    var r := k * e % e;
    assert k * e == k * e / e * e + r;
    assert (k - k * e / e) * e == r;
    var m := k - k * e / e;
    if m > 0 { assert m * e >= e by { MulMono(1, m, e); } }
    if m < 0 { assert -m * e >= e by { MulMono(1, -m, e); } }
  }

  /** A multiple of b that is not zero stays one when b is taken away. */
  lemma LessOneMultiple(n: nat, b: nat)
    requires b > 0 && n % b == 0 && n > 0
    ensures n >= b && (n - b) % b == 0
  {
    if n >= b {
      Distribute(n / b, 1, b);
      DivUnique(n - b, b, n / b - 1, 0);
    }
  }

  lemma Distribute(a: int, b: int, e: int)
    ensures (a - b) * e == a * e - b * e && (a + b) * e == a * e + b * e
  {
  }

  lemma MultipleSum(n: nat, m: nat, b: nat)
    requires b > 0 && n % b == 0
    ensures (n + m) % b == m % b
  {
    Distribute(n / b, m / b, b);
    DivUnique(n + m, b, n / b + m / b, m % b);
  }

  lemma MultiplesApart(n: nat, m: nat, b: nat)
    requires b > 0 && n < m && n % b == 0 && m % b == 0
    ensures n + b <= m
  {
    var k := m - n;
    MultipleSum(n, k, b);
    LessOneMultiple(k, b);
  }
}
