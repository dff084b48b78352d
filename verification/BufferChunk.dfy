/** A chunk of equal message buffers: addresses, indices, allocation and release. */
module BufferChunk {
  import opened Arithmetic
  import opened Options
  import opened BufferTree

  const WORD: nat := 0x1_0000_0000

  // ---------------------------------------------------------------- congruence modulo 2^32

  ghost predicate Congruent(a: int, b: int) {
    exists k: int :: a - b == k * WORD
  }

  lemma CongruentBy(a: int, b: int, k: int)
    requires a - b == k * WORD
    ensures Congruent(a, b)
  {
  }

  /** What 32-bit arithmetic keeps of a result. */
  function Wrap(a: int): nat { a % WORD }

  lemma Wrapped(a: int)
    ensures Congruent(Wrap(a), a) && Wrap(a) < WORD
  {
    CongruentBy(Wrap(a), a, -(a / WORD));
  }

  lemma CongruentTrans(a: int, b: int, c: int)
    requires Congruent(a, b) && Congruent(b, c)
    ensures Congruent(a, c)
  {
    var k: int :| a - b == k * WORD;
    var m: int :| b - c == m * WORD;
    CongruentBy(a, c, k + m);
  }

  lemma CongruentMul(a: int, b: int, c: int)
    requires Congruent(a, b)
    ensures Congruent(a * c, b * c)
  {
    var k: int :| a - b == k * WORD;
    assert a * c - b * c == (a - b) * c == k * WORD * c == (k * c) * WORD;
    CongruentBy(a * c, b * c, k * c);
  }

  lemma CongruentNegate(a: int, b: int, c: int)
    requires Congruent(a, b)
    ensures Congruent(c - b, c - a)
  {
    var k: int :| a - b == k * WORD;
    CongruentBy(c - b, c - a, k);
  }

  /** Congruent words are equal. */
  lemma CongruentWords(a: nat, b: nat)
    requires Congruent(a, b) && a < WORD && b < WORD
    ensures a == b
  {
    var k: int :| a - b == k * WORD;
  }

  // ---------------------------------------------------------------- the inverse of an odd number

  /** __builtin_ctz */
  function Ctz(x: nat): nat
    requires x > 0
  {
    if x % 2 == 1 then 0 else 1 + Ctz(x / 2)
  }

  function OddPart(x: nat): nat
    requires x > 0
  {
    if x % 2 == 1 then x else OddPart(x / 2)
  }

  lemma {:induction false} Parts(x: nat)
    requires x > 0
    ensures OddPart(x) % 2 == 1 && x == OddPart(x) * Pow2(Ctz(x)) && Pow2(Ctz(x)) > 0
    ensures OddPart(x) <= x
    decreases x
  {
    if x % 2 == 0 {
      Parts(x / 2);
      assert OddPart(x / 2) * (2 * Pow2(Ctz(x / 2))) == 2 * (OddPart(x / 2) * Pow2(Ctz(x / 2)));
    }
  }

  /** The powers of two that the squaring passes through. */
  predicate Stage(d: nat) {
    d == 2 || d == 4 || d == 16 || d == 256 || d == 65536 || d == WORD
  }

  predicate LowZeros(x: nat, d: nat)
    requires Stage(d)
  {
    x % d == 0
  }

  function NextStage(d: nat): nat {
    if d < 65536 then d * d else WORD
  }

  /** Squaring doubles the number of low zero bits. */
  lemma SquareStage(x: nat, d: nat)
    requires Stage(d) && d < WORD && LowZeros(x, d)
    ensures Stage(NextStage(d)) && d < NextStage(d) <= WORD
    ensures LowZeros(Wrap(x * x), NextStage(d))
  {
    var t, e := x / d, NextStage(d);
    assert x == t * d;
    assert d * d == e;
    var q, c := x * x / WORD, WORD / e;
    assert WORD == c * e;
    assert x * x == t * t * e by { assert t * d * (t * d) == t * t * (d * d); }
    var w := x * x % WORD;
    assert w == x * x - q * WORD;
    assert q * WORD == q * c * e by { assert q * (c * e) == q * c * e; }
    assert w == (t * t - q * c) * e by { Distribute(t * t, q * c, e); }
    MultipleMod(t * t - q * c, e);
  }

  /** One round: (1 - x) (1 + x) = 1 - x^2. */
  lemma InverseStep(y: nat, x: nat, odd: nat, y': nat, x': nat)
    requires Congruent(y * odd, 1 - x)
    requires y' == Wrap(y * (1 + x)) && x' == Wrap(x * x)
    ensures Congruent(y' * odd, 1 - x')
  {
    hide Congruent, Wrap;
    Wrapped(y * (1 + x));
    CongruentMul(y', y * (1 + x), odd);
    assert y * (1 + x) * odd == y * odd * (1 + x);
    CongruentMul(y * odd, 1 - x, 1 + x);
    assert (1 - x) * (1 + x) == 1 - x * x;
    CongruentTrans(y' * odd, y * odd * (1 + x), 1 - x * x);
    Wrapped(x * x);
    CongruentNegate(x', x * x, 1);
    CongruentTrans(y' * odd, 1 - x * x, 1 - x');
  }

  /** prepare_bs_inv: the inverse modulo 2^32 of the odd part of the buffer size, header
      included. The loop ends because every squaring doubles the low zero bits of x. */
  method PrepareInverse(size: nat) returns (inverse: nat, shift: nat)
    requires 0 < size < WORD
    ensures inverse < WORD && shift == Ctz(size)
    ensures Congruent(inverse * OddPart(size), 1)
  {
    hide Congruent, Wrap, Stage, NextStage, LowZeros, OddPart, Ctz;
    Parts(size);
    shift := Ctz(size);
    var odd: int := OddPart(size);
    var x: nat := Wrap(1 - odd);
    var y: nat := 1;
    ghost var d := 2;
    StartStage(odd);
    while x != 0
      invariant 0 <= x < WORD && 0 <= y < WORD
      invariant 0 < d <= WORD && Stage(d) && LowZeros(x, d)
      invariant Congruent(y * odd, 1 - x)
      decreases WORD - d
    {
      EndStage(x, d);
      SquareStage(x, d);
      ghost var y0, x0 := y, x;
      y := Wrap(y * (1 + x));
      x := Wrap(x * x);
      Wrapped(y0 * (1 + x0));
      Wrapped(x0 * x0);
      InverseStep(y0, x0, odd, y, x);
      d := NextStage(d);
    }
    inverse := y;
  }

  lemma StartStage(odd: nat)
    requires odd % 2 == 1
    ensures Wrap(1 - odd) < WORD && Stage(2) && LowZeros(Wrap(1 - odd), 2)
    ensures Congruent(1 * odd, 1 - Wrap(1 - odd))
  {
    hide Congruent;
    Wrapped(1 - odd);
    CongruentNegate(Wrap(1 - odd), 1 - odd, 1);
  }

  lemma EndStage(x: nat, d: nat)
    requires 0 < x < WORD && Stage(d) && LowZeros(x, d)
    ensures d < WORD
  {
  }

  /** Multiplying by the inverse undoes multiplying by the odd part. */
  lemma IndexRecovered(n: nat, odd: nat, inverse: nat)
    requires Congruent(inverse * odd, 1) && n < WORD
    ensures Wrap(n * odd * inverse) == n
  {
    hide Congruent, Wrap;
    CongruentMul(inverse * odd, 1, n);
    assert inverse * odd * n == n * odd * inverse;
    Wrapped(n * odd * inverse);
    CongruentTrans(Wrap(n * odd * inverse), n * odd * inverse, n);
    CongruentWords(Wrap(n * odd * inverse), n);
  }

  lemma ShiftOut(n: nat, size: nat)
    requires size > 0
    ensures Pow2(Ctz(size)) > 0 && n * size / Pow2(Ctz(size)) == n * OddPart(size)
  {
    hide Pow2, Ctz, OddPart;
    Parts(size);
    var p, o := Pow2(Ctz(size)), OddPart(size);
    Regroup(n, o, p);
    DivExact(n * o, p);
  }

  lemma Regroup(n: nat, o: nat, p: nat)
    ensures n * (o * p) == n * o * p
  {
  }

  lemma DivExact(a: nat, p: nat)
    requires p > 0
    ensures a * p / p == a
  {
    MultipleMod(a, p);
    var q := a * p / p;
    assert (a - q) * p == 0;
  }

  // ---------------------------------------------------------------- the chunk

  /** The bytes in front of the data of every buffer. */
  const HEADER: nat := 16

  /** The buffers lie within 2^32 bytes, and the inverse and the shift fit their size. */
  ghost predicate Geometry(size: nat, tot: nat, inverse: nat, shift: nat) {
    0 < size < WORD && tot * size < WORD &&
    shift == Ctz(size) && Congruent(inverse * OddPart(size), 1)
  }

  lemma MakeGeometry(size: nat, tot: nat, inverse: nat, shift: nat)
    requires 0 < size < WORD && tot * size < WORD && shift == Ctz(size) && Congruent(inverse * OddPart(size), 1)
    ensures Geometry(size, tot, inverse, shift)
  {
  }

  lemma SizeBelow(n: nat, size: nat)
    requires 0 < n && n * size < WORD
    ensures size < WORD
  {
    MulMono(1, n, size);
  }

  class Chunk {
    const bufferSize: nat
    const firstBuffer: nat
    const twoPower: nat
    const totBuffers: nat
    const bsInverse: nat
    const bsShift: nat
    const freeCnt: array<nat>

    ghost predicate Valid()
      reads freeCnt
    {
      Tree(freeCnt[..], twoPower) && 0 < totBuffers <= twoPower && totBuffers < 65536 &&
      (forall k :: twoPower + totBuffers <= k < 2 * twoPower ==> freeCnt[k] == 0) &&
      Geometry(bufferSize + HEADER, totBuffers, bsInverse, bsShift)
    }

    /** The leaves: 1 for a free buffer, 0 for one in use or beyond the last. */
    ghost function Leaves(): seq<nat>
      requires Valid()
      reads freeCnt
    {
      freeCnt[..][twoPower..]
    }

    ghost predicate IsFree(n: nat)
      requires Valid()
      reads freeCnt
    {
      n < totBuffers && Leaves()[n] == 1
    }

    function Address(n: nat): nat {
      firstBuffer + n * (bufferSize + HEADER)
    }

    /** alloc_new_msg_buffers_chunk, given the bytes that follow the chunk's fixed fields and the
        alignment that the first buffer gets. */
    constructor (bufferSize: nat, room: nat, align: nat, base: nat)
      requires var tp := TwoPower(room / (bufferSize + HEADER + 4), 1);
               var n := (room - 4 * tp - align) / (bufferSize + HEADER);
               0 < n < 65536 && n * (bufferSize + HEADER) < WORD
      ensures Valid() && fresh(freeCnt) && this.bufferSize == bufferSize && firstBuffer == base
      ensures totBuffers == (room - 4 * twoPower - align) / (bufferSize + HEADER)
      ensures 4 * twoPower + align + totBuffers * (bufferSize + HEADER) <= room
      ensures forall n :: 0 <= n < totBuffers ==> IsFree(n)
    {
      hide Geometry, TwoPower, Congruent;
      var hd := bufferSize + HEADER;
      var tp := TwoPower(room / (hd + 4), 1);
      var n := (room - 4 * tp - align) / hd;
      EnoughLeaves(room, hd, tp, n, align);
      FitsRoom(room - 4 * tp - align, hd);
      var a := Build(tp, n);
      SizeBelow(n, hd);
      var inverse, shift := PrepareInverse(hd);
      MakeGeometry(hd, n, inverse, shift);
      this.bufferSize, firstBuffer, twoPower, totBuffers := bufferSize, base, tp, n;
      bsInverse, bsShift, freeCnt := inverse, shift, a;
    }

    /** The buffers, with their headers, lie one after the other. */
    lemma BuffersApart(n: nat, m: nat)
      requires n < m
      ensures Address(n) + bufferSize + HEADER <= Address(m)
    {
      MulMono(n + 1, m, bufferSize + HEADER);
      Distribute(n, 1, bufferSize + HEADER);
    }

    /** Every counter of the chunk fits an unsigned short. */
    lemma CountersAreShort(i: nat)
      requires Valid() && 1 <= i < 2 * twoPower
      ensures i < freeCnt.Length && freeCnt[i] <= totBuffers < 65536
    {
      hide Geometry;
      CountersFit(freeCnt[..], twoPower, totBuffers, i);
    }

    /** get_buffer_no: the index of the buffer at an address. */
    method BufferNo(addr: nat, ghost n: nat) returns (x: nat)
      requires Valid() && n < totBuffers && addr == Address(n)
      ensures x == n
    {
      hide Congruent, Tree, Wrap;
      var size := bufferSize + HEADER;
      var offset := addr - firstBuffer;
      MulMono(n, totBuffers, size);
      ShiftOut(n, size);
      x := offset / Pow2(bsShift);
      x := Wrap(x * bsInverse);
      IndexRecovered(n, OddPart(size), bsInverse);
    }

    /** The end of alloc_msg_buffer_internal in a chunk with something free. */
    method Allocate(neighbor: Option<nat>, random: nat, ghost near: nat) returns (addr: nat, ghost n: nat)
      requires Valid() && freeCnt[1] > 0 && random < 0x8000_0000
      requires neighbor.Some? ==> near < totBuffers && !IsFree(near) && neighbor.value == Address(near)
      modifies freeCnt
      ensures Valid() && n < totBuffers && addr == Address(n)
      ensures old(IsFree(n)) && Leaves() == old(Leaves())[n := 0]
      ensures Shifted(old(freeCnt[..]), freeCnt[..], twoPower + n, -1)
      ensures neighbor.Some? ==> IsNext(old(Leaves()), near, n)
      ensures neighbor.None? ==> IsRank(old(Leaves()), Pick(random, old(freeCnt[1])), n)
    {
      hide Geometry, Tree, Shifted, IsRank, IsNext, OnPath, Pick, Address;
      ghost var t := freeCnt[..];
      TreeLength(t, twoPower);
      var i;
      if neighbor.Some? {
        LeafValue(t, twoPower, near);
        var x := BufferNo(neighbor.value, near);
        i := TakeNext(freeCnt, twoPower, x);
      } else {
        PickBelow(random, freeCnt[1]);
        i := TakeRank(freeCnt, twoPower, Pick(random, freeCnt[1]));
      }
      n := i - twoPower;
      FreeLeaf(t, twoPower, totBuffers, n);
      ShiftedTree(t, freeCnt[..], twoPower, i, -1);
      TreeLength(freeCnt[..], twoPower);
      KeptZero(t, freeCnt[..], twoPower, totBuffers, i, -1);
      addr := Address(i - twoPower);
    }

    /** free_std_msg_buffer */
    method Release(addr: nat, ghost n: nat)
      requires Valid() && n < totBuffers && !IsFree(n) && addr == Address(n)
      modifies freeCnt
      ensures Valid()
      ensures Leaves() == old(Leaves())[n := 1]
      ensures Shifted(old(freeCnt[..]), freeCnt[..], twoPower + n, 1)
    {
      hide Geometry, Tree, Shifted, OnPath, Address;
      ghost var t := freeCnt[..];
      TreeLength(t, twoPower);
      LeafValue(t, twoPower, n);
      var x := BufferNo(addr, n);
      x := x + twoPower;
      assert t[twoPower..][n] == t[x];
      GiveBack(freeCnt, twoPower, x);
      ShiftedTree(t, freeCnt[..], twoPower, x, 1);
      TreeLength(freeCnt[..], twoPower);
      KeptZero(t, freeCnt[..], twoPower, totBuffers, x, 1);
    }
  }

  lemma LeafValue(t: seq<nat>, tp: nat, n: nat)
    requires Tree(t, tp) && n < tp
    ensures t[tp..][n] == t[tp + n] && t[tp + n] <= 1
  {
  }

  /** What a search finds is a free buffer of the chunk. */
  lemma FreeLeaf(t: seq<nat>, tp: nat, tot: nat, n: nat)
    requires Tree(t, tp) && tot <= tp && forall k :: tp + tot <= k < 2 * tp ==> t[k] == 0
    requires (exists j :: IsRank(t[tp..], j, n)) || exists x :: IsNext(t[tp..], x, n)
    ensures n < tot && t[tp..][n] == 1 && t[tp + n] == 1
  {
    assert n < |t[tp..]| && t[tp..][n] == 1;
    LeafValue(t, tp, n);
  }

  function Min(a: nat, b: nat): nat { if a < b then a else b }

  /** The rank that a random number of 31 bits selects among the first sixteen free buffers. */
  function Pick(random: nat, free: nat): nat {
    random * Min(free, 16) / 0x8000_0000
  }

  lemma FitsRoom(room: int, size: nat)
    requires size > 0
    ensures room / size * size <= room
  {
  }

  lemma LessFactor(a: int, b: int, m: nat)
    requires a * m < b * m
    ensures a < b
  {
    if a >= b { MulMono(b, a, m); }
  }

  /** Each of the first sixteen free buffers is selected by some random number. */
  lemma EachIsPicked(j: nat, free: nat) returns (random: nat)
    requires j < Min(free, 16)
    ensures random < 0x8000_0000 && Pick(random, free) == j
  {
    var m := Min(free, 16);
    random := (j * 0x8000_0000 + m - 1) / m;
    assert random * m == j * 0x8000_0000 + m - 1 - (j * 0x8000_0000 + m - 1) % m;
    DivUnique(random * m, 0x8000_0000, j, random * m - j * 0x8000_0000);
    MulMono(j + 1, m, 0x8000_0000);
    LessFactor(random, 0x8000_0000, m);
  }

  lemma PickBelow(random: nat, free: nat)
    requires random < 0x8000_0000 && free > 0
    ensures Pick(random, free) < Min(free, 16)
  {
    var j := Min(free, 16);
    MulMono(random, 0x7fff_ffff, j);
    assert random * j < 0x8000_0000 * j;
  }

  /** Beyond the last buffer the leaves stay 0. */
  lemma KeptZero(t: seq<nat>, t': seq<nat>, tp: nat, tot: nat, leaf: nat, d: int)
    requires Tree(t, tp) && Tree(t', tp) && tp <= leaf < tp + tot <= 2 * tp && Shifted(t, t', leaf, d)
    requires forall k :: tp + tot <= k < 2 * tp ==> t[k] == 0
    ensures forall k :: tp + tot <= k < 2 * tp ==> t'[k] == 0
  {
    forall k | tp + tot <= k < 2 * tp ensures t'[k] == 0 {
      assert !OnPath(k, leaf);
    }
  }

  /** The smallest power of two above t. */
  function TwoPower(t: nat, p: nat): nat
    requires p > 0
    decreases t - p
  {
    if p <= t then TwoPower(t, 2 * p) else p
  }

  lemma {:induction false} TwoPowerAbove(t: nat, p: nat)
    requires PowerOfTwo(p)
    ensures TwoPower(t, p) > t && PowerOfTwo(TwoPower(t, p))
    decreases t - p
  {
    if p <= t { TwoPowerAbove(t, 2 * p); }
  }

  /** The buffers that fit beside the tree never outnumber its leaves. */
  lemma EnoughLeaves(room: nat, hd: nat, tp: nat, n: int, align: nat)
    requires hd > 0 && tp == TwoPower(room / (hd + 4), 1) && n == (room - 4 * tp - align) / hd && n >= 0
    ensures PowerOfTwo(tp) && n < tp
  {
    TwoPowerAbove(room / (hd + 4), 1);
    var t := room / (hd + 4);
    QuotientAbove(room, hd + 4);
    MulMono(t + 1, tp, hd + 4);
    Distribute(hd, 4, tp);
    FitsRoom(room - 4 * tp - align, hd);
    LessFactor(n, tp, hd);
  }

  lemma QuotientAbove(n: nat, d: nat)
    requires d > 0
    ensures n < (n / d + 1) * d
  {
    Distribute(n / d, 1, d);
  }
}
