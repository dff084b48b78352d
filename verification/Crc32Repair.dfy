/** Repairing a single flipped bit from the checksum difference it causes. */
module Crc32Repair {
  import opened Gf32
  import opened Gf32Ring
  import opened Gf32Order
  import opened Crc32
  import opened Crc32Combine
  import opened Arithmetic

  // ---------------------------------------------------------------- what one flipped bit does

  function XorByte(a: byte, b: byte): byte { a ^ b }

  /** The byte with only bit b set. */
  function BitOf(b: nat): byte
    requires b < 8
  {
    if b == 0 then 1 else DoubleByte(BitOf(b - 1))
  }

  function DoubleByte(a: byte): byte { a << 1 }

  /** The message with bit b of byte i inverted. */
  function Flip(data: seq<byte>, i: nat, b: nat): seq<byte>
    requires i < |data| && b < 8
  {
    data[i := XorByte(data[i], BitOf(b))]
  }

  /** The power of x by which inverting bit b of byte i changes the checksum. */
  function Exponent(len: nat, i: nat, b: nat): nat
    requires i < len && b < 8
  {
    8 * (len - i) + 31 - b
  }

  lemma WideXor(a: byte, b: byte)
    ensures Wide(XorByte(a, b)) == Xor(Wide(a), Wide(b))
  {
  }

  lemma BitValues()
    ensures BitOf(0) == 1 && BitOf(1) == 2 && BitOf(2) == 4 && BitOf(3) == 8
    ensures BitOf(4) == 16 && BitOf(5) == 32 && BitOf(6) == 64 && BitOf(7) == 128
  {
  }

  lemma UnitValues()
    ensures Unit(0) == 1 && Unit(1) == 2 && Unit(2) == 4 && Unit(3) == 8
    ensures Unit(4) == 16 && Unit(5) == 32 && Unit(6) == 64 && Unit(7) == 128
  {
  }

  lemma WideBit(b: nat)
    requires b < 8
    ensures Wide(BitOf(b)) == Unit(b)
  {
    hide BitOf, Unit;
    BitValues();
    UnitValues();
    assert b == 0 || b == 1 || b == 2 || b == 3 || b == 4 || b == 5 || b == 6 || b == 7;
  }

  lemma XorByteTwice(a: byte, b: byte)
    ensures XorByte(XorByte(a, b), b) == a
  {
  }

  /** A difference of registers survives equal input, multiplied by x^8 per byte. */
  lemma RegisterDifference(data: seq<byte>, crc: bv32, diff: bv32)
    ensures Register(data, Xor(crc, diff)) == Xor(Register(data, crc), MulXn(diff, 8 * |data|, POLY))
  {
    hide Xor, Register, MulXn;
    var n := 8 * |data|;
    RegisterLinear(data, Xor(crc, diff));
    RegisterLinear(data, crc);
    MulXnLinear(crc, diff, n, POLY);
    var m, d, z := MulXn(crc, n, POLY), MulXn(diff, n, POLY), Register(data, 0);
    XorAssoc(m, d, z);
    XorComm(d, z);
    XorAssoc(m, z, d);
  }

  lemma FeedFlipped(crc: bv32, v: byte, b: nat)
    requires b < 8
    ensures Feed(crc, XorByte(v, BitOf(b))) == Xor(Feed(crc, v), MulXn(Unit(b), 8, POLY))
  {
    hide Xor, MulXn, Wide, BitOf, XorByte, Unit;
    WideXor(v, BitOf(b));
    WideBit(b);
    XorAssoc(crc, Wide(v), Unit(b));
    MulXnLinear(Xor(crc, Wide(v)), Unit(b), 8, POLY);
  }

  lemma FlippedRegister(data: seq<byte>, i: nat, b: nat, crc: bv32)
    requires i < |data| && b < 8
    ensures Register(Flip(data, i, b), crc) == Xor(Register(data, crc), MulXn(ONE, Exponent(|data|, i, b), POLY))
  {
    hide Xor, MulXn, Feed, Register, XorByte, BitOf;
    var flipped := Flip(data, i, b);
    var rest := data[i + 1..];
    assert flipped[i + 1..|flipped|] == rest && data[i + 1..|data|] == rest;
    assert flipped[..i] == data[..i];
    assert flipped[..|flipped|] == flipped && data[..|data|] == data;
    RegisterOne(data, i, crc);
    RegisterOne(flipped, i, crc);
    var before := Register(data[..i], crc);
    FeedFlipped(before, data[i], b);
    RegisterExtend(data, i + 1, |data|, crc);
    RegisterExtend(flipped, i + 1, |data|, crc);
    RegisterDifference(rest, Feed(before, data[i]), MulXn(Unit(b), 8, POLY));
    MulXnAdd(Unit(b), 8, 8 * |rest|, POLY);
    PowerOfX(31 - b, POLY);
    MulXnAdd(ONE, 31 - b, 8 + 8 * |rest|, POLY);
  }

  /** Inverting bit b of byte i adds a power of x to the checksum. */
  lemma FlippedCrc(data: seq<byte>, i: nat, b: nat)
    requires i < |data| && b < 8
    ensures Crc(Flip(data, i, b)) == Xor(Crc(data), X(Exponent(|data|, i, b)))
  {
    hide Xor, MulXn, Register, Flip;
    FlippedRegister(data, i, b, 0xffffffff);
    var r, d, ones: bv32 := Register(data, 0xffffffff), X(Exponent(|data|, i, b)), 0xffffffff;
    XorAssoc(r, d, ones);
    XorComm(d, ones);
    XorAssoc(r, ones, d);
  }

  // ---------------------------------------------------------------- the sorted table

  /** struct fcb_table_entry: a power of x and its exponent. */
  datatype Entry = Entry(p: bv32, i: nat)

  /** Unsigned comparison. */
  predicate AtMost(a: bv32, b: bv32) { Value(a) <= Value(b) }

  function Value(a: bv32): nat { a as nat }

  ghost function Representative(n: nat): bv32 {
    if n < 0x1_0000_0000 then n as bv32 else 0
  }

  lemma ValueBack(a: bv32)
    ensures Representative(Value(a)) == a
  {
  }

  lemma AtMostTotal(a: bv32, b: bv32)
    ensures AtMost(a, b) || AtMost(b, a)
  {
  }

  lemma AtMostAntisymmetric(a: bv32, b: bv32)
    requires AtMost(a, b) && AtMost(b, a)
    ensures a == b
  {
    hide Value, Representative;
    ValueBack(a);
    ValueBack(b);
  }

  lemma AtMostTransitive(a: bv32, b: bv32, c: bv32)
    requires AtMost(a, b) && AtMost(b, c)
    ensures AtMost(a, c)
  {
  }

  lemma AtMostTrans(a: bv32)
    ensures forall b, c :: AtMost(a, b) && AtMost(b, c) ==> AtMost(a, c)
  {
    forall b, c | AtMost(a, b) && AtMost(b, c) ensures AtMost(a, c) { AtMostTransitive(a, b, c); }
  }

  /** cmp_fcb_table_entry, as an order. */
  predicate Precedes(a: Entry, b: Entry) {
    AtMost(a.p, b.p) && (a.p == b.p ==> a.i <= b.i)
  }

  /** e may stand before all of t. */
  ghost predicate First(e: Entry, t: seq<Entry>) {
    forall x :: x in t ==> AtMost(e.p, x.p)
  }

  ghost predicate Sorted(t: seq<Entry>) {
    t == [] || (First(t[0], t[1..]) && Sorted(t[1..]))
  }

  function Insert(e: Entry, t: seq<Entry>): seq<Entry> {
    if t == [] || Precedes(e, t[0]) then [e] + t else [t[0]] + Insert(e, t[1..])
  }

  /** What qsort leaves of a table. */
  function Sort(t: seq<Entry>): seq<Entry> {
    if t == [] then [] else Insert(t[0], Sort(t[1..]))
  }

  lemma {:induction false} InsertKeeps(e: Entry, t: seq<Entry>)
    ensures multiset(Insert(e, t)) == multiset(t) + multiset{e}
    decreases |t|
  {
    hide Precedes;
    if t != [] && !Precedes(e, t[0]) {
      InsertKeeps(e, t[1..]);
      assert t == [t[0]] + t[1..];
    }
  }

  lemma {:induction false} SortKeeps(t: seq<Entry>)
    ensures multiset(Sort(t)) == multiset(t)
    decreases |t|
  {
    hide Insert;
    if t != [] {
      SortKeeps(t[1..]);
      InsertKeeps(t[0], Sort(t[1..]));
      assert t == [t[0]] + t[1..];
    }
  }

  lemma SameMembers(s: seq<Entry>, t: seq<Entry>, e: Entry)
    requires multiset(s) == multiset(t) + multiset{e}
    ensures forall x :: x in s ==> x in t || x == e
  {
    forall x | x in s ensures x in t || x == e {
      assert x in multiset(s);
    }
  }

  lemma {:induction false} InsertSorted(e: Entry, t: seq<Entry>)
    requires Sorted(t)
    ensures Sorted(Insert(e, t))
    decreases |t|
  {
    hide AtMost;
    if t == [] || Precedes(e, t[0]) {
      assert ([e] + t)[1..] == t;
      AtMostTrans(e.p);
      assert First(e, t);
    } else {
      var s := Insert(e, t[1..]);
      InsertSorted(e, t[1..]);
      InsertKeeps(e, t[1..]);
      SameMembers(s, t[1..], e);
      AtMostTotal(e.p, t[0].p);
      assert ([t[0]] + s)[1..] == s;
      assert First(t[0], s);
    }
  }

  lemma {:induction false} SortSorted(t: seq<Entry>)
    ensures Sorted(Sort(t))
    decreases |t|
  {
    hide Insert;
    if t != [] {
      SortSorted(t[1..]);
      InsertSorted(t[0], Sort(t[1..]));
    }
  }

  lemma {:induction false} SortedAt(t: seq<Entry>, i: nat, j: nat)
    requires Sorted(t) && i < j < |t|
    ensures AtMost(t[i].p, t[j].p)
    decreases i
  {
    hide AtMost;
    if i == 0 {
      assert t[j] == t[1..][j - 1];
    } else {
      SortedAt(t[1..], i - 1, j - 1);
    }
  }

  /** The entries of a table are the first r powers of x. */
  ghost predicate Powers(t: seq<Entry>, r: nat) {
    (forall e :: e in t ==> e.i < r && e.p == X(e.i)) &&
    (forall i :: 0 <= i < r ==> Entry(X(i), i) in t)
  }

  method BuildTable(r: nat) returns (t: seq<Entry>)
    requires r > 0
    ensures Sorted(t) && Powers(t, r) && |t| == r
  {
    hide MulX, Sort, Sorted;
    var a := new Entry[r](_ => Entry(0, 0));
    a[0] := Entry(0x80000000, 0);
    XNone();
    var i := 1;
    while i < r
      invariant 1 <= i <= r
      invariant forall k :: 0 <= k < i ==> a[k] == Entry(X(k), k)
    {
      a[i] := Entry(MulX(a[i - 1].p, POLY), i);
      i := i + 1;
    }
    t := Sort(a[..]);
    SortSorted(a[..]);
    SortKeeps(a[..]);
    SamePowers(a[..], t, r);
    assert |multiset(t)| == |multiset(a[..])|;
  }

  lemma SamePowers(s: seq<Entry>, t: seq<Entry>, r: nat)
    requires |s| == r && forall k :: 0 <= k < r ==> s[k] == Entry(X(k), k)
    requires multiset(s) == multiset(t)
    ensures Powers(t, r)
  {
    hide X;
    forall e | e in t ensures e.i < r && e.p == X(e.i) {
      assert e in multiset(s);
    }
    forall i | 0 <= i < r ensures Entry(X(i), i) in t {
      assert s[i] in multiset(t);
    }
  }

  ghost predicate Holds(t: seq<Entry>, x: bv32) {
    exists e :: e in t && e.p == x
  }

  /** The inner binary search. */
  method Search(t: seq<Entry>, x: bv32) returns (a: int)
    requires Sorted(t)
    ensures -1 <= a < |t|
    ensures (a >= 0 && t[a].p == x) <==> Holds(t, x)
  {
    hide AtMost, Sorted, Holds;
    a := -1;
    var b := |t|;
    while b - a > 1
      invariant -1 <= a < b <= |t|
      invariant a >= 0 ==> AtMost(t[a].p, x)
      invariant b < |t| ==> !AtMost(t[b].p, x)
    {
      var c := (a + b) / 2;
      if AtMost(t[c].p, x) { a := c; } else { b := c; }
    }
    SearchEnd(t, x, a);
  }

  lemma SearchEnd(t: seq<Entry>, x: bv32, a: int)
    requires Sorted(t) && -1 <= a < |t|
    requires a >= 0 ==> AtMost(t[a].p, x)
    requires a + 1 < |t| ==> !AtMost(t[a + 1].p, x)
    ensures (a >= 0 && t[a].p == x) <==> Holds(t, x)
  {
    hide AtMost, Sorted;
    if Holds(t, x) {
      var e :| e in t && e.p == x;
      var c :| 0 <= c < |t| && t[c] == e;
      AtMostTotal(x, x);
      if c > a + 1 { SortedAt(t, a + 1, c); }
      if c < a { SortedAt(t, c, a); }
      if c <= a { AtMostAntisymmetric(t[a].p, x); }
    }
  }

  // ---------------------------------------------------------------- the range of the search

  function RootFrom(n: nat, r: nat): nat
    decreases n - r
  {
    if n <= r * (r + 1) then r
    else assert r < n by { Grows(n, r); } RootFrom(n, r + 1)
  }

  lemma Grows(n: nat, r: nat)
    requires n > r * (r + 1)
    ensures r < n
  {
    assert r * (r + 1) == r * r + r;
  }

  /** The square root rounded to the nearest integer. */
  function Root(n: nat): nat {
    RootFrom(n, 0)
  }

  lemma {:induction false} RootFromBounds(n: nat, r: nat)
    requires r * (r - 1) < n || r == 0
    ensures var s := RootFrom(n, r); s >= r && n <= s * (s + 1) && (s * (s - 1) < n || s == 0)
    decreases n - r
  {
    if n > r * (r + 1) {
      Grows(n, r);
      RootFromBounds(n, r + 1);
    }
  }

  /** Root(n) is the square root of n rounded to the nearest integer. */
  lemma RootBounds(n: nat)
    requires n > 0
    ensures var r := Root(n); r > 0 && r * (r - 1) < n <= r * (r + 1)
    ensures Root(n) <= n
  {
    RootFromBounds(n, 0);
    var r := Root(n);
    if r > 1 { assert r * (r - 1) >= r - 1 by { MulMono(1, r, r - 1); } }
  }

  /** The number of bits of the message and its checksum. */
  function Bits(size: nat): nat { 8 * (size + 4) }

  /** How many exponents the search tries. */
  function Searched(size: nat): nat
  {
    RootBounds(Bits(size));
    Root(Bits(size)) * (Bits(size) / Root(Bits(size)) + 1)
  }

  /** The search covers every bit and stays below the period of x. */
  lemma SearchRange(size: nat)
    requires Bits(size) < 0x8000_0000
    ensures Bits(size) < Searched(size) <= Bits(size) + Root(Bits(size)) < ORDER
  {
    var n := Bits(size);
    RootBounds(n);
    var r := Root(n);
    assert n == n / r * r + n % r;
    assert Searched(size) == n / r * r + r;
  }

  // ---------------------------------------------------------------- baby steps and giant steps

  /** The matrix of multiplication by q. */
  method TimesMatrix(q: bv32) returns (a: array<bv32>)
    ensures fresh(a) && a.Length == 32
    ensures forall n :: 0 <= n < 32 ==> a[n] == MulXn(q, 31 - n, POLY)
  {
    hide MulX;
    a := new bv32[32](_ => 0);
    a[31] := q;
    var i := 30;
    while i >= 0
      invariant -1 <= i <= 30
      invariant forall n :: i < n < 32 ==> a[n] == MulXn(q, 31 - n, POLY)
    {
      a[i] := MulX(a[i + 1], POLY);
      i := i - 1;
    }
  }

  lemma TimesMatrixIs(m: seq<bv32>, q: bv32, v: bv32)
    requires |m| == 32 && forall n :: 0 <= n < 32 ==> m[n] == MulXn(q, 31 - n, POLY)
    ensures MatrixTimes(m, v) == Mul(q, v, POLY)
  {
    hide MulXn, Mul, MatrixTimes, Linear, Shifted, Unit;
    var f := TimesLeft(q, POLY);
    TimesLeftLinear(q, POLY);
    forall n | 0 <= n < |m| ensures m[n] == f(Unit(n)) { MulUnit(q, n, POLY); }
    Shifted32(v);
    MatrixIsMap(m, f, v);
  }

  /** Multiplying by x^-r and then by x^r changes nothing. */
  lemma GiantStep(q: bv32, r: nat, v: bv32)
    requires MulXn(q, r, POLY) == ONE
    ensures MulXn(Mul(q, v, POLY), r, POLY) == v
  {
    hide MulXn, Mul;
    MulShift(q, v, r, POLY);
    MulOneLeft(v, POLY);
  }

  lemma NextRound(q: bv32, r: nat, v: bv32, shift: nat, d: bv32)
    requires MulXn(q, r, POLY) == ONE && MulXn(v, shift, POLY) == d
    ensures MulXn(Mul(q, v, POLY), shift + r, POLY) == d
  {
    hide MulXn, Mul;
    GiantStep(q, r, v);
    MulXnAdd(Mul(q, v, POLY), r, shift, POLY);
  }

  lemma InverseOfX()
    ensures MulX(X_INVERSE, POLY) == ONE
  {
  }

  /** Some exponent below `limit` gives d. */
  ghost predicate Found(d: bv32, limit: nat) {
    exists k: nat :: k < limit && X(k) == d
  }

  lemma PowerShift(i: nat, v: bv32, shift: nat)
    ensures X(i) == v <==> X(i + shift) == MulXn(v, shift, POLY)
  {
    hide MulXn;
    MulXnAdd(ONE, i, shift, POLY);
    if X(i + shift) == MulXn(v, shift, POLY) { MulXnInjective(X(i), v, shift, POLY); }
  }

  lemma InTable(t: seq<Entry>, r: nat, v: bv32, i: nat)
    requires Powers(t, r) && i < r && X(i) == v
    ensures Holds(t, v)
  {
    hide X;
    assert Entry(X(i), i) in t;
  }

  lemma OneEntry(t: seq<Entry>, r: nat, v: bv32, shift: nat, e: Entry)
    requires Powers(t, r) && e in t && e.p == v
    ensures e.i < r && X(e.i + shift) == MulXn(v, shift, POLY)
  {
    hide MulXn, X;
    PowerShift(e.i, v, shift);
  }

  lemma RoundFails(t: seq<Entry>, r: nat, v: bv32, shift: nat, d: bv32)
    requires Powers(t, r) && MulXn(v, shift, POLY) == d
    requires !Found(d, shift) && Found(d, shift + r)
    ensures Holds(t, v)
  {
    hide MulXn, X, Powers, Holds;
    var k: nat :| k < shift + r && X(k) == d;
    assert k >= shift;
    PowerShift(k - shift, v, shift);
    InTable(t, r, v, k - shift);
  }

  lemma FoundAt(d: bv32, k: nat, limit: nat)
    requires X(k) == d && k < limit
    ensures Found(d, limit)
  {
  }

  /** Whether x^i == v for some i < r decides the r exponents from `shift` on. */
  lemma OneRound(t: seq<Entry>, r: nat, v: bv32, shift: nat, d: bv32)
    requires Powers(t, r) && MulXn(v, shift, POLY) == d
    requires !Found(d, shift)
    ensures Holds(t, v) <==> Found(d, shift + r)
    ensures forall e :: e in t && e.p == v ==> X(e.i + shift) == d
  {
    hide MulXn, X, Powers, Found;
    forall e | e in t && e.p == v ensures X(e.i + shift) == d && Found(d, shift + r) {
      OneEntry(t, r, v, shift, e);
      FoundAt(d, e.i + shift, shift + r);
    }
    if Found(d, shift + r) { RoundFails(t, r, v, shift, d); }
  }

  /** crc32_find_corrupted_bit: a discrete logarithm to base x by baby steps and giant steps. */
  method FindCorruptedBit(size: nat, d: bv32) returns (res: int)
    requires Bits(size) < 0x8000_0000
    ensures res == -1 || (0 <= res < Searched(size) && X(res) == d)
    ensures res >= 0 <==> Found(d, Searched(size))
  {
    hide X, MulXn, Powers, Found, Sorted, Root, Holds, Power, MulX;
    var n := Bits(size);
    RootBounds(n);
    var r := Root(n);
    var t := BuildTable(r);
    var q := GfPow(X_INVERSE, r, POLY);
    InverseOfX();
    PowerOfInverse(X_INVERSE, r, POLY);
    var a := TimesMatrix(q);
    var x := d;
    var j := 0;
    res := -1;
    assert MulXn(x, 0, POLY) == d by { MulXnNone(d); }
    NothingFound(d);
    while j <= n / r
      invariant 0 <= j <= n / r + 1
      invariant MulXn(x, r * j, POLY) == d
      invariant !Found(d, r * j)
      invariant forall n :: 0 <= n < 32 ==> a[n] == MulXn(q, 31 - n, POLY)
    {
      var at := Search(t, x);
      OneRound(t, r, x, r * j, d);
      assert r * j + r == r * (j + 1);
      if at >= 0 && t[at].p == x {
        EntryBelow(t, r, at);
        res := t[at].i + r * j;
        InRange(r, j, n / r);
        MoreFound(d, r * (j + 1), Searched(size));
        return;
      }
      TimesMatrixIs(a[0..32], q, x);
      NextRound(q, r, x, r * j, d);
      x := Crc32Combine.Times(a, 0, x);
      j := j + 1;
    }
  }

  lemma NothingFound(d: bv32)
    ensures !Found(d, 0)
  {
  }

  lemma MoreFound(d: bv32, m: nat, n: nat)
    requires Found(d, m) && m <= n
    ensures Found(d, n)
  {
  }

  lemma EntryBelow(t: seq<Entry>, r: nat, at: nat)
    requires Powers(t, r) && at < |t|
    ensures t[at].i < r
  {
  }

  lemma InRange(r: nat, j: nat, m: nat)
    requires j <= m
    ensures r * (j + 1) <= r * (m + 1)
  {
    MulMono(j + 1, m + 1, r);
  }

  // ---------------------------------------------------------------- the repair

  /** crc32_repair_bit */
  method RepairBit(input: array<byte>, k: int) returns (status: int)
    modifies input
    ensures status == if k < 0 then -1 else if k >= Bits(input.Length) then -2 else if k < 32 then -3 else 0
    ensures status == 0 ==>
              var i := input.Length + 3 - k / 8;
              0 <= i < input.Length && input[..] == Flip(old(input[..]), i, 7 - k % 8)
    ensures status != 0 ==> input[..] == old(input[..])
  {
    if k < 0 {
      return -1;
    }
    var l := input.Length;
    var idx, bit, i := k / 32, k % 32, (l - 1) - (k / 32 - 1) * 4;
    while bit >= 8
      invariant 0 <= bit && 8 * (l + 3 - i) + bit == k
    {
      i := i - 1;
      bit := bit - 8;
    }
    assert i == l + 3 - k / 8 && bit == k % 8;
    if i < 0 {
      return -2;
    }
    if i >= l {
      return -3;
    }
    var j := 7 - bit;
    input[i] := XorByte(input[i], BitOf(j));
    return 0;
  }

  /** Some single bit of the message, inverted, gives the checksum. */
  ghost predicate OneBitOff(data: seq<byte>, crc: bv32) {
    exists i, b :: Repairs(data, i, b, crc)
  }

  ghost predicate Repairs(data: seq<byte>, i: nat, b: nat, crc: bv32) {
    i < |data| && b < 8 && Crc(Flip(data, i, b)) == crc
  }

  lemma Difference(c: bv32, x: bv32, crc: bv32)
    ensures Xor(c, x) == crc <==> x == Xor(c, crc)
  {
    hide Xor;
    XorAssoc(c, c, x);
    XorAssoc(c, c, crc);
    XorZero(c);
    XorZero(x);
    XorZero(crc);
  }

  /** A bit repairs the message exactly when its power of x is the difference of the checksums. */
  lemma RepairsWhen(data: seq<byte>, i: nat, b: nat, crc: bv32)
    requires i < |data| && b < 8
    ensures Repairs(data, i, b, crc) <==> X(Exponent(|data|, i, b)) == Xor(Crc(data), crc)
  {
    hide Xor, X, Crc, Flip;
    FlippedCrc(data, i, b);
    Difference(Crc(data), X(Exponent(|data|, i, b)), crc);
  }

  /** No two bits repair the same message. */
  lemma RepairUnique(data: seq<byte>, i: nat, b: nat, i': nat, b': nat, crc: bv32)
    requires Bits(|data|) < 0x8000_0000
    requires Repairs(data, i, b, crc) && Repairs(data, i', b', crc)
    ensures i == i' && b == b'
  {
    hide Xor, X, Crc, Flip;
    RepairsWhen(data, i, b, crc);
    RepairsWhen(data, i', b', crc);
    DistinctPowers(Exponent(|data|, i, b), Exponent(|data|, i', b'));
  }

  // ---------------------------------------------------------------- one bit of the checksum

  ghost predicate OneBit(d: bv32) {
    exists n :: 0 <= n < 32 && d == Unit(n)
  }

  /** The test of crc32_check_and_repair for a power of two (or zero). */
  predicate AtMostOneBit(d: bv32) { d & (d - 1) == 0 }

  lemma OddTest(d: bv32)
    requires Odd(d)
    ensures AtMostOneBit(d) <==> d == 1
  {
    assert d & (d - 1) == d - 1;
  }

  lemma Predecessor(h: bv32)
    ensures (h << 1) - 1 == ((h - 1) << 1) | 1
  {
  }

  lemma AndShifted(h: bv32, g: bv32)
    ensures (h << 1) & ((g << 1) | 1) == (h & g) << 1
    ensures h & 0x80000000 == 0 ==> (h & g) & 0x80000000 == 0
  {
  }

  lemma ShiftOnlyZero(y: bv32)
    requires y & 0x80000000 == 0
    ensures y << 1 == 0 <==> y == 0
  {
  }

  lemma EvenBack(d: bv32)
    requires d & 1 == 0
    ensures (d >> 1) << 1 == d && (d >> 1) & 0x80000000 == 0
  {
  }

  lemma OddAndHalf(d: bv32)
    ensures Odd(d) <==> d & 1 != 0
    ensures Half(d) == d >> 1
  {
  }

  lemma DoubleTest(h: bv32)
    requires h & 0x80000000 == 0
    ensures (h << 1) & ((h << 1) - 1) == 0 <==> h & (h - 1) == 0
  {
    Predecessor(h);
    var g, y := h - 1, h & (h - 1);
    AndShifted(h, g);
    ShiftOnlyZero(y);
  }

  lemma DoubleAtMostOneBit(h: bv32, d: bv32)
    requires h & 0x80000000 == 0 && d == h << 1
    ensures AtMostOneBit(d) <==> AtMostOneBit(h)
  {
    DoubleTest(h);
  }

  lemma EvenTest(d: bv32)
    requires !Odd(d)
    ensures AtMostOneBit(d) <==> AtMostOneBit(Half(d))
  {
    hide Half, Odd, AtMostOneBit;
    OddAndHalf(d);
    EvenBack(d);
    DoubleAtMostOneBit(d >> 1, d);
  }

  lemma {:induction false} OneBitWhen(d: bv32, m: nat)
    requires m <= 32 && Shifted(d, m) == 0 && d != 0 && AtMostOneBit(d)
    ensures exists n :: 0 <= n < m && d == Unit(n)
    decreases m
  {
    hide Half, Odd, Up, AtMostOneBit, Xor;
    SplitLowBit(d);
    if Odd(d) {
      OddTest(d);
      assert Unit(0) == d;
    } else {
      EvenTest(d);
      assert Up(0) == 0 by { UpZero(); }
      OneBitWhen(Half(d), m - 1);
      var n :| 0 <= n < m - 1 && Half(d) == Unit(n);
      assert Unit(n + 1) == d;
    }
  }

  lemma UpZero()
    ensures Up(0) == 0
  {
  }

  lemma {:induction false} UnitTest(n: nat)
    requires n < 32
    ensures AtMostOneBit(Unit(n)) && Unit(n) != 0
  {
    UnitNonzero(n);
    if n > 0 {
      hide Half, Odd, Up, AtMostOneBit, Unit;
      UnitTest(n - 1);
      HalfUnit(n - 1);
      EvenTest(Unit(n));
    }
  }

  lemma OneBitTest(d: bv32)
    requires d != 0
    ensures AtMostOneBit(d) <==> OneBit(d)
  {
    hide AtMostOneBit, Shifted, Unit;
    if AtMostOneBit(d) {
      Shifted32(d);
      OneBitWhen(d, 32);
    }
    if OneBit(d) {
      var n :| 0 <= n < 32 && d == Unit(n);
      UnitTest(n);
    }
  }

  /** The first 32 powers of x are the single bits. */
  lemma SmallExponents(k: nat)
    requires k < ORDER
    ensures OneBit(X(k)) <==> k < 32
  {
    hide X, Unit;
    if k < 32 {
      PowerOfXIs(k);
    } else if OneBit(X(k)) {
      var n :| 0 <= n < 32 && X(k) == Unit(n);
      PowerOfXIs(31 - n);
      DistinctPowers(k, 31 - n);
    }
  }

  lemma PowerOfXIs(j: nat)
    requires j <= 31
    ensures X(j) == Unit(31 - j)
  {
    hide Unit, MulXn;
    PowerOfX(j, POLY);
  }

  // ---------------------------------------------------------------- check and repair

  datatype Outcome =
    | Intact
    | RepairedMessage
    | RepairedChecksum
    | Hopeless
    | Aborted

  /** What is wrong with a message and its checksum: the outcome follows from this alone. */
  ghost function Diagnosis(data: seq<byte>, crc: bv32, forceExit: bool): Outcome {
    if Crc(data) == crc then Intact
    else if OneBitOff(data, crc) then RepairedMessage
    else if OneBit(Xor(Crc(data), crc)) then RepairedChecksum
    else if forceExit then Aborted
    else Hopeless
  }

  lemma ExponentOf(len: nat, k: nat)
    requires 32 <= k < Bits(len)
    ensures var i, b := len + 3 - k / 8, 7 - k % 8;
            0 <= i < len && 0 <= b < 8 && Exponent(len, i, b) == k
  {
  }

  lemma FoundPosition(data: seq<byte>, crc: bv32, k: nat)
    requires Bits(|data|) < 0x8000_0000 && k < Searched(|data|)
    requires X(k) == Xor(Crc(data), crc)
    ensures 32 <= k < Bits(|data|) <==> OneBitOff(data, crc)
    ensures 32 <= k < Bits(|data|) ==> Repairs(data, |data| + 3 - k / 8, 7 - k % 8, crc)
    ensures OneBit(Xor(Crc(data), crc)) <==> k < 32
  {
    hide Xor, X, Crc, Repairs, OneBit, Root;
    SearchRange(|data|);
    SmallExponents(k);
    if 32 <= k < Bits(|data|) {
      ExponentOf(|data|, k);
      RepairsWhen(data, |data| + 3 - k / 8, 7 - k % 8, crc);
    }
    if OneBitOff(data, crc) {
      var i: nat, b: nat :| Repairs(data, i, b, crc);
      RepairsInRange(data, i, b, crc);
      RepairsWhen(data, i, b, crc);
      DistinctPowers(k, Exponent(|data|, i, b));
    }
  }

  lemma RepairsInRange(data: seq<byte>, i: nat, b: nat, crc: bv32)
    requires Repairs(data, i, b, crc)
    ensures i < |data| && b < 8
  {
  }

  /** An unsuccessful search rules out every single-bit error. */
  lemma NotFound(data: seq<byte>, crc: bv32)
    requires Bits(|data|) < 0x8000_0000
    requires !Found(Xor(Crc(data), crc), Searched(|data|))
    ensures !OneBitOff(data, crc) && !OneBit(Xor(Crc(data), crc))
  {
    hide Xor, X, Crc, Repairs, Root, Unit;
    SearchRange(|data|);
    if OneBitOff(data, crc) {
      var i: nat, b: nat :| Repairs(data, i, b, crc);
      RepairsInRange(data, i, b, crc);
      RepairsWhen(data, i, b, crc);
    }
    if OneBit(Xor(Crc(data), crc)) {
      var n :| 0 <= n < 32 && Xor(Crc(data), crc) == Unit(n);
      PowerOfXIs(31 - n);
    }
  }

  lemma XorNonzero(a: bv32, b: bv32)
    ensures Xor(a, b) == 0 <==> a == b
  {
    hide Xor;
    Difference(a, 0, b);
    XorZero(a);
  }

  /** crc32_check_and_repair. The assertion inside it is the claim that a repaired message has the
      given checksum; with `forceExit`, an error that cannot be repaired ends the process. */
  method CheckAndRepair(input: array<byte>, crc: bv32, forceExit: bool) returns (outcome: Outcome, crc': bv32)
    requires Bits(input.Length) < 0x8000_0000
    modifies input
    ensures outcome == Diagnosis(old(input[..]), crc, forceExit)
    ensures outcome == RepairedMessage ==>
              Crc(input[..]) == crc &&
              forall i, b :: Repairs(old(input[..]), i, b, crc) ==> input[..] == Flip(old(input[..]), i, b)
    ensures outcome != RepairedMessage ==> input[..] == old(input[..])
    ensures crc' == if outcome.RepairedChecksum? || outcome.Hopeless? then Crc(input[..]) else crc
  {
    hide Xor, X, Crc, Repairs, OneBit, Root, Found, OneBitOff, Flip, AtMostOneBit;
    crc' := crc;
    ghost var data := input[..];
    var computed := ComputeCrc32(input[..]);
    var diff := Xor(computed, crc);
    XorNonzero(computed, crc);
    if diff == 0 {
      return Intact, crc';
    }
    var k := FindCorruptedBit(input.Length, diff);
    if k >= 0 { FoundPosition(data, crc, k); } else { NotFound(data, crc); }
    var r := RepairBit(input, k);
    if r == 0 {
      AllSame(data, |data| + 3 - k / 8, 7 - k % 8, crc);
      return RepairedMessage, crc';
    }
    OneBitTest(diff);
    if AtMostOneBit(diff) {
      crc' := computed;
      return RepairedChecksum, crc';
    }
    if forceExit {
      return Aborted, crc';
    }
    crc' := computed;
    return Hopeless, crc';
  }

  lemma AllSame(data: seq<byte>, i: nat, b: nat, crc: bv32)
    requires Bits(|data|) < 0x8000_0000 && Repairs(data, i, b, crc)
    ensures Crc(Flip(data, i, b)) == crc
    ensures OneBitOff(data, crc)
    ensures forall i', b' :: Repairs(data, i', b', crc) ==> i' == i && b' == b
  {
    hide Crc, Flip;
    forall i': nat, b': nat | Repairs(data, i', b', crc) ensures i' == i && b' == b {
      RepairUnique(data, i, b, i', b', crc);
    }
  }

  /** A message with one bit inverted in transit is diagnosed, and the one bit that repairs it
      gives back the message that was sent. */
  lemma SingleErrorIsRepaired(sent: seq<byte>, i: nat, b: nat, forceExit: bool)
    requires i < |sent| && b < 8 && Bits(|sent|) < 0x8000_0000
    ensures var received := Flip(sent, i, b);
            Diagnosis(received, Crc(sent), forceExit) == RepairedMessage &&
            Repairs(received, i, b, Crc(sent)) && Flip(received, i, b) == sent
  {
    hide Crc, XorByte, BitOf, X, Xor, OneBit;
    var received := Flip(sent, i, b);
    XorByteTwice(sent[i], BitOf(b));
    assert Flip(received, i, b) == sent;
    assert Repairs(received, i, b, Crc(sent));
    FlippedCrc(sent, i, b);
    var e := Exponent(|sent|, i, b);
    Difference(Crc(sent), X(e), Crc(received));
    if Crc(received) == Crc(sent) {
      XorNonzero(Crc(sent), Crc(received));
      PowerNonzero(e);
    }
  }

  lemma PowerNonzero(e: nat)
    ensures X(e) != 0
  {
    hide MulXn;
    if X(e) == 0 {
      MulXnZero(e, POLY);
      MulXnInjective(ONE, 0, e, POLY);
    }
  }
}
