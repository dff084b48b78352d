/**
 Ciphers that work on whole blocks, one after the other: what a context makes of a block may depend on
 every block it was given before, so a context is the bytes it has seen.
 */
module Ciphers {
  import opened Arithmetic
  import opened RopeModel

  /** All portions, one after the other. */
  function Concat(ps: seq<seq<byte>>): seq<byte> {
    if ps == [] then [] else ps[0] + Concat(ps[1..])
  }

  /** The last block of output, given all input so far. */
  type Cipher = seq<byte> -> seq<byte>

  /** Every block of input gives a block of output. */
  ghost predicate CipherOk(f: Cipher, b: nat) {
    b > 0 && forall x :: |f(x)| == b
  }

  predicate Whole(x: seq<byte>, b: nat) {
    b > 0 && |x| % b == 0
  }

  /** All output for the input x. */
  function Output(f: Cipher, b: nat, x: seq<byte>): seq<byte>
    requires b > 0
  {
    if |x| < b then [] else Output(f, b, x[..|x| - b]) + f(x)
  }

  lemma {:induction false} OutputLength(f: Cipher, b: nat, x: seq<byte>)
    requires CipherOk(f, b) && Whole(x, b)
    ensures |Output(f, b, x)| == |x|
    decreases |x|
  {
    if |x| > 0 {
      LessOneMultiple(|x|, b);
      OutputLength(f, b, x[..|x| - b]);
    }
  }

  lemma OutputLast(f: Cipher, b: nat, y: seq<byte>)
    requires b > 0 && |y| >= b
    ensures Output(f, b, y) == Output(f, b, y[..|y| - b]) + f(y)
  {
  }

  /** More input does not change the output so far. */
  lemma {:induction false} OutputPrefix(f: Cipher, b: nat, x: seq<byte>, y: seq<byte>)
    requires CipherOk(f, b) && Whole(x, b) && Whole(y, b) && x <= y
    ensures Output(f, b, x) <= Output(f, b, y)
    decreases |y|
  {
    hide Output, CipherOk;
    if |x| == |y| {
      assert x == y;
    } else {
      LessOneMultiple(|y|, b);
      MultiplesApart(|x|, |y|, b);
      OutputPrefix(f, b, x, y[..|y| - b]);
      OutputLast(f, b, y);
    }
  }

  /** The output a context gives while its input grows from x to y. */
  function Since(f: Cipher, b: nat, x: seq<byte>, y: seq<byte>): seq<byte>
    requires b > 0
  {
    var o := Output(f, b, y);
    if |x| <= |o| then o[|x|..] else []
  }

  /** Input in two portions gives the same output as in one. */
  lemma SinceJoin(f: Cipher, b: nat, x: seq<byte>, y: seq<byte>, z: seq<byte>)
    requires CipherOk(f, b) && Whole(x, b) && Whole(y, b) && Whole(z, b) && x <= y <= z
    ensures Since(f, b, x, y) + Since(f, b, y, z) == Since(f, b, x, z) && |Since(f, b, x, y)| == |y| - |x|
  {
    OutputLength(f, b, x);
    OutputLength(f, b, y);
    OutputLength(f, b, z);
    OutputPrefix(f, b, x, y);
    OutputPrefix(f, b, y, z);
  }

  lemma SinceNone(f: Cipher, b: nat, x: seq<byte>)
    requires CipherOk(f, b) && Whole(x, b)
    ensures Since(f, b, x, x) == []
  {
    OutputLength(f, b, x);
  }

  // ---------------------------------------------------------------- deciphering

  /** g undoes f, byte by byte. */
  ghost predicate Undoes(f: Cipher, g: Cipher) {
    forall x :: Output(g, 1, Output(f, 1, x)) == x
  }

  /** The other side's context gives back the bytes that were enciphered. */
  lemma Deciphered(f: Cipher, g: Cipher, x: seq<byte>, p: seq<byte>)
    requires CipherOk(f, 1) && CipherOk(g, 1) && Undoes(f, g)
    ensures |Since(f, 1, x, x + p)| == |p| && Output(f, 1, x) + Since(f, 1, x, x + p) == Output(f, 1, x + p)
    ensures Since(g, 1, Output(f, 1, x), Output(f, 1, x + p)) == p
  {
    hide Output, CipherOk;
    assert |x| % 1 == 0 && |x + p| % 1 == 0 && x <= x + p;
    OutputLength(f, 1, x);
    OutputLength(f, 1, x + p);
    OutputPrefix(f, 1, x, x + p);
    assert Output(g, 1, Output(f, 1, x + p)) == x + p;
    assert (x + p)[|x|..] == p;
  }

  function Xor(a: byte, k: byte): byte {
    a ^ k
  }

  /** Counter mode: each byte is combined with the key stream's byte at its position. */
  function Ctr(key: nat -> byte): Cipher {
    (x: seq<byte>) => if x == [] then [0] else [Xor(x[|x| - 1], key(|x| - 1))]
  }

  lemma XorTwice(a: byte, k: byte)
    ensures Xor(Xor(a, k), k) == a
  {
  }

  /** The output for one byte more. */
  lemma CtrLast(key: nat -> byte, x: seq<byte>)
    requires x != []
    ensures var n := |x| - 1; Output(Ctr(key), 1, x) == Output(Ctr(key), 1, x[..n]) + [Xor(x[n], key(n))]
  {
    OutputLast(Ctr(key), 1, x);
  }

  /** Counter mode undoes itself. */
  lemma {:induction false} CtrOutput(key: nat -> byte, x: seq<byte>)
    ensures |Output(Ctr(key), 1, x)| == |x|
    ensures Output(Ctr(key), 1, Output(Ctr(key), 1, x)) == x
    decreases |x|
  {
    hide Output, Ctr, Xor;
    if x == [] {
      NoOutput(Ctr(key));
    } else {
      var n := |x| - 1;
      CtrOutput(key, x[..n]);
      CtrLast(key, x);
      var y := Output(Ctr(key), 1, x);
      assert y[..n] == Output(Ctr(key), 1, x[..n]) && y[n] == Xor(x[n], key(n));
      CtrLast(key, y);
      XorTwice(x[n], key(n));
      assert x == x[..n] + [x[n]];
    }
  }

  lemma NoOutput(f: Cipher)
    ensures Output(f, 1, []) == []
  {
  }

  lemma CtrUndoes(key: nat -> byte)
    ensures CipherOk(Ctr(key), 1) && Undoes(Ctr(key), Ctr(key))
  {
    forall x ensures Output(Ctr(key), 1, Output(Ctr(key), 1, x)) == x { CtrOutput(key, x); }
  }
}
