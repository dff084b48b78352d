/** The sending and the receiving loop of a connection, on raw messages. */
module TlsConnection {
  import opened Arithmetic
  import opened Options
  import opened Ciphers
  import opened RopeModel
  import opened RopeOps
  import opened RopeAppend
  import opened RopeWalk
  import opened RopeStore
  import opened RopeCipher
  import opened TlsFraming
  import opened TlsLayout

  /** MSG_SMALL_BUFFER and MSG_STD_BUFFER */
  const Small: nat := 512
  const Standard: nat := 2048

  /** What the calls of one operation get from the buffer allocator, and how a walk cuts a message. */
  datatype Surroundings = Surroundings(alloc: Allocator, cut: Cutter)

  ghost predicate Usable(s: Surroundings) {
    AllocatorOk(s.alloc) && NeverFails(s.alloc) && CutterOk(s.cut)
  }

  /** All messages but x and y hold the same bytes. */
  ghost predicate Beside(h: Heap, a: Aux, h': Heap, a': Aux, x: nat, y: nat) {
    h'.raws.Keys == h.raws.Keys &&
    forall k :: k in h.raws && k != x && k != y ==>
      RawOk(h, a, k) && RawOk(h', a', k) && Text(h', a', k) == Text(h, a, k)
  }

  lemma BesideSelf(h: Heap, a: Aux, x: nat, y: nat)
    requires Good(h, a)
    ensures Beside(h, a, h, a, x, y)
  {
    hide RawOk;
    forall k | k in h.raws ensures RawOk(h, a, k) { }
  }

  lemma BesideTrans(h0: Heap, a0: Aux, h1: Heap, a1: Aux, h2: Heap, a2: Aux, x: nat, y: nat)
    requires Beside(h0, a0, h1, a1, x, y) && Beside(h1, a1, h2, a2, x, y)
    ensures Beside(h0, a0, h2, a2, x, y)
  {
  }

  class Connection {
    const store: Store
    const out: nat
    const outP: nat
    const inU: nat
    const input: nat
    const tls: bool
    const enc: Cipher
    const dec: Cipher
    /** For the n-th operation on messages. */
    const around: nat -> Surroundings
    var ops: nat
    /** What the two cipher contexts have seen. */
    var written: seq<byte>
    var read: seq<byte>
    /** left_tls_packet_length */
    var left: nat

    ghost predicate Valid()
      reads this, store
    {
      store.Valid() && {out, outP, inU, input} <= store.heap.raws.Keys &&
      out != outP && out != inU && out != input && outP != inU && outP != input && inU != input &&
      CipherOk(enc, 1) && CipherOk(dec, 1) && forall n :: Usable(around(n))
    }

    constructor (store: Store, out: nat, outP: nat, inU: nat, input: nat, tls: bool, enc: Cipher, dec: Cipher,
                 around: nat -> Surroundings)
      requires store.Valid() && {out, outP, inU, input} <= store.heap.raws.Keys
      requires out != outP && out != inU && out != input && outP != inU && outP != input && inU != input
      requires CipherOk(enc, 1) && CipherOk(dec, 1) && forall n :: Usable(around(n))
      ensures Valid() && written == [] && read == [] && left == 0
      ensures this.store == store && this.out == out && this.outP == outP && this.inU == inU && this.input == input
      ensures this.tls == tls && this.enc == enc && this.dec == dec
    {
      this.store, this.out, this.outP, this.inU, this.input := store, out, outP, inU, input;
      this.tls, this.enc, this.dec, this.around := tls, enc, dec, around;
      ops, written, read, left := 0, [], [], 0;
    }

    method Total(r: nat) returns (n: nat)
      requires store.Valid() && r in store.heap.raws
      ensures n == |store.Message(r)|
    {
      hide Good, OnlyLock, Text;
      TotalIs(store.heap, store.aux, r);
      n := store.heap.raws[r].total;
    }

    /** rwm_encrypt_decrypt_to with the write key. */
    method Encipher(n: nat)
      requires Valid() && n <= |store.Message(out)|
      modifies this`ops, this`written, store
      ensures Valid() && Beside(old(store.heap), old(store.aux), store.heap, store.aux, out, outP)
      ensures store.Message(out) == old(store.Message(out))[n..] &&
              written == old(written) + old(store.Message(out))[..n]
      ensures store.Message(outP) == old(store.Message(outP)) + Since(enc, 1, old(written), written)
    {
      hide Good, OnlyLock, Text, CipherOk, Since;
      AllRawsOk(store.heap, store.aux);
      assert Usable(around(ops));
      var k;
      k, written := CryptTo(store, out, outP, n, enc, 1, written, around(ops).cut, Standard, around(ops).alloc);
      AllRawsOk(store.heap, store.aux);
      ops := ops + 1;
    }

    /** rwm_encrypt_decrypt_to with the read key. */
    method Decipher(n: nat)
      requires Valid() && n <= |store.Message(inU)|
      modifies this`ops, this`read, store
      ensures Valid() && Beside(old(store.heap), old(store.aux), store.heap, store.aux, inU, input)
      ensures store.Message(inU) == old(store.Message(inU))[n..] && read == old(read) + old(store.Message(inU))[..n]
      ensures store.Message(input) == old(store.Message(input)) + Since(dec, 1, old(read), read)
    {
      hide Good, OnlyLock, Text, CipherOk, Since;
      AllRawsOk(store.heap, store.aux);
      assert Usable(around(ops));
      var k;
      k, read := CryptTo(store, inU, input, n, dec, 1, read, around(ops).cut, Standard, around(ops).alloc);
      AllRawsOk(store.heap, store.aux);
      ops := ops + 1;
    }

    /** rwm_push_data of a record header. */
    method PushHeader(n: nat)
      requires Valid() && n < 65536
      modifies this`ops, store
      ensures Valid() && Beside(old(store.heap), old(store.aux), store.heap, store.aux, out, outP)
      ensures store.Message(outP) == old(store.Message(outP)) + Header(n)
      ensures store.Message(out) == old(store.Message(out))
    {
      hide Good, OnlyLock, Text, CipherOk, Header;
      AllRawsOk(store.heap, store.aux);
      assert Usable(around(ops));
      var k := store.PushData(outP, Header(n), Reserve, Small, Standard, around(ops).alloc);
      AllRawsOk(store.heap, store.aux);
      assert Header(n)[..5] == Header(n);
      ops := ops + 1;
    }

    /** One round of the sending loop. */
    method SendRecord(total: nat)
      requires Valid() && total == |store.Message(out)| > 0
      modifies this`ops, this`written, store
      ensures Valid() && Beside(old(store.heap), old(store.aux), store.heap, store.aux, out, outP)
      ensures var plain, n := old(store.Message(out)), Packet(tls, total);
              store.Message(out) == plain[n..] && written == old(written) + plain[..n] &&
              store.Message(outP) == old(store.Message(outP)) + Record(tls, enc, old(written), plain[..n])
    {
      hide Good, OnlyLock, Text, CipherOk, Since, Header, Beside;
      ghost var h0, a0, wire := store.heap, store.aux, store.Message(outP);
      BesideSelf(h0, a0, out, outP);
      var len := total;
      if tls {
        if MaxPacket < len { len := MaxPacket; }
        PushHeader(len);
      }
      ghost var h1, a1 := store.heap, store.aux;
      Encipher(len);
      BesideTrans(h0, a0, h1, a1, store.heap, store.aux, out, outP);
      assert wire + [] == wire;
    }

    /** cpu_tcp_aes_crypto_ctr128_encrypt_output */
    method EncryptOutput()
      requires Valid()
      modifies this`ops, this`written, store
      ensures Valid() && Beside(old(store.heap), old(store.aux), store.heap, store.aux, out, outP)
      ensures store.Message(out) == [] && written == old(written) + old(store.Message(out))
      ensures store.Message(outP) == old(store.Message(outP)) + Wire(tls, enc, old(written), old(store.Message(out)))
      ensures Framed(tls, enc, old(written), old(store.Message(out)),
                     Wire(tls, enc, old(written), old(store.Message(out))))
    {
      hide Good, OnlyLock, Text, CipherOk, Since, Wire, Record, Beside, Framed;
      WireFramed(tls, enc, written, store.Message(out));
      ghost var h0, a0 := store.heap, store.aux;
      BesideSelf(h0, a0, out, outP);
      ghost var goal := store.Message(outP) + Wire(tls, enc, written, store.Message(out));
      ghost var all := written + store.Message(out);
      var len := Total(out);
      while len > 0
        invariant Valid() && Beside(h0, a0, store.heap, store.aux, out, outP) && len == |store.Message(out)|
        invariant store.Message(outP) + Wire(tls, enc, written, store.Message(out)) == goal
        invariant written + store.Message(out) == all
        decreases len
      {
        ghost var plain, h1, a1 := store.Message(out), store.heap, store.aux;
        WireRound(tls, enc, written, plain, store.Message(outP));
        SendRecord(len);
        BesideTrans(h0, a0, h1, a1, store.heap, store.aux, out, outP);
        assert plain[..Packet(tls, len)] + plain[Packet(tls, len)..] == plain;
        len := Total(out);
      }
      WireEnds(tls, enc, written, store.Message(outP));
    }

    /** One round of the receiving loop that is not stopped by a header: a header is taken off, and the
        rest of the packet that is there goes through the cipher. */
    method TakePart(total: nat, header: bool)
      requires Valid() && total == |store.Message(inU)| > 0 && header == (tls && left == 0)
      requires header ==> total >= 5
      modifies this`ops, this`read, this`left, store
      ensures Valid() && Beside(old(store.heap), old(store.aux), store.heap, store.aux, inU, input)
      ensures var wire := old(store.Message(inU));
              var left0, w := if header then HeaderLength(wire) else old(left), if header then wire[5..] else wire;
              var n := Bite(tls, left0, |w|);
              left == (if tls then left0 - n else left0) && read == old(read) + w[..n] &&
                store.Message(inU) == w[n..] &&
              store.Message(input) == old(store.Message(input)) + Since(dec, 1, old(read), read)
    {
      hide Good, OnlyLock, Text, CipherOk, Since, Beside, HeaderLength;
      ghost var h0, a0 := store.heap, store.aux;
      BesideSelf(h0, a0, inU, input);
      var len := total;
      if header {
        var h := Fetch(5, Lookup);
        left := HeaderLength(h);
        FirstFive(store.Message(inU));
        ghost var h1, a1 := store.heap, store.aux;
        h := Fetch(5, Advance);
        BesideTrans(h0, a0, h1, a1, store.heap, store.aux, inU, input);
        len := len - 5;
      }
      ghost var h1, a1 := store.heap, store.aux;
      if tls {
        if left < len { len := left; }
        left := left - len;
      }
      Decipher(len);
      BesideTrans(h0, a0, h1, a1, store.heap, store.aux, inU, input);
    }

    /** rwm_fetch_lookup and rwm_skip_data on the input. */
    method Fetch(n: nat, mode: Mode) returns (data: seq<byte>)
      requires Valid() && 0 < n <= |store.Message(inU)| && mode != Truncate
      modifies store
      ensures Valid() && Beside(old(store.heap), old(store.aux), store.heap, store.aux, inU, input)
      ensures data == old(store.Message(inU))[..n] && store.Message(input) == old(store.Message(input))
      ensures store.Message(inU) == if mode == Lookup then old(store.Message(inU)) else old(store.Message(inU))[n..]
    {
      hide Good, OnlyLock, Text, CipherOk;
      AllRawsOk(store.heap, store.aux);
      data := store.Process(inU, n, 0, mode);
      AllRawsOk(store.heap, store.aux);
    }

    /** cpu_tcp_aes_crypto_ctr128_decrypt_input */
    method DecryptInput() returns (need: nat, failed: bool)
      requires Valid()
      modifies this`ops, this`read, this`left, store
      ensures Valid() && Beside(old(store.heap), old(store.aux), store.heap, store.aux, inU, input)
      ensures var got := Read(tls, dec, Reader(old(left), old(read)), old(store.Message(inU)));
              store.Message(inU) == got.rest && store.Message(input) == old(store.Message(input)) + got.plain &&
              Reader(left, read) == got.reader && need == got.need && failed == got.failed
      ensures need == if failed || store.Message(inU) == [] then 0 else 5 - |store.Message(inU)|
      ensures forall bodies :: tls && old(left) == 0 && Records(old(store.Message(inU)), bodies, 65535) ==>
                store.Message(inU) == [] && read == old(read) + Concat(bodies) && left == 0 && !failed &&
                store.Message(input) == old(store.Message(input)) + Since(dec, 1, old(read), read)
    {
      hide Good, OnlyLock, Text, CipherOk, Since, Read, Beside, Records, Concat;
      AnyRecordsRead(dec, left, read, store.Message(inU));
      NeedExactly(tls, dec, Reader(left, read), store.Message(inU));
      need, failed := ReadInput();
    }

    /** The loop of cpu_tcp_aes_crypto_ctr128_decrypt_input. */
    method ReadInput() returns (need: nat, failed: bool)
      requires Valid()
      modifies this`ops, this`read, this`left, store
      ensures Valid() && Beside(old(store.heap), old(store.aux), store.heap, store.aux, inU, input)
      ensures var got := Read(tls, dec, Reader(old(left), old(read)), old(store.Message(inU)));
              store.Message(inU) == got.rest && store.Message(input) == old(store.Message(input)) + got.plain &&
              Reader(left, read) == got.reader && need == got.need && failed == got.failed
    {
      hide Good, OnlyLock, Text, CipherOk, Since, Read, Beside, IsHeader, HeaderLength;
      ghost var h0, a0, before := store.heap, store.aux, store.Message(input);
      BesideSelf(h0, a0, inU, input);
      ghost var got: seq<byte> := [];
      ghost var goal := Read(tls, dec, Reader(left, read), store.Message(inU));
      PrependTwice([], [], goal);
      assert before + got == before;
      var len := Total(inU);
      while len > 0
        invariant Valid() && Beside(h0, a0, store.heap, store.aux, inU, input) && len == |store.Message(inU)|
        invariant store.Message(input) == before + got
        invariant Prepend(got, Read(tls, dec, Reader(left, read), store.Message(inU))) == goal
        decreases len
      {
        ghost var h1, a1, wire, r := store.heap, store.aux, store.Message(inU), Reader(left, read);
        var header := tls && left == 0;
        if header {
          ReadStops(dec, r, wire);
          if len < 5 { return 5 - len, false; }
          var h := Fetch(5, Lookup);
          BesideTrans(h0, a0, h1, a1, store.heap, store.aux, inU, input);
          HeaderKept(h, wire[5..]);
          assert h + wire[5..] == wire;
          if !IsHeader(h) { return 0, true; }
        }
        ghost var h2, a2 := store.heap, store.aux;
        TakePart(len, header);
        BesideTrans(h0, a0, h2, a2, store.heap, store.aux, inU, input);
        ReadOne(tls, dec, r, wire);
        PrependTwice(got, Since(dec, 1, r.seen, read), Read(tls, dec, Reader(left, read), store.Message(inU)));
        got := got + Since(dec, 1, r.seen, read);
        len := Total(inU);
      }
      ReadEmpty(tls, dec, Reader(left, read));
      return 0, false;
    }
  }

  lemma AnyRecordsRead(g: Cipher, left: nat, seen: seq<byte>, w: seq<byte>)
    requires CipherOk(g, 1)
    ensures forall bodies :: left == 0 && Records(w, bodies, 65535) ==>
              var all := seen + Concat(bodies);
              Read(true, g, Reader(left, seen), w) == Reading(Reader(0, all), Since(g, 1, seen, all), [], 0, false)
  {
    hide Read, Since, CipherOk, Records;
    forall bodies | left == 0 && Records(w, bodies, 65535)
      ensures var all := seen + Concat(bodies);
              Read(true, g, Reader(left, seen), w) == Reading(Reader(0, all), Since(g, 1, seen, all), [], 0, false)
    {
      RecordsRead(g, seen, w, bodies);
    }
  }

  lemma AllRawsOk(h: Heap, a: Aux)
    requires Good(h, a)
    ensures forall k :: k in h.raws ==> RawOk(h, a, k)
  {
    hide RawOk;
    forall k | k in h.raws ensures RawOk(h, a, k) { }
  }

  lemma FirstFive(wire: seq<byte>)
    requires |wire| >= 5
    ensures HeaderLength(wire[..5]) == HeaderLength(wire)
  {
  }

  /** The rounds of the receiver that stop, and the one that goes on. */
  lemma ReadStops(g: Cipher, r: Reader, wire: seq<byte>)
    requires r.left == 0 && wire != []
    ensures |wire| < 5 ==> Read(true, g, r, wire) == Reading(r, [], wire, 5 - |wire|, false)
    ensures |wire| >= 5 && !IsHeader(wire) ==> Read(true, g, r, wire) == Reading(r, [], wire, 0, true)
  {
  }

  lemma ReadOne(tls: bool, g: Cipher, r: Reader, wire: seq<byte>)
    requires wire != [] && (tls && r.left == 0 ==> |wire| >= 5 && IsHeader(wire))
    ensures var header := tls && r.left == 0;
            var left, w := if header then HeaderLength(wire) else r.left, if header then wire[5..] else wire;
            var n := Bite(tls, left, |w|);
            Read(tls, g, r, wire) == Prepend(Since(g, 1, r.seen, r.seen + w[..n]),
              Read(tls, g, Reader(if tls then left - n else left, r.seen + w[..n]), w[n..]))
  {
    hide Since, IsHeader, HeaderLength;
  }

  /** One round of the sender. */
  lemma WireRound(tls: bool, f: Cipher, seen: seq<byte>, plain: seq<byte>, before: seq<byte>)
    requires plain != []
    ensures var n := Packet(tls, |plain|);
            before + Wire(tls, f, seen, plain)
              == before + Record(tls, f, seen, plain[..n]) + Wire(tls, f, seen + plain[..n], plain[n..])
  {
    hide Since, Header, Record;
  }

  lemma WireEnds(tls: bool, f: Cipher, seen: seq<byte>, before: seq<byte>)
    ensures before + Wire(tls, f, seen, []) == before
  {
  }
}
