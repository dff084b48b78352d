/**
 The outer layer of a connection: bytes go through a stream cipher, wrapped into TLS application-data
 records (section 5.1 of RFC 8446) if the connection pretends to be TLS. The receiver may be given the
 stream in any portions.
 */
module TlsFraming {
  import opened Arithmetic
  import opened RopeModel
  import opened Ciphers

  // ---------------------------------------------------------------- the sender

  const MaxPacket: nat := 1425

  lemma NextByte(b: byte)
    requires b != 255
    ensures (b + 1) as nat == b as nat + 1
  {
  }

  /** The byte of value n. */
  function ByteOf(n: nat): (b: byte)
    requires n < 256
    ensures b as nat == n
  {
    if n == 0 then 0
    else
      var c := ByteOf(n - 1);
      assert c != 255;
      NextByte(c);
      c + 1
  }

  function Header(len: nat): (h: seq<byte>)
    requires len < 65536
    ensures |h| == 5
  {
    [0x17, 0x03, 0x03, ByteOf(len / 256), ByteOf(len % 256)]
  }

  function HeaderLength(h: seq<byte>): nat
    requires |h| >= 5
  {
    256 * (h[3] as nat) + h[4] as nat
  }

  predicate IsHeader(h: seq<byte>)
    requires |h| >= 5
  {
    h[..3] == [0x17, 0x03, 0x03]
  }

  lemma HeaderRoundTrip(len: nat, rest: seq<byte>)
    requires len < 65536
    ensures IsHeader(Header(len) + rest) && HeaderLength(Header(len) + rest) == len
  {
    assert (Header(len) + rest)[..3] == [0x17, 0x03, 0x03];
  }

  function Packet(tls: bool, n: nat): nat {
    if tls && n > MaxPacket then MaxPacket else n
  }

  /** What one round of the sender's loop puts on the wire for the first len bytes. */
  function Record(tls: bool, f: Cipher, seen: seq<byte>, plain: seq<byte>): seq<byte>
    requires tls ==> |plain| <= MaxPacket
  {
    (if tls then Header(|plain|) else []) + Since(f, 1, seen, seen + plain)
  }

  /** What cpu_tcp_aes_crypto_ctr128_encrypt_output puts on the wire, when the cipher has seen `seen`. */
  function Wire(tls: bool, f: Cipher, seen: seq<byte>, plain: seq<byte>): seq<byte>
    decreases |plain|
  {
    if plain == [] then []
    else
      var n := Packet(tls, |plain|);
      Record(tls, f, seen, plain[..n]) + Wire(tls, f, seen + plain[..n], plain[n..])
  }

  // ---------------------------------------------------------------- the receiver

  /** left_tls_packet_length, and what the cipher has seen. */
  datatype Reader = Reader(left: nat, seen: seq<byte>)

  /** What the receiver has made of its input: its state, the bytes it got, the input it left, and how
      many more bytes it asks for; or it has given up the connection. */
  datatype Reading = Reading(reader: Reader, plain: seq<byte>, rest: seq<byte>, need: nat, failed: bool)

  function Prepend(plain: seq<byte>, r: Reading): Reading {
    r.(plain := plain + r.plain)
  }

  /** How much of the input belongs to the current packet. */
  function Bite(tls: bool, left: nat, n: nat): nat {
    if tls && left < n then left else n
  }

  /** cpu_tcp_aes_crypto_ctr128_decrypt_input on the input so far. */
  function Read(tls: bool, g: Cipher, r: Reader, wire: seq<byte>): Reading
    decreases |wire|
  {
    if wire == [] then Reading(r, [], [], 0, false)
    else if tls && r.left == 0 && |wire| < 5 then Reading(r, [], wire, 5 - |wire|, false)
    else if tls && r.left == 0 && !IsHeader(wire) then Reading(r, [], wire, 0, true)
    else
      var left := if tls && r.left == 0 then HeaderLength(wire) else r.left;
      var w := if tls && r.left == 0 then wire[5..] else wire;
      var n := Bite(tls, left, |w|);
      Prepend(Since(g, 1, r.seen, r.seen + w[..n]),
              Read(tls, g, Reader(if tls then left - n else left, r.seen + w[..n]), w[n..]))
  }

  // ---------------------------------------------------------------- portions do not matter

  lemma PrependTwice(x: seq<byte>, y: seq<byte>, r: Reading)
    ensures Prepend(x, Prepend(y, r)) == Prepend(x + y, r) && Prepend([], r) == r
  {
    assert x + (y + r.plain) == x + y + r.plain && [] + r.plain == r.plain;
  }

  /** A round inside a packet. */
  lemma ReadRound(g: Cipher, r: Reader, w: seq<byte>)
    requires r.left > 0 && w != []
    ensures var n := Bite(true, r.left, |w|);
            Read(true, g, r, w)
              == Prepend(Since(g, 1, r.seen, r.seen + w[..n]), Read(true, g, Reader(r.left - n, r.seen + w[..n]),
                w[n..]))
  {
  }

  /** A header only sets the length. */
  lemma ReadHeader(g: Cipher, r: Reader, w: seq<byte>)
    requires CipherOk(g, 1) && r.left == 0 && |w| >= 5 && IsHeader(w)
    ensures Read(true, g, r, w) == Read(true, g, Reader(HeaderLength(w), r.seen), w[5..])
  {
    hide IsHeader, HeaderLength;
    var left, v := HeaderLength(w), w[5..];
    var n := Bite(true, left, |v|);
    if n == 0 {
      assert v[..0] == [] && v[0..] == v && r.seen + v[..n] == r.seen;
      SinceNone(g, 1, r.seen);
      PrependTwice([], [], Read(true, g, Reader(left, r.seen), v));
    }
  }

  /** Input that is part of the current packet goes through the cipher as it is. */
  lemma ReadPart(g: Cipher, r: Reader, x: seq<byte>, y: seq<byte>)
    requires CipherOk(g, 1) && 0 < |x| <= r.left
    ensures Read(true, g, r, x + y)
         == Prepend(Since(g, 1, r.seen, r.seen + x), Read(true, g, Reader(r.left - |x|, r.seen + x), y))
  {
    hide Read, Since, Prepend, CipherOk;
    var w := x + y;
    var n := Bite(true, r.left, |w|);
    var k := n - |x|;
    ReadRound(g, r, w);
    assert w[..n] == x + y[..k] && w[n..] == y[k..];
    assert r.seen + w[..n] == r.seen + x + y[..k];
    var r1 := Reader(r.left - |x|, r.seen + x);
    if k == 0 {
      assert y[..0] == [] && y[0..] == y && r.seen + x + [] == r.seen + x;
    } else {
      ReadRound(g, r1, y);
      SinceJoin(g, 1, r.seen, r.seen + x, r.seen + x + y[..k]);
      PrependTwice(Since(g, 1, r.seen, r.seen + x), Since(g, 1, r.seen + x, r.seen + x + y[..k]),
                   Read(true, g, Reader(r.left - n, r.seen + w[..n]), w[n..]));
    }
  }

  /** Reading x first and y later is reading x and y together. */
  ghost predicate Resumes(tls: bool, g: Cipher, r: Reader, x: seq<byte>, y: seq<byte>) {
    var a := Read(tls, g, r, x);
    if a.failed then Read(tls, g, r, x + y).failed
    else Read(tls, g, r, x + y) == Prepend(a.plain, Read(tls, g, a.reader, a.rest + y))
  }

  /** Without records everything goes through the cipher. */
  lemma ReadPlain(g: Cipher, r: Reader, x: seq<byte>)
    requires CipherOk(g, 1)
    ensures Read(false, g, r, x) == Reading(Reader(r.left, r.seen + x), Since(g, 1, r.seen, r.seen + x), [], 0, false)
  {
    hide Since, CipherOk;
    if x == [] {
      assert r.seen + x == r.seen;
      SinceNone(g, 1, r.seen);
    } else {
      assert x[..|x|] == x && x[|x|..] == [];
      assert Since(g, 1, r.seen, r.seen + x) + [] == Since(g, 1, r.seen, r.seen + x);
    }
  }

  lemma ResumesPlain(g: Cipher, r: Reader, x: seq<byte>, y: seq<byte>)
    requires CipherOk(g, 1)
    ensures Resumes(false, g, r, x, y)
  {
    hide Since, Read, CipherOk;
    ReadPlain(g, r, x);
    ReadPlain(g, Reader(r.left, r.seen + x), y);
    ReadPlain(g, r, x + y);
    assert r.seen + (x + y) == r.seen + x + y && [] + y == y;
    SinceJoin(g, 1, r.seen, r.seen + x, r.seen + x + y);
  }

  lemma HeaderKept(x: seq<byte>, y: seq<byte>)
    requires |x| >= 5
    ensures (IsHeader(x + y) <==> IsHeader(x)) && HeaderLength(x + y) == HeaderLength(x) && (x + y)[5..] == x[5..] + y
  {
    assert (x + y)[..3] == x[..3];
  }

  /** From a round to the rounds after it. */
  lemma ResumesAfter(g: Cipher, r: Reader, u: seq<byte>, v: seq<byte>, y: seq<byte>)
    requires CipherOk(g, 1) && 0 < |u| <= r.left && Resumes(true, g, Reader(r.left - |u|, r.seen + u), v, y)
    ensures Resumes(true, g, r, u + v, y)
  {
    hide Since, Read, CipherOk;
    var r1, s := Reader(r.left - |u|, r.seen + u), Since(g, 1, r.seen, r.seen + u);
    assert u + v + y == u + (v + y);
    ReadPart(g, r, u, v);
    ReadPart(g, r, u, v + y);
    var a := Read(true, g, r1, v);
    if !a.failed { PrependTwice(s, a.plain, Read(true, g, a.reader, a.rest + y)); }
  }

  lemma {:induction false} Resuming(g: Cipher, r: Reader, x: seq<byte>, y: seq<byte>)
    requires CipherOk(g, 1)
    ensures Resumes(true, g, r, x, y)
    decreases |x|
  {
    hide Since, CipherOk, IsHeader, HeaderLength;
    if x == [] || (r.left == 0 && |x| < 5) {
      assert [] + y == y;
      PrependTwice([], [], Read(true, g, r, x + y));
    } else if r.left == 0 {
      HeaderKept(x, y);
      if IsHeader(x) {
        ReadHeader(g, r, x);
        ReadHeader(g, r, x + y);
        Resuming(g, Reader(HeaderLength(x), r.seen), x[5..], y);
      }
    } else {
      var k := Bite(true, r.left, |x|);
      assert x == x[..k] + x[k..];
      Resuming(g, Reader(r.left - k, r.seen + x[..k]), x[k..], y);
      ResumesAfter(g, r, x[..k], x[k..], y);
    }
  }

  // ---------------------------------------------------------------- the receiver over time

  /** What the receiver has after another portion arrives. */
  function Arrive(tls: bool, g: Cipher, st: Reading, w: seq<byte>): Reading {
    if st.failed then st else Prepend(st.plain, Read(tls, g, st.reader, st.rest + w))
  }

  function ArriveAll(tls: bool, g: Cipher, st: Reading, ws: seq<seq<byte>>): Reading
    decreases |ws|
  {
    if ws == [] then st else ArriveAll(tls, g, Arrive(tls, g, st, ws[0]), ws[1..])
  }

  /** st is what the receiver makes of x, in whatever portions. */
  ghost predicate Stands(tls: bool, g: Cipher, r: Reader, x: seq<byte>, st: Reading) {
    if st.failed then Read(tls, g, r, x).failed else st == Read(tls, g, r, x)
  }

  lemma ArriveStands(tls: bool, g: Cipher, r: Reader, x: seq<byte>, st: Reading, w: seq<byte>)
    requires CipherOk(g, 1) && Stands(tls, g, r, x, st)
    ensures Stands(tls, g, r, x + w, Arrive(tls, g, st, w))
  {
    hide Read, CipherOk;
    if tls { Resuming(g, r, x, w); } else { ResumesPlain(g, r, x, w); }
  }

  /** The portions do not matter. */
  lemma {:induction false} PortionsDoNotMatter(tls: bool, g: Cipher, r: Reader, x: seq<byte>, st: Reading,
                                               ws: seq<seq<byte>>)
    requires CipherOk(g, 1) && Stands(tls, g, r, x, st)
    ensures Stands(tls, g, r, x + Concat(ws), ArriveAll(tls, g, st, ws))
    decreases |ws|
  {
    hide Stands, CipherOk, Arrive, Read;
    if ws == [] {
      assert x + [] == x;
    } else {
      ArriveStands(tls, g, r, x, st, ws[0]);
      PortionsDoNotMatter(tls, g, r, x + ws[0], Arrive(tls, g, st, ws[0]), ws[1..]);
      assert x + ws[0] + Concat(ws[1..]) == x + Concat(ws);
    }
  }

  // ---------------------------------------------------------------- what was sent is received

  /** The receiver is where the sender is: between packets, and the ciphers have seen the same. */
  ghost function InStep(f: Cipher, seen: seq<byte>): Reader {
    Reader(0, Output(f, 1, seen))
  }

  ghost predicate Got(tls: bool, f: Cipher, g: Cipher, seen: seq<byte>, wire: seq<byte>, plain: seq<byte>) {
    Read(tls, g, InStep(f, seen), wire) == Reading(InStep(f, seen + plain), plain, [], 0, false)
  }

  /** One record. */
  lemma ReadRecord(tls: bool, f: Cipher, g: Cipher, seen: seq<byte>, p: seq<byte>)
    requires CipherOk(f, 1) && CipherOk(g, 1) && Undoes(f, g) && p != [] && (tls ==> |p| <= MaxPacket)
    ensures Got(tls, f, g, seen, Record(tls, f, seen, p), p)
  {
    hide Since, CipherOk, Undoes, Output, IsHeader, HeaderLength, Header;
    var c := Since(f, 1, seen, seen + p);
    Deciphered(f, g, seen, p);
    var r := InStep(f, seen);
    assert c[..|c|] == c && c[|c|..] == [];
    if tls {
      HeaderRoundTrip(|p|, c);
      ReadHeader(g, r, Header(|p|) + c);
      assert (Header(|p|) + c)[5..] == c;
      ReadRound(g, Reader(|p|, r.seen), c);
      assert p + [] == p;
    } else {
      ReadPlain(g, r, c);
      assert [] + c == c;
    }
  }

  /** Wire after wire. */
  lemma GotBoth(tls: bool, f: Cipher, g: Cipher, seen: seq<byte>, x: seq<byte>, p: seq<byte>, y: seq<byte>,
                q: seq<byte>)
    requires CipherOk(g, 1) && Got(tls, f, g, seen, x, p) && Got(tls, f, g, seen + p, y, q)
    ensures Got(tls, f, g, seen, x + y, p + q)
  {
    hide Read, CipherOk, Output;
    var r := InStep(f, seen);
    if tls { Resuming(g, r, x, y); } else { ResumesPlain(g, r, x, y); }
    assert [] + y == y && seen + p + q == seen + (p + q);
  }

  lemma GotNothing(tls: bool, f: Cipher, g: Cipher, seen: seq<byte>)
    ensures Got(tls, f, g, seen, [], [])
  {
    assert seen + [] == seen;
  }

  /** Everything one run of the sender's loop puts on the wire. */
  lemma {:induction false} ReadWire(tls: bool, f: Cipher, g: Cipher, seen: seq<byte>, p: seq<byte>)
    requires CipherOk(f, 1) && CipherOk(g, 1) && Undoes(f, g)
    ensures Got(tls, f, g, seen, Wire(tls, f, seen, p), p)
    decreases |p|
  {
    hide CipherOk, Undoes, Got, Record;
    if p == [] {
      GotNothing(tls, f, g, seen);
    } else {
      var n := Packet(tls, |p|);
      ReadRecord(tls, f, g, seen, p[..n]);
      ReadWire(tls, f, g, seen + p[..n], p[n..]);
      GotBoth(tls, f, g, seen, Record(tls, f, seen, p[..n]), p[..n], Wire(tls, f, seen + p[..n], p[n..]), p[n..]);
      assert p[..n] + p[n..] == p;
    }
  }

  /** What the sender puts on the wire over time, flushing the portions ps. */
  function Sent(tls: bool, f: Cipher, seen: seq<byte>, ps: seq<seq<byte>>): seq<byte>
    decreases |ps|
  {
    if ps == [] then [] else Wire(tls, f, seen, ps[0]) + Sent(tls, f, seen + ps[0], ps[1..])
  }

  lemma {:induction false} ReadSent(tls: bool, f: Cipher, g: Cipher, seen: seq<byte>, ps: seq<seq<byte>>)
    requires CipherOk(f, 1) && CipherOk(g, 1) && Undoes(f, g)
    ensures Got(tls, f, g, seen, Sent(tls, f, seen, ps), Concat(ps))
    decreases |ps|
  {
    hide CipherOk, Undoes, Got;
    if ps == [] {
      GotNothing(tls, f, g, seen);
    } else {
      ReadWire(tls, f, g, seen, ps[0]);
      ReadSent(tls, f, g, seen + ps[0], ps[1..]);
      GotBoth(tls, f, g, seen, Wire(tls, f, seen, ps[0]), ps[0], Sent(tls, f, seen + ps[0], ps[1..]), Concat(ps[1..]));
    }
  }

  ghost function Beginning(): Reading {
    Reading(Reader(0, []), [], [], 0, false)
  }

  /** However the plaintext was cut into flushes and the wire into arrivals: the receiver never fails, what
      it has is a prefix of what was sent, and all of it once everything has arrived. */
  lemma StreamRoundTrip(tls: bool, f: Cipher, g: Cipher, ps: seq<seq<byte>>, ws: seq<seq<byte>>)
    requires CipherOk(f, 1) && CipherOk(g, 1) && Undoes(f, g) && Concat(ws) <= Sent(tls, f, [], ps)
    ensures var st := ArriveAll(tls, g, Beginning(), ws);
            !st.failed && st.plain <= Concat(ps) &&
            (Concat(ws) == Sent(tls, f, [], ps) ==> st.plain == Concat(ps) && st.rest == [] && st.reader.left == 0)
  {
    hide CipherOk, Undoes, ArriveAll, Sent, Concat, Read, Output;
    var r := Reader(0, []);
    var x, all := Concat(ws), Sent(tls, f, [], ps);
    BeginningStands(tls, f, g);
    PortionsDoNotMatter(tls, g, r, [], Beginning(), ws);
    ReadSent(tls, f, g, [], ps);
    assert [] + x == x && [] + Concat(ps) == Concat(ps);
    var y := all[|x|..];
    assert x + y == all;
    if tls { Resuming(g, r, x, y); } else { ResumesPlain(g, r, x, y); }
  }

  lemma BeginningStands(tls: bool, f: Cipher, g: Cipher)
    ensures Stands(tls, g, Reader(0, []), [], Beginning()) && InStep(f, []) == Reader(0, [])
  {
  }

  /** In particular for counter mode on both sides with the same key stream. */
  lemma CtrStreamRoundTrip(tls: bool, key: nat -> byte, ps: seq<seq<byte>>, ws: seq<seq<byte>>)
    requires Concat(ws) == Sent(tls, Ctr(key), [], ps)
    ensures ArriveAll(tls, Ctr(key), Beginning(), ws).plain == Concat(ps)
  {
    CtrUndoes(key);
    StreamRoundTrip(tls, Ctr(key), Ctr(key), ps, ws);
  }
}
