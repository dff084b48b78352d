/**
 The bytes of TLS application-data records (section 5.1 of RFC 8446), and that sender and receiver keep
 to them.
 */
module TlsLayout {
  import opened RopeModel
  import opened Ciphers
  import opened TlsFraming

  /** Content type 23, version 3.3, the length of the body with the high byte first, the body. */
  predicate IsRecord(w: seq<byte>, body: seq<byte>, limit: nat) {
    |w| == 5 + |body| && |body| <= limit &&
    w[0] as nat == 23 && w[1] as nat == 3 && w[2] as nat == 3 &&
    w[3] as nat == |body| / 256 && w[4] as nat == |body| % 256 && w[5..] == body
  }

  /** Records with the given bodies, one after the other. */
  predicate Records(w: seq<byte>, bodies: seq<seq<byte>>, limit: nat)
    decreases |bodies|
  {
    if bodies == [] then w == []
    else
      var n := 5 + |bodies[0]|;
      n <= |w| && IsRecord(w[..n], bodies[0], limit) && Records(w[n..], bodies[1..], limit)
  }

  /** What plain bytes must look like on the wire: enciphered, in records of 1 to 1425 bytes that are all
      full but the last. */
  ghost predicate Framed(tls: bool, f: Cipher, seen: seq<byte>, plain: seq<byte>, w: seq<byte>) {
    if tls then exists bodies :: Bodies(f, seen, plain, w, bodies)
    else w == Since(f, 1, seen, seen + plain)
  }

  ghost predicate Bodies(f: Cipher, seen: seq<byte>, plain: seq<byte>, w: seq<byte>, bodies: seq<seq<byte>>) {
    Records(w, bodies, 1425) && Concat(bodies) == Since(f, 1, seen, seen + plain) && |Concat(bodies)| == |plain| &&
    (forall i :: 0 <= i < |bodies| ==> bodies[i] != []) &&
    (forall i :: 0 <= i < |bodies| - 1 ==> |bodies[i]| == 1425)
  }

  // ---------------------------------------------------------------- headers

  lemma Literals()
    ensures (0x17 as byte) as nat == 23 && (0x03 as byte) as nat == 3
  {
  }

  /** A byte is its value. */
  lemma SameByte(a: byte, b: byte)
    requires a as nat == b as nat
    ensures a == b
  {
  }

  lemma HeaderIsRecord(c: seq<byte>)
    requires |c| <= 1425
    ensures IsRecord(Header(|c|) + c, c, 1425)
  {
    Literals();
    var h := Header(|c|);
    assert (h + c)[5..] == c && (h + c)[..5] == h;
    assert forall i :: 0 <= i < 5 ==> (h + c)[i] == h[i];
  }

  /** A header is recognised by its first three bytes, and its length is that of the layout. */
  lemma HeaderDecides(w: seq<byte>)
    requires |w| >= 5
    ensures IsHeader(w) <==> w[0] as nat == 23 && w[1] as nat == 3 && w[2] as nat == 3
    ensures HeaderLength(w) == 256 * w[3] as nat + w[4] as nat
  {
    Literals();
    assert w[..3] == [w[0], w[1], w[2]];
    if w[0] as nat == 23 && w[1] as nat == 3 && w[2] as nat == 3 {
      SameByte(w[0], 0x17);
      SameByte(w[1], 0x03);
      SameByte(w[2], 0x03);
    }
  }

  // ---------------------------------------------------------------- the sender

  /** Everything the sender puts on the wire has the layout. */
  lemma WireFramed(tls: bool, f: Cipher, seen: seq<byte>, plain: seq<byte>)
    requires CipherOk(f, 1)
    ensures Framed(tls, f, seen, plain, Wire(tls, f, seen, plain))
  {
    hide CipherOk, Wire, Bodies, Since;
    if tls {
      var bodies := WireBodies(f, seen, plain);
    } else {
      WirePlain(f, seen, plain);
    }
  }

  lemma WirePlain(f: Cipher, seen: seq<byte>, plain: seq<byte>)
    requires CipherOk(f, 1)
    ensures Wire(false, f, seen, plain) == Since(f, 1, seen, seen + plain)
  {
    hide CipherOk, Since;
    assert seen + [] == seen;
    SinceNone(f, 1, seen);
    if plain != [] {
      assert plain[..|plain|] == plain && plain[|plain|..] == [];
      var c := Since(f, 1, seen, seen + plain);
      assert [] + c == c && c + [] == c;
    }
  }

  lemma {:induction false} WireBodies(f: Cipher, seen: seq<byte>, plain: seq<byte>) returns (bodies: seq<seq<byte>>)
    requires CipherOk(f, 1)
    ensures Bodies(f, seen, plain, Wire(true, f, seen, plain), bodies)
    decreases |plain|
  {
    hide CipherOk, Since, Bodies;
    if plain == [] {
      bodies := [];
      NoBodies(f, seen);
    } else {
      var n := Packet(true, |plain|);
      var rest := WireBodies(f, seen + plain[..n], plain[n..]);
      bodies := [Since(f, 1, seen, seen + plain[..n])] + rest;
      MoreBodies(f, seen, plain, rest);
    }
  }

  lemma NoBodies(f: Cipher, seen: seq<byte>)
    requires CipherOk(f, 1)
    ensures Bodies(f, seen, [], Wire(true, f, seen, []), [])
  {
    assert seen + [] == seen;
    SinceNone(f, 1, seen);
  }

  lemma MoreBodies(f: Cipher, seen: seq<byte>, plain: seq<byte>, rest: seq<seq<byte>>)
    requires CipherOk(f, 1) && plain != []
    requires var n := Packet(true, |plain|);
             Bodies(f, seen + plain[..n], plain[n..], Wire(true, f, seen + plain[..n], plain[n..]), rest)
    ensures var n := Packet(true, |plain|);
            Bodies(f, seen, plain, Wire(true, f, seen, plain), [Since(f, 1, seen, seen + plain[..n])] + rest)
  {
    hide CipherOk, Since, Records, Header, Concat, Wire;
    var n := Packet(true, |plain|);
    var s1, c := seen + plain[..n], Since(f, 1, seen, seen + plain[..n]);
    var tail := Wire(true, f, s1, plain[n..]);
    assert s1 + plain[n..] == seen + plain;
    SinceJoin(f, 1, seen, s1, seen + plain);
    RecordsCons(c, tail, rest);
    WireCons(f, seen, plain);
    if rest != [] { ConcatSome(rest); }
    assert |plain[..n]| + |plain[n..]| == |plain|;
  }

  lemma ConcatSome(ps: seq<seq<byte>>)
    requires ps != [] && ps[0] != []
    ensures |Concat(ps)| > 0
  {
  }

  lemma WireCons(f: Cipher, seen: seq<byte>, plain: seq<byte>)
    requires plain != []
    ensures var n := Packet(true, |plain|);
            Wire(true, f, seen, plain) ==
              Header(n) + Since(f, 1, seen, seen + plain[..n]) + Wire(true, f, seen + plain[..n], plain[n..])
  {
    hide Since, Header;
  }

  lemma RecordsCons(c: seq<byte>, tail: seq<byte>, rest: seq<seq<byte>>)
    requires |c| <= 1425 && Records(tail, rest, 1425)
    ensures Records(Header(|c|) + c + tail, [c] + rest, 1425) && Concat([c] + rest) == c + Concat(rest)
  {
    hide IsRecord, Header;
    HeaderIsRecord(c);
    var w := Header(|c|) + c + tail;
    assert w[..5 + |c|] == Header(|c|) + c && w[5 + |c|..] == tail;
    assert ([c] + rest)[1..] == rest;
  }

  // ---------------------------------------------------------------- the receiver

  /** What a header does: other first bytes are a failure; otherwise the bytes that the length names, and no
      more of them, go through the cipher before the next header. */
  lemma ReadAtHeader(g: Cipher, seen: seq<byte>, w: seq<byte>)
    requires CipherOk(g, 1) && |w| >= 5
    ensures var r, body := Reader(0, seen), w[5..];
            var n := 256 * w[3] as nat + w[4] as nat;
            Read(true, g, r, w) ==
              if !(w[0] as nat == 23 && w[1] as nat == 3 && w[2] as nat == 3) then Reading(r, [], w, 0, true)
              else if |body| <= n then
                Reading(Reader(n - |body|, seen + body), Since(g, 1, seen, seen + body), [], 0, false)
              else
                Prepend(Since(g, 1, seen, seen + body[..n]), Read(true, g, Reader(0, seen + body[..n]), body[n..]))
  {
    hide CipherOk, Since, IsHeader, HeaderLength;
    HeaderDecides(w);
    var body, n := w[5..], HeaderLength(w);
    if IsHeader(w) {
      ReadHeader(g, Reader(0, seen), w);
      ReadBody(g, seen, n, body);
    }
  }

  lemma ReadBody(g: Cipher, seen: seq<byte>, n: nat, body: seq<byte>)
    requires CipherOk(g, 1)
    ensures Read(true, g, Reader(n, seen), body) ==
              if |body| <= n then
                Reading(Reader(n - |body|, seen + body), Since(g, 1, seen, seen + body), [], 0, false)
              else
                Prepend(Since(g, 1, seen, seen + body[..n]), Read(true, g, Reader(0, seen + body[..n]), body[n..]))
  {
    hide CipherOk, Since, Read, Prepend;
    if |body| == 0 || n == 0 {
      ReadNothing(g, seen, n, body);
    } else if |body| <= n {
      assert body + [] == body;
      ReadPart(g, Reader(n, seen), body, []);
      ReadLast(g, Reader(n - |body|, seen + body), Since(g, 1, seen, seen + body));
    } else {
      assert body[..n] + body[n..] == body;
      ReadPart(g, Reader(n, seen), body[..n], body[n..]);
    }
  }

  lemma ReadLast(g: Cipher, r: Reader, got: seq<byte>)
    ensures Prepend(got, Read(true, g, r, [])) == Reading(r, got, [], 0, false)
  {
    assert got + [] == got;
  }

  lemma ReadNothing(g: Cipher, seen: seq<byte>, n: nat, body: seq<byte>)
    requires CipherOk(g, 1) && (body == [] || n == 0)
    ensures seen + [] == seen && Since(g, 1, seen, seen) == []
    ensures body == [] ==> Read(true, g, Reader(n, seen), body) == Reading(Reader(n, seen), [], [], 0, false)
    ensures body != [] ==> body[..n] == [] && body[n..] == body
    ensures Prepend([], Read(true, g, Reader(0, seen), body)) == Read(true, g, Reader(0, seen), body)
  {
    hide Read;
    SinceNone(g, 1, seen);
    PrependTwice([], [], Read(true, g, Reader(0, seen), body));
    if body == [] { ReadEmpty(true, g, Reader(n, seen)); }
  }

  lemma ReadEmpty(tls: bool, g: Cipher, r: Reader)
    ensures Read(tls, g, r, []) == Reading(r, [], [], 0, false)
  {
  }

  /** The receiver asks for more exactly when it stopped before a header, for what is missing of it. */
  lemma {:induction false} NeedExactly(tls: bool, g: Cipher, r: Reader, w: seq<byte>)
    ensures var a := Read(tls, g, r, w);
            a.need == (if a.failed || a.rest == [] then 0 else 5 - |a.rest|) &&
            (a.rest != [] ==> tls && a.reader.left == 0 && (a.failed <==> |a.rest| >= 5))
    decreases |w|
  {
    hide Since, IsHeader, HeaderLength;
    if w != [] && (!(tls && r.left == 0) || (|w| >= 5 && IsHeader(w))) {
      var left, v := if tls && r.left == 0 then HeaderLength(w) else r.left, if tls && r.left == 0 then w[5..] else w;
      var n := Bite(tls, left, |v|);
      NeedExactly(tls, g, Reader(if tls then left - n else left, r.seen + v[..n]), v[n..]);
    }
  }

  /** Records of any peer, of any lengths, are read to the end. */
  lemma {:induction false} RecordsRead(g: Cipher, seen: seq<byte>, w: seq<byte>, bodies: seq<seq<byte>>)
    requires CipherOk(g, 1) && Records(w, bodies, 65535)
    ensures var all := seen + Concat(bodies);
            Read(true, g, Reader(0, seen), w) == Reading(Reader(0, all), Since(g, 1, seen, all), [], 0, false)
    decreases |bodies|
  {
    hide CipherOk, Since, Read, Prepend;
    if bodies == [] {
      NothingRead(g, seen);
    } else {
      var b, n := bodies[0], 5 + |bodies[0]|;
      RecordsRead(g, seen + b, w[n..], bodies[1..]);
      RecordRead(g, seen, w, b);
      AllRead(g, seen, b, Concat(bodies[1..]));
    }
  }

  lemma NothingRead(g: Cipher, seen: seq<byte>)
    requires CipherOk(g, 1)
    ensures seen + Concat([]) == seen
    ensures Read(true, g, Reader(0, seen), []) == Reading(Reader(0, seen), Since(g, 1, seen, seen), [], 0, false)
  {
    assert seen + [] == seen;
    SinceNone(g, 1, seen);
  }

  /** The first record of several. */
  lemma RecordRead(g: Cipher, seen: seq<byte>, w: seq<byte>, b: seq<byte>)
    requires CipherOk(g, 1) && 5 + |b| <= |w| && IsRecord(w[..5 + |b|], b, 65535)
    ensures Read(true, g, Reader(0, seen), w)
         == Prepend(Since(g, 1, seen, seen + b), Read(true, g, Reader(0, seen + b), w[5 + |b|..]))
  {
    hide CipherOk, Since, Read, Prepend, IsHeader, HeaderLength, IsRecord;
    var n := 5 + |b|;
    RecordHeader(w, b);
    ReadHeader(g, Reader(0, seen), w);
    if b == [] {
      assert b + w[n..] == w[n..] && seen + b == seen;
      SinceNone(g, 1, seen);
      PrependTwice([], [], Read(true, g, Reader(0, seen), w[n..]));
    } else {
      ReadPart(g, Reader(|b|, seen), b, w[n..]);
    }
  }

  lemma RecordHeader(w: seq<byte>, b: seq<byte>)
    requires 5 + |b| <= |w| && IsRecord(w[..5 + |b|], b, 65535)
    ensures IsHeader(w) && HeaderLength(w) == |b| && w[5..] == b + w[5 + |b|..]
  {
    hide IsHeader, HeaderLength;
    var v := w[..5 + |b|];
    assert w[0] == v[0] && w[1] == v[1] && w[2] == v[2] && w[3] == v[3] && w[4] == v[4];
    HeaderDecides(w);
    assert w[5..] == v[5..] + w[5 + |b|..];
  }

  lemma AllRead(g: Cipher, seen: seq<byte>, b: seq<byte>, rest: seq<byte>)
    requires CipherOk(g, 1)
    ensures seen + b + rest == seen + (b + rest)
    ensures var x, all := seen + b, seen + (b + rest);
            Prepend(Since(g, 1, seen, x), Reading(Reader(0, x + rest), Since(g, 1, x, x + rest), [], 0, false))
              == Reading(Reader(0, all), Since(g, 1, seen, all), [], 0, false)
  {
    hide Since;
    assert seen + b + rest == seen + (b + rest);
    SinceJoin(g, 1, seen, seen + b, seen + b + rest);
  }
}
