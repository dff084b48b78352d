/**
 Encryption and decryption from one raw message into another: the bytes come in portions as the source
 message is cut into parts, whole blocks go through the cipher, and the output fills the buffers of the
 target message.
 */
module RopeCipher {
  import opened Arithmetic
  import opened Options
  import opened Ciphers
  import opened RopeModel
  import opened RopeSteps
  import opened RopeOps
  import opened RopeAppend
  import opened RopeWalk
  import opened RopeStore

  /** The last part of message r is the only user of its buffer, which has room for n more bytes. */
  ghost predicate Tail(h: Heap, r: nat, n: int) {
    r in h.raws && h.raws[r].last.Some? && n >= 0 &&
    var l := h.raws[r].last.value;
    Window(h, l) && h.bufs[h.parts[l].buf].refcnt == 1 && h.raws[r].lastOffset + n == |Data(h, l)|
  }

  lemma TailGrows(h0: Heap, a0: Aux, h: Heap, a: Aux, r: nat, text: seq<byte>, bytes: seq<byte>, locked: Option<nat>,
                  n: int)
    requires Pushing(h0, a0, h, a, r, text, locked) && Tail(h, r, n) && |bytes| <= n
    ensures var l := h.raws[r].last.value;
            Room(h, l, |bytes|) && Pushing(h0, a0, AppendInPlace(h, r, l, bytes), a, r, text + bytes, locked) &&
            Tail(AppendInPlace(h, r, l, bytes), r, n - |bytes|)
  {
    hide Pushing;
    var l := h.raws[r].last.value;
    PushPlace(h0, a0, h, a, r, text, locked);
    PushHere(h0, a0, h, a, r, l, text, bytes, locked);
  }

  lemma TailNew(h0: Heap, a0: Aux, h: Heap, a: Aux, r: nat, text: seq<byte>, data: seq<byte>, locked: Option<nat>)
    requires Pushing(h0, a0, h, a, r, text, locked)
    ensures r in h.raws && h.raws[r].last.Some?
    ensures var l := h.raws[r].last.value;
            l in h.parts && l in a.rank && r in a.paths &&
            Pushing(h0, a0, AppendPart(h, r, l, data, 0), AppendedPart(h, a, r, l), r, text, locked) &&
            Tail(AppendPart(h, r, l, data, 0), r, |data|)
  {
    hide Pushing, AppendedPart;
    PushPlace(h0, a0, h, a, r, text, locked);
    PushNew(h0, a0, h, a, r, h.raws[r].last.value, text, data, 0, locked);
    assert text + data[..0] == text;
  }

  /** struct rwm_encrypt_decrypt_tmp: the bytes of an unfinished block, the room left in the last buffer, the
      bytes still to come, and the cipher context, which is what it has seen. */
  class Walker {
    const store: Store
    const res: nat
    const f: Cipher
    const b: nat
    const std: nat
    const alloc: Allocator
    var buf: seq<byte>
    var bufLeft: int
    var left: int
    var seen: seq<byte>
    var calls: nat
    ghost const h0: Heap
    ghost const a0: Aux
    ghost const text: seq<byte>
    ghost const locked: Option<nat>
    ghost const start: seq<byte>

    /** The target holds what it held, and the output for all whole blocks given since the start. */
    ghost predicate Valid()
      reads this, store
    {
      CipherOk(f, b) && AllocatorOk(alloc) && NeverFails(alloc) && b <= std &&
      start <= seen && Whole(start, b) && Whole(seen, b) && |buf| < b && 0 <= left &&
      Pushing(h0, a0, store.heap, store.aux, res, text + Since(f, b, start, seen), locked) &&
      Tail(store.heap, res, bufLeft)
    }

    /** All bytes given. */
    ghost function Given(): seq<byte>
      reads this
    {
      seen + buf
    }

    constructor (store: Store, res: nat, f: Cipher, b: nat, std: nat, alloc: Allocator, bufLeft: int, left: nat,
                 start: seq<byte>, ghost h0: Heap, ghost a0: Aux, ghost text: seq<byte>, ghost locked: Option<nat>)
      requires CipherOk(f, b) && AllocatorOk(alloc) && NeverFails(alloc) && b <= std && Whole(start, b)
      requires Pushing(h0, a0, store.heap, store.aux, res, text, locked) && Tail(store.heap, res, bufLeft)
      ensures Valid() && this.store == store && this.res == res && this.f == f && this.b == b && this.left == left
      ensures this.h0 == h0 && this.a0 == a0 && this.text == text && this.locked == locked && this.start == start
      ensures Given() == start
    {
      this.store, this.res, this.f, this.b, this.std, this.alloc := store, res, f, b, std, alloc;
      this.bufLeft, this.left, this.start, this.seen, this.buf, this.calls := bufLeft, left, start, start, [], 1;
      this.h0, this.a0, this.text, this.locked := h0, a0, text, locked;
      new;
      SinceNone(f, b, start);
      assert text + [] == text;
    }

    /** A new last part, with an empty buffer of at least the given size. */
    method NewPart(size: nat)
      requires Valid()
      modifies this`bufLeft, this`calls, store
      ensures Valid() && bufLeft >= size
    {
      hide Pushing, AppendPart, AppendedPart, Since, CipherOk;
      ghost var t := text + Since(f, b, start, seen);
      var X := alloc(calls, size);
      calls := calls + 1;
      TailNew(h0, a0, store.heap, store.aux, res, t, Zeros(X.value), locked);
      var l := store.heap.raws[res].last.value;
      store.heap, store.aux :=
        AppendPart(store.heap, res, l, Zeros(X.value), 0), AppendedPart(store.heap, store.aux, res, l);
      bufLeft := X.value;
    }

    /** evp_crypt into the last buffer. */
    method Crypt(bytes: seq<byte>)
      requires Valid() && Whole(bytes, b) && |bytes| <= bufLeft
      modifies this`bufLeft, this`seen, store
      ensures Valid() && seen == old(seen) + bytes && bufLeft == old(bufLeft) - |bytes|
    {
      hide Pushing, AppendInPlace, Since, CipherOk;
      MultipleSum(|seen|, |bytes|, b);
      SinceJoin(f, b, start, seen, seen + bytes);
      SinceJoin(f, b, seen, seen + bytes, seen + bytes);
      var out := Since(f, b, seen, seen + bytes);
      ghost var t := text + Since(f, b, start, seen);
      TailGrows(h0, a0, store.heap, store.aux, res, t, out, locked, bufLeft);
      assert t + out == text + Since(f, b, start, seen + bytes);
      store.heap := AppendInPlace(store.heap, res, store.heap.raws[res].last.value, out);
      seen, bufLeft := seen + bytes, bufLeft - |bytes|;
    }

    /** One block that does not fit into the last buffer: its output is cut in two. */
    method CryptAcross(block: seq<byte>, more: nat)
      requires Valid() && |block| == b && bufLeft < b
      modifies this`bufLeft, this`seen, this`calls, store
      ensures Valid() && seen == old(seen) + block
    {
      hide Pushing, AppendInPlace, AppendPart, AppendedPart, Since, CipherOk;
      MultipleSum(|seen|, |block|, b);
      SinceJoin(f, b, start, seen, seen + block);
      SinceJoin(f, b, seen, seen + block, seen + block);
      var out := Since(f, b, seen, seen + block);
      ghost var t0 := text + Since(f, b, start, seen);
      TailGrows(h0, a0, store.heap, store.aux, res, t0, out[..bufLeft], locked, bufLeft);
      store.heap := AppendInPlace(store.heap, res, store.heap.raws[res].last.value, out[..bufLeft]);
      var size := left + more + b;
      var X := alloc(calls, if size >= std then std else size);
      calls := calls + 1;
      ghost var t1 := t0 + out[..bufLeft];
      TailNew(h0, a0, store.heap, store.aux, res, t1, Zeros(X.value), locked);
      var l := store.heap.raws[res].last.value;
      store.heap, store.aux :=
        AppendPart(store.heap, res, l, Zeros(X.value), 0), AppendedPart(store.heap, store.aux, res, l);
      TailGrows(h0, a0, store.heap, store.aux, res, t1, out[bufLeft..], locked, X.value);
      assert t1 + out[bufLeft..] == text + Since(f, b, start, seen + block);
      store.heap := AppendInPlace(store.heap, res, store.heap.raws[res].last.value, out[bufLeft..]);
      seen, bufLeft := seen + block, X.value - (b - bufLeft);
    }

    /** The loop over whole blocks, buffer by buffer. */
    method CryptBlocks(data: seq<byte>)
      requires Valid() && Whole(data, b)
      modifies this`bufLeft, this`seen, this`calls, store
      ensures Valid() && seen == old(seen) + data
    {
      hide Pushing, Since, CipherOk, Tail;
      var pos := 0;
      while true
        invariant Valid() && 0 <= pos <= |data| && (|data| - pos) % b == 0 && seen == old(seen) + data[..pos]
        decreases |data| - pos
      {
        var len := |data| - pos;
        if bufLeft < b {
          NewPart(if left + len >= std then std else left + len);
        }
        if len <= bufLeft {
          Crypt(data[pos..]);
          assert old(seen) + data[..pos] + data[pos..] == old(seen) + data;
          return;
        }
        var t := bufLeft - bufLeft % b;
        BlocksOf(bufLeft, b);
        BlocksLeft(len, t, b);
        Crypt(data[pos..pos + t]);
        assert old(seen) + data[..pos] + data[pos..pos + t] == old(seen) + data[..pos + t];
        pos := pos + t;
      }
    }

    /** An unfinished block is filled up first; what is left of the data begins a block. */
    method FillBlock(data: seq<byte>) returns (rest: seq<byte>)
      requires Valid()
      modifies this`buf, this`bufLeft, this`seen, this`calls, store
      ensures Valid() && seen + buf + rest == old(seen + buf) + data && (buf == [] || rest == [])
    {
      hide Pushing, Since, CipherOk, Tail;
      if buf == [] { return data; }
      var fill := b - |buf|;
      if |data| < fill {
        buf := buf + data;
        return [];
      }
      var block := buf + data[..fill];
      rest, buf := data[fill..], [];
      if bufLeft >= b {
        SelfMultiple(b);
        Crypt(block);
      } else {
        CryptAcross(block, |rest|);
      }
    }

    /** rwm_process_encrypt_decrypt: the next portion of the input. */
    method Feed(data: seq<byte>)
      requires Valid() && |data| <= left
      modifies this, store
      ensures Valid() && Given() == old(Given()) + data && left == old(left) - |data|
    {
      hide Pushing, Since, CipherOk, Tail;
      if bufLeft == 0 {
        NewPart(if left >= std then std else left);
      }
      left := left - |data|;
      var rest := FillBlock(data);
      if buf != [] { return; }
      ghost var s := seen;
      var k := |rest| - |rest| % b;
      BlocksOf(|rest|, b);
      if |rest| % b != 0 {
        buf := rest[k..];
      }
      CryptBlocks(rest[..k]);
      assert s + [] + rest == s + rest[..k] + rest[k..];
    }
  }

  lemma SelfMultiple(b: nat)
    requires b > 0
    ensures b % b == 0
  {
    DivUnique(b, b, 1, 0);
  }

  /** What remains of n when the rest of the division is cut off. */
  lemma BlocksOf(n: nat, b: nat)
    requires b > 0
    ensures 0 <= n - n % b && (n - n % b) % b == 0 && (n >= b ==> n - n % b > 0)
  {
    MultipleMod(n / b, b);
    assert n - n % b == n / b * b;
  }

  lemma BlocksLeft(n: nat, t: nat, b: nat)
    requires b > 0 && n % b == 0 && t % b == 0 && t <= n
    ensures (n - t) % b == 0
  {
    MultipleSum(t, n - t, b);
  }

  // ---------------------------------------------------------------- from message to message

  /** How the walk along a message cuts its bytes into portions. */
  type Cutter = seq<byte> -> seq<seq<byte>>

  ghost predicate CutterOk(cut: Cutter) {
    forall x :: Concat(cut(x)) == x
  }

  /** RM_PREPEND_RESERVE */
  const Reserve: nat := 128

  /** The target is locked, and gets a part of its own if the last buffer has other users. */
  method OpenTarget(s: Store, res: nat, bytes: nat, std: nat, alloc: Allocator)
      returns (bufLeft: int, locked: Option<nat>)
    requires s.Valid() && res in s.heap.raws && AllocatorOk(alloc) && NeverFails(alloc) && Reserve <= std
    modifies s
    ensures Pushing(old(s.heap), old(s.aux), s.heap, s.aux, res, old(s.Message(res)), locked)
    ensures Tail(s.heap, res, bufLeft)
  {
    hide Good, View, Content, Pushing, LockedLast, AppendPart, AppendedPart, FirstPart, FirstAux, OnlyLock, Text, RawOk;
    ghost var h0, a0 := s.heap, s.aux;
    locked := None;
    BecameSelf(s.heap, s.aux, res);
    if s.heap.raws[res].first.None? {
      var X := alloc(0, if bytes + Reserve >= std then std else bytes + Reserve);
      PushFirst(s.heap, s.aux, res, Zeros(X.value), Reserve, Reserve);
      TailFirst(s.heap, res, Zeros(X.value), Reserve);
      assert Zeros(X.value)[Reserve..Reserve] == [];
      s.heap, s.aux := FirstPart(s.heap, res, Zeros(X.value), Reserve, Reserve), FirstAux(s.heap, s.aux, res);
      bufLeft := X.value - Reserve;
    } else {
      NoLocks(s.heap, s.aux, res);
      locked := s.LockLast(res);
      PushBegins(h0, a0, s.heap, s.aux, res, locked);
      PushPlace(h0, a0, s.heap, s.aux, res, Text(h0, a0, res), locked);
      var l := s.heap.raws[res].last.value;
      if s.heap.bufs[s.heap.parts[l].buf].refcnt != 1 {
        var X := alloc(0, if bytes >= std then std else bytes);
        TailNew(h0, a0, s.heap, s.aux, res, Text(h0, a0, res), Zeros(X.value), locked);
        s.heap, s.aux := AppendPart(s.heap, res, l, Zeros(X.value), 0), AppendedPart(s.heap, s.aux, res, l);
        bufLeft := X.value;
      } else {
        bufLeft := |s.heap.bufs[s.heap.parts[l].buf].data| - s.heap.raws[res].lastOffset;
      }
    }
  }

  lemma TailFirst(h: Heap, r: nat, data: seq<byte>, at: nat)
    requires r in h.raws && at <= |data|
    ensures Tail(FirstPart(h, r, data, at, at), r, |data| - at)
  {
  }

  /** All portions go through the walker. */
  method FeedAll(w: Walker, ps: seq<seq<byte>>)
    requires w.Valid() && |Concat(ps)| == w.left
    modifies w, w.store
    ensures w.Valid() && w.Given() == old(w.Given()) + Concat(ps)
  {
    hide Pushing, Since, CipherOk, Tail;
    var i := 0;
    ghost var g := w.Given();
    assert ps[0..] == ps;
    while i < |ps|
      invariant 0 <= i <= |ps| && w.Valid() && w.Given() + Concat(ps[i..]) == g + Concat(ps)
      invariant w.left == |Concat(ps[i..])|
    {
      assert ps[i..][1..] == ps[i + 1..];
      w.Feed(ps[i]);
      i := i + 1;
    }
  }

  /** Whole blocks given leave no unfinished block. */
  lemma NothingPending(b: nat, start: seq<byte>, data: seq<byte>, seen: seq<byte>, buf: seq<byte>)
    requires Whole(start, b) && Whole(data, b) && Whole(seen, b) && |buf| < b && seen + buf == start + data
    ensures buf == [] && seen == start + data
  {
    MultipleSum(|start|, |data|, b);
    assert |start + data| == |seen| + |buf|;
    MultipleSum(|seen|, |buf|, b);
    DivUnique(|buf|, b, 0, |buf|);
    if buf == [] { assert seen + [] == seen; }
  }

  /** The target's side of rwm_encrypt_decrypt_to: whatever the portions, it gets the output for the whole. */
  method CryptInto(s: Store, res: nat, data: seq<byte>, f: Cipher, b: nat, start: seq<byte>, ps: seq<seq<byte>>,
                   std: nat, alloc: Allocator) returns (seen: seq<byte>)
    requires s.Valid() && res in s.heap.raws && Concat(ps) == data && Whole(data, b)
    requires CipherOk(f, b) && Whole(start, b) && AllocatorOk(alloc) && NeverFails(alloc) && b <= Reserve <= std
    modifies s
    ensures s.Valid() && res in s.heap.raws && Others(old(s.heap), old(s.aux), s.heap, s.aux, res)
    ensures seen == start + data && s.Message(res) == old(s.Message(res)) + Since(f, b, start, seen)
  {
    hide Good, Pushing, OnlyLock, CipherOk, Tail, Since, Became, Others, Text, RawOk;
    ghost var h0, a0 := s.heap, s.aux;
    BecameSelf(s.heap, s.aux, res);
    ghost var text := s.Message(res);
    var bufLeft, locked := OpenTarget(s, res, |data|, std, alloc);
    var w := new Walker(s, res, f, b, std, alloc, bufLeft, |data|, start, h0, a0, text, locked);
    FeedAll(w, ps);
    NothingPending(b, start, data, w.seen, w.buf);
    seen := w.seen;
    ghost var t := text + Since(f, b, start, seen);
    PushEnds(h0, a0, s.heap, s.aux, res, t, locked);
    PushingTemp(h0, a0, s.heap, s.aux, res, t, locked);
    s.heap := Unlocked(s.heap, locked);
    BecameMeans(h0, a0, s.heap, s.aux, res, t);
  }

  /** rwm_encrypt_decrypt_to: whole blocks are taken from the source, and their output is appended to the
      target. */
  method CryptTo(s: Store, raw: nat, res: nat, wanted: nat, f: Cipher, b: nat, start: seq<byte>, cut: Cutter,
                 std: nat, alloc: Allocator) returns (n: nat, seen: seq<byte>)
    requires s.Valid() && raw in s.heap.raws && res in s.heap.raws && raw != res
    requires CipherOk(f, b) && Whole(start, b) && CutterOk(cut) && AllocatorOk(alloc) && NeverFails(alloc)
    requires b <= Reserve <= std
    modifies s
    ensures s.Valid() && s.heap.raws.Keys == old(s.heap.raws.Keys)
    ensures var text := old(s.Message(raw)); var m := if wanted > |text| then |text| else wanted;
            n == m - m % b && n <= |text| && seen == start + text[..n] && s.Message(raw) == text[n..]
    ensures s.Message(res) == old(s.Message(res)) + Since(f, b, start, seen)
    ensures forall k :: k in s.heap.raws && k != raw && k != res ==> s.Message(k) == old(s.Message(k))
  {
    hide Good, OnlyLock, CipherOk, Since, Text;
    ghost var h0, a0 := s.heap, s.aux;
    TotalIs(s.heap, s.aux, raw);
    var m := s.heap.raws[raw].total;
    n := if wanted > m then m else wanted;
    BlocksOf(n, b);
    n := n - n % b;
    seen := start;
    SinceNone(f, b, start);
    if n == 0 {
      return;
    }
    var data := s.Process(raw, n, 0, Advance);
    seen := CryptInto(s, res, data, f, b, start, cut(data), std, alloc);
  }
}
