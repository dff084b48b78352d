/**
 Raw messages: chains of reference-counted parts that are windows into reference-counted buffers.
 Messages share parts, so the parts form a graph; every message means a sequence of bytes.
 */
module RopeModel {
  import opened Options

  type byte = bv8

  /** struct msg_part */
  datatype Part = Part(next: Option<nat>, buf: nat, offset: int, end: int, refcnt: int, locked: bool)

  /** struct msg_buffer: as many bytes as the chunk's buffer size. */
  datatype Buffer = Buffer(data: seq<byte>, refcnt: int)

  /** struct raw_message */
  datatype Raw = Raw(first: Option<nat>, last: Option<nat>, total: int, firstOffset: int, lastOffset: int)

  /** All parts, buffers and messages; addresses from `unused` on have never been handed out. */
  datatype Heap = Heap(parts: map<nat, Part>, bufs: map<nat, Buffer>, raws: map<nat, Raw>, unused: nat)

  /** What the proof knows beside the heap: a rank that falls along every chain, the parts of every
      message from its first to its last, and the references held by local variables. */
  datatype Aux = Aux(rank: map<nat, int>, paths: map<nat, seq<nat>>, temp: multiset<nat>)

  // ---------------------------------------------------------------- the bytes of a chain

  ghost predicate Window(h: Heap, p: nat) {
    p in h.parts && h.parts[p].buf in h.bufs &&
    0 <= h.parts[p].offset <= h.parts[p].end <= |h.bufs[h.parts[p].buf].data|
  }

  /** The parts ps are chained, and bytes [fo, ..) of the first up to [.., lo) of the last are theirs. */
  ghost predicate View(h: Heap, ps: seq<nat>, fo: int, lo: int)
    decreases |ps|
  {
    ps != [] && Window(h, ps[0]) && h.parts[ps[0]].offset <= fo &&
    if |ps| == 1 then fo <= lo <= h.parts[ps[0]].end
    else fo <= h.parts[ps[0]].end && h.parts[ps[0]].next == Some(ps[1]) && ps[1] in h.parts &&
         View(h, ps[1..], h.parts[ps[1]].offset, lo)
  }

  ghost function Data(h: Heap, p: nat): seq<byte>
    requires Window(h, p)
  {
    h.bufs[h.parts[p].buf].data
  }

  ghost function Content(h: Heap, ps: seq<nat>, fo: int, lo: int): seq<byte>
    requires View(h, ps, fo, lo)
    decreases |ps|
  {
    if |ps| == 1 then Data(h, ps[0])[fo..lo]
    else Data(h, ps[0])[fo..h.parts[ps[0]].end] + Content(h, ps[1..], h.parts[ps[1]].offset, lo)
  }

  // ---------------------------------------------------------------- references

  ghost function RawRefs(h: Heap, p: nat): set<nat> {
    set r | r in h.raws && h.raws[r].first == Some(p)
  }

  ghost function PartRefs(h: Heap, p: nat): set<nat> {
    set q | q in h.parts && h.parts[q].next == Some(p)
  }

  ghost function BufRefs(h: Heap, b: nat): set<nat> {
    set q | q in h.parts && h.parts[q].buf == b
  }

  // ---------------------------------------------------------------- the invariant

  ghost predicate PartOk(h: Heap, a: Aux, p: nat)
    requires p in h.parts
  {
    Window(h, p) && p < h.unused && p in a.rank &&
    (h.parts[p].next.Some? ==>
       h.parts[p].next.value in h.parts && h.parts[p].next.value in a.rank &&
       a.rank[h.parts[p].next.value] < a.rank[p])
  }

  ghost predicate CountOk(h: Heap, a: Aux, p: nat)
    requires p in h.parts
  {
    h.parts[p].refcnt == |RawRefs(h, p)| + |PartRefs(h, p)| + a.temp[p] && h.parts[p].refcnt >= 1
  }

  ghost predicate BufOk(h: Heap, b: nat)
    requires b in h.bufs
  {
    h.bufs[b].refcnt == |BufRefs(h, b)| && h.bufs[b].refcnt >= 1 && b < h.unused
  }

  /** The message r is the chain of its path, and its length is right. */
  ghost predicate RawOk(h: Heap, a: Aux, r: nat)
    requires r in h.raws
  {
    r in a.paths &&
    var m, ps := h.raws[r], a.paths[r];
    if ps == [] then m.first == None && m.last == None && m.total == 0
    else m.first == Some(ps[0]) && m.last == Some(ps[|ps| - 1]) &&
         View(h, ps, m.firstOffset, m.lastOffset) &&
         m.total == |Content(h, ps, m.firstOffset, m.lastOffset)|
  }

  ghost predicate PartsOk(h: Heap, a: Aux) {
    forall p {:trigger PartOk(h, a, p)} :: p in h.parts ==> PartOk(h, a, p)
  }

  ghost predicate CountsOk(h: Heap, a: Aux) {
    (forall p {:trigger CountOk(h, a, p)} :: p in h.parts ==> CountOk(h, a, p)) &&
    (forall p :: p in a.temp ==> p in h.parts)
  }

  ghost predicate BufsOk(h: Heap) {
    forall b {:trigger BufOk(h, b)} :: b in h.bufs ==> BufOk(h, b)
  }

  ghost predicate RawsOk(h: Heap, a: Aux) {
    forall r {:trigger RawOk(h, a, r)} :: r in h.raws ==> RawOk(h, a, r)
  }

  ghost predicate Good(h: Heap, a: Aux) {
    PartsOk(h, a) && CountsOk(h, a) && BufsOk(h) && RawsOk(h, a)
  }

  /** The bytes of a message. */
  ghost function Text(h: Heap, a: Aux, r: nat): seq<byte>
    requires r in h.raws && RawOk(h, a, r)
  {
    if a.paths[r] == [] then [] else Content(h, a.paths[r], h.raws[r].firstOffset, h.raws[r].lastOffset)
  }

  // ---------------------------------------------------------------- what a change may leave alone

  /** Whoever reads p through a window that h allows reads the same in h'. */
  ghost predicate Keep(h: Heap, h': Heap, p: nat) {
    Window(h, p) && Window(h', p) &&
    var x, y := h.parts[p], h'.parts[p];
    y.offset == x.offset && x.end <= y.end && (x.next.Some? ==> y.end == x.end && y.next == x.next) &&
    Data(h', p)[x.offset..x.end] == Data(h, p)[x.offset..x.end]
  }

  ghost predicate KeepAll(h: Heap, h': Heap, ps: seq<nat>) {
    forall i :: 0 <= i < |ps| ==> Keep(h, h', ps[i])
  }

  lemma SliceSame(d: seq<byte>, d': seq<byte>, lo: int, hi: int, i: int, j: int)
    requires 0 <= lo <= i <= j <= hi <= |d| && hi <= |d'| && d[lo..hi] == d'[lo..hi]
    ensures d[i..j] == d'[i..j]
  {
    forall k | i <= k < j ensures d[k] == d'[k] {
      assert d[k] == d[lo..hi][k - lo];
      assert d'[k] == d'[lo..hi][k - lo];
    }
  }

  /** A chain whose parts are kept reads the same. */
  lemma {:induction false} ContentFrame(h: Heap, h': Heap, ps: seq<nat>, fo: int, lo: int)
    requires View(h, ps, fo, lo) && KeepAll(h, h', ps)
    ensures View(h', ps, fo, lo) && Content(h', ps, fo, lo) == Content(h, ps, fo, lo)
    decreases |ps|
  {
    var p := ps[0];
    assert Keep(h, h', p);
    var x := h.parts[p];
    if |ps| == 1 {
      SliceSame(Data(h, p), Data(h', p), x.offset, x.end, fo, lo);
    } else {
      assert Keep(h, h', ps[1]);
      forall i | 0 <= i < |ps[1..]| ensures Keep(h, h', ps[1..][i]) { assert ps[1..][i] == ps[i + 1]; }
      ContentFrame(h, h', ps[1..], h.parts[ps[1]].offset, lo);
      SliceSame(Data(h, p), Data(h', p), x.offset, x.end, fo, x.end);
    }
  }

  /** The links of a chain. */
  lemma {:induction false} ViewLinks(h: Heap, ps: seq<nat>, fo: int, lo: int, i: nat)
    requires View(h, ps, fo, lo) && i < |ps|
    ensures Window(h, ps[i])
    ensures i + 1 < |ps| ==> h.parts[ps[i]].next == Some(ps[i + 1])
    decreases i
  {
    if i > 0 {
      ViewLinks(h, ps[1..], h.parts[ps[1]].offset, lo, i - 1);
    }
  }

  // ---------------------------------------------------------------- isolation

  /** The same messages with the same bytes. */
  ghost predicate Keeps(h: Heap, a: Aux, h': Heap, a': Aux)
    requires RawsOk(h, a)
  {
    h'.raws == h.raws && (forall r :: r in h.raws ==> RawOk(h, a, r) && r in a'.paths && a'.paths[r] == a.paths[r]) &&
    forall r :: r in h.raws ==> RawOk(h', a', r) && Text(h', a', r) == Text(h, a, r)
  }

  lemma KeepsTrans(h: Heap, a: Aux, h1: Heap, a1: Aux, h2: Heap, a2: Aux)
    requires RawsOk(h, a) && RawsOk(h1, a1) && Keeps(h, a, h1, a1) && Keeps(h1, a1, h2, a2)
    ensures Keeps(h, a, h2, a2)
  {
  }

  lemma KeepsSelf(h: Heap, a: Aux)
    requires RawsOk(h, a)
    ensures Keeps(h, a, h, a)
  {
    forall r | r in h.raws ensures RawOk(h, a, r) { }
  }

  lemma RawFrame(h: Heap, a: Aux, h': Heap, a': Aux, r: nat)
    requires r in h.raws && RawOk(h, a, r) && h'.raws == h.raws && r in a'.paths && a'.paths[r] == a.paths[r]
    requires KeepAll(h, h', a.paths[r])
    ensures RawOk(h', a', r) && Text(h', a', r) == Text(h, a, r)
  {
    if a.paths[r] != [] {
      ContentFrame(h, h', a.paths[r], h.raws[r].firstOffset, h.raws[r].lastOffset);
    }
  }

  /** Part p belongs to no message. */
  ghost predicate Private(h: Heap, a: Aux, p: nat) {
    forall r :: r in h.raws && r in a.paths ==> p !in a.paths[r]
  }

  /** The same but for the count and the lock. */
  ghost predicate SameShape(x: Part, y: Part) {
    x.next == y.next && x.buf == y.buf && x.offset == y.offset && x.end == y.end
  }

  /** The parts that some message goes through are as they were. */
  ghost predicate Still(h: Heap, a: Aux, h': Heap) {
    forall p :: p in h.parts && !Private(h, a, p) ==> p in h'.parts && SameShape(h.parts[p], h'.parts[p])
  }

  /** A change that keeps every part but the private p, if any, keeps every message. */
  lemma AllKept(h: Heap, a: Aux, h': Heap, a': Aux, p: nat)
    requires RawsOk(h, a) && h'.raws == h.raws && a'.paths == a.paths
    requires forall q :: q in h.parts && q != p ==> Keep(h, h', q)
    requires Private(h, a, p) || (p in h.parts && Keep(h, h', p))
    ensures Keeps(h, a, h', a')
  {
    forall r | r in h.raws ensures RawOk(h', a', r) && Text(h', a', r) == Text(h, a, r) {
      assert RawOk(h, a, r);
      forall i | 0 <= i < |a.paths[r]| ensures Keep(h, h', a.paths[r][i]) {
        ViewLinks(h, a.paths[r], h.raws[r].firstOffset, h.raws[r].lastOffset, i);
      }
      RawFrame(h, a, h', a', r);
    }
  }

  /** Where a message meets a part, it got there through a reference: its own first pointer, or the
      part before. */
  lemma ReachedByReference(h: Heap, a: Aux, r: nat, p: nat)
    requires r in h.raws && RawOk(h, a, r) && p in a.paths[r]
    ensures r in RawRefs(h, p) || exists q :: q in PartRefs(h, p) && q in a.paths[r]
  {
    hide Content, View;
    var ps := a.paths[r];
    var i :| 0 <= i < |ps| && ps[i] == p;
    if i > 0 {
      ViewLinks(h, ps, h.raws[r].firstOffset, h.raws[r].lastOffset, i - 1);
      assert ps[i - 1] in PartRefs(h, p);
    }
  }

  /** The only reference to p is a local one: p is private. */
  lemma OnlyLocal(h: Heap, a: Aux, p: nat)
    requires CountsOk(h, a) && RawsOk(h, a) && p in h.parts && h.parts[p].refcnt == 1 && p in a.temp
    ensures Private(h, a, p) && RawRefs(h, p) == {} && PartRefs(h, p) == {} && a.temp[p] == 1
  {
    hide RawOk;
    assert CountOk(h, a, p);
    assert |RawRefs(h, p)| == 0 && |PartRefs(h, p)| == 0;
    forall r | r in h.raws && r in a.paths ensures p !in a.paths[r] {
      assert RawOk(h, a, r);
      if p in a.paths[r] { ReachedByReference(h, a, r, p); }
    }
  }

  lemma OnlyOne(s: set<nat>, q: nat)
    requires q in s && |s| == 1
    ensures s == {q}
  {
    assert |s| == |s - {q}| + 1;
    assert s - {q} == {};
  }

  /** The only reference to p is the link from the private part q: p is private too. */
  lemma OnlyLink(h: Heap, a: Aux, q: nat, p: nat)
    requires CountsOk(h, a) && RawsOk(h, a) && p in h.parts && h.parts[p].refcnt == 1
    requires q in h.parts && h.parts[q].next == Some(p) && Private(h, a, q)
    ensures Private(h, a, p) && RawRefs(h, p) == {} && PartRefs(h, p) == {q} && p !in a.temp
  {
    hide RawOk;
    assert CountOk(h, a, p);
    assert q in PartRefs(h, p);
    OnlyOne(PartRefs(h, p), q);
    assert |RawRefs(h, p)| == 0;
    forall r | r in h.raws && r in a.paths ensures p !in a.paths[r] {
      assert RawOk(h, a, r);
      if p in a.paths[r] { ReachedByReference(h, a, r, p); }
    }
  }
}
