/** The single changes that the operations on raw messages are made of. Each keeps the invariant and
    the bytes of every message. */
module RopeSteps {
  import opened Options
  import opened RopeModel

  function SetPart(h: Heap, p: nat, x: Part): Heap {
    h.(parts := h.parts[p := x])
  }

  ghost function Held(a: Aux, p: nat): Aux { a.(temp := a.temp + multiset{p}) }

  ghost function Dropped(a: Aux, p: nat): Aux { a.(temp := a.temp - multiset{p}) }

  lemma KeepsRaws(h: Heap, a: Aux, h': Heap, a': Aux)
    requires RawsOk(h, a) && Keeps(h, a, h', a')
    ensures RawsOk(h', a')
  {
  }

  lemma KeepSelf(h: Heap, h': Heap, p: nat)
    requires Window(h, p) && p in h'.parts && h'.parts[p] == h.parts[p] && h'.bufs == h.bufs
    ensures Keep(h, h', p)
  {
  }

  // ---------------------------------------------------------------- counts, windows and locks

  /** A change of one part that moves neither its link nor its buffer. */
  ghost predicate SameLinks(h: Heap, h': Heap, p: nat) {
    p in h.parts && h'.parts.Keys == h.parts.Keys && h'.raws == h.raws && h'.unused == h.unused &&
    h'.bufs == h.bufs &&
    h'.parts[p].next == h.parts[p].next && h'.parts[p].buf == h.parts[p].buf &&
    forall q :: q in h.parts && q != p ==> h'.parts[q] == h.parts[q]
  }

  lemma SameRefs(h: Heap, h': Heap, p: nat, q: nat)
    requires SameLinks(h, h', p)
    ensures RawRefs(h', q) == RawRefs(h, q) && PartRefs(h', q) == PartRefs(h, q) && BufRefs(h', q) == BufRefs(h, q)
  {
  }

  lemma SameBufs(h: Heap, h': Heap, p: nat)
    requires SameLinks(h, h', p) && BufsOk(h)
    ensures BufsOk(h')
  {
    hide BufRefs;
    forall b | b in h'.bufs ensures BufOk(h', b) {
      assert BufOk(h, b);
      SameRefs(h, h', p, b);
    }
  }

  lemma SameCounts(h: Heap, a: Aux, h': Heap, a': Aux, p: nat)
    requires SameLinks(h, h', p) && CountsOk(h, a)
    requires h'.parts[p].refcnt >= 1 && h'.parts[p].refcnt - a'.temp[p] == h.parts[p].refcnt - a.temp[p]
    requires forall q :: q != p ==> a'.temp[q] == a.temp[q]
    ensures CountsOk(h', a')
  {
    hide RawRefs, PartRefs;
    forall q | q in h'.parts ensures CountOk(h', a', q) {
      assert CountOk(h, a, q);
      SameRefs(h, h', p, q);
    }
    forall q | q in a'.temp ensures q in h'.parts {
      assert q != p ==> q in a.temp;
    }
  }

  lemma SameParts(h: Heap, a: Aux, h': Heap, a': Aux, p: nat)
    requires SameLinks(h, h', p) && PartsOk(h, a) && a'.rank == a.rank && Window(h', p)
    ensures PartsOk(h', a')
    ensures forall q :: q in h.parts && q != p ==> Keep(h, h', q)
  {
    forall q | q in h'.parts ensures PartOk(h', a', q) { assert PartOk(h, a, q); }
    forall q | q in h.parts && q != p ensures Keep(h, h', q) {
      assert PartOk(h, a, q);
      KeepSelf(h, h', q);
    }
  }

  lemma SameLinksGood(h: Heap, a: Aux, h': Heap, a': Aux, p: nat)
    requires Good(h, a) && SameLinks(h, h', p) && a'.rank == a.rank && a'.paths == a.paths && Window(h', p)
    requires h'.parts[p].refcnt >= 1 && h'.parts[p].refcnt - a'.temp[p] == h.parts[p].refcnt - a.temp[p]
    requires forall q :: q != p ==> a'.temp[q] == a.temp[q]
    requires Private(h, a, p) || Keep(h, h', p)
    ensures Good(h', a') && Keeps(h, a, h', a')
    ensures forall q :: q in h.parts && q != p ==> Keep(h, h', q)
  {
    hide PartsOk, CountsOk, BufsOk, RawsOk, Keeps, Keep, Private, Window;
    SameBufs(h, h', p);
    SameCounts(h, a, h', a', p);
    SameParts(h, a, h', a', p);
    AllKept(h, a, h', a', p);
    KeepsRaws(h, a, h', a');
  }

  function Acquire(h: Heap, p: nat): Heap
    requires p in h.parts
  {
    SetPart(h, p, h.parts[p].(refcnt := h.parts[p].refcnt + 1))
  }

  lemma AcquireGood(h: Heap, a: Aux, p: nat)
    requires Good(h, a) && p in h.parts
    ensures Good(Acquire(h, p), Held(a, p)) && Keeps(h, a, Acquire(h, p), Held(a, p))
    ensures forall q :: q in h.parts ==> Keep(h, Acquire(h, p), q)
  {
    hide CountsOk, BufsOk, RawsOk, Keeps;
    assert PartOk(h, a, p);
    assert h.parts[p].refcnt >= 1 by { Positive(h, a, p); }
    SameLinksGood(h, a, Acquire(h, p), Held(a, p), p);
  }

  lemma Positive(h: Heap, a: Aux, p: nat)
    requires CountsOk(h, a) && p in h.parts
    ensures h.parts[p].refcnt >= 1
  {
    assert CountOk(h, a, p);
  }

  /** The count goes down and stays positive. */
  function Release(h: Heap, p: nat): Heap
    requires p in h.parts
  {
    SetPart(h, p, h.parts[p].(refcnt := h.parts[p].refcnt - 1))
  }

  lemma ReleaseGood(h: Heap, a: Aux, p: nat)
    requires Good(h, a) && p in a.temp && p in h.parts && h.parts[p].refcnt > 1
    ensures Good(Release(h, p), Dropped(a, p)) && Keeps(h, a, Release(h, p), Dropped(a, p))
    ensures forall q :: q in h.parts ==> Keep(h, Release(h, p), q)
  {
    hide CountsOk, BufsOk, RawsOk, Keeps;
    assert PartOk(h, a, p);
    SameLinksGood(h, a, Release(h, p), Dropped(a, p), p);
  }

  function Resize(h: Heap, p: nat, offset: int, end: int): Heap
    requires p in h.parts
  {
    SetPart(h, p, h.parts[p].(offset := offset, end := end))
  }

  /** The window of a part grows to the right when nothing follows it, or changes freely when the part
      is nobody else's. */
  lemma ResizeGood(h: Heap, a: Aux, p: nat, offset: int, end: int)
    requires Good(h, a) && p in h.parts && Window(Resize(h, p, offset, end), p)
    requires Private(h, a, p) ||
             (offset == h.parts[p].offset && end >= h.parts[p].end && h.parts[p].next == None)
    ensures Good(Resize(h, p, offset, end), a) && Keeps(h, a, Resize(h, p, offset, end), a)
    ensures forall q :: q in h.parts && q != p ==> Keep(h, Resize(h, p, offset, end), q)
  {
    hide CountsOk, BufsOk, RawsOk, Keeps, Private;
    assert PartOk(h, a, p);
    Positive(h, a, p);
    SameLinksGood(h, a, Resize(h, p, offset, end), a, p);
  }

  function SetLock(h: Heap, p: nat, locked: bool): Heap
    requires p in h.parts
  {
    SetPart(h, p, h.parts[p].(locked := locked))
  }

  lemma SetLockGood(h: Heap, a: Aux, p: nat, locked: bool)
    requires Good(h, a) && p in h.parts
    ensures Good(SetLock(h, p, locked), a) && Keeps(h, a, SetLock(h, p, locked), a)
    ensures forall q :: q in h.parts ==> Keep(h, SetLock(h, p, locked), q)
  {
    hide CountsOk, BufsOk, RawsOk, Keeps, Private;
    assert PartOk(h, a, p);
    Positive(h, a, p);
    SameLinksGood(h, a, SetLock(h, p, locked), a, p);
  }

  // ---------------------------------------------------------------- links

  function SetNext(h: Heap, p: nat, next: Option<nat>): Heap
    requires p in h.parts
  {
    SetPart(h, p, h.parts[p].(next := next))
  }

  lemma LinkRefs(h: Heap, p: nat, q: nat, k: nat)
    requires p in h.parts && h.parts[p].next == None
    ensures var h' := SetNext(h, p, Some(q));
            RawRefs(h', k) == RawRefs(h, k) && BufRefs(h', k) == BufRefs(h, k) &&
            PartRefs(h', k) == (if k == q then PartRefs(h, k) + {p} else PartRefs(h, k)) &&
            p !in PartRefs(h, k)
  {
  }

  lemma LinkCounts(h: Heap, a: Aux, p: nat, q: nat)
    requires CountsOk(h, a) && p in h.parts && h.parts[p].next == None && q in a.temp
    ensures CountsOk(SetNext(h, p, Some(q)), Dropped(a, q))
  {
    hide RawRefs, PartRefs, BufRefs;
    var h', a' := SetNext(h, p, Some(q)), Dropped(a, q);
    forall k | k in h'.parts ensures CountOk(h', a', k) {
      assert CountOk(h, a, k);
      LinkRefs(h, p, q, k);
    }
  }

  lemma LinkBufs(h: Heap, p: nat, q: nat)
    requires BufsOk(h) && p in h.parts && h.parts[p].next == None
    ensures BufsOk(SetNext(h, p, Some(q)))
  {
    hide RawRefs, PartRefs, BufRefs;
    forall b | b in h.bufs ensures BufOk(SetNext(h, p, Some(q)), b) {
      assert BufOk(h, b);
      LinkRefs(h, p, q, b);
    }
  }

  /** The rank of the part behind p, if there is one, is lower. */
  ghost predicate LinkOk(h: Heap, a: Aux, p: nat, next: Option<nat>) {
    p in a.rank && (next.Some? ==> next.value in h.parts && next.value in a.rank && a.rank[next.value] < a.rank[p])
  }

  lemma NextParts(h: Heap, a: Aux, p: nat, next: Option<nat>)
    requires PartsOk(h, a) && p in h.parts && LinkOk(h, a, p, next)
    ensures PartsOk(SetNext(h, p, next), a)
    ensures forall k :: k in h.parts && k != p ==> Keep(h, SetNext(h, p, next), k)
    ensures h.parts[p].next == None ==> Keep(h, SetNext(h, p, next), p)
  {
    var h' := SetNext(h, p, next);
    assert PartOk(h, a, p);
    forall k | k in h'.parts ensures PartOk(h', a, k) { assert PartOk(h, a, k); }
    forall k | k in h.parts && k != p ensures Keep(h, h', k) {
      assert PartOk(h, a, k);
      KeepSelf(h, h', k);
    }
  }

  lemma SameRank(h: Heap, a: Aux, a': Aux)
    requires PartsOk(h, a) && a'.rank == a.rank
    ensures PartsOk(h, a')
  {
    forall k | k in h.parts ensures PartOk(h, a', k) { assert PartOk(h, a, k); }
  }

  /** Chaining q behind p, which nothing followed: the reference to q moves into the link. */
  lemma LinkGood(h: Heap, a: Aux, p: nat, q: nat)
    requires Good(h, a) && p in h.parts && h.parts[p].next == None && q in a.temp && q in h.parts
    requires p in a.rank && q in a.rank && a.rank[q] < a.rank[p]
    ensures var h', a' := SetNext(h, p, Some(q)), Dropped(a, q);
            Good(h', a') && Keeps(h, a, h', a') && forall k :: k in h.parts ==> Keep(h, h', k)
  {
    hide PartsOk, CountsOk, BufsOk, RawsOk, Keeps, Keep, Private;
    var h', a' := SetNext(h, p, Some(q)), Dropped(a, q);
    LinkCounts(h, a, p, q);
    LinkBufs(h, p, q);
    NextParts(h, a, p, Some(q));
    SameRank(h', a, a');
    AllKept(h, a, h', a', p);
    KeepsRaws(h, a, h', a');
  }

  lemma CutRefs(h: Heap, p: nat, q: nat, k: nat)
    requires p in h.parts && h.parts[p].next == Some(q)
    ensures var h' := SetNext(h, p, None);
            RawRefs(h', k) == RawRefs(h, k) && BufRefs(h', k) == BufRefs(h, k) &&
            PartRefs(h', k) == (if k == q then PartRefs(h, k) - {p} else PartRefs(h, k)) &&
            p in PartRefs(h, q)
  {
  }

  lemma CutCounts(h: Heap, a: Aux, p: nat, q: nat)
    requires CountsOk(h, a) && p in h.parts && h.parts[p].next == Some(q) && q in h.parts
    ensures CountsOk(SetNext(h, p, None), Held(a, q))
  {
    hide RawRefs, PartRefs, BufRefs;
    var h', a' := SetNext(h, p, None), Held(a, q);
    forall k | k in h'.parts ensures CountOk(h', a', k) {
      assert CountOk(h, a, k);
      CutRefs(h, p, q, k);
    }
  }

  lemma CutBufs(h: Heap, p: nat, q: nat)
    requires BufsOk(h) && p in h.parts && h.parts[p].next == Some(q)
    ensures BufsOk(SetNext(h, p, None))
  {
    hide RawRefs, PartRefs, BufRefs;
    forall b | b in h.bufs ensures BufOk(SetNext(h, p, None), b) {
      assert BufOk(h, b);
      CutRefs(h, p, q, b);
    }
  }

  /** Cutting the chain behind a private part: the reference in the link becomes a local one. */
  lemma CutGood(h: Heap, a: Aux, p: nat, q: nat)
    requires Good(h, a) && p in h.parts && h.parts[p].next == Some(q) && Private(h, a, p)
    ensures var h', a' := SetNext(h, p, None), Held(a, q);
            q in h.parts && Good(h', a') && Keeps(h, a, h', a') && forall k :: k in h.parts && k != p ==> Keep(h, h', k)
  {
    hide CountsOk, BufsOk, RawsOk, Keeps, Keep, Private, PartsOk;
    var h', a' := SetNext(h, p, None), Held(a, q);
    NextIn(h, a, p);
    CutCounts(h, a, p, q);
    CutBufs(h, p, q);
    NextParts(h, a, p, None);
    SameRank(h', a, a');
    AllKept(h, a, h', a', p);
    KeepsRaws(h, a, h', a');
  }

  lemma NextIn(h: Heap, a: Aux, p: nat)
    requires PartsOk(h, a) && p in h.parts
    ensures p in a.rank && Window(h, p) && p < h.unused
    ensures h.parts[p].next.Some? ==> h.parts[p].next.value in h.parts && LinkOk(h, a, p, h.parts[p].next)
  {
    assert PartOk(h, a, p);
  }

  // ---------------------------------------------------------------- freeing a part

  /** msg_part_decref on the last reference: the part goes, its buffer loses a reference. */
  function FreePart(h: Heap, p: nat): Heap
    requires p in h.parts && h.parts[p].buf in h.bufs
  {
    var b := h.parts[p].buf;
    var parts := h.parts - {p};
    if h.bufs[b].refcnt == 1 then h.(parts := parts, bufs := h.bufs - {b})
    else h.(parts := parts, bufs := h.bufs[b := h.bufs[b].(refcnt := h.bufs[b].refcnt - 1)])
  }

  ghost function Freed(h: Heap, a: Aux, p: nat): Aux
    requires p in h.parts
  {
    var t := a.temp - multiset{p};
    a.(temp := if h.parts[p].next.Some? then t + multiset{h.parts[p].next.value} else t)
  }

  lemma FreeRefs(h: Heap, p: nat, k: nat)
    requires p in h.parts && h.parts[p].buf in h.bufs
    ensures RawRefs(FreePart(h, p), k) == RawRefs(h, k)
    ensures PartRefs(FreePart(h, p), k) == PartRefs(h, k) - {p}
    ensures p in PartRefs(h, k) <==> h.parts[p].next == Some(k)
    ensures BufRefs(FreePart(h, p), k) == BufRefs(h, k) - {p}
    ensures p in BufRefs(h, k) <==> h.parts[p].buf == k
  {
  }

  lemma FreeCounts(h: Heap, a: Aux, p: nat)
    requires PartsOk(h, a) && CountsOk(h, a) && p in h.parts && h.parts[p].buf in h.bufs
    requires h.parts[p].refcnt == 1 && p in a.temp && PartRefs(h, p) == {} && a.temp[p] == 1
    ensures CountsOk(FreePart(h, p), Freed(h, a, p))
  {
    hide RawRefs, PartRefs, BufRefs;
    var h', a' := FreePart(h, p), Freed(h, a, p);
    assert h'.parts.Keys == h.parts.Keys - {p};
    NextIn(h, a, p);
    forall k | k in h'.parts ensures CountOk(h', a', k) {
      assert CountOk(h, a, k);
      FreeRefs(h, p, k);
    }
    forall k | k in a'.temp ensures k in h'.parts {
      if h.parts[p].next == Some(k) {
        FreeRefs(h, p, k);
        assert k == p ==> p in PartRefs(h, p);
      } else {
        assert k in a.temp && k != p;
      }
    }
  }

  lemma FreeBufs(h: Heap, a: Aux, p: nat)
    requires PartsOk(h, a) && BufsOk(h) && p in h.parts && h.parts[p].buf in h.bufs
    ensures BufsOk(FreePart(h, p))
  {
    hide RawRefs, PartRefs, BufRefs;
    var h' := FreePart(h, p);
    forall k | k in h'.bufs ensures BufOk(h', k) {
      assert BufOk(h, k);
      FreeRefs(h, p, k);
    }
  }

  /** The buffer of another part survives. */
  lemma BufferStays(h: Heap, p: nat, k: nat)
    requires BufsOk(h) && Window(h, p) && Window(h, k) && k != p
    ensures Window(FreePart(h, p), k) && Keep(h, FreePart(h, p), k)
  {
    var b := h.parts[p].buf;
    if h.parts[k].buf == b {
      assert BufOk(h, b);
      assert {p, k} <= BufRefs(h, b);
      if |BufRefs(h, b)| == 1 { OnlyOne(BufRefs(h, b), p); }
    }
  }

  lemma FreeParts(h: Heap, a: Aux, p: nat)
    requires PartsOk(h, a) && BufsOk(h) && p in h.parts && PartRefs(h, p) == {}
    ensures h.parts[p].buf in h.bufs && PartsOk(FreePart(h, p), a)
    ensures forall k :: k in h.parts && k != p ==> Keep(h, FreePart(h, p), k)
  {
    NextIn(h, a, p);
    var h' := FreePart(h, p);
    forall k | k in h.parts && k != p ensures Keep(h, h', k) && PartOk(h', a, k) {
      assert PartOk(h, a, k);
      BufferStays(h, p, k);
      assert h.parts[k].next == Some(p) ==> k in PartRefs(h, p);
    }
  }

  lemma FreeGood(h: Heap, a: Aux, p: nat)
    requires Good(h, a) && p in h.parts && h.parts[p].refcnt == 1 && p in a.temp
    ensures h.parts[p].buf in h.bufs
    ensures var h', a' := FreePart(h, p), Freed(h, a, p);
            Good(h', a') && Keeps(h, a, h', a') && forall k :: k in h.parts && k != p ==> Keep(h, h', k)
  {
    hide PartsOk, CountsOk, BufsOk, RawsOk, Keeps, Keep, Private, PartRefs, RawRefs;
    OnlyLocal(h, a, p);
    FreeParts(h, a, p);
    var h', a' := FreePart(h, p), Freed(h, a, p);
    FreeCounts(h, a, p);
    FreeBufs(h, a, p);
    SameRank(h', a, a');
    AllKept(h, a, h', a', p);
    KeepsRaws(h, a, h', a');
  }

  // ---------------------------------------------------------------- new parts and buffers

  /** A new part on a buffer that gets one more reference; the caller holds the part. */
  function AddPart(h: Heap, buf: nat, offset: int, end: int): Heap
    requires buf in h.bufs
  {
    h.(parts := h.parts[h.unused := Part(None, buf, offset, end, 1, false)],
       bufs := h.bufs[buf := h.bufs[buf].(refcnt := h.bufs[buf].refcnt + 1)],
       unused := h.unused + 1)
  }

  ghost function Added(h: Heap, a: Aux, rank: int): Aux {
    a.(temp := a.temp + multiset{h.unused}, rank := a.rank[h.unused := rank])
  }

  lemma AddRefs(h: Heap, a: Aux, buf: nat, offset: int, end: int, k: nat)
    requires PartsOk(h, a) && CountsOk(h, a) && buf in h.bufs
    ensures var h' := AddPart(h, buf, offset, end);
            RawRefs(h', k) == RawRefs(h, k) && PartRefs(h', k) == PartRefs(h, k) &&
            BufRefs(h', k) == (if k == buf then BufRefs(h, k) + {h.unused} else BufRefs(h, k)) &&
            h.unused !in BufRefs(h, k) && h.unused !in h.parts && h.unused !in a.temp
  {
    hide PartsOk, CountsOk;
    UnusedIsNew(h, a);
  }

  lemma UnusedIsNew(h: Heap, a: Aux)
    requires PartsOk(h, a) && CountsOk(h, a)
    ensures forall q :: q in h.parts || q in a.temp ==> q < h.unused
  {
    assert forall q :: q in h.parts ==> PartOk(h, a, q);
  }

  lemma FirstIn(h: Heap, a: Aux, r: nat)
    requires RawsOk(h, a) && r in h.raws && h.raws[r].first.Some?
    ensures h.raws[r].first.value in h.parts
  {
    assert RawOk(h, a, r);
  }

  /** Nothing refers to an address that was never handed out. */
  lemma NoRefsTo(h: Heap, a: Aux, p: nat)
    requires PartsOk(h, a) && CountsOk(h, a) && RawsOk(h, a) && p >= h.unused
    ensures p !in h.parts && RawRefs(h, p) == {} && PartRefs(h, p) == {} && p !in a.temp
  {
    hide RawOk, CountsOk;
    UnusedIsNew(h, a);
    forall r | r in h.raws ensures h.raws[r].first != Some(p) {
      if h.raws[r].first.Some? { FirstIn(h, a, r); }
    }
    forall q | q in h.parts ensures h.parts[q].next != Some(p) { assert PartOk(h, a, q); }
  }

  lemma NoBufferAt(h: Heap, a: Aux, b: nat)
    requires PartsOk(h, a) && BufsOk(h) && b >= h.unused
    ensures b !in h.bufs && BufRefs(h, b) == {}
  {
    assert b in h.bufs ==> BufOk(h, b);
    forall q | q in h.parts ensures h.parts[q].buf != b { assert PartOk(h, a, q); }
  }

  lemma AddCounts(h: Heap, a: Aux, buf: nat, offset: int, end: int, rank: int)
    requires PartsOk(h, a) && CountsOk(h, a) && RawsOk(h, a) && buf in h.bufs
    ensures CountsOk(AddPart(h, buf, offset, end), Added(h, a, rank))
  {
    hide PartsOk, RawsOk, RawRefs, PartRefs, BufRefs;
    var h', a' := AddPart(h, buf, offset, end), Added(h, a, rank);
    NoRefsTo(h, a, h.unused);
    forall k | k in h'.parts ensures CountOk(h', a', k) {
      AddRefs(h, a, buf, offset, end, k);
      if k != h.unused { assert CountOk(h, a, k); }
    }
  }

  lemma AddBufs(h: Heap, a: Aux, buf: nat, offset: int, end: int)
    requires PartsOk(h, a) && CountsOk(h, a) && RawsOk(h, a) && BufsOk(h) && buf in h.bufs
    ensures BufsOk(AddPart(h, buf, offset, end))
  {
    hide PartsOk, CountsOk, RawsOk, RawRefs, PartRefs, BufRefs;
    var h' := AddPart(h, buf, offset, end);
    forall b | b in h'.bufs ensures BufOk(h', b) {
      assert BufOk(h, b);
      AddRefs(h, a, buf, offset, end, b);
    }
  }

  lemma AddParts(h: Heap, a: Aux, buf: nat, offset: int, end: int, rank: int)
    requires PartsOk(h, a) && buf in h.bufs && 0 <= offset <= end <= |h.bufs[buf].data|
    ensures PartsOk(AddPart(h, buf, offset, end), Added(h, a, rank))
    ensures forall k :: k in h.parts ==> Keep(h, AddPart(h, buf, offset, end), k)
  {
    var h', a' := AddPart(h, buf, offset, end), Added(h, a, rank);
    forall k | k in h.parts ensures Keep(h, h', k) { assert PartOk(h, a, k); }
    forall k | k in h'.parts ensures PartOk(h', a', k) {
      if k != h.unused {
        NextIn(h, a, k);
        if h.parts[k].next.Some? { NextIn(h, a, h.parts[k].next.value); }
      }
    }
  }

  lemma AddGood(h: Heap, a: Aux, buf: nat, offset: int, end: int, rank: int)
    requires Good(h, a) && buf in h.bufs && 0 <= offset <= end <= |h.bufs[buf].data|
    ensures var h', a' := AddPart(h, buf, offset, end), Added(h, a, rank);
            h.unused !in h.parts && Good(h', a') && Keeps(h, a, h', a') && forall k :: k in h.parts ==> Keep(h, h', k)
    ensures Private(h, a, h.unused) && Private(AddPart(h, buf, offset, end), Added(h, a, rank), h.unused)
  {
    hide PartsOk, CountsOk, BufsOk, RawsOk, Keeps, Keep, Private, PartRefs, RawRefs;
    var h', a' := AddPart(h, buf, offset, end), Added(h, a, rank);
    NoRefsTo(h, a, h.unused);
    AddCounts(h, a, buf, offset, end, rank);
    AddBufs(h, a, buf, offset, end);
    AddParts(h, a, buf, offset, end, rank);
    NewIsPrivate(h, a, h.unused);
    AllKept(h, a, h', a', h.unused);
    KeepsRaws(h, a, h', a');
    assert Private(h', a', h.unused) by { SamePrivate(h, a, h', a', h.unused); }
  }

  lemma SamePrivate(h: Heap, a: Aux, h': Heap, a': Aux, p: nat)
    requires Private(h, a, p) && h'.raws == h.raws && a'.paths == a.paths
    ensures Private(h', a', p)
  {
  }

  lemma NewIsPrivate(h: Heap, a: Aux, p: nat)
    requires RawsOk(h, a) && p !in h.parts
    ensures Private(h, a, p)
  {
    hide View, Content;
    forall r | r in h.raws && r in a.paths ensures p !in a.paths[r] {
      assert RawOk(h, a, r);
      var ps := a.paths[r];
      if p in ps {
        var i :| 0 <= i < |ps| && ps[i] == p;
        ViewLinks(h, ps, h.raws[r].firstOffset, h.raws[r].lastOffset, i);
      }
    }
  }

  /** alloc_msg_buffer and new_msg_part: a buffer of its own for the new part. */
  function AddFresh(h: Heap, data: seq<byte>, offset: int, end: int): Heap {
    h.(parts := h.parts[h.unused + 1 := Part(None, h.unused, offset, end, 1, false)],
       bufs := h.bufs[h.unused := Buffer(data, 1)],
       unused := h.unused + 2)
  }

  ghost function AddedFresh(h: Heap, a: Aux, rank: int): Aux {
    a.(temp := a.temp + multiset{h.unused + 1}, rank := a.rank[h.unused + 1 := rank])
  }

  lemma FreshRefs(h: Heap, a: Aux, data: seq<byte>, offset: int, end: int, k: nat)
    requires PartsOk(h, a) && CountsOk(h, a)
    ensures var h' := AddFresh(h, data, offset, end);
            RawRefs(h', k) == RawRefs(h, k) && PartRefs(h', k) == PartRefs(h, k) &&
            BufRefs(h', k) == (if k == h.unused then BufRefs(h, k) + {h.unused + 1} else BufRefs(h, k)) &&
            h.unused + 1 !in BufRefs(h, k)
  {
    hide PartsOk, CountsOk;
    UnusedIsNew(h, a);
  }

  lemma FreshCounts(h: Heap, a: Aux, data: seq<byte>, offset: int, end: int, rank: int)
    requires PartsOk(h, a) && CountsOk(h, a) && RawsOk(h, a) && BufsOk(h)
    ensures CountsOk(AddFresh(h, data, offset, end), AddedFresh(h, a, rank)) && BufsOk(AddFresh(h, data, offset, end))
  {
    hide PartsOk, RawsOk, RawRefs, PartRefs, BufRefs;
    var h', a' := AddFresh(h, data, offset, end), AddedFresh(h, a, rank);
    NoRefsTo(h, a, h.unused + 1);
    NoBufferAt(h, a, h.unused);
    forall k | k in h'.parts ensures CountOk(h', a', k) {
      FreshRefs(h, a, data, offset, end, k);
      if k != h.unused + 1 { assert CountOk(h, a, k); }
    }
    forall b | b in h'.bufs ensures BufOk(h', b) {
      FreshRefs(h, a, data, offset, end, b);
      if b != h.unused { assert BufOk(h, b); }
    }
  }

  /** A part and what follows it have addresses that were handed out. */
  lemma OldAddress(h: Heap, a: Aux, k: nat)
    requires PartsOk(h, a) && k in h.parts
    ensures k < h.unused && (h.parts[k].next.Some? ==> h.parts[k].next.value < h.unused)
  {
    assert PartOk(h, a, k);
    if h.parts[k].next.Some? { assert PartOk(h, a, h.parts[k].next.value); }
  }

  lemma FreshKeep(h: Heap, a: Aux, data: seq<byte>, offset: int, end: int, k: nat)
    requires PartsOk(h, a) && BufsOk(h) && k in h.parts
    ensures Keep(h, AddFresh(h, data, offset, end), k)
  {
    assert PartOk(h, a, k);
    assert h.unused in h.bufs ==> BufOk(h, h.unused);
  }

  lemma FreshParts(h: Heap, a: Aux, data: seq<byte>, offset: int, end: int, rank: int)
    requires PartsOk(h, a) && BufsOk(h) && 0 <= offset <= end <= |data|
    ensures PartsOk(AddFresh(h, data, offset, end), AddedFresh(h, a, rank))
    ensures forall k :: k in h.parts ==> Keep(h, AddFresh(h, data, offset, end), k)
  {
    var h', a' := AddFresh(h, data, offset, end), AddedFresh(h, a, rank);
    forall k | k in h.parts ensures Keep(h, h', k) && PartOk(h', a', k) {
      FreshKeep(h, a, data, offset, end, k);
      OldAddress(h, a, k);
      assert PartOk(h, a, k);
    }
    assert PartOk(h', a', h.unused + 1);
  }

  lemma FreshGood(h: Heap, a: Aux, data: seq<byte>, offset: int, end: int, rank: int)
    requires Good(h, a) && 0 <= offset <= end <= |data|
    ensures var h', a' := AddFresh(h, data, offset, end), AddedFresh(h, a, rank);
            h.unused + 1 !in h.parts && Good(h', a') && Keeps(h, a, h', a') && forall k :: k in h.parts ==>
              Keep(h, h', k)
    ensures Private(AddFresh(h, data, offset, end), AddedFresh(h, a, rank), h.unused + 1)
  {
    hide PartsOk, CountsOk, BufsOk, RawsOk, Keeps, Keep, Private, PartRefs, RawRefs, BufRefs;
    var h', a' := AddFresh(h, data, offset, end), AddedFresh(h, a, rank);
    NoRefsTo(h, a, h.unused + 1);
    NoBufferAt(h, a, h.unused);
    FreshCounts(h, a, data, offset, end, rank);
    FreshParts(h, a, data, offset, end, rank);
    NewIsPrivate(h, a, h.unused + 1);
    AllKept(h, a, h', a', h.unused + 1);
    KeepsRaws(h, a, h', a');
    SamePrivate(h, a, h', a', h.unused + 1);
  }

  // ---------------------------------------------------------------- writing into a buffer

  function Overwrite(d: seq<byte>, at: int, bytes: seq<byte>): seq<byte>
    requires 0 <= at && at + |bytes| <= |d|
  {
    d[..at] + bytes + d[at + |bytes|..]
  }

  /** Bytes before or behind the overwritten ones are as they were. */
  lemma OverwriteOutside(d: seq<byte>, at: int, bytes: seq<byte>, i: int, j: int)
    requires 0 <= at && at + |bytes| <= |d| && 0 <= i <= j <= |d| && (j <= at || at + |bytes| <= i)
    ensures |Overwrite(d, at, bytes)| == |d| && Overwrite(d, at, bytes)[i..j] == d[i..j]
  {
  }

  function WriteBytes(h: Heap, b: nat, at: int, bytes: seq<byte>): Heap
    requires b in h.bufs && 0 <= at && at + |bytes| <= |h.bufs[b].data|
  {
    h.(bufs := h.bufs[b := h.bufs[b].(data := Overwrite(h.bufs[b].data, at, bytes))])
  }

  lemma WriteKeepsPart(h: Heap, a: Aux, p: nat, at: int, bytes: seq<byte>, k: nat)
    requires PartsOk(h, a) && p in h.parts && k in h.parts && Window(h, p) && BufRefs(h, h.parts[p].buf) == {p}
    requires 0 <= at && at + |bytes| <= |Data(h, p)|
    requires at >= h.parts[p].end || at + |bytes| <= h.parts[p].offset
    ensures Keep(h, WriteBytes(h, h.parts[p].buf, at, bytes), k) &&
            PartOk(WriteBytes(h, h.parts[p].buf, at, bytes), a, k)
  {
    hide Overwrite;
    var b := h.parts[p].buf;
    assert PartOk(h, a, k);
    if h.parts[k].buf == b {
      assert k in BufRefs(h, b);
      OverwriteOutside(Data(h, p), at, bytes, h.parts[p].offset, h.parts[p].end);
    }
  }

  lemma WriteKeeps(h: Heap, a: Aux, p: nat, at: int, bytes: seq<byte>)
    requires PartsOk(h, a) && BufsOk(h) && p in h.parts && Window(h, p) && h.bufs[h.parts[p].buf].refcnt == 1
    requires 0 <= at && at + |bytes| <= |Data(h, p)|
    requires at >= h.parts[p].end || at + |bytes| <= h.parts[p].offset
    ensures var h' := WriteBytes(h, h.parts[p].buf, at, bytes);
            PartsOk(h', a) && BufsOk(h') && forall k :: k in h.parts ==> Keep(h, h', k)
  {
    hide Overwrite, Keep, PartOk;
    var b := h.parts[p].buf;
    var h' := WriteBytes(h, b, at, bytes);
    assert BufOk(h, b) && p in BufRefs(h, b);
    OnlyOne(BufRefs(h, b), p);
    forall k | k in h.parts ensures Keep(h, h', k) && PartOk(h', a, k) {
      WriteKeepsPart(h, a, p, at, bytes, k);
    }
    forall c | c in h'.bufs ensures BufOk(h', c) {
      assert BufOk(h, c);
      assert BufRefs(h', c) == BufRefs(h, c);
    }
  }

  /** Bytes outside the window of the only part of a buffer are nobody's: they may be written. */
  lemma WriteGood(h: Heap, a: Aux, p: nat, at: int, bytes: seq<byte>)
    requires Good(h, a) && p in h.parts && Window(h, p) && h.bufs[h.parts[p].buf].refcnt == 1
    requires 0 <= at && at + |bytes| <= |Data(h, p)|
    requires at >= h.parts[p].end || at + |bytes| <= h.parts[p].offset
    ensures var h' := WriteBytes(h, h.parts[p].buf, at, bytes);
            Good(h', a) && Keeps(h, a, h', a) && forall k :: k in h.parts ==> Keep(h, h', k)
  {
    hide PartsOk, BufsOk, RawsOk, Keeps, Keep, Private, RawRefs, PartRefs, BufRefs;
    var h' := WriteBytes(h, h.parts[p].buf, at, bytes);
    WriteKeeps(h, a, p, at, bytes);
    SameHeapCounts(h, a, h');
    AllKept(h, a, h', a, p);
    KeepsRaws(h, a, h', a);
  }

  lemma SameHeapCounts(h: Heap, a: Aux, h': Heap)
    requires CountsOk(h, a) && h'.parts == h.parts && h'.raws == h.raws
    ensures CountsOk(h', a)
  {
    forall k | k in h'.parts ensures CountOk(h', a, k) {
      assert CountOk(h, a, k);
      assert RawRefs(h', k) == RawRefs(h, k) && PartRefs(h', k) == PartRefs(h, k);
    }
  }

  // ---------------------------------------------------------------- taking a message out and putting it back

  function Detach(h: Heap, r: nat): Heap { h.(raws := h.raws - {r}) }

  ghost function Detached(h: Heap, a: Aux, r: nat): Aux
    requires r in h.raws
  {
    Aux(a.rank, a.paths - {r}, if h.raws[r].first.Some? then a.temp + multiset{h.raws[r].first.value} else a.temp)
  }

  lemma DetachRefs(h: Heap, r: nat, k: nat)
    requires r in h.raws
    ensures RawRefs(Detach(h, r), k) == RawRefs(h, k) - {r} && PartRefs(Detach(h, r), k) == PartRefs(h, k)
    ensures r in RawRefs(h, k) <==> h.raws[r].first == Some(k)
  {
  }

  lemma DetachCounts(h: Heap, a: Aux, r: nat)
    requires CountsOk(h, a) && RawsOk(h, a) && r in h.raws
    ensures CountsOk(Detach(h, r), Detached(h, a, r))
  {
    hide RawsOk, RawRefs, PartRefs;
    var h', a' := Detach(h, r), Detached(h, a, r);
    forall k | k in h'.parts ensures CountOk(h', a', k) {
      assert CountOk(h, a, k);
      DetachRefs(h, r, k);
    }
    if h.raws[r].first.Some? { FirstIn(h, a, r); }
  }

  lemma SameHeapBufs(h: Heap, h': Heap)
    requires BufsOk(h) && h'.parts == h.parts && h'.bufs == h.bufs && h'.unused == h.unused
    ensures BufsOk(h')
  {
    forall b | b in h'.bufs ensures BufOk(h', b) {
      assert BufOk(h, b);
      assert BufRefs(h', b) == BufRefs(h, b);
    }
  }

  lemma SameHeapParts(h: Heap, a: Aux, h': Heap, a': Aux)
    requires PartsOk(h, a) && h'.parts == h.parts && h'.bufs == h.bufs && h'.unused == h.unused && a'.rank == a.rank
    ensures PartsOk(h', a') && forall p :: p in h.parts ==> Keep(h, h', p)
  {
    forall k | k in h.parts ensures PartOk(h', a', k) && Keep(h, h', k) { assert PartOk(h, a, k); }
  }

  /** One message less or more; the others read the same. */
  lemma OtherMessage(h: Heap, a: Aux, h': Heap, a': Aux, k: nat)
    requires k in h.raws && RawOk(h, a, k) && k in h'.raws && h'.raws[k] == h.raws[k]
    requires k in a'.paths && a'.paths[k] == a.paths[k]
    requires h'.parts == h.parts && h'.bufs == h.bufs
    ensures RawOk(h', a', k) && Text(h', a', k) == Text(h, a, k)
  {
    var ps := a.paths[k];
    if ps != [] {
      var m := h.raws[k];
      forall i | 0 <= i < |ps| ensures Keep(h, h', ps[i]) { ViewLinks(h, ps, m.firstOffset, m.lastOffset, i); }
      ContentFrame(h, h', ps, m.firstOffset, m.lastOffset);
    }
  }

  lemma DetachGood(h: Heap, a: Aux, r: nat)
    requires Good(h, a) && r in h.raws
    ensures var h', a' := Detach(h, r), Detached(h, a, r);
            Good(h', a') &&
            (forall k :: k in h.raws && k != r ==>
              k in h'.raws && RawOk(h', a', k) && Text(h', a', k) == Text(h, a, k)) &&
            forall p :: p in h.parts ==> Keep(h, h', p)
  {
    hide PartsOk, CountsOk, BufsOk, RawOk, Keep, Text;
    var h', a' := Detach(h, r), Detached(h, a, r);
    DetachCounts(h, a, r);
    SameHeapBufs(h, h');
    SameHeapParts(h, a, h', a');
    forall k | k in h.raws && k != r ensures k in h'.raws && RawOk(h', a', k) && Text(h', a', k) == Text(h, a, k) {
      assert RawOk(h, a, k);
      assert k in a.paths by { PathIn(h, a, k); }
      OtherMessage(h, a, h', a', k);
    }
  }

  lemma PathIn(h: Heap, a: Aux, k: nat)
    requires k in h.raws && RawOk(h, a, k)
    ensures k in a.paths
  {
  }

  function Attach(h: Heap, r: nat, m: Raw): Heap { h.(raws := h.raws[r := m]) }

  ghost function Attached(a: Aux, r: nat, ps: seq<nat>): Aux {
    Aux(a.rank, a.paths[r := ps], if ps == [] then a.temp else a.temp - multiset{ps[0]})
  }

  /** The fields of a message that is the chain ps. */
  ghost predicate Fits(h: Heap, m: Raw, ps: seq<nat>) {
    if ps == [] then m.first == None && m.last == None && m.total == 0
    else m.first == Some(ps[0]) && m.last == Some(ps[|ps| - 1]) &&
         View(h, ps, m.firstOffset, m.lastOffset) &&
         m.total == |Content(h, ps, m.firstOffset, m.lastOffset)|
  }

  ghost function Bytes(h: Heap, m: Raw, ps: seq<nat>): seq<byte>
    requires Fits(h, m, ps)
  {
    if ps == [] then [] else Content(h, ps, m.firstOffset, m.lastOffset)
  }

  lemma AttachRefs(h: Heap, r: nat, m: Raw, k: nat)
    requires r !in h.raws
    ensures RawRefs(Attach(h, r, m), k) == if m.first == Some(k) then RawRefs(h, k) + {r} else RawRefs(h, k)
    ensures PartRefs(Attach(h, r, m), k) == PartRefs(h, k) && r !in RawRefs(h, k)
  {
  }

  lemma AttachCounts(h: Heap, a: Aux, r: nat, m: Raw, ps: seq<nat>)
    requires CountsOk(h, a) && r !in h.raws && Fits(h, m, ps) && (ps != [] ==> ps[0] in a.temp)
    ensures CountsOk(Attach(h, r, m), Attached(a, r, ps))
  {
    hide View, Content, RawRefs, PartRefs;
    var h', a' := Attach(h, r, m), Attached(a, r, ps);
    forall k | k in h'.parts ensures CountOk(h', a', k) {
      assert CountOk(h, a, k);
      AttachRefs(h, r, m, k);
    }
  }

  lemma AttachGood(h: Heap, a: Aux, r: nat, m: Raw, ps: seq<nat>)
    requires Good(h, a) && r !in h.raws && Fits(h, m, ps) && (ps != [] ==> ps[0] in a.temp)
    ensures var h', a' := Attach(h, r, m), Attached(a, r, ps);
            Good(h', a') && Text(h', a', r) == Bytes(h, m, ps) &&
            (forall k :: k in h.raws ==> k in h'.raws && RawOk(h', a', k) && Text(h', a', k) == Text(h, a, k)) &&
            forall p :: p in h.parts ==> Keep(h, h', p)
  {
    hide PartsOk, CountsOk, BufsOk, Keep, View, Content;
    var h', a' := Attach(h, r, m), Attached(a, r, ps);
    AttachCounts(h, a, r, m, ps);
    SameHeapBufs(h, h');
    SameHeapParts(h, a, h', a');
    forall k | k in h.raws ensures RawOk(h', a', k) && Text(h', a', k) == Text(h, a, k) {
      assert RawOk(h, a, k);
      OtherMessage(h, a, h', a', k);
    }
    AttachView(h, a, h', m, ps);
  }

  lemma AttachView(h: Heap, a: Aux, h': Heap, m: Raw, ps: seq<nat>)
    requires Fits(h, m, ps) && h'.parts == h.parts && h'.bufs == h.bufs
    ensures Fits(h', m, ps) && Bytes(h', m, ps) == Bytes(h, m, ps)
  {
    if ps != [] {
      forall i | 0 <= i < |ps| ensures Keep(h, h', ps[i]) { ViewLinks(h, ps, m.firstOffset, m.lastOffset, i); }
      ContentFrame(h, h', ps, m.firstOffset, m.lastOffset);
    }
  }
}
