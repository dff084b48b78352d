/** The first part of a message: making its window start with the message, and prepending. */
module RopeFront {
  import opened Options
  import opened RopeModel
  import opened RopeSteps
  import opened RopeChains
  import opened RopeFork
  import opened RopeOps
  import opened RopeAppend

  /** The window of the first part starts where message r does. */
  ghost predicate Aligned(h: Heap, a: Aux, r: nat) {
    r in h.raws && r in a.paths &&
    (a.paths[r] != [] ==> a.paths[r][0] in h.parts && h.parts[a.paths[r][0]].offset == h.raws[r].firstOffset)
  }

  /** The path of message r is as it was, but for a new first part perhaps. */
  ghost predicate PathFrom(h0: Heap, ps: seq<nat>, ns: seq<nat>) {
    ns == ps || (ps != [] && ns != [] && ns[1..] == ps[1..] && ns[0] !in h0.parts)
  }

  // ---------------------------------------------------------------- a first part of its own

  predicate HasFirst(h: Heap, m: Raw) {
    m.first.Some? && m.first.value in h.parts && h.parts[m.first.value].buf in h.bufs &&
    (m.last != m.first ==> h.parts[m.first.value].next.Some? && h.parts[m.first.value].next.value in h.parts)
  }

  /** Nothing follows the last part of ps, whose window ends where the message does. */
  ghost predicate LastReady(h: Heap, m: Raw, ps: seq<nat>) {
    ps != [] && ps[|ps| - 1] in h.parts && h.parts[ps[|ps| - 1]].next == None &&
      h.parts[ps[|ps| - 1]].end == m.lastOffset
  }

  /** Message m is back as r, with its window aligned; `extra` is still to be dropped. */
  ghost predicate BackAligned(h: Heap, a: Aux, h': Heap, a': Aux, r: nat, m: Raw, ps: seq<nat>, extra: multiset<nat>) {
    Back(h, a, h', a', r, m, ps, extra) && Aligned(h', a', r) && PathFrom(h, ps, a'.paths[r]) &&
    (LastReady(h, m, ps) ==> Ready(h', a', r))
  }

  /** A copy of the first part, cut to the message, in front of what follows it. */
  function CopyFirst(h: Heap, m: Raw): Heap
    requires HasFirst(h, m)
  {
    var p := h.parts[m.first.value];
    if m.last == m.first then AddPart(h, p.buf, m.firstOffset, m.lastOffset)
    else SetNext(Acquire(AddPart(h, p.buf, m.firstOffset, p.end), p.next.value), h.unused, p.next)
  }

  function CopyFirstRaw(h: Heap, m: Raw): Raw {
    if m.last == m.first then m.(first := Some(h.unused), last := Some(h.unused)) else m.(first := Some(h.unused))
  }

  ghost function CopyFirstPath(h: Heap, ps: seq<nat>): seq<nat>
    requires ps != []
  {
    [h.unused] + ps[1..]
  }

  ghost function CopyFirstAux(h: Heap, a: Aux, p: nat): Aux
    requires p in a.rank
  {
    Added(h, a, a.rank[p])
  }

  /** The new first part alone. */
  lemma CopyFirstPart(h: Heap, a: Aux, m: Raw, ps: seq<nat>, end: int)
    requires Loose(h, a, m, ps) && ps[0] in a.rank && m.firstOffset <= end <= h.parts[ps[0]].end
    ensures h.parts[ps[0]].buf in h.bufs
    ensures var h1, a1 := AddPart(h, h.parts[ps[0]].buf, m.firstOffset, end), CopyFirstAux(h, a, ps[0]);
            h.unused !in h.parts && Good(h1, a1) && Keeps(h, a, h1, a1) && KeepParts(h, h1) &&
            View(h1, [h.unused], m.firstOffset, end) && Window(h, ps[0]) && 0 <= m.firstOffset &&
            Content(h1, [h.unused], m.firstOffset, end) == Data(h, ps[0])[m.firstOffset..end]
  {
    hide PartsOk, CountsOk, BufsOk, RawsOk, Keeps, Keep, Private, View, Content;
    LooseFirst(h, a, m, ps);
    AddGood(h, a, h.parts[ps[0]].buf, m.firstOffset, end, a.rank[ps[0]]);
    var h1 := AddPart(h, h.parts[ps[0]].buf, m.firstOffset, end);
    Single(h1, h.unused, m.firstOffset, end);
  }

  lemma CopySingle(h: Heap, a: Aux, m: Raw, ps: seq<nat>, r: nat)
    requires Loose(h, a, m, ps) && r !in h.raws && LocksHeld(h, a) && |ps| == 1 && ps[0] in a.rank
    requires HasFirst(h, m) && m.first == m.last
    ensures BackAligned(h, a, Attach(CopyFirst(h, m), r, CopyFirstRaw(h, m)),
                        Attached(CopyFirstAux(h, a, ps[0]), r, CopyFirstPath(h, ps)), r, m, ps, multiset{ps[0]})
  {
    hide PartsOk, CountsOk, BufsOk, RawsOk, Keeps, Keep, KeepParts, Private, LocksHeld, Still, SameOthers, Back,
         Attached;
    LooseFirst(h, a, m, ps);
    CopyFirstPart(h, a, m, ps, m.lastOffset);
    var h', a', m', ns := CopyFirst(h, m), CopyFirstAux(h, a, ps[0]), CopyFirstRaw(h, m), CopyFirstPath(h, ps);
    assert ns == [h.unused];
    KeepsFields(h, a, h', a');
    CopyFirstRest(h, a, h', a', r, m', ns);
    TempSwap(a, h.unused, ps[0]);
    AttachBack(h, a, h', a', r, m, ps, m', ns, multiset{ps[0]});
    AttachedPath(a', r, ns);
  }

  lemma TempSwap(a: Aux, c: nat, p: nat)
    requires p in a.temp
    ensures a.temp + multiset{c} - multiset{c} == a.temp - multiset{p} + multiset{p}
  {
  }

  lemma AttachedPath(a: Aux, r: nat, ns: seq<nat>)
    ensures r in Attached(a, r, ns).paths && Attached(a, r, ns).paths[r] == ns
  {
  }

  lemma CopyFirstRest(h: Heap, a: Aux, h': Heap, a': Aux, r: nat, m': Raw, ns: seq<nat>)
    requires LocksHeld(h, a) && r !in h.raws && h'.raws == h.raws && a'.paths == a.paths
    requires forall p :: p in h.parts ==>
               p in h'.parts && SameShape(h.parts[p], h'.parts[p]) && h'.parts[p].locked == h.parts[p].locked
    requires forall p :: p in h'.parts && p !in h.parts ==> !h'.parts[p].locked
    ensures Still(h, a, h') && SameLocks(h, Attach(h', r, m')) && LocksHeld(Attach(h', r, m'), Attached(a', r, ns))
  {
    hide LocksHeld, Private;
    AttachLocks(h, a, h', a', r, m', ns);
  }

  /** The new first part in front of the others. */
  lemma CopyMulti(h: Heap, a: Aux, m: Raw, ps: seq<nat>, r: nat)
    requires Loose(h, a, m, ps) && r !in h.raws && LocksHeld(h, a) && |ps| > 1 && ps[0] in a.rank
    requires HasFirst(h, m) && m.first != m.last
    ensures BackAligned(h, a, Attach(CopyFirst(h, m), r, CopyFirstRaw(h, m)),
                        Attached(CopyFirstAux(h, a, ps[0]), r, CopyFirstPath(h, ps)), r, m, ps, multiset{ps[0]})
  {
    hide PartsOk, CountsOk, BufsOk, RawsOk, Keeps, Keep, KeepParts, Private, LocksHeld, Still, SameOthers, View,
         Content, Back, Attached;
    LooseFirst(h, a, m, ps);
    CopyMultiHeap(h, a, m, ps);
    CopyMultiText(h, a, m, ps);
    var h', a', m', ns := CopyFirst(h, m), CopyFirstAux(h, a, ps[0]), CopyFirstRaw(h, m), CopyFirstPath(h, ps);
    KeepsFields(h, a, h', a');
    CopyFirstRest(h, a, h', a', r, m', ns);
    TempSwap(a, h.unused, ps[0]);
    AttachBack(h, a, h', a', r, m, ps, m', ns, multiset{ps[0]});
    AttachedPath(a', r, ns);
    assert ns[1..] == ps[1..] && ns[|ns| - 1] == ps[|ps| - 1];
  }

  lemma CopyMultiHeap(h: Heap, a: Aux, m: Raw, ps: seq<nat>)
    requires Loose(h, a, m, ps) && |ps| > 1 && ps[0] in a.rank && HasFirst(h, m) && m.first != m.last
    ensures h.parts[ps[0]].next == Some(ps[1]) && ps[1] in h.parts && h.unused !in h.parts
    ensures var h', a' := CopyFirst(h, m), CopyFirstAux(h, a, ps[0]);
            Good(h', a') && Keeps(h, a, h', a') && KeepParts(h, h')
  {
    hide PartsOk, CountsOk, BufsOk, RawsOk, Keeps, Keep, Private, View, Content;
    LooseFirst(h, a, m, ps);
    ViewLinks(h, ps, m.firstOffset, m.lastOffset, 0);
    CopyFirstPart(h, a, m, ps, h.parts[ps[0]].end);
    var q, c := ps[1], h.unused;
    var h1, a1 := AddPart(h, h.parts[ps[0]].buf, m.firstOffset, h.parts[ps[0]].end), CopyFirstAux(h, a, ps[0]);
    AcquireGood(h1, a1, q);
    var h2, a2 := Acquire(h1, q), Held(a1, q);
    NextIn(h, a, ps[0]);
    NotUnused(h, a, q);
    LinkGood(h2, a2, c, q);
    var h3, a3 := SetNext(h2, c, Some(q)), Dropped(a2, q);
    KeepsTrans(h, a, h1, a1, h2, a2);
    KeepsTrans(h, a, h2, a2, h3, a3);
    KeepPartsTrans(h, h1, h2);
    KeepPartsTrans(h, h2, h3);
    assert a3 == a1 by { assert a1.temp + multiset{q} - multiset{q} == a1.temp; }
  }

  lemma NotUnused(h: Heap, a: Aux, q: nat)
    requires PartsOk(h, a) && q in h.parts
    ensures q != h.unused && q in a.rank
  {
    assert PartOk(h, a, q);
  }

  lemma CopyMultiText(h: Heap, a: Aux, m: Raw, ps: seq<nat>)
    requires Loose(h, a, m, ps) && |ps| > 1 && HasFirst(h, m) && m.first != m.last
    requires h.parts[ps[0]].next == Some(ps[1]) && ps[1] in h.parts && h.unused !in h.parts
    requires KeepParts(h, CopyFirst(h, m))
    ensures Fits(CopyFirst(h, m), CopyFirstRaw(h, m), CopyFirstPath(h, ps))
    ensures Bytes(CopyFirst(h, m), CopyFirstRaw(h, m), CopyFirstPath(h, ps)) == Bytes(h, m, ps)
  {
    hide PartsOk, CountsOk, BufsOk, RawsOk, Keep, KeepParts, View, Content;
    LooseFirst(h, a, m, ps);
    var h', c, fo := CopyFirst(h, m), h.unused, m.firstOffset;
    Split(h, ps, fo, m.lastOffset, 1);
    assert ps[..1] == [ps[0]];
    Single(h, ps[0], fo, End(h, ps[0]));
    KeptView(h, h', ps[1..], Offset(h, ps[1]), m.lastOffset);
    KeepOffset(h, h', ps[1]);
    assert h'.parts[c] == Part(Some(ps[1]), h.parts[ps[0]].buf, fo, h.parts[ps[0]].end, 1, false);
    Single(h', c, fo, End(h, ps[0]));
    Join(h', [c], ps[1..], fo, m.lastOffset);
  }

  lemma KeepOffset(h: Heap, h': Heap, p: nat)
    requires KeepParts(h, h') && p in h.parts
    ensures p in h'.parts && h'.parts[p].offset == h.parts[p].offset
  {
    assert Keep(h, h', p);
  }

  // ---------------------------------------------------------------- what rwm_lock_first_part leaves

  ghost predicate LockedFirst(h0: Heap, a0: Aux, h: Heap, a: Aux, r: nat) {
    SameMessage(h0, a0, h, a, r) && Aligned(h, a, r) && SameLocks(h0, h) && LocksElsewhere(h, a, r) &&
    (Ready(h0, a0, r) ==> Ready(h, a, r)) && r in a0.paths && PathFrom(h0, a0.paths[r], a.paths[r])
  }

  /** A first part of the message's own is trimmed. */
  lemma TrimFirst(h: Heap, a: Aux, m: Raw, ps: seq<nat>, r: nat)
    requires Loose(h, a, m, ps) && r !in h.raws && LocksHeld(h, a) && h.parts[ps[0]].refcnt == 1
    ensures var h' := Resize(h, ps[0], m.firstOffset, h.parts[ps[0]].end);
            BackAligned(h, a, Attach(h', r, m), Attached(a, r, ps), r, m, ps, multiset{})
  {
    hide PartsOk, CountsOk, BufsOk, RawsOk, Keeps, Private, LocksHeld, Still, SameOthers, View, Content;
    LooseFirst(h, a, m, ps);
    var h' := Resize(h, ps[0], m.firstOffset, h.parts[ps[0]].end);
    TrimLemma(h, a, m, ps);
    KeepsFields(h, a, h', a);
    LocksBack(h, a, h, h', a, r, m, ps);
    AttachBack(h, a, h', a, r, m, ps, m, ps, multiset{});
  }

  lemma FirstBack(h0: Heap, a0: Aux, h1: Heap, a1: Aux, h: Heap, a: Aux, r: nat, m: Raw, ps: seq<nat>)
    requires Good(h0, a0) && r in h0.raws && LocksElsewhere(h0, a0, r) && m == h0.raws[r] && m.first.Some? &&
             r in a0.paths && ps == a0.paths[r]
    requires h1 == Detach(h0, r) && a1 == Detached(h0, a0, r) && Loose(h1, a1, m, ps) && RawOk(h0, a0, r) &&
             Bytes(h1, m, ps) == Text(h0, a0, r)
    requires BackAligned(h1, a1, h, a, r, m, ps, multiset{})
    ensures LockedFirst(h0, a0, h, a, r)
  {
    hide PartsOk, CountsOk, BufsOk, RawsOk, Keeps, View, Content, Back, Still, Others, LocksElsewhere, RawOk;
    KeepsSelf(h1, a1);
    StillSelf(h1, a1);
    PutBack(h0, a0, h1, a1, h1, h, a, r, m, ps);
  }

  lemma StillSelf(h: Heap, a: Aux)
    ensures Still(h, a, h) && SameLocks(h, h)
  {
  }

  lemma AlignedAlready(h: Heap, a: Aux, r: nat)
    requires Good(h, a) && r in h.raws && LocksElsewhere(h, a, r) && h.raws[r].first.Some?
    requires h.raws[r].first.value in h.parts && h.parts[h.raws[r].first.value].offset == h.raws[r].firstOffset
    ensures LockedFirst(h, a, h, a, r)
  {
    hide PartsOk, CountsOk, BufsOk, View, Content;
    assert RawOk(h, a, r);
    forall k | k in h.raws ensures k in a.paths { assert RawOk(h, a, k); }
  }

  /** Dropping the reference to the old first part. */
  lemma DropFirst(h1: Heap, a1: Aux, h3: Heap, a3: Aux, h: Heap, a: Aux, r: nat, m: Raw, ps: seq<nat>)
    requires ps != [] && BackAligned(h1, a1, h3, a3, r, m, ps, multiset{ps[0]})
    requires Good(h, a) && a == Dropped(a3, ps[0]) && Keeps(h3, a3, h, a) && Shrunk(h3, h) && LocksHeld(h, a)
    ensures BackAligned(h1, a1, h, a, r, m, ps, multiset{})
  {
    hide PartsOk, CountsOk, BufsOk, RawsOk, Keep, Keeps, View, Content, LocksHeld, Private, Still, Others, Back;
    DropBack(h1, a1, h3, a3, h, a, r, m, ps, ps[0]);
    BackGood(h1, a1, h3, a3, r, m, ps, multiset{ps[0]});
    KeepsFields(h3, a3, h, a);
    DropEnds(h3, a3, h, a, r);
  }

  lemma BackGood(h1: Heap, a1: Aux, h: Heap, a: Aux, r: nat, m: Raw, ps: seq<nat>, extra: multiset<nat>)
    requires Back(h1, a1, h, a, r, m, ps, extra)
    ensures Good(h, a) && LocksHeld(h, a) && r in h.raws && (forall p :: p in extra ==> p in a.temp)
  {
    hide Good, Others, LocksHeld, Still, SameLocks, SameOthers;
  }

  lemma DropEnds(h3: Heap, a3: Aux, h: Heap, a: Aux, r: nat)
    requires RawsOk(h, a) && r in h.raws && h.raws == h3.raws && a.paths == a3.paths && Shrunk(h3, h)
    ensures Aligned(h3, a3, r) ==> Aligned(h, a, r)
    ensures Ready(h3, a3, r) ==> Ready(h, a, r)
  {
    hide View, Content, RawsOk;
    if r in a.paths && a.paths[r] != [] {
      PathParts(h, a, r, a.paths[r][0]);
      PathParts(h, a, r, a.paths[r][|a.paths[r]| - 1]);
    }
  }

  lemma FirstFacts(h: Heap, a: Aux, m: Raw, ps: seq<nat>)
    requires Loose(h, a, m, ps)
    ensures ps != [] && ps[0] in h.parts && HasFirst(h, m) && m.first == Some(ps[0]) && ps[0] in a.rank &&
            (m.first == m.last <==> |ps| == 1)
  {
    hide CountsOk, BufsOk, RawsOk, View, Content;
    LooseFirst(h, a, m, ps);
    WalkEnd(h, a, m, ps, 0);
    NextIn(h, a, ps[0]);
    if |ps| > 1 { ViewLinks(h, ps, m.firstOffset, m.lastOffset, 0); }
  }

  lemma BackAlignedMeans(h1: Heap, a1: Aux, h: Heap, a: Aux, r: nat, m: Raw, ps: seq<nat>, extra: multiset<nat>)
    requires BackAligned(h1, a1, h, a, r, m, ps, extra)
    ensures Good(h, a) && LocksHeld(h, a) && (forall p :: p in extra ==> p in a.temp)
  {
    hide Good, LocksHeld, Back;
    BackGood(h1, a1, h, a, r, m, ps, extra);
  }

  // ---------------------------------------------------------------- growing to the left

  /** A message taken out of (h0, a0) that starts with the window of its first part; nothing else is
      held or locked. */
  ghost predicate Fronting(h0: Heap, a0: Aux, h: Heap, a: Aux, m: Raw, ps: seq<nat>, text: seq<byte>) {
    RawsOk(h0, a0) && Good(h, a) && Keeps(h0, a0, h, a) && OnlyLock(h, None) && Fits(h, m, ps) &&
      Bytes(h, m, ps) == text &&
    a.temp == (if ps == [] then multiset{} else multiset{ps[0]}) &&
    (ps != [] ==> ps[0] in h.parts && h.parts[ps[0]].offset == m.firstOffset)
  }

  /** The same chain from an earlier point of its first part. */
  lemma Unskip(h: Heap, ps: seq<nat>, fo: int, lo: int, fo': int)
    requires View(h, ps, fo, lo) && Window(h, ps[0]) && Offset(h, ps[0]) <= fo' <= fo
    ensures View(h, ps, fo', lo) && 0 <= fo' <= fo <= |Data(h, ps[0])|
    ensures Content(h, ps, fo', lo) == Data(h, ps[0])[fo'..fo] + Content(h, ps, fo, lo)
  {
    var d, e := Data(h, ps[0]), if |ps| == 1 then lo else h.parts[ps[0]].end;
    assert d[fo'..e] == d[fo'..fo] + d[fo..e];
  }

  function GrowFront(h: Heap, p: nat, bytes: seq<byte>): Heap
    requires p in h.parts && h.parts[p].buf in h.bufs && |bytes| <= h.parts[p].offset <= |h.bufs[h.parts[p].buf].data|
  {
    Resize(WriteBytes(h, h.parts[p].buf, h.parts[p].offset - |bytes|, bytes), p, h.parts[p].offset - |bytes|,
      h.parts[p].end)
  }

  lemma FrontFacts(h0: Heap, a0: Aux, h: Heap, a: Aux, m: Raw, ps: seq<nat>, text: seq<byte>)
    requires Fronting(h0, a0, h, a, m, ps, text)
    ensures ps == [] <==> m.first == None
    ensures ps != [] ==>
              m.first == Some(ps[0]) && Window(h, ps[0]) && h.parts[ps[0]].offset == m.firstOffset &&
              Loose(h, a, m, ps)
  {
    hide CountsOk, BufsOk, RawsOk, Keeps, Content, OnlyLock;
    if ps != [] { NextIn(h, a, ps[0]); }
  }

  lemma GrowFrontGood(h: Heap, a: Aux, p: nat, bytes: seq<byte>)
    requires Good(h, a) && Window(h, p) && h.parts[p].refcnt == 1 && p in a.temp && h.bufs[h.parts[p].buf].refcnt == 1
    requires |bytes| <= h.parts[p].offset
    ensures var h1, h2 := WriteBytes(h, h.parts[p].buf, h.parts[p].offset - |bytes|, bytes), GrowFront(h, p, bytes);
            Good(h2, a) && Keeps(h, a, h2, a) && KeepParts(h, h1) && forall q :: q in h1.parts && q != p ==>
              Keep(h1, h2, q)
  {
    hide PartsOk, CountsOk, BufsOk, RawsOk, Keeps, Private;
    var fo, k := h.parts[p].offset, |bytes|;
    var h1 := WriteBytes(h, h.parts[p].buf, fo - k, bytes);
    OnlyLocal(h, a, p);
    WriteGood(h, a, p, fo - k, bytes);
    SamePrivate(h, a, h1, a, p);
    ResizeGood(h1, a, p, fo - k, h.parts[p].end);
    KeepsTrans(h, a, h1, a, GrowFront(h, p, bytes), a);
  }

  /** Into the buffer in front of the window, when part and buffer are the message's own. */
  lemma FrontHere(h0: Heap, a0: Aux, h: Heap, a: Aux, m: Raw, ps: seq<nat>, text: seq<byte>, bytes: seq<byte>)
    requires Fronting(h0, a0, h, a, m, ps, text) && ps != [] && Window(h, ps[0])
    requires h.parts[ps[0]].refcnt == 1 && h.bufs[h.parts[ps[0]].buf].refcnt == 1 && |bytes| <= m.firstOffset
    requires h.parts[ps[0]].offset == m.firstOffset
    ensures Fronting(h0, a0, GrowFront(h, ps[0], bytes), a,
                     m.(firstOffset := m.firstOffset - |bytes|, total := m.total + |bytes|), ps, bytes + text)
  {
    hide PartsOk, CountsOk, BufsOk, RawsOk, Keeps, Keep, Private, View, Content;
    FrontFacts(h0, a0, h, a, m, ps, text);
    LooseFirst(h, a, m, ps);
    var p, fo, k := ps[0], m.firstOffset, |bytes|;
    var h1 := WriteBytes(h, h.parts[p].buf, fo - k, bytes);
    var h2 := GrowFront(h, p, bytes);
    GrowFrontGood(h, a, p, bytes);
    KeepsTrans(h0, a0, h, a, h2, a);
    KeptView(h, h1, ps, fo, m.lastOffset);
    NotInRest(h, a, ps, fo, m.lastOffset, 0);
    KeepsWithout(h1, h2, ps[1..], p);
    FirstChanged(h1, h2, ps, fo, m.lastOffset);
    Unskip(h2, ps, fo, m.lastOffset, fo - k);
    assert Data(h2, p)[fo - k..fo] == bytes;
  }

  /** A new part in front. */
  function AddFront(h: Heap, first: Option<nat>, data: seq<byte>, offset: nat): Heap {
    SetNext(AddFresh(h, data, offset, |data|), h.unused + 1, first)
  }

  ghost function AddedFront(h: Heap, a: Aux, ps: seq<nat>): Aux {
    if ps == [] || ps[0] !in a.rank then AddedFresh(h, a, 0) else Dropped(AddedFresh(h, a, a.rank[ps[0]] + 1), ps[0])
  }

  function FrontRaw(h: Heap, m: Raw, data: seq<byte>, offset: nat): Raw {
    var c := Some(h.unused + 1);
    if m.last.Some? then m.(first := c, firstOffset := offset, total := m.total + |data| - offset)
    else Raw(c, c, m.total + |data| - offset, offset, |data|)
  }

  lemma FrontNewHeap(h: Heap, a: Aux, m: Raw, ps: seq<nat>, data: seq<byte>, offset: nat)
    requires Good(h, a) && offset <= |data| && (ps != [] ==> ps[0] in h.parts && ps[0] in a.temp)
    ensures ps != [] ==> ps[0] in a.rank
    ensures h.unused + 1 !in h.parts
    ensures var h', a' := AddFront(h, if ps == [] then None else Some(ps[0]), data, offset), AddedFront(h, a, ps);
            Good(h', a') && Keeps(h, a, h', a') && KeepParts(h, h')
  {
    hide PartsOk, CountsOk, BufsOk, RawsOk, Keeps, Keep, Private;
    var c := h.unused + 1;
    if ps == [] {
      FreshGood(h, a, data, offset, |data|, 0);
      assert AddFront(h, None, data, offset).parts == AddFresh(h, data, offset, |data|).parts;
      assert AddFront(h, None, data, offset) == AddFresh(h, data, offset, |data|);
    } else {
      NextIn(h, a, ps[0]);
      var rank := a.rank[ps[0]] + 1;
      FreshGood(h, a, data, offset, |data|, rank);
      var h1, a1 := AddFresh(h, data, offset, |data|), AddedFresh(h, a, rank);
      LinkGood(h1, a1, c, ps[0]);
      KeepsTrans(h, a, h1, a1, AddFront(h, Some(ps[0]), data, offset), AddedFront(h, a, ps));
      KeepPartsTrans(h, h1, AddFront(h, Some(ps[0]), data, offset));
    }
  }

  lemma FrontNewText(h: Heap, a: Aux, m: Raw, ps: seq<nat>, data: seq<byte>, offset: nat)
    requires Fits(h, m, ps) && offset <= |data| && KeepParts(h, AddFront(h, m.first, data, offset)) &&
             h.unused + 1 !in h.parts
    requires ps != [] ==> ps[0] in h.parts && h.parts[ps[0]].offset == m.firstOffset
    ensures var h', m', ns := AddFront(h, m.first, data, offset), FrontRaw(h, m, data, offset), [h.unused + 1] + ps;
            Fits(h', m', ns) && Bytes(h', m', ns) == data[offset..] + Bytes(h, m, ps) &&
            h.unused + 1 in h'.parts && h'.parts[h.unused + 1].offset == m'.firstOffset
  {
    hide Keep, KeepParts, View, Content;
    var h', c := AddFront(h, m.first, data, offset), h.unused + 1;
    Single(h', c, offset, |data|);
    assert Data(h', c)[offset..|data|] == data[offset..];
    if ps == [] {
      assert [c] + ps == [c];
      assert data[offset..] + [] == data[offset..];
    } else {
      KeptView(h, h', ps, m.firstOffset, m.lastOffset);
      KeepOffset(h, h', ps[0]);
      Join(h', [c], ps, offset, m.lastOffset);
      assert ([c] + ps)[|ps|] == ps[|ps| - 1];
    }
  }

  lemma FrontNew(h0: Heap, a0: Aux, h: Heap, a: Aux, m: Raw, ps: seq<nat>, text: seq<byte>, data: seq<byte>,
                 offset: nat)
    requires offset <= |data| && Fronting(h0, a0, h, a, m, ps, text)
    ensures Fronting(h0, a0, AddFront(h, m.first, data, offset), AddedFront(h, a, ps), FrontRaw(h, m, data, offset),
                     [h.unused + 1] + ps, data[offset..] + text)
  {
    hide Good, Keeps, Keep, KeepParts, Fits, Bytes, OnlyLock, RawsOk;
    FrontFacts(h0, a0, h, a, m, ps, text);
    FrontNewHeap(h, a, m, ps, data, offset);
    FrontNewText(h, a, m, ps, data, offset);
    FrontLocks(h, m, data, offset);
    KeepsOver(h0, a0, h, a, AddFront(h, m.first, data, offset), AddedFront(h, a, ps));
  }

  lemma FrontLocks(h: Heap, m: Raw, data: seq<byte>, offset: nat)
    requires OnlyLock(h, None)
    ensures OnlyLock(AddFront(h, m.first, data, offset), None)
  {
  }

  lemma KeepsOver(h0: Heap, a0: Aux, h: Heap, a: Aux, h': Heap, a': Aux)
    requires RawsOk(h0, a0) && Good(h, a) && Keeps(h0, a0, h, a) && Keeps(h, a, h', a')
    ensures Keeps(h0, a0, h', a')
  {
    hide PartsOk, CountsOk, BufsOk, RawsOk, Keeps;
    KeepsTrans(h0, a0, h, a, h', a');
  }

  // ---------------------------------------------------------------- out of the store and back

  lemma FrontBegins(h: Heap, a: Aux, r: nat)
    requires Good(h, a) && a.temp == multiset{} && OnlyLock(h, None) && r in h.raws && r in a.paths
    requires a.paths[r] != [] ==> Aligned(h, a, r)
    ensures RawOk(h, a, r) && RawsOk(Detach(h, r), Detached(h, a, r)) && r !in Detach(h, r).raws
    ensures Fronting(Detach(h, r), Detached(h, a, r), Detach(h, r), Detached(h, a, r), h.raws[r], a.paths[r],
            Text(h, a, r))
    ensures Others(h, a, Detach(h, r), Detached(h, a, r), r)
  {
    hide PartsOk, CountsOk, BufsOk, RawsOk, Keep, View, Content, Others;
    RawsAt(h, a, r);
    var h1, a1, m, ps := Detach(h, r), Detached(h, a, r), h.raws[r], a.paths[r];
    DetachGood(h, a, r);
    DetachOthers(h, a, r);
    KeepsSelf(h1, a1);
    AttachView(h, a, h1, m, ps);
  }

  lemma FrontEnds(h0: Heap, a0: Aux, h1: Heap, a1: Aux, h: Heap, a: Aux, r: nat, m: Raw, ps: seq<nat>, text: seq<byte>)
    requires Good(h0, a0) && RawsOk(h1, a1) && Others(h0, a0, h1, a1, r) && r !in h1.raws &&
             Fronting(h1, a1, h, a, m, ps, text)
    ensures Became(h0, a0, Attach(h, r, m), Attached(a, r, ps), r, text)
    ensures Attached(a, r, ps).temp == multiset{} && OnlyLock(Attach(h, r, m), None)
  {
    hide PartsOk, CountsOk, BufsOk, RawsOk, Keep, Keeps, View, Content, Others;
    KeepsFields(h1, a1, h, a);
    AttachGood(h, a, r, m, ps);
    AttachOthers(h1, a1, h, a, r, m, ps);
    OthersTrans(h0, a0, h1, a1, Attach(h, r, m), Attached(a, r, ps), r);
  }

  /** After the first part has been secured, everything but r reads as before and so does r. */
  lemma SecuredFront(h0: Heap, a0: Aux, h: Heap, a: Aux, r: nat)
    requires LockedFirst(h0, a0, h, a, r) && a0.temp == multiset{} && OnlyLock(h0, None)
    ensures Good(h0, a0) && Good(h, a) && r in h.raws && r in h0.raws && r in a.paths && Aligned(h, a, r) &&
            OnlyLock(h, None) && a.temp == multiset{}
    ensures RawOk(h0, a0, r) && RawOk(h, a, r) && Text(h, a, r) == Text(h0, a0, r) && Others(h0, a0, h, a, r)
    ensures Became(h0, a0, h, a, r, Text(h0, a0, r))
  {
    hide PartsOk, CountsOk, BufsOk, Others, View, Content, Ready, StillBut, LocksElsewhere;
  }

  lemma BecameFrom(h0: Heap, a0: Aux, h1: Heap, a1: Aux, h: Heap, a: Aux, r: nat, text: seq<byte>)
    requires Good(h0, a0) && Became(h1, a1, h, a, r, text) && Others(h0, a0, h1, a1, r)
    ensures Became(h0, a0, h, a, r, text)
  {
    hide PartsOk, CountsOk, BufsOk, RawOk, Others, Text;
    OthersTrans(h0, a0, h1, a1, h, a, r);
  }

  lemma EmptyPath(h: Heap, a: Aux, r: nat)
    requires Good(h, a) && r in h.raws
    ensures RawOk(h, a, r) && r in a.paths && (h.raws[r].first == None <==> a.paths[r] == [])
  {
    hide PartsOk, CountsOk, BufsOk, View, Content;
    assert RawOk(h, a, r);
  }
}
