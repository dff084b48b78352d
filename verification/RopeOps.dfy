/** What the operations on raw messages promise, and the lemmas behind fork_message_chain. */
module RopeOps {
  import opened Options
  import opened RopeModel
  import opened RopeSteps
  import opened RopeChains
  import opened RopeFork

  // ---------------------------------------------------------------- what an operation promises

  /** Every message but r is there and reads the same. */
  ghost predicate Others(h: Heap, a: Aux, h': Heap, a': Aux, r: nat)
    requires RawsOk(h, a) && RawsOk(h', a')
  {
    (forall k :: k in h.raws && k != r ==> k in h'.raws && Text(h', a', k) == Text(h, a, k)) &&
    (forall k :: k in h'.raws && k != r ==> k in h.raws)
  }

  lemma KeepsOthers(h: Heap, a: Aux, h1: Heap, a1: Aux, h2: Heap, a2: Aux, r: nat)
    requires RawsOk(h, a) && RawsOk(h1, a1) && RawsOk(h2, a2)
    requires Others(h, a, h1, a1, r) && Keeps(h1, a1, h2, a2)
    ensures Others(h, a, h2, a2, r)
  {
  }

  /** No part that is locked can be freed: some message goes through it. */
  ghost predicate LocksHeld(h: Heap, a: Aux) {
    forall p :: p in h.parts && h.parts[p].locked ==> !Private(h, a, p)
  }

  /** After dropping references: what is left is as it was, with no higher counts. */
  ghost predicate Shrunk(h: Heap, h': Heap) {
    h'.unused == h.unused &&
    forall p :: p in h'.parts ==>
      p in h.parts && h'.parts[p].refcnt <= h.parts[p].refcnt && SameShape(h.parts[p], h'.parts[p]) &&
      h'.parts[p].locked == h.parts[p].locked
  }

  /** On the way from h0 to h references were dropped and parts freed, nothing else. */
  ghost predicate Dropping(h0: Heap, a0: Aux, h: Heap, a: Aux) {
    Good(h0, a0) && Good(h, a) && LocksHeld(h, a) && Keeps(h0, a0, h, a) && Shrunk(h0, h)
  }

  /** What is held on the way: the reference to `first` became one to mp, or went. */
  ghost function StillHeld(a: Aux, first: nat, mp: Option<nat>): Aux {
    a.(temp := a.temp - multiset{first} + (if mp.Some? then multiset{mp.value} else multiset{}))
  }

  lemma HeldAtFirst(a: Aux, first: nat)
    requires first in a.temp
    ensures StillHeld(a, first, Some(first)) == a && StillHeld(a, first, None) == Dropped(a, first)
  {
    assert a.temp - multiset{first} + multiset{first} == a.temp;
  }

  lemma HeldNext(a: Aux, first: nat, p: nat, h: Heap)
    ensures p in StillHeld(a, first, Some(p)).temp
    ensures Dropped(StillHeld(a, first, Some(p)), p) == StillHeld(a, first, None)
    ensures p in h.parts ==> Freed(h, StillHeld(a, first, Some(p)), p) == StillHeld(a, first, h.parts[p].next)
  {
    assert a.temp - multiset{first} + multiset{p} - multiset{p} == a.temp - multiset{first};
  }

  lemma DroppingSelf(h: Heap, a: Aux)
    requires Good(h, a) && LocksHeld(h, a)
    ensures Dropping(h, a, h, a)
  {
    KeepsSelf(h, a);
  }

  lemma DroppingMeans(h0: Heap, a0: Aux, h: Heap, a: Aux)
    requires Dropping(h0, a0, h, a)
    ensures Good(h0, a0) && Good(h, a) && LocksHeld(h, a) && Keeps(h0, a0, h, a) && Shrunk(h0, h)
  {
  }

  lemma DroppingPart(h0: Heap, a0: Aux, h: Heap, a: Aux, p: nat)
    requires Dropping(h0, a0, h, a) && p in a.temp
    ensures p in h.parts && h.parts[p].refcnt >= 1 && h.parts[p].buf in h.bufs
  {
    hide Keeps, Shrunk, LocksHeld, BufsOk, RawsOk, RawRefs, PartRefs;
    TempIn(h, a, p);
    Positive(h, a, p);
    NextIn(h, a, p);
  }

  lemma ReleaseStep(h0: Heap, a0: Aux, h: Heap, a: Aux, p: nat)
    requires Dropping(h0, a0, h, a) && p in a.temp && p in h.parts && h.parts[p].refcnt > 1
    ensures Dropping(h0, a0, Release(h, p), Dropped(a, p))
  {
    hide PartsOk, CountsOk, BufsOk, RawsOk, Keeps, Private, Shrunk, LocksHeld;
    ReleaseGood(h, a, p);
    KeepsTrans(h0, a0, h, a, Release(h, p), Dropped(a, p));
    KeepLocks(h, a, Release(h, p), Dropped(a, p));
    ReleaseShrinks(h, p);
    ShrunkTrans(h0, h, Release(h, p));
  }

  lemma FreeStep(h0: Heap, a0: Aux, h: Heap, a: Aux, p: nat)
    requires Dropping(h0, a0, h, a) && p in a.temp && p in h.parts && h.parts[p].refcnt == 1
    requires h.parts[p].buf in h.bufs
    ensures Dropping(h0, a0, FreePart(h, p), Freed(h, a, p)) && !h.parts[p].locked
    ensures |FreePart(h, p).parts| == |h.parts| - 1
  {
    hide PartsOk, CountsOk, BufsOk, RawsOk, Keeps, Private, Shrunk, LocksHeld;
    OnlyLocal(h, a, p);
    NotLocked(h, a, p);
    FreeGood(h, a, p);
    FreeShrinks(h, p);
    ShrunkTrans(h0, h, FreePart(h, p));
    KeepsTrans(h0, a0, h, a, FreePart(h, p), Freed(h, a, p));
    KeepLocks(h, a, FreePart(h, p), Freed(h, a, p));
    SmallerMap(h.parts, p);
  }

  lemma ReleaseShrinks(h: Heap, p: nat)
    requires p in h.parts
    ensures Shrunk(h, Release(h, p))
  {
  }

  lemma FreeShrinks(h: Heap, p: nat)
    requires p in h.parts && h.parts[p].buf in h.bufs
    ensures Shrunk(h, FreePart(h, p))
  {
  }

  lemma ShrunkTrans(h: Heap, h1: Heap, h2: Heap)
    requires Shrunk(h, h1) && Shrunk(h1, h2)
    ensures Shrunk(h, h2)
  {
  }

  lemma NotLocked(h: Heap, a: Aux, p: nat)
    requires LocksHeld(h, a) && p in h.parts && Private(h, a, p)
    ensures !h.parts[p].locked
  {
  }

  lemma SmallerMap<T>(m: map<nat, T>, p: nat)
    requires p in m
    ensures |m - {p}| == |m| - 1
  {
    assert (m - {p}).Keys == m.Keys - {p};
    assert |m.Keys - {p}| == |m.Keys| - 1;
    assert |(m - {p}).Keys| == |m - {p}|;
  }

  lemma TempIn(h: Heap, a: Aux, p: nat)
    requires CountsOk(h, a) && p in a.temp
    ensures p in h.parts
  {
  }

  lemma KeepLocks(h: Heap, a: Aux, h': Heap, a': Aux)
    requires LocksHeld(h, a) && h'.raws == h.raws && a'.paths == a.paths
    requires forall p :: p in h'.parts && h'.parts[p].locked ==> p in h.parts && h.parts[p].locked
    ensures LocksHeld(h', a')
  {
  }

  // ---------------------------------------------------------------- a message in the hands of an operation

  /** The message m, taken out of the store, is the chain ps; its first reference is a local one. */
  ghost predicate Loose(h: Heap, a: Aux, m: Raw, ps: seq<nat>) {
    Good(h, a) && ps != [] && Fits(h, m, ps) && ps[0] in a.temp && ps[0] in h.parts
  }

  /** The same parts are locked. */
  ghost predicate SameLocks(h: Heap, h': Heap) {
    forall p :: p in h'.parts && h'.parts[p].locked ==> p in h.parts && h.parts[p].locked
  }

  lemma LooseFirst(h: Heap, a: Aux, m: Raw, ps: seq<nat>)
    requires Loose(h, a, m, ps)
    ensures m.first == Some(ps[0]) && m.last == Some(ps[|ps| - 1]) && Window(h, ps[0])
    ensures View(h, ps, m.firstOffset, m.lastOffset) && m.total == |Content(h, ps, m.firstOffset, m.lastOffset)|
    ensures h.parts[ps[0]].offset <= m.firstOffset <= h.parts[ps[0]].end
    ensures forall i :: 0 <= i < |ps| ==> ps[i] in h.parts
  {
    hide PartsOk, CountsOk, BufsOk, RawsOk, Content;
    AllIn(h, ps, m.firstOffset, m.lastOffset);
  }

  lemma TrimLemma(h: Heap, a: Aux, m: Raw, ps: seq<nat>)
    requires Loose(h, a, m, ps) && h.parts[ps[0]].refcnt == 1
    ensures var h' := Resize(h, ps[0], m.firstOffset, h.parts[ps[0]].end);
            Loose(h', a, m, ps) && Bytes(h', m, ps) == Bytes(h, m, ps) && Keeps(h, a, h', a) && SameLocks(h, h') &&
              Still(h, a, h')
  {
    hide PartsOk, CountsOk, BufsOk, RawsOk, Keeps, Private, View, Content;
    var p := ps[0];
    var h' := Resize(h, p, m.firstOffset, h.parts[p].end);
    LooseFirst(h, a, m, ps);
    OnlyLocal(h, a, p);
    ResizeGood(h, a, p, m.firstOffset, h.parts[p].end);
    NotInRest(h, a, ps, m.firstOffset, m.lastOffset, 0);
    KeepsWithout(h, h', ps[1..], p);
    FirstChanged(h, h', ps, m.firstOffset, m.lastOffset);
  }

  lemma WalkStart(h: Heap, m: Raw, ps: seq<nat>)
    requires ps != [] && ps[0] in h.parts && View(h, ps, m.firstOffset, m.lastOffset)
    ensures ps[0..] == ps && Start(h, ps, m.firstOffset, 0) == m.firstOffset
  {
  }

  lemma WalkStep(h: Heap, a: Aux, m: Raw, ps: seq<nat>, i: nat)
    requires Loose(h, a, m, ps) && LocksHeld(h, a) && i < |ps| && ps[i] in h.parts && SoleUpTo(h, ps, i)
    requires Some(ps[i]) != m.last && h.parts[ps[i]].refcnt == 1 && (i == 0 ==> h.parts[ps[0]].offset == m.firstOffset)
    requires View(h, ps[i..], Start(h, ps, m.firstOffset, i), m.lastOffset)
    ensures i + 1 < |ps| && h.parts[ps[i]].next == Some(ps[i + 1]) && ps[i + 1] in h.parts && SoleUpTo(h, ps, i + 1)
    ensures !h.parts[ps[i]].locked
    ensures View(h, ps[i + 1..], Start(h, ps, m.firstOffset, i + 1), m.lastOffset)
    ensures |Content(h, ps[i..], Start(h, ps, m.firstOffset, i), m.lastOffset)|
            == (h.parts[ps[i]].end - h.parts[ps[i]].offset)
            + |Content(h, ps[i + 1..], Start(h, ps, m.firstOffset, i + 1), m.lastOffset)|
  {
    hide PartsOk, CountsOk, BufsOk, RawsOk, Private, LocksHeld;
    LooseFirst(h, a, m, ps);
    var qs := ps[i..];
    assert qs[0] == ps[i] && qs[1..] == ps[i + 1..];
    SolePrivate(h, a, ps, m.firstOffset, m.lastOffset, i + 1, i);
    NotLocked(h, a, ps[i]);
  }

  lemma WalkEnd(h: Heap, a: Aux, m: Raw, ps: seq<nat>, i: nat)
    requires Loose(h, a, m, ps) && i < |ps|
    ensures Some(ps[i]) == m.last <==> i == |ps| - 1
  {
    hide PartsOk, CountsOk, BufsOk, RawsOk, View, Content;
    LooseFirst(h, a, m, ps);
    NotInRest(h, a, ps, m.firstOffset, m.lastOffset, i);
  }

  // ---------------------------------------------------------------- forked messages

  /** The chain of message r is its own, from its first to its last byte, and nothing follows it. */
  ghost predicate Forked(h: Heap, a: Aux, r: nat) {
    r in h.raws && r in a.paths &&
    var ps, m := a.paths[r], h.raws[r];
    ps != [] ==>
      SoleUpTo(h, ps, |ps|) && ps[|ps| - 1] in h.parts && ps[0] in h.parts &&
      h.parts[ps[0]].offset == m.firstOffset && h.parts[ps[|ps| - 1]].end == m.lastOffset &&
      h.parts[ps[|ps| - 1]].next == None
  }

  /** Message m, loose in (h0, a0), is back as message r; the others are as they were. The operation
      still holds the references `extra`. */
  ghost predicate Back(h0: Heap, a0: Aux, h: Heap, a: Aux, r: nat, m: Raw, ps: seq<nat>, extra: multiset<nat>) {
    Loose(h0, a0, m, ps) && Good(h, a) && r in h.raws && h.raws[r].first.Some? && Text(h, a, r) == Bytes(h0, m, ps) &&
    a.temp == a0.temp - multiset{ps[0]} + extra && Others(h0, a0, h, a, r) &&
    LocksHeld(h, a) && SameLocks(h0, h) && SameOthers(h0, a0, h, a) && Still(h0, a0, h)
  }

  /** The message is back and has its own chain. */
  ghost predicate RebuiltWith(h0: Heap, a0: Aux, h: Heap, a: Aux, r: nat, m: Raw, ps: seq<nat>, extra: multiset<nat>) {
    Back(h0, a0, h, a, r, m, ps, extra) && Forked(h, a, r)
  }

  ghost predicate Rebuilt(h0: Heap, a0: Aux, h: Heap, a: Aux, r: nat, m: Raw, ps: seq<nat>) {
    RebuiltWith(h0, a0, h, a, r, m, ps, multiset{})
  }

  /** The other messages have the same fields and paths. */
  ghost predicate SameOthers(h0: Heap, a0: Aux, h: Heap, a: Aux) {
    forall k :: k in h0.raws ==>
      k in h.raws && h.raws[k] == h0.raws[k] && k in a.paths && k in a0.paths && a.paths[k] == a0.paths[k]
  }

  /** Putting the copied message back. */
  lemma CopyFinish(h0: Heap, a0: Aux, h2: Heap, a2: Aux, r: nat, m: Raw, ps: seq<nat>, i: nat, cs: seq<nat>, m': Raw)
    requires Loose(h0, a0, m, ps) && r !in h0.raws && LocksHeld(h0, a0) && i < |ps| && SoleUpTo(h0, ps, i)
    requires i > 0 ==> ps[i - 1] in h0.parts && h0.parts[ps[0]].offset == m.firstOffset
    requires ps[i] in h0.parts && |cs| == |ps| - i
    requires CopyInv(CutAt(h0, ps, i), CutAux(a0, ps, i), h2, a2, ps[i..], Start(h0, ps, m.firstOffset, i),
             m.lastOffset, Before(ps, i), cs)
    requires m' == m.(first := Some((ps[..i] + cs)[0]), last := Some(cs[|cs| - 1]))
    ensures RebuiltWith(h0, a0, Attach(h2, r, m'), Attached(a2, r, ps[..i] + cs), r, m, ps, multiset{ps[i]})
  {
    hide Good, RawsOk, Keeps, View, Content, LocksHeld, Start, SoleUpTo, Copies, OldParts, SameOthers, SameLocks, Still,
         CopyInv, RebuiltWith, CutAt;
    var ns := ps[..i] + cs;
    LooseFirst(h0, a0, m, ps);
    CopyDone(h0, a0, h2, a2, ps, m.firstOffset, m.lastOffset, i, cs);
    CopyOut(h0, a0, h2, a2, m, ps, i, cs);
    assert ns[|ns| - 1] == cs[|cs| - 1];
    CopyLocks(h0, a0, h2, a2, r, m', ps, i, cs);
    CopyStill(h0, a0, h2, m, ps, i, cs);
    AttachForked(h0, a0, h2, a2, r, m, ps, m', ns, multiset{ps[i]});
  }

  /** What the copying loop leaves, seen from before the chain was cut. */
  lemma CopyOut(h0: Heap, a0: Aux, h2: Heap, a2: Aux, m: Raw, ps: seq<nat>, i: nat, cs: seq<nat>)
    requires Loose(h0, a0, m, ps) && i < |ps| && SoleUpTo(h0, ps, i) && (i > 0 ==> ps[i - 1] in h0.parts)
    requires ps[i] in h0.parts && |cs| == |ps| - i
    requires CopyInv(CutAt(h0, ps, i), CutAux(a0, ps, i), h2, a2, ps[i..], Start(h0, ps, m.firstOffset, i),
                     m.lastOffset, Before(ps, i), cs)
    ensures Good(h2, a2) && Keeps(h0, a0, h2, a2) && h2.raws == h0.raws && a2.paths == a0.paths &&
            SameOthers(h0, a0, h2, a2)
    ensures Copies(CutAt(h0, ps, i), h2, cs) && OldParts(CutAt(h0, ps, i), h2, Before(ps, i), cs)
    ensures a2.temp - multiset{(ps[..i] + cs)[0]} == a0.temp - multiset{ps[0]} + multiset{ps[i]}
  {
    hide PartsOk, CountsOk, BufsOk, RawsOk, Keeps, KeepParts, View, Content, Copies, OldParts, CopyReads, CopyRanks,
         SameOthers;
    LooseFirst(h0, a0, m, ps);
    CutBefore(h0, a0, ps, m.firstOffset, m.lastOffset, i);
    KeepsTrans(h0, a0, CutAt(h0, ps, i), CutAux(a0, ps, i), h2, a2);
    KeepsFields(h0, a0, h2, a2);
  }

  /** A chain is put back as message r. */
  lemma AttachBack(h0: Heap, a0: Aux, h: Heap, a: Aux, r: nat, m: Raw, ps: seq<nat>, m': Raw, ns: seq<nat>,
                   extra: multiset<nat>)
    requires Loose(h0, a0, m, ps) && r !in h0.raws && Good(h, a) && Keeps(h0, a0, h, a) && SameOthers(h0, a0, h, a)
    requires ns != [] && Fits(h, m', ns) && Bytes(h, m', ns) == Bytes(h0, m, ps) && ns[0] in a.temp
    requires a.temp - multiset{ns[0]} == a0.temp - multiset{ps[0]} + extra
    requires SameLocks(h0, Attach(h, r, m')) && LocksHeld(Attach(h, r, m'), Attached(a, r, ns)) && Still(h0, a0, h)
    ensures Back(h0, a0, Attach(h, r, m'), Attached(a, r, ns), r, m, ps, extra)
  {
    hide PartsOk, CountsOk, BufsOk, RawsOk, Keeps, Keep, View, Content, LocksHeld, Private, Others, SameLocks,
         SameShape;
    KeepsFields(h0, a0, h, a);
    AttachGood(h, a, r, m', ns);
    AttachOthers(h0, a0, h, a, r, m', ns);
  }

  lemma AttachForked(h0: Heap, a0: Aux, h: Heap, a: Aux, r: nat, m: Raw, ps: seq<nat>, m': Raw, ns: seq<nat>,
                     extra: multiset<nat>)
    requires Loose(h0, a0, m, ps) && r !in h0.raws && Good(h, a) && Keeps(h0, a0, h, a) && SameOthers(h0, a0, h, a)
    requires ns != [] && Fits(h, m', ns) && Bytes(h, m', ns) == Bytes(h0, m, ps) && ns[0] in a.temp &&
             SoleUpTo(h, ns, |ns|)
    requires ns[0] in h.parts && h.parts[ns[0]].offset == m'.firstOffset
    requires var l := ns[|ns| - 1]; l in h.parts && h.parts[l].next == None && h.parts[l].end == m'.lastOffset
    requires a.temp - multiset{ns[0]} == a0.temp - multiset{ps[0]} + extra
    requires SameLocks(h0, Attach(h, r, m')) && LocksHeld(Attach(h, r, m'), Attached(a, r, ns)) && Still(h0, a0, h)
    ensures RebuiltWith(h0, a0, Attach(h, r, m'), Attached(a, r, ns), r, m, ps, extra)
  {
    hide Good, Keeps, View, Content, LocksHeld, Private, SameLocks, Still, Back, SameOthers, Fits;
    AttachBack(h0, a0, h, a, r, m, ps, m', ns, extra);
  }

  lemma CopyStill(h0: Heap, a0: Aux, h2: Heap, m: Raw, ps: seq<nat>, i: nat, cs: seq<nat>)
    requires Loose(h0, a0, m, ps) && i < |ps| && SoleUpTo(h0, ps, i) && (i > 0 ==> ps[i - 1] in h0.parts)
    requires OldParts(CutAt(h0, ps, i), h2, Before(ps, i), cs)
    ensures Still(h0, a0, h2)
  {
    hide PartsOk, CountsOk, BufsOk, RawsOk, View, Content, Private;
    LooseFirst(h0, a0, m, ps);
    if i > 0 { SolePrivate(h0, a0, ps, m.firstOffset, m.lastOffset, i, i - 1); }
  }

  lemma KeepsFields(h: Heap, a: Aux, h': Heap, a': Aux)
    requires RawsOk(h, a) && Keeps(h, a, h', a')
    ensures h'.raws == h.raws && SameOthers(h, a, h', a')
  {
    forall k | k in h.raws ensures k in a.paths { assert RawOk(h, a, k); }
  }

  lemma AttachOthers(h0: Heap, a0: Aux, h: Heap, a: Aux, r: nat, m: Raw, ps: seq<nat>)
    requires RawsOk(h0, a0) && RawsOk(h, a) && Keeps(h0, a0, h, a) && r !in h0.raws
    requires RawsOk(Attach(h, r, m), Attached(a, r, ps))
    requires forall k :: k in h.raws ==> k in Attach(h, r, m).raws && RawOk(Attach(h, r, m), Attached(a, r, ps), k) &&
                                         Text(Attach(h, r, m), Attached(a, r, ps), k) == Text(h, a, k)
    ensures Others(h0, a0, Attach(h, r, m), Attached(a, r, ps), r)
  {
  }

  /** A lock that some other message goes through is still held after message r came back. */
  lemma AttachLocks(h0: Heap, a0: Aux, h: Heap, a: Aux, r: nat, m: Raw, ns: seq<nat>)
    requires LocksHeld(h0, a0) && SameLocks(h0, h) && h.raws == h0.raws && a.paths == a0.paths && r !in h.raws
    ensures LocksHeld(Attach(h, r, m), Attached(a, r, ns))
  {
    var h', a' := Attach(h, r, m), Attached(a, r, ns);
    forall p | p in h'.parts && h'.parts[p].locked ensures !Private(h', a', p) {
      var k :| k in h0.raws && k in a0.paths && p in a0.paths[k];
      assert k in h'.raws && a'.paths[k] == a0.paths[k];
    }
  }

  lemma CopyLocks(h0: Heap, a0: Aux, h2: Heap, a2: Aux, r: nat, m': Raw, ps: seq<nat>, i: nat, cs: seq<nat>)
    requires LocksHeld(h0, a0) && r !in h0.raws && i < |ps| && (i > 0 ==> ps[i - 1] in h0.parts)
    requires Copies(CutAt(h0, ps, i), h2, cs) && OldParts(CutAt(h0, ps, i), h2, Before(ps, i), cs)
    requires h2.raws == h0.raws && a2.paths == a0.paths
    ensures SameLocks(h0, Attach(h2, r, m')) && LocksHeld(Attach(h2, r, m'), Attached(a2, r, ps[..i] + cs))
  {
    hide LocksHeld, Private;
    forall p | p in h2.parts && h2.parts[p].locked ensures p in h0.parts && h0.parts[p].locked {
      assert p in CutAt(h0, ps, i).parts || p in cs;
    }
    AttachLocks(h0, a0, h2, a2, r, m', ps[..i] + cs);
  }

  /** Dropping the reference to the old parts leaves the message alone. */
  lemma DropBack(h0: Heap, a0: Aux, h3: Heap, a3: Aux, h: Heap, a: Aux, r: nat, m: Raw, ps: seq<nat>, mp: nat)
    requires Back(h0, a0, h3, a3, r, m, ps, multiset{mp})
    requires Good(h, a) && a == Dropped(a3, mp) && Keeps(h3, a3, h, a) && Shrunk(h3, h) && LocksHeld(h, a)
    ensures Back(h0, a0, h, a, r, m, ps, multiset{})
  {
    hide PartsOk, CountsOk, BufsOk, RawsOk, Keep, View, Content, LocksHeld, Private, Still;
    KeepsOthers(h0, a0, h3, a3, h, a, r);
    DropText(h3, a3, h, a, r);
    DropStill(h0, a0, h3, a3, h, a);
  }

  lemma DropTail(h0: Heap, a0: Aux, h3: Heap, a3: Aux, h: Heap, a: Aux, r: nat, m: Raw, ps: seq<nat>, mp: nat)
    requires Back(h0, a0, h3, a3, r, m, ps, multiset{mp})
    requires Good(h, a) && a == Dropped(a3, mp) && Keeps(h3, a3, h, a) && Shrunk(h3, h)
    ensures Forked(h3, a3, r) ==> Forked(h, a, r)
  {
    hide PartsOk, CountsOk, BufsOk, RawsOk, Keep, View, Content, LocksHeld, Still, Others, Forked;
    if Forked(h3, a3, r) { DropForked(h3, a3, h, a, r); }
  }

  lemma DropOld(h0: Heap, a0: Aux, h3: Heap, a3: Aux, h: Heap, a: Aux, r: nat, m: Raw, ps: seq<nat>, mp: nat)
    requires RebuiltWith(h0, a0, h3, a3, r, m, ps, multiset{mp})
    requires Good(h, a) && a == Dropped(a3, mp) && Keeps(h3, a3, h, a) && Shrunk(h3, h) && LocksHeld(h, a)
    ensures Rebuilt(h0, a0, h, a, r, m, ps)
  {
    hide PartsOk, CountsOk, BufsOk, RawsOk, Keep, View, Content, LocksHeld, Private, Still, Others, Forked;
    DropBack(h0, a0, h3, a3, h, a, r, m, ps, mp);
    DropForked(h3, a3, h, a, r);
  }

  lemma PathParts(h: Heap, a: Aux, k: nat, p: nat)
    requires RawsOk(h, a) && k in h.raws && k in a.paths && p in a.paths[k]
    ensures p in h.parts
  {
    hide View, Content;
    assert RawOk(h, a, k);
    var m := h.raws[k];
    AllIn(h, a.paths[k], m.firstOffset, m.lastOffset);
  }

  lemma DropStill(h0: Heap, a0: Aux, h3: Heap, a3: Aux, h: Heap, a: Aux)
    requires Still(h0, a0, h3) && SameOthers(h0, a0, h3, a3) && Shrunk(h3, h) && RawsOk(h, a)
    requires h.raws == h3.raws && a.paths == a3.paths
    ensures Still(h0, a0, h)
  {
    hide RawsOk;
    forall p | p in h0.parts && !Private(h0, a0, p) ensures p in h.parts && SameShape(h0.parts[p], h.parts[p]) {
      var k :| k in h0.raws && k in a0.paths && p in a0.paths[k];
      PathParts(h, a, k, p);
    }
  }

  lemma DropText(h3: Heap, a3: Aux, h: Heap, a: Aux, r: nat)
    requires RawsOk(h3, a3) && Keeps(h3, a3, h, a) && r in h3.raws
    ensures r in h.raws && RawOk(h3, a3, r) && RawOk(h, a, r) && Text(h, a, r) == Text(h3, a3, r)
  {
  }

  lemma DropForked(h3: Heap, a3: Aux, h: Heap, a: Aux, r: nat)
    requires Good(h3, a3) && Forked(h3, a3, r) && Good(h, a) && a.paths == a3.paths && h.raws == h3.raws &&
             Shrunk(h3, h)
    ensures Forked(h, a, r)
  {
    hide PartsOk, CountsOk, BufsOk, View, Content;
    var ps, m := a.paths[r], h.raws[r];
    assert RawOk(h, a, r);
    if ps != [] {
      AllIn(h, ps, m.firstOffset, m.lastOffset);
      forall j | 0 <= j < |ps| ensures ps[j] in h.parts && h.parts[ps[j]].refcnt == 1 {
        Positive(h, a, ps[j]);
      }
    }
  }

  ghost function CopiedLength(hd: Heap, qs: seq<nat>, s: int, lo: int, n: nat): nat
    requires View(hd, qs, s, lo) && n <= |qs|
  {
    if n == 0 then 0 else |Segment(hd, qs, s, lo, 0, n)|
  }

  lemma CopyInit(hd: Heap, ad: Aux, qs: seq<nat>, s: int, lo: int, prev: Option<nat>)
    requires Good(hd, ad) && View(hd, qs, s, lo)
    ensures CopyInv(hd, ad, hd, ad, qs, s, lo, prev, [])
  {
    hide View, Content, CountsOk, BufsOk, RawsOk, Keeps;
    KeepsSelf(hd, ad);
    forall p | p in hd.parts ensures Keep(hd, hd, p) { assert PartOk(hd, ad, p); }
  }

  lemma CopyReady(hd: Heap, ad: Aux, h: Heap, a: Aux, qs: seq<nat>, s: int, lo: int, prev: Option<nat>, cs: seq<nat>)
    requires CopyInv(hd, ad, h, a, qs, s, lo, prev, cs) && |cs| < |qs| && PrevOk(hd, ad, qs, prev)
    ensures qs[|cs|] in ad.rank && qs[|cs|] in hd.parts && qs[|cs|] in h.parts && h.parts[qs[|cs|]].buf in h.bufs
    ensures var q, t := qs[|cs|], Target(prev, cs);
            (t.Some? ==> t.value in CopyOne(h, q, Start(hd, qs, s, |cs|), Stop(hd, qs, lo, |cs|)).parts) &&
            CopyRound(hd, ad, h, a, qs, s, lo, prev, cs,
                      Chained(CopyOne(h, q, Start(hd, qs, s, |cs|), Stop(hd, qs, lo, |cs|)), t, h.unused),
                      ChainedAux(Added(h, a, ad.rank[q]), t, h.unused))
  {
    hide View, Content, Keeps, Keep, KeepParts, Copies, OldParts, CopyReads, CopyRanks, PrevOk, Segment, CountsOk,
         BufsOk, RawsOk, Start, Stop, PartsOk;
    CopySource(hd, ad, h, a, qs, s, lo, prev, cs);
    TargetOk(hd, ad, h, a, qs, s, lo, prev, cs);
    NewAddress(h, a);
  }

  lemma NewAddress(h: Heap, a: Aux)
    requires PartsOk(h, a)
    ensures h.unused !in h.parts
  {
    assert h.unused in h.parts ==> PartOk(h, a, h.unused);
  }

  lemma CopyMore(hd: Heap, ad: Aux, qs: seq<nat>, s: int, lo: int, n: nat)
    requires View(hd, qs, s, lo) && n < |qs|
    ensures qs[n] in hd.parts
    ensures CopiedLength(hd, qs, s, lo, n + 1) == CopiedLength(hd, qs, s, lo, n)
            + (Stop(hd, qs, lo, n) - Start(hd, qs, s, n))
    ensures n + 1 == |qs| ==> CopiedLength(hd, qs, s, lo, n + 1) == |Content(hd, qs, s, lo)|
    ensures n + 1 < |qs| ==> hd.parts[qs[n]].next == Some(qs[n + 1])
  {
    hide View, Content;
    StartStop(hd, qs, s, lo, n);
    ViewLinks(hd, qs, s, lo, n);
    if n == 0 { MiddleOne(hd, qs, s, lo, 0); } else { MiddleMore(hd, qs, s, lo, 0, n); }
    if n + 1 == |qs| {
      Middle(hd, qs, s, lo, 0, |qs|);
      assert qs[0..|qs|] == qs;
    }
  }

  /** The window that the loop gives the n-th copy. */
  lemma CopyWindow(h0: Heap, a0: Aux, m: Raw, ps: seq<nat>, i: nat, hd: Heap, h: Heap, n: nat)
    requires Loose(h0, a0, m, ps) && i < |ps| && ps[i] in h0.parts && (i > 0 ==> ps[i - 1] in h0.parts) &&
             hd == CutAt(h0, ps, i)
    requires n < |ps| - i && ps[i + n] in hd.parts && ps[i + n] in h.parts
    requires h.parts[ps[i + n]].offset == hd.parts[ps[i + n]].offset &&
             h.parts[ps[i + n]].end == hd.parts[ps[i + n]].end
    requires i > 0 ==> h0.parts[ps[0]].offset == m.firstOffset
    ensures var qs, s := ps[i..], Start(h0, ps, m.firstOffset, i);
            qs[n] == ps[i + n] &&
            Start(hd, qs, s, n) == (if Some(qs[n]) == m.first &&
              m.firstOffset != h.parts[qs[n]].offset then m.firstOffset else h.parts[qs[n]].offset) &&
            Stop(hd, qs, m.lastOffset, n) == (if Some(qs[n]) == m.last then m.lastOffset else h.parts[qs[n]].end) &&
            (Some(qs[n]) == m.last <==> n == |qs| - 1)
  {
    hide PartsOk, CountsOk, BufsOk, RawsOk, View, Content;
    LooseFirst(h0, a0, m, ps);
    WalkEnd(h0, a0, m, ps, i + n);
    NotInRest(h0, a0, ps, m.firstOffset, m.lastOffset, 0);
    assert i + n > 0 ==> ps[i + n] == ps[1..][i + n - 1];
  }

  lemma SameLength(h0: Heap, a0: Aux, m: Raw, ps: seq<nat>, i: nat)
    requires Loose(h0, a0, m, ps) && i < |ps| && SoleUpTo(h0, ps, i)
    ensures ps[i] in h0.parts && (i > 0 ==> ps[i - 1] in h0.parts)
    ensures var s := Start(h0, ps, m.firstOffset, i);
            View(h0, ps[i..], s, m.lastOffset) && View(CutAt(h0, ps, i), ps[i..], s, m.lastOffset) &&
            |Content(CutAt(h0, ps, i), ps[i..], s, m.lastOffset)| == |Content(h0, ps[i..], s, m.lastOffset)|
  {
    hide PartsOk, CountsOk, BufsOk, RawsOk, View, Content, Keeps, PrevOk;
    LooseFirst(h0, a0, m, ps);
    CutBefore(h0, a0, ps, m.firstOffset, m.lastOffset, i);
    if i == 0 {
      assert ps[0..] == ps;
    } else {
      Split(h0, ps, m.firstOffset, m.lastOffset, i);
      CutFront(h0, a0, m, ps, i);
    }
  }

  /** The parts before the cut read the same after it. */
  lemma CutFront(h0: Heap, a0: Aux, m: Raw, ps: seq<nat>, i: nat)
    requires Loose(h0, a0, m, ps) && 0 < i < |ps| && ps[i - 1] in h0.parts
    requires View(h0, ps[..i], m.firstOffset, End(h0, ps[i - 1]))
    ensures View(CutAt(h0, ps, i), ps[..i], m.firstOffset, End(h0, ps[i - 1]))
    ensures Content(CutAt(h0, ps, i), ps[..i], m.firstOffset, End(h0, ps[i - 1]))
            == Content(h0, ps[..i], m.firstOffset, End(h0, ps[i - 1]))
  {
    hide CountsOk, BufsOk, RawsOk, View, Content;
    var p, hd, front := ps[i - 1], CutAt(h0, ps, i), ps[..i];
    LooseFirst(h0, a0, m, ps);
    NotInRest(h0, a0, ps, m.firstOffset, m.lastOffset, i - 1);
    forall q | q in h0.parts && q != p ensures Keep(h0, hd, q) { assert PartOk(h0, a0, q); }
    NextIn(h0, a0, p);
    assert front[..|front| - 1] == ps[..i - 1];
    KeepsWithout(h0, hd, ps[..i - 1], p);
    LastChanged(h0, hd, front, m.firstOffset, End(h0, p));
  }

  // ---------------------------------------------------------------- one round of the copying loop, in the method

  function CopyOffset(h: Heap, m: Raw, cur: nat): int
    requires cur in h.parts
  {
    if m.first == Some(cur) && m.firstOffset != h.parts[cur].offset then m.firstOffset else h.parts[cur].offset
  }

  function CopyEnd(h: Heap, m: Raw, cur: nat): int
    requires cur in h.parts
  {
    if m.last == Some(cur) then m.lastOffset else h.parts[cur].end
  }

  function CopyNext(h: Heap, m: Raw, cur: nat, target: Option<nat>): Heap
    requires cur in h.parts && h.parts[cur].buf in h.bufs && (target.Some? ==> target.value in h.parts)
  {
    Chained(CopyOne(h, cur, CopyOffset(h, m, cur), CopyEnd(h, m, cur)), target, h.unused)
  }

  ghost function CopyNextAux(h: Heap, a: Aux, rank: int, target: Option<nat>): Aux {
    ChainedAux(Added(h, a, rank), target, h.unused)
  }

  lemma CopyBegin(h0: Heap, a0: Aux, m: Raw, ps: seq<nat>, i: nat)
    requires Loose(h0, a0, m, ps) && i < |ps| && SoleUpTo(h0, ps, i)
    ensures ps[i] in h0.parts && (i > 0 ==> ps[i - 1] in h0.parts) && m.first == Some(ps[0])
    ensures var hd, ad, s := CutAt(h0, ps, i), CutAux(a0, ps, i), Start(h0, ps, m.firstOffset, i);
            CopyInv(hd, ad, hd, ad, ps[i..], s, m.lastOffset, Before(ps, i), []) &&
            PrevOk(hd, ad, ps[i..], Before(ps, i)) && View(hd, ps[i..], s, m.lastOffset) &&
              View(h0, ps[i..], s, m.lastOffset) &&
            |Content(hd, ps[i..], s, m.lastOffset)| == |Content(h0, ps[i..], s, m.lastOffset)| &&
            CopiedLength(hd, ps[i..], s, m.lastOffset, 0) == 0
  {
    hide PartsOk, CountsOk, BufsOk, RawsOk, View, Content, Keeps, PrevOk, CopyInv, Start;
    LooseFirst(h0, a0, m, ps);
    CutBefore(h0, a0, ps, m.firstOffset, m.lastOffset, i);
    SameLength(h0, a0, m, ps, i);
    CopyInit(CutAt(h0, ps, i), CutAux(a0, ps, i), ps[i..], Start(h0, ps, m.firstOffset, i), m.lastOffset,
      Before(ps, i));
  }

  lemma CopyIteration(h0: Heap, a0: Aux, m: Raw, ps: seq<nat>, i: nat, h: Heap, a: Aux, cs: seq<nat>)
    requires Loose(h0, a0, m, ps) && i < |ps| && SoleUpTo(h0, ps, i) &&
             (i > 0 ==> h0.parts[ps[0]].offset == m.firstOffset)
    requires ps[i] in h0.parts && (i > 0 ==> ps[i - 1] in h0.parts) && |cs| < |ps| - i
    requires CopyInv(CutAt(h0, ps, i), CutAux(a0, ps, i), h, a, ps[i..], Start(h0, ps, m.firstOffset, i),
             m.lastOffset, Before(ps, i), cs)
    requires View(CutAt(h0, ps, i), ps[i..], Start(h0, ps, m.firstOffset, i), m.lastOffset)
    ensures var hd, ad, qs, s, prev := CutAt(h0, ps, i), CutAux(a0, ps, i), ps[i..], Start(h0, ps, m.firstOffset, i),
            Before(ps, i);
            var cur, target, n := qs[|cs|], Target(prev, cs), |cs|;
            cur in h.parts && h.parts[cur].buf in h.bufs && (target.Some? ==> target.value in h.parts) &&
              cur in ad.rank &&
            CopyInv(hd, ad, CopyNext(h, m, cur, target), CopyNextAux(h, a, ad.rank[cur], target), qs, s,
              m.lastOffset, prev, cs + [h.unused]) &&
            CopiedLength(hd, qs, s, m.lastOffset, n + 1) == CopiedLength(hd, qs, s, m.lastOffset, n)
              + (CopyEnd(h, m, cur) - CopyOffset(h, m, cur)) &&
            (if Some(cur) == m.last then n + 1 == |qs| && CopiedLength(hd, qs, s, m.lastOffset, n + 1)
              == |Content(hd, qs, s, m.lastOffset)|
             else n + 1 < |qs| && h.parts[cur].next == Some(qs[n + 1]))
  {
    hide PartsOk, CountsOk, BufsOk, RawsOk, View, Content, Keeps, PrevOk, CopyInv, CopyRound, SoleUpTo, Chained,
         CopyOne, ChainedAux, Added, Segment;
    var hd, ad, qs, s, prev := CutAt(h0, ps, i), CutAux(a0, ps, i), ps[i..], Start(h0, ps, m.firstOffset, i),
      Before(ps, i);
    CutBeforeLoose(h0, a0, m, ps, i);
    CopySource(hd, ad, h, a, qs, s, m.lastOffset, prev, cs);
    TargetOk(hd, ad, h, a, qs, s, m.lastOffset, prev, cs);
    CopyWindow(h0, a0, m, ps, i, hd, h, |cs|);
    CopyReady(hd, ad, h, a, qs, s, m.lastOffset, prev, cs);
    CopyMore(hd, ad, qs, s, m.lastOffset, |cs|);
    CopyStep(hd, ad, h, a, qs, s, m.lastOffset, prev, cs,
             CopyNext(h, m, qs[|cs|], Target(prev, cs)), CopyNextAux(h, a, ad.rank[qs[|cs|]], Target(prev, cs)));
  }

  lemma CutBeforeLoose(h0: Heap, a0: Aux, m: Raw, ps: seq<nat>, i: nat)
    requires Loose(h0, a0, m, ps) && i < |ps| && SoleUpTo(h0, ps, i)
    ensures ps[i] in h0.parts && (i > 0 ==> ps[i - 1] in h0.parts)
    ensures PrevOk(CutAt(h0, ps, i), CutAux(a0, ps, i), ps[i..], Before(ps, i))
  {
    hide PartsOk, CountsOk, BufsOk, RawsOk, View, Content, Keeps, PrevOk;
    LooseFirst(h0, a0, m, ps);
    CutBefore(h0, a0, ps, m.firstOffset, m.lastOffset, i);
  }

  lemma RebuiltMeans(h0: Heap, a0: Aux, h: Heap, a: Aux, r: nat, m: Raw, ps: seq<nat>, mp: nat)
    requires Back(h0, a0, h, a, r, m, ps, multiset{mp})
    ensures Good(h, a) && LocksHeld(h, a) && mp in a.temp
  {
  }

  // ---------------------------------------------------------------- trimming a chain that is the message's own

  /** The chain ps of (h0, a0) with its last part trimmed to the message, in (h, a0). */
  ghost predicate Trimmed(h0: Heap, a0: Aux, h: Heap, m: Raw, ps: seq<nat>) {
    Loose(h0, a0, m, ps) && Loose(h, a0, m, ps) && Bytes(h, m, ps) == Bytes(h0, m, ps) && Keeps(h0, a0, h, a0) &&
    SameLocks(h0, h) && SoleUpTo(h, ps, |ps|) && LocksHeld(h, a0) && Still(h0, a0, h) &&
    (h0.parts[ps[0]].offset == m.firstOffset ==> h.parts[ps[0]].offset == m.firstOffset) &&
    ps[|ps| - 1] in h.parts && h.parts[ps[|ps| - 1]].end == m.lastOffset
  }

  lemma TrimLast(h: Heap, a: Aux, m: Raw, ps: seq<nat>)
    requires Loose(h, a, m, ps) && LocksHeld(h, a) && SoleUpTo(h, ps, |ps|)
    ensures ps[|ps| - 1] in h.parts
    ensures Trimmed(h, a, Resize(h, ps[|ps| - 1], h.parts[ps[|ps| - 1]].offset, m.lastOffset), m, ps)
  {
    hide PartsOk, CountsOk, BufsOk, RawsOk, Keeps, Private, View, Content, LocksHeld;
    LooseFirst(h, a, m, ps);
    var fo, lo, n := m.firstOffset, m.lastOffset, |ps| - 1;
    var p := ps[n];
    var h' := Resize(h, p, h.parts[p].offset, lo);
    LastPart(h, ps, fo, lo);
    SolePrivate(h, a, ps, fo, lo, |ps|, n);
    ResizeGood(h, a, p, h.parts[p].offset, lo);
    NotInRest(h, a, ps, fo, lo, n);
    KeepsWithout(h, h', ps[..n], p);
    LastChanged(h, h', ps, fo, lo);
    KeepLocks(h, a, h', a);
  }

  /** The trimmed chain with what follows it cut off. */
  lemma TrimCut(h0: Heap, a0: Aux, h: Heap, m: Raw, ps: seq<nat>)
    requires Trimmed(h0, a0, h, m, ps) && h.parts[ps[|ps| - 1]].next.Some?
    ensures var p := ps[|ps| - 1];
            var q := h.parts[p].next.value;
            var h', a' := SetNext(h, p, None), Held(a0, q);
            Good(h', a') && Keeps(h0, a0, h', a') && Fits(h', m, ps) && Bytes(h', m, ps) == Bytes(h0, m, ps) &&
              Still(h0, a0, h')
  {
    hide PartsOk, CountsOk, BufsOk, RawsOk, Keeps, Keep, Private, View, Content, LocksHeld;
    LooseFirst(h, a0, m, ps);
    var fo, lo, n := m.firstOffset, m.lastOffset, |ps| - 1;
    var p := ps[n];
    var q := h.parts[p].next.value;
    var h', a' := SetNext(h, p, None), Held(a0, q);
    LastPart(h, ps, fo, lo);
    SolePrivate(h, a0, ps, fo, lo, |ps|, n);
    CutGood(h, a0, p, q);
    NotInRest(h, a0, ps, fo, lo, n);
    KeepsWithout(h, h', ps[..n], p);
    LastChanged(h, h', ps, fo, lo);
    KeepsTrans(h0, a0, h, a0, h', a');
    StillTrans(h0, a0, h, h');
  }

  lemma TrimNext(h0: Heap, a0: Aux, h: Heap, m: Raw, ps: seq<nat>, r: nat)
    requires Trimmed(h0, a0, h, m, ps) && r !in h0.raws && h.parts[ps[|ps| - 1]].next.Some?
    ensures var p := ps[|ps| - 1];
            var q := h.parts[p].next.value;
            Back(h0, a0, Attach(SetNext(h, p, None), r, m), Attached(Held(a0, q), r, ps), r, m, ps, multiset{q}) &&
            (h0.parts[ps[0]].offset == m.firstOffset ==>
              Forked(Attach(SetNext(h, p, None), r, m), Attached(Held(a0, q), r, ps), r))
  {
    hide PartsOk, CountsOk, BufsOk, RawsOk, Keeps, Still, View, Content, LocksHeld, SameOthers, Back, Bytes,
         SoleUpTo, Forked, SameLocks, Attached;
    var p := ps[|ps| - 1];
    var q := h.parts[p].next.value;
    var h', a' := SetNext(h, p, None), Held(a0, q);
    TrimCut(h0, a0, h, m, ps);
    KeepsFields(h0, a0, h', a');
    KeepsFields(h0, a0, h, a0);
    assert SameLocks(h, h') by { NextLocks(h, p); }
    LocksBack(h0, a0, h, h', a', r, m, ps);
    assert a'.temp - multiset{ps[0]} == a0.temp - multiset{ps[0]} + multiset{q};
    AttachBack(h0, a0, h', a', r, m, ps, m, ps, multiset{q});
    TrimForked(h0, a0, h, m, ps, r, h', a');
  }

  lemma NextLocks(h: Heap, p: nat)
    requires p in h.parts
    ensures SameLocks(h, SetNext(h, p, None))
  {
  }

  lemma TrimForked(h0: Heap, a0: Aux, h: Heap, m: Raw, ps: seq<nat>, r: nat, h': Heap, a': Aux)
    requires Trimmed(h0, a0, h, m, ps) && h' == SetNext(h, ps[|ps| - 1], None)
    ensures h0.parts[ps[0]].offset == m.firstOffset ==> Forked(Attach(h', r, m), Attached(a', r, ps), r)
  {
    hide Good, Keeps, Still, View, Content, LocksHeld, Bytes, Fits, SameLocks;
  }

  lemma StillTrans(h0: Heap, a0: Aux, h: Heap, h': Heap)
    requires Still(h0, a0, h) && h.raws == h0.raws && Still(h, a0, h')
    ensures Still(h0, a0, h')
  {
  }

  lemma LocksBack(h0: Heap, a0: Aux, h: Heap, h': Heap, a': Aux, r: nat, m: Raw, ps: seq<nat>)
    requires LocksHeld(h, a0) && SameLocks(h0, h) && SameLocks(h, h') && h'.raws == h.raws && a'.paths == a0.paths &&
             r !in h.raws
    ensures SameLocks(h0, Attach(h', r, m)) && LocksHeld(Attach(h', r, m), Attached(a', r, ps))
  {
    hide LocksHeld, Private;
    AttachLocks(h, a0, h', a', r, m, ps);
  }

  lemma TrimNoNext(h0: Heap, a0: Aux, h: Heap, m: Raw, ps: seq<nat>, r: nat)
    requires Trimmed(h0, a0, h, m, ps) && r !in h0.raws && h.parts[ps[|ps| - 1]].next == None
    ensures Back(h0, a0, Attach(h, r, m), Attached(a0, r, ps), r, m, ps, multiset{})
    ensures h0.parts[ps[0]].offset == m.firstOffset ==> Forked(Attach(h, r, m), Attached(a0, r, ps), r)
  {
    hide PartsOk, CountsOk, BufsOk, RawsOk, Keeps, Keep, Private, View, Content, LocksHeld, SameOthers;
    KeepsFields(h0, a0, h, a0);
    LocksBack(h0, a0, h, h, a0, r, m, ps);
    AttachBack(h0, a0, h, a0, r, m, ps, m, ps, multiset{});
  }

  // ---------------------------------------------------------------- taking a message out and putting it back

  /** Whatever is locked is in use by some message other than r. */
  ghost predicate LocksElsewhere(h: Heap, a: Aux, r: nat) {
    forall p :: p in h.parts && h.parts[p].locked ==>
      exists k :: k in h.raws && k in a.paths && k != r && p in a.paths[k]
  }

  /** Message r has the same bytes as before, and nothing happened to the others. */
  ghost predicate SameMessage(h0: Heap, a0: Aux, h: Heap, a: Aux, r: nat) {
    Good(h0, a0) && Good(h, a) && r in h0.raws && r in h.raws && Text(h, a, r) == Text(h0, a0, r) &&
    (h0.raws[r].first.Some? ==> h.raws[r].first.Some?) && Others(h0, a0, h, a, r) && a.temp == a0.temp &&
      StillBut(h0, a0, h, r) &&
    (forall k :: k in h0.raws && k != r ==>
      k in h.raws && h.raws[k] == h0.raws[k] && k in a.paths && k in a0.paths && a.paths[k] == a0.paths[k])
  }

  /** The parts that messages other than r go through are as they were. */
  ghost predicate StillBut(h: Heap, a: Aux, h': Heap, r: nat) {
    forall k, p :: k in h.raws && k != r && k in a.paths && p in a.paths[k] && p in h.parts ==>
      p in h'.parts && SameShape(h.parts[p], h'.parts[p])
  }

  lemma StillFromDetached(h0: Heap, a0: Aux, h2: Heap, h: Heap, r: nat)
    requires r in h0.raws && Still(Detach(h0, r), Detached(h0, a0, r), h2) && h2.raws == Detach(h0, r).raws
    requires Still(h2, Detached(h0, a0, r), h)
    ensures StillBut(h0, a0, h, r)
  {
    var h1, a1 := Detach(h0, r), Detached(h0, a0, r);
    forall k, p | k in h0.raws && k != r && k in a0.paths && p in a0.paths[k] && p in h0.parts
      ensures p in h.parts && SameShape(h0.parts[p], h.parts[p])
    {
      assert k in h1.raws && k in a1.paths && p in a1.paths[k];
      assert !Private(h1, a1, p);
      assert !Private(h2, a1, p);
    }
  }

  lemma EmptyForked(h: Heap, a: Aux, r: nat)
    requires Good(h, a) && r in h.raws && h.raws[r].first == None
    ensures SameMessage(h, a, h, a, r) && Forked(h, a, r) && SameLocks(h, h)
  {
    hide PartsOk, CountsOk, BufsOk, View, Content;
    assert RawOk(h, a, r);
    forall k | k in h.raws ensures k in a.paths { assert RawOk(h, a, k); }
  }

  lemma TakeOut(h: Heap, a: Aux, r: nat)
    requires Good(h, a) && r in h.raws && h.raws[r].first.Some? && LocksElsewhere(h, a, r)
    ensures r in a.paths && r !in Detach(h, r).raws && RawOk(h, a, r)
    ensures Loose(Detach(h, r), Detached(h, a, r), h.raws[r], a.paths[r]) && LocksHeld(Detach(h, r), Detached(h, a, r))
    ensures Bytes(Detach(h, r), h.raws[r], a.paths[r]) == Text(h, a, r)
  {
    hide PartsOk, CountsOk, BufsOk, Keep, View, Content;
    assert RawOk(h, a, r);
    var m, ps := h.raws[r], a.paths[r];
    DetachGood(h, a, r);
    AllIn(h, ps, m.firstOffset, m.lastOffset);
    ContentFrame(h, Detach(h, r), ps, m.firstOffset, m.lastOffset);
    OutLocks(h, a, r);
  }

  lemma OutLocks(h: Heap, a: Aux, r: nat)
    requires r in h.raws && LocksElsewhere(h, a, r)
    ensures LocksHeld(Detach(h, r), Detached(h, a, r))
  {
    var h', a' := Detach(h, r), Detached(h, a, r);
    forall p | p in h'.parts && h'.parts[p].locked ensures !Private(h', a', p) {
      var k :| k in h.raws && k in a.paths && k != r && p in a.paths[k];
      assert k in h'.raws && a'.paths[k] == a.paths[k];
    }
  }

  lemma TrimKeepsLocks(h1: Heap, a1: Aux, h2: Heap, m: Raw, ps: seq<nat>)
    requires Loose(h1, a1, m, ps) && LocksHeld(h1, a1) && Keeps(h1, a1, h2, a1) && SameLocks(h1, h2)
    ensures LocksHeld(h2, a1) && h2.raws == h1.raws
  {
    KeepLocks(h1, a1, h2, a1);
  }

  lemma WholeChain(h: Heap, a: Aux, m: Raw, ps: seq<nat>)
    requires Loose(h, a, m, ps) && SoleUpTo(h, ps, |ps| - 1) && ps[|ps| - 1] in h.parts &&
             h.parts[ps[|ps| - 1]].refcnt == 1
    requires h.parts[ps[0]].offset == m.firstOffset
    ensures SoleUpTo(h, ps, |ps|)
    ensures View(h, ps[|ps| - 1..], Start(h, ps, m.firstOffset, |ps| - 1), m.lastOffset)
    ensures |Content(h, ps[|ps| - 1..], Start(h, ps, m.firstOffset, |ps| - 1), m.lastOffset)|
            == m.lastOffset - h.parts[ps[|ps| - 1]].offset
  {
    hide PartsOk, CountsOk, BufsOk, RawsOk, View, Content;
    LooseFirst(h, a, m, ps);
    StartStop(h, ps, m.firstOffset, m.lastOffset, |ps| - 1);
    assert ps[|ps| - 1..] == [ps[|ps| - 1]];
    Single(h, ps[|ps| - 1], Start(h, ps, m.firstOffset, |ps| - 1), m.lastOffset);
  }

  /** From the message as it was, through the loose message, to the message put back. */
  lemma PutBack(h0: Heap, a0: Aux, h1: Heap, a1: Aux, h2: Heap, h: Heap, a: Aux, r: nat, m: Raw, ps: seq<nat>)
    requires Good(h0, a0) && r in h0.raws && LocksElsewhere(h0, a0, r) && m == h0.raws[r] && m.first.Some? &&
             r in a0.paths && ps == a0.paths[r]
    requires h1 == Detach(h0, r) && a1 == Detached(h0, a0, r)
    requires Loose(h1, a1, m, ps) && Bytes(h1, m, ps) == Text(h0, a0, r)
    requires Loose(h2, a1, m, ps) && Bytes(h2, m, ps) == Bytes(h1, m, ps) && Keeps(h1, a1, h2, a1) && SameLocks(h1, h2)
    requires Still(h1, a1, h2) && h2.raws == h1.raws
    requires Back(h2, a1, h, a, r, m, ps, multiset{})
    ensures SameMessage(h0, a0, h, a, r) && LocksElsewhere(h, a, r) && SameLocks(h0, h)
  {
    hide PartsOk, CountsOk, BufsOk, RawsOk, Keep, View, Content, LocksHeld, Private, Still, StillBut;
    DetachGood(h0, a0, r);
    RawsAt(h0, a0, r);
    LooseFirst(h1, a1, m, ps);
    DetachOthers(h0, a0, r);
    OthersChain(h0, a0, h1, a1, h2, a1, h, a, r);
    LocksStay(h0, a0, h, a, r);
    StillFromDetached(h0, a0, h2, h, r);
  }

  lemma RawsAt(h: Heap, a: Aux, r: nat)
    requires RawsOk(h, a) && r in h.raws
    ensures RawOk(h, a, r)
  {
  }

  lemma DetachOthers(h: Heap, a: Aux, r: nat)
    requires Good(h, a) && r in h.raws
    ensures RawsOk(Detach(h, r), Detached(h, a, r)) && Others(h, a, Detach(h, r), Detached(h, a, r), r)
    ensures forall k :: k in h.raws && k != r ==>
              k in a.paths && k in Detached(h, a, r).paths && Detached(h, a, r).paths[k] == a.paths[k]
  {
    hide PartsOk, CountsOk, BufsOk, Keep, View, Content;
    DetachGood(h, a, r);
    forall k | k in h.raws && k != r ensures k in a.paths { assert RawOk(h, a, k); }
  }

  lemma OthersChain(h0: Heap, a0: Aux, h1: Heap, a1: Aux, h2: Heap, a2: Aux, h: Heap, a: Aux, r: nat)
    requires RawsOk(h0, a0) && RawsOk(h1, a1) && RawsOk(h2, a2) && RawsOk(h, a)
    requires Others(h0, a0, h1, a1, r) && Keeps(h1, a1, h2, a2) && Others(h2, a2, h, a, r)
    ensures Others(h0, a0, h, a, r)
  {
  }

  lemma LocksStay(h0: Heap, a0: Aux, h: Heap, a: Aux, r: nat)
    requires LocksElsewhere(h0, a0, r) && SameLocks(h0, h)
    requires forall k :: k in h0.raws && k != r ==>
               k in h.raws && k in a.paths && k in a0.paths && a.paths[k] == a0.paths[k]
    ensures LocksElsewhere(h, a, r)
  {
  }
}
