/** Appending to a message: in place, in new parts, and the lock that makes it safe. */
module RopeAppend {
  import opened Options
  import opened RopeModel
  import opened RopeSteps
  import opened RopeChains
  import opened RopeFork
  import opened RopeOps

  // ---------------------------------------------------------------- new fields for a message

  function Renew(h: Heap, r: nat, m: Raw): Heap { h.(raws := h.raws[r := m]) }

  ghost function Renewed(h: Heap, a: Aux, r: nat, ps: seq<nat>): Aux
    requires r in h.raws
  {
    Attached(Detached(h, a, r), r, ps)
  }

  lemma RenewGood(h: Heap, a: Aux, r: nat, m: Raw, ps: seq<nat>)
    requires Good(h, a) && r in h.raws && Fits(h, m, ps) && (ps != [] ==> ps[0] in Detached(h, a, r).temp)
    ensures var h', a' := Renew(h, r, m), Renewed(h, a, r, ps);
            Good(h', a') && Text(h', a', r) == Bytes(h, m, ps) && Others(h, a, h', a', r) && FieldsBut(h, a, h', a', r)
  {
    hide PartsOk, CountsOk, BufsOk, RawsOk, Keep, View, Content, Others, FieldsBut;
    RenewFields(h, a, r, m, ps);
    var h1, a1 := Detach(h, r), Detached(h, a, r);
    var h', a' := Renew(h, r, m), Renewed(h, a, r, ps);
    DetachGood(h, a, r);
    DetachOthers(h, a, r);
    AttachView(h, a, h1, m, ps);
    AttachGood(h1, a1, r, m, ps);
    assert Attach(h1, r, m) == h';
    RenewOthers(h, a, h1, a1, h', a', r);
  }

  /** The other messages keep their fields and paths. */
  ghost predicate FieldsBut(h: Heap, a: Aux, h': Heap, a': Aux, r: nat) {
    forall k :: k in h.raws && k != r ==>
      k in h'.raws && h'.raws[k] == h.raws[k] && k in a.paths && k in a'.paths && a'.paths[k] == a.paths[k]
  }

  lemma RenewFields(h: Heap, a: Aux, r: nat, m: Raw, ps: seq<nat>)
    requires RawsOk(h, a) && r in h.raws
    ensures FieldsBut(h, a, Renew(h, r, m), Renewed(h, a, r, ps), r)
  {
    hide View, Content;
    forall k | k in h.raws ensures k in a.paths { assert RawOk(h, a, k); }
  }

  lemma RenewOthers(h: Heap, a: Aux, h1: Heap, a1: Aux, h': Heap, a': Aux, r: nat)
    requires RawsOk(h, a) && RawsOk(h1, a1) && RawsOk(h', a') && Others(h, a, h1, a1, r) && r !in h1.raws
    requires forall k :: k in h1.raws ==> k in h'.raws && RawOk(h', a', k) && Text(h', a', k) == Text(h1, a1, k)
    requires forall k :: k in h'.raws && k != r ==> k in h1.raws
    ensures Others(h, a, h', a', r)
  {
  }

  lemma SameAux(h: Heap, a: Aux, r: nat, ps: seq<nat>)
    requires r in h.raws && RawOk(h, a, r) && ps != [] && a.paths[r] != [] && ps[0] == a.paths[r][0]
    ensures Renewed(h, a, r, ps) == a.(paths := a.paths[r := ps])
    ensures ps[0] in Detached(h, a, r).temp
  {
    hide View, Content;
    assert (a.paths - {r})[r := ps] == a.paths[r := ps];
    assert a.temp + multiset{ps[0]} - multiset{ps[0]} == a.temp;
  }

  // ---------------------------------------------------------------- a message that can grow

  /** Nothing follows the last part of message r, and its window ends where the message does. */
  ghost predicate Ready(h: Heap, a: Aux, r: nat) {
    r in h.raws && r in a.paths && a.paths[r] != [] &&
    var l := a.paths[r][|a.paths[r]| - 1];
    l in h.parts && h.raws[r].last == Some(l) && h.parts[l].next == None && h.parts[l].end == h.raws[r].lastOffset
  }

  /** Only `locked` is locked. */
  ghost predicate OnlyLock(h: Heap, locked: Option<nat>) {
    forall p :: p in h.parts && h.parts[p].locked ==> locked == Some(p)
  }

  /** Since (h0, a0), message r became `text` and nothing happened to the others. */
  ghost predicate Became(h0: Heap, a0: Aux, h: Heap, a: Aux, r: nat, text: seq<byte>) {
    Good(h0, a0) && Good(h, a) && r in h.raws && Text(h, a, r) == text && Others(h0, a0, h, a, r)
  }

  lemma OthersTrans(h0: Heap, a0: Aux, h1: Heap, a1: Aux, h: Heap, a: Aux, r: nat)
    requires RawsOk(h0, a0) && RawsOk(h1, a1) && RawsOk(h, a) && Others(h0, a0, h1, a1, r) && Others(h1, a1, h, a, r)
    ensures Others(h0, a0, h, a, r)
  {
  }

  /** What is known about a message that can grow. */
  ghost predicate ReadyOk(h: Heap, a: Aux, r: nat) {
    Ready(h, a, r) && RawOk(h, a, r) &&
    var m, ps := h.raws[r], a.paths[r];
    View(h, ps, m.firstOffset, m.lastOffset) && m.first == Some(ps[0]) &&
    Text(h, a, r) == Content(h, ps, m.firstOffset, m.lastOffset) && m.total == |Text(h, a, r)| &&
    Window(h, ps[|ps| - 1]) && 0 <= m.lastOffset && ps[0] in h.parts
  }

  lemma ReadyView(h: Heap, a: Aux, r: nat)
    requires RawsOk(h, a) && Ready(h, a, r)
    ensures ReadyOk(h, a, r)
  {
    hide Content;
    assert RawOk(h, a, r);
    var m, ps := h.raws[r], a.paths[r];
    LastPart(h, ps, m.firstOffset, m.lastOffset);
  }

  // ---------------------------------------------------------------- into the last buffer

  /** Part l with `bytes` written behind its window, which then takes them in. */
  function Grow(h: Heap, l: nat, bytes: seq<byte>): Heap
    requires l in h.parts && h.parts[l].buf in h.bufs
    requires 0 <= h.parts[l].end && h.parts[l].end + |bytes| <= |h.bufs[h.parts[l].buf].data|
  {
    Resize(WriteBytes(h, h.parts[l].buf, h.parts[l].end, bytes), l, h.parts[l].offset, h.parts[l].end + |bytes|)
  }

  /** There is room for the bytes in the last buffer, and nobody else uses it. */
  ghost predicate Room(h: Heap, l: nat, n: nat) {
    Window(h, l) && h.bufs[h.parts[l].buf].refcnt == 1 && h.parts[l].next == None && h.parts[l].end + n <= |Data(h, l)|
  }

  lemma GrowGood(h: Heap, a: Aux, l: nat, bytes: seq<byte>)
    requires Good(h, a) && Room(h, l, |bytes|)
    ensures Good(Grow(h, l, bytes), a) && Keeps(h, a, Grow(h, l, bytes), a)
  {
    hide PartsOk, CountsOk, BufsOk, RawsOk, Keeps;
    var h1 := WriteBytes(h, h.parts[l].buf, h.parts[l].end, bytes);
    WriteGood(h, a, l, h.parts[l].end, bytes);
    ResizeGood(h1, a, l, h.parts[l].offset, h.parts[l].end + |bytes|);
    KeepsTrans(h, a, h1, a, Grow(h, l, bytes), a);
  }

  lemma GrowText(h: Heap, a: Aux, r: nat, l: nat, bytes: seq<byte>)
    requires RawsOk(h, a) && ReadyOk(h, a, r) && l == a.paths[r][|a.paths[r]| - 1] && Room(h, l, |bytes|)
    requires Keeps(h, a, Grow(h, l, bytes), a)
    ensures var m, ps, h2 := h.raws[r], a.paths[r], Grow(h, l, bytes);
            View(h2, ps, m.firstOffset, m.lastOffset + |bytes|) &&
            Content(h2, ps, m.firstOffset, m.lastOffset + |bytes|) == Text(h, a, r) + bytes
  {
    hide View, Content, RawsOk, Keeps;
    var m, ps, h2 := h.raws[r], a.paths[r], Grow(h, l, bytes);
    KeptText(h, a, h2, r);
    Extend(h2, ps, m.firstOffset, m.lastOffset, m.lastOffset + |bytes|);
    assert Data(h2, l)[m.lastOffset..m.lastOffset + |bytes|] == bytes;
  }

  lemma KeptText(h: Heap, a: Aux, h2: Heap, r: nat)
    requires RawsOk(h, a) && Keeps(h, a, h2, a) && r in h.raws && RawOk(h, a, r) && a.paths[r] != []
    ensures var m, ps := h.raws[r], a.paths[r];
            View(h2, ps, m.firstOffset, m.lastOffset) && Content(h2, ps, m.firstOffset, m.lastOffset) == Text(h, a, r)
    ensures RawOk(h2, a, r) && h2.raws == h.raws
  {
  }

  function AppendInPlace(h: Heap, r: nat, l: nat, bytes: seq<byte>): Heap
    requires r in h.raws && l in h.parts && h.parts[l].buf in h.bufs
    requires 0 <= h.parts[l].end && h.parts[l].end + |bytes| <= |h.bufs[h.parts[l].buf].data|
  {
    var m := h.raws[r];
    Renew(Grow(h, l, bytes), r, m.(lastOffset := m.lastOffset + |bytes|, total := m.total + |bytes|))
  }

  lemma AppendHere(h0: Heap, a0: Aux, h: Heap, a: Aux, r: nat, l: nat, text: seq<byte>, bytes: seq<byte>,
                   locked: Option<nat>)
    requires Became(h0, a0, h, a, r, text) && Ready(h, a, r) && OnlyLock(h, locked)
    requires l == a.paths[r][|a.paths[r]| - 1] && Room(h, l, |bytes|)
    ensures Became(h0, a0, AppendInPlace(h, r, l, bytes), a, r, text + bytes)
    ensures Ready(AppendInPlace(h, r, l, bytes), a, r) && OnlyLock(AppendInPlace(h, r, l, bytes), locked)
  {
    hide PartsOk, CountsOk, BufsOk, RawsOk, Keeps, View, Content, Others, RawOk;
    ReadyView(h, a, r);
    var m, ps, h2 := h.raws[r], a.paths[r], Grow(h, l, bytes);
    GrowGood(h, a, l, bytes);
    GrowText(h, a, r, l, bytes);
    KeptText(h, a, h2, r);
    var m' := m.(lastOffset := m.lastOffset + |bytes|, total := m.total + |bytes|);
    SameAux(h2, a, r, ps);
    assert a.(paths := a.paths[r := ps]) == a;
    RenewGood(h2, a, r, m', ps);
    KeepsOthersOf(h, a, h2, a, r);
    OthersTrans(h, a, h2, a, Renew(h2, r, m'), a, r);
    OthersTrans(h0, a0, h, a, Renew(h2, r, m'), a, r);
  }

  lemma KeepsOthersOf(h: Heap, a: Aux, h2: Heap, a2: Aux, r: nat)
    requires RawsOk(h, a) && RawsOk(h2, a2) && Keeps(h, a, h2, a2)
    ensures Others(h, a, h2, a2, r)
  {
  }

  // ---------------------------------------------------------------- into a new part

  /** A new buffer and part behind part l. */
  function AddBehind(h: Heap, l: nat, data: seq<byte>, k: nat): Heap
    requires l in h.parts
  {
    SetNext(AddFresh(h, data, 0, k), l, Some(h.unused + 1))
  }

  ghost function AddedBehind(h: Heap, a: Aux, l: nat): Aux
    requires l in a.rank
  {
    Dropped(AddedFresh(h, a, a.rank[l] - 1), h.unused + 1)
  }

  lemma BehindGood(h: Heap, a: Aux, l: nat, data: seq<byte>, k: nat)
    requires Good(h, a) && l in h.parts && h.parts[l].next == None && k <= |data|
    ensures l in a.rank && h.unused + 1 !in h.parts
    ensures var h', a' := AddBehind(h, l, data, k), AddedBehind(h, a, l);
            Good(h', a') && Keeps(h, a, h', a') && KeepParts(h, h') && a'.temp == a.temp && a'.paths == a.paths
  {
    hide PartsOk, CountsOk, BufsOk, RawsOk, Keeps, Keep, Private;
    NextIn(h, a, l);
    var c := h.unused + 1;
    FreshGood(h, a, data, 0, k, a.rank[l] - 1);
    var h1, a1 := AddFresh(h, data, 0, k), AddedFresh(h, a, a.rank[l] - 1);
    LinkGood(h1, a1, l, c);
    KeepsTrans(h, a, h1, a1, AddBehind(h, l, data, k), AddedBehind(h, a, l));
    KeepPartsTrans(h, h1, AddBehind(h, l, data, k));
    assert a.temp + multiset{c} - multiset{c} == a.temp;
  }

  lemma BehindText(h: Heap, a: Aux, r: nat, l: nat, data: seq<byte>, k: nat)
    requires ReadyOk(h, a, r) && l == a.paths[r][|a.paths[r]| - 1] && k <= |data| &&
             KeepParts(h, AddBehind(h, l, data, k))
    requires h.unused + 1 !in h.parts
    ensures var m, ps, h' := h.raws[r], a.paths[r] + [h.unused + 1], AddBehind(h, l, data, k);
            View(h', ps, m.firstOffset, k) && Content(h', ps, m.firstOffset, k) == Text(h, a, r) + data[..k]
  {
    hide View, Content, Keep, KeepParts;
    var m, ps, c, h' := h.raws[r], a.paths[r], h.unused + 1, AddBehind(h, l, data, k);
    KeptView(h, h', ps, m.firstOffset, m.lastOffset);
    Single(h', c, 0, k);
    assert Data(h', c)[0..k] == data[..k];
    Join(h', ps, [c], m.firstOffset, k);
  }

  function AppendPart(h: Heap, r: nat, l: nat, data: seq<byte>, k: nat): Heap
    requires r in h.raws && l in h.parts
  {
    var m := h.raws[r];
    Renew(AddBehind(h, l, data, k), r, m.(last := Some(h.unused + 1), lastOffset := k, total := m.total + k))
  }

  ghost function AppendedPart(h: Heap, a: Aux, r: nat, l: nat): Aux
    requires l in a.rank && r in a.paths
  {
    var a' := AddedBehind(h, a, l);
    a'.(paths := a'.paths[r := a.paths[r] + [h.unused + 1]])
  }

  lemma AppendNew(h0: Heap, a0: Aux, h: Heap, a: Aux, r: nat, l: nat, text: seq<byte>, data: seq<byte>, k: nat,
                  locked: Option<nat>)
    requires Became(h0, a0, h, a, r, text) && Ready(h, a, r) && OnlyLock(h, locked)
    requires l == a.paths[r][|a.paths[r]| - 1] && k <= |data|
    ensures l in a.rank
    ensures Became(h0, a0, AppendPart(h, r, l, data, k), AppendedPart(h, a, r, l), r, text + data[..k])
    ensures Ready(AppendPart(h, r, l, data, k), AppendedPart(h, a, r, l), r)
    ensures OnlyLock(AppendPart(h, r, l, data, k), locked) && AppendedPart(h, a, r, l).temp == a.temp
  {
    hide PartsOk, CountsOk, BufsOk, RawsOk, Keeps, Keep, KeepParts, View, Content, Others, RawOk;
    ReadyView(h, a, r);
    BehindGood(h, a, l, data, k);
    BehindText(h, a, r, l, data, k);
    var m, c := h.raws[r], h.unused + 1;
    var ps, h2, a2 := a.paths[r] + [c], AddBehind(h, l, data, k), AddedBehind(h, a, l);
    var m' := m.(last := Some(c), lastOffset := k, total := m.total + k);
    KeptFields(h, a, h2, a2, r);
    SameAux(h2, a2, r, ps);
    RenewGood(h2, a2, r, m', ps);
    KeepsOthersOf(h, a, h2, a2, r);
    OthersTrans(h, a, h2, a2, Renew(h2, r, m'), AppendedPart(h, a, r, l), r);
    OthersTrans(h0, a0, h, a, Renew(h2, r, m'), AppendedPart(h, a, r, l), r);
  }

  lemma KeptFields(h: Heap, a: Aux, h2: Heap, a2: Aux, r: nat)
    requires RawsOk(h, a) && Keeps(h, a, h2, a2) && r in h.raws
    ensures r in a2.paths && RawOk(h2, a2, r) && h2.raws == h.raws
  {
  }

  // ---------------------------------------------------------------- into an empty message

  function FirstPart(h: Heap, r: nat, data: seq<byte>, offset: int, end: int): Heap {
    Renew(AddFresh(h, data, offset, end), r, Raw(Some(h.unused + 1), Some(h.unused + 1), end - offset, offset, end))
  }

  ghost function FirstAux(h: Heap, a: Aux, r: nat): Aux {
    a.(rank := a.rank[h.unused + 1 := 0], paths := a.paths[r := [h.unused + 1]])
  }

  lemma FirstNew(h0: Heap, a0: Aux, h: Heap, a: Aux, r: nat, data: seq<byte>, offset: int, end: int,
                 locked: Option<nat>)
    requires Became(h0, a0, h, a, r, []) && OnlyLock(h, locked) && 0 <= offset <= end <= |data|
    requires r in a.paths && a.paths[r] == []
    ensures Became(h0, a0, FirstPart(h, r, data, offset, end), FirstAux(h, a, r), r, data[offset..end])
    ensures Ready(FirstPart(h, r, data, offset, end), FirstAux(h, a, r), r)
    ensures OnlyLock(FirstPart(h, r, data, offset, end), locked) && FirstAux(h, a, r).temp == a.temp
  {
    hide PartsOk, CountsOk, BufsOk, RawsOk, Keeps, Keep, Others, Private;
    var c := h.unused + 1;
    FreshGood(h, a, data, offset, end, 0);
    var h1, a1 := AddFresh(h, data, offset, end), AddedFresh(h, a, 0);
    var m' := Raw(Some(c), Some(c), end - offset, offset, end);
    Single(h1, c, offset, end);
    KeptFields(h, a, h1, a1, r);
    EmptyAux(h1, a1, a, r, c);
    RenewGood(h1, a1, r, m', [c]);
    KeepsOthersOf(h, a, h1, a1, r);
    OthersTrans(h, a, h1, a1, Renew(h1, r, m'), FirstAux(h, a, r), r);
    OthersTrans(h0, a0, h, a, Renew(h1, r, m'), FirstAux(h, a, r), r);
  }

  lemma EmptyAux(h: Heap, a: Aux, a0: Aux, r: nat, c: nat)
    requires r in h.raws && RawOk(h, a, r) && a.paths[r] == [] && a.temp == a0.temp + multiset{c}
    ensures c in Detached(h, a, r).temp
    ensures Renewed(h, a, r, [c]) == Aux(a.rank, a.paths[r := [c]], a0.temp)
  {
    assert (a.paths - {r})[r := [c]] == a.paths[r := [c]];
    assert a0.temp + multiset{c} - multiset{c} == a0.temp;
  }

  // ---------------------------------------------------------------- the lock on the last part

  lemma LockKeeps(h: Heap, a: Aux, r: nat, p: nat)
    requires Good(h, a) && Ready(h, a, r) && p == a.paths[r][|a.paths[r]| - 1]
    ensures SameMessage(h, a, SetLock(h, p, true), a, r) && Ready(SetLock(h, p, true), a, r)
  {
    hide PartsOk, CountsOk, BufsOk, RawsOk, Keep, Keeps, View, Content, Others;
    SetLockGood(h, a, p, true);
    KeptFields(h, a, SetLock(h, p, true), a, r);
    KeepsOthersOf(h, a, SetLock(h, p, true), a, r);
    KeepsFields(h, a, SetLock(h, p, true), a);
    SameText(h, a, SetLock(h, p, true), a, r);
  }

  lemma SameText(h: Heap, a: Aux, h': Heap, a': Aux, r: nat)
    requires RawsOk(h, a) && Keeps(h, a, h', a') && r in h.raws
    ensures RawOk(h, a, r) && RawOk(h', a', r) && Text(h', a', r) == Text(h, a, r)
  {
  }

  /** What rwm_lock_last_part leaves: the last part can grow, and either it is locked now or the whole
      chain is the message's own. */
  ghost predicate LockedLast(h0: Heap, a0: Aux, h: Heap, a: Aux, r: nat, locked: Option<nat>) {
    SameMessage(h0, a0, h, a, r) && Ready(h, a, r) &&
    (forall p :: p in h.parts && h.parts[p].locked ==> (p in h0.parts && h0.parts[p].locked) || locked == Some(p)) &&
    (locked == None ==> Forked(h, a, r)) &&
    (locked.Some? ==>
      locked == h.raws[r].last && locked.value in h0.parts && !h0.parts[locked.value].locked &&
      h.parts[locked.value].locked && a == a0)
  }

  lemma ForkedReady(h: Heap, a: Aux, r: nat)
    requires RawsOk(h, a) && Forked(h, a, r) && r in h.raws && h.raws[r].first.Some?
    ensures Ready(h, a, r)
  {
    hide View, Content;
    assert RawOk(h, a, r);
  }

  // ---------------------------------------------------------------- the state of a push

  /** Message r has grown to `text` and can grow further. */
  ghost predicate Pushing(h0: Heap, a0: Aux, h: Heap, a: Aux, r: nat, text: seq<byte>, locked: Option<nat>) {
    Became(h0, a0, h, a, r, text) && Ready(h, a, r) && OnlyLock(h, locked) && a.temp == multiset{} &&
    (locked.Some? ==> locked.value in h.parts)
  }

  lemma PushBegins(h0: Heap, a0: Aux, h: Heap, a: Aux, r: nat, locked: Option<nat>)
    requires LockedLast(h0, a0, h, a, r, locked) && a0.temp == multiset{} && OnlyLock(h0, None)
    ensures Pushing(h0, a0, h, a, r, Text(h0, a0, r), locked)
  {
    hide PartsOk, CountsOk, BufsOk, RawsOk, Others, View, Content, RawOk;
  }

  /** The last part, its buffer and its end. */
  lemma PushPlace(h0: Heap, a0: Aux, h: Heap, a: Aux, r: nat, text: seq<byte>, locked: Option<nat>)
    requires Pushing(h0, a0, h, a, r, text, locked)
    ensures r in h.raws && h.raws[r].last.Some?
    ensures var l := h.raws[r].last.value;
            a.paths[r] != [] && l == a.paths[r][|a.paths[r]| - 1] && Window(h, l) && h.parts[l].next == None &&
            h.parts[l].end == h.raws[r].lastOffset
  {
    hide PartsOk, CountsOk, BufsOk, Others, View, Content, RawOk;
    ReadyView(h, a, r);
  }

  lemma PushHere(h0: Heap, a0: Aux, h: Heap, a: Aux, r: nat, l: nat, text: seq<byte>, bytes: seq<byte>,
                 locked: Option<nat>)
    requires Pushing(h0, a0, h, a, r, text, locked) && h.raws[r].last == Some(l) && Room(h, l, |bytes|)
    ensures Pushing(h0, a0, AppendInPlace(h, r, l, bytes), a, r, text + bytes, locked)
  {
    hide PartsOk, CountsOk, BufsOk, RawsOk, Others, View, Content, RawOk, OnlyLock, Ready, Became;
    PushPlace(h0, a0, h, a, r, text, locked);
    AppendHere(h0, a0, h, a, r, l, text, bytes, locked);
  }

  lemma PushNew(h0: Heap, a0: Aux, h: Heap, a: Aux, r: nat, l: nat, text: seq<byte>, data: seq<byte>, k: nat,
                locked: Option<nat>)
    requires Pushing(h0, a0, h, a, r, text, locked) && h.raws[r].last == Some(l) && k <= |data|
    ensures l in h.parts && l in a.rank && r in a.paths
    ensures Pushing(h0, a0, AppendPart(h, r, l, data, k), AppendedPart(h, a, r, l), r, text + data[..k], locked)
  {
    hide PartsOk, CountsOk, BufsOk, RawsOk, Others, View, Content, RawOk, OnlyLock, Became;
    PushPlace(h0, a0, h, a, r, text, locked);
    AppendNew(h0, a0, h, a, r, l, text, data, k, locked);
  }

  lemma PushFirst(h: Heap, a: Aux, r: nat, data: seq<byte>, offset: int, end: int)
    requires Good(h, a) && a.temp == multiset{} && OnlyLock(h, None) && r in h.raws && h.raws[r].first == None
    requires 0 <= offset <= end <= |data|
    ensures RawOk(h, a, r) && Text(h, a, r) == []
    ensures Pushing(h, a, FirstPart(h, r, data, offset, end), FirstAux(h, a, r), r, data[offset..end], None)
  {
    hide PartsOk, CountsOk, BufsOk, View, Content, OnlyLock;
    assert RawOk(h, a, r);
    FirstNew(h, a, h, a, r, data, offset, end, None);
  }

  function Unlocked(h: Heap, locked: Option<nat>): Heap
    requires locked.Some? ==> locked.value in h.parts
  {
    if locked.Some? then SetLock(h, locked.value, false) else h
  }

  /** The lock goes, and nothing else changes. */
  lemma PushEnds(h0: Heap, a0: Aux, h: Heap, a: Aux, r: nat, text: seq<byte>, locked: Option<nat>)
    requires Pushing(h0, a0, h, a, r, text, locked)
    ensures Became(h0, a0, Unlocked(h, locked), a, r, text) && OnlyLock(Unlocked(h, locked), None)
  {
    hide PartsOk, CountsOk, BufsOk, RawsOk, Keep, Keeps, View, Content, Others, RawOk, Ready;
    if locked.Some? {
      var h' := SetLock(h, locked.value, false);
      SetLockGood(h, a, locked.value, false);
      SameText(h, a, h', a, r);
      KeptFields(h, a, h', a, r);
      KeepsOthersOf(h, a, h', a, r);
      OthersTrans(h0, a0, h, a, h', a, r);
    }
  }

  // ---------------------------------------------------------------- buffers

  /** What alloc_msg_buffer answers to its n-th call for so many bytes: a buffer size or nothing. */
  type Allocator = (nat, nat) -> Option<nat>

  /** A buffer is at least as large as asked for. */
  ghost predicate AllocatorOk(alloc: Allocator) {
    forall n, size :: alloc(n, size).Some? ==> alloc(n, size).value >= size
  }

  ghost predicate NeverFails(alloc: Allocator) {
    forall n, size :: alloc(n, size).Some?
  }

  function Zeros(n: nat): (s: seq<byte>)
    ensures |s| == n
  {
    if n == 0 then [] else Zeros(n - 1) + [0]
  }

  /** A buffer of that size with the bytes copied in. */
  function Filled(size: nat, at: nat, bytes: seq<byte>): (s: seq<byte>)
    requires at + |bytes| <= size
    ensures |s| == size && s[at..at + |bytes|] == bytes
  {
    Overwrite(Zeros(size), at, bytes)
  }

  // ---------------------------------------------------------------- small facts for the operations

  lemma LastIn(h: Heap, a: Aux, r: nat)
    requires Good(h, a) && r in h.raws && h.raws[r].first.Some?
    ensures h.raws[r].last.Some? && h.raws[r].last.value in h.parts && r in a.paths && a.paths[r] != []
    ensures h.raws[r].last.value == a.paths[r][|a.paths[r]| - 1]
    ensures var l := h.raws[r].last.value;
            h.parts[l].next == None && h.parts[l].end == h.raws[r].lastOffset ==> Ready(h, a, r)
  {
    hide PartsOk, CountsOk, BufsOk, View, Content;
    assert RawOk(h, a, r);
    LastPart(h, a.paths[r], h.raws[r].firstOffset, h.raws[r].lastOffset);
  }

  lemma ForkLocks(h0: Heap, a0: Aux, h: Heap, a: Aux, r: nat)
    requires SameMessage(h0, a0, h, a, r) && Forked(h, a, r) && SameLocks(h0, h) && h0.raws[r].first.Some?
    ensures LockedLast(h0, a0, h, a, r, None)
  {
    hide PartsOk, CountsOk, BufsOk, RawsOk, Others, View, Content, RawOk, Forked;
    ForkedReady(h, a, r);
  }

  lemma NoLocks(h: Heap, a: Aux, r: nat)
    requires OnlyLock(h, None)
    ensures LocksElsewhere(h, a, r)
  {
  }

  lemma BecameSelf(h: Heap, a: Aux, r: nat)
    requires Good(h, a) && r in h.raws
    ensures RawOk(h, a, r) && Became(h, a, h, a, r, Text(h, a, r)) && Others(h, a, h, a, r)
  {
    hide PartsOk, CountsOk, BufsOk, View, Content;
    assert RawOk(h, a, r);
  }

  lemma BecameMeans(h0: Heap, a0: Aux, h: Heap, a: Aux, r: nat, text: seq<byte>)
    requires Became(h0, a0, h, a, r, text)
    ensures Good(h0, a0) && Good(h, a) && r in h.raws && RawOk(h, a, r) && Text(h, a, r) == text &&
            Others(h0, a0, h, a, r)
  {
    hide PartsOk, CountsOk, BufsOk, Others, View, Content;
  }

  lemma PushingTemp(h0: Heap, a0: Aux, h: Heap, a: Aux, r: nat, text: seq<byte>, locked: Option<nat>)
    requires Pushing(h0, a0, h, a, r, text, locked)
    ensures a.temp == multiset{} && (locked.Some? ==> locked.value in h.parts)
  {
    hide Became, Ready, OnlyLock;
  }

  lemma EmptyText(h: Heap, a: Aux, r: nat)
    requires Good(h, a) && r in h.raws && h.raws[r].first == None
    ensures RawOk(h, a, r) && Text(h, a, r) == []
  {
    hide PartsOk, CountsOk, BufsOk, View, Content;
    assert RawOk(h, a, r);
  }
}
