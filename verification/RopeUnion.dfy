/** Uniting two messages, cloning and freeing. */
module RopeUnion {
  import opened Options
  import opened RopeModel
  import opened RopeSteps
  import opened RopeChains
  import opened RopeFork
  import opened RopeOps
  import opened RopeAppend
  import opened RopeFront

  // ---------------------------------------------------------------- every message as it was

  ghost predicate AllSame(h0: Heap, a0: Aux, h: Heap, a: Aux) {
    Good(h0, a0) && Good(h, a) && a.temp == a0.temp && h.raws.Keys == h0.raws.Keys &&
    forall k :: k in h0.raws ==> k in h.raws && Text(h, a, k) == Text(h0, a0, k)
  }

  lemma SameIsAll(h0: Heap, a0: Aux, h: Heap, a: Aux, r: nat)
    requires SameMessage(h0, a0, h, a, r)
    ensures AllSame(h0, a0, h, a)
  {
    hide PartsOk, CountsOk, BufsOk, View, Content, StillBut;
    assert h.raws.Keys == h0.raws.Keys;
  }

  lemma AllSameTrans(h0: Heap, a0: Aux, h1: Heap, a1: Aux, h: Heap, a: Aux)
    requires AllSame(h0, a0, h1, a1) && AllSame(h1, a1, h, a)
    ensures AllSame(h0, a0, h, a)
  {
    hide PartsOk, CountsOk, BufsOk, View, Content;
  }

  lemma UnlockSame(h: Heap, a: Aux, locked: Option<nat>)
    requires Good(h, a) && (locked.Some? ==> locked.value in h.parts)
    ensures AllSame(h, a, Unlocked(h, locked), a) && Unlocked(h, locked).raws == h.raws
    ensures forall p :: p in h.parts ==>
              p in Unlocked(h, locked).parts && SameShape(h.parts[p], Unlocked(h, locked).parts[p])
    ensures forall p :: p in Unlocked(h, locked).parts ==> p in h.parts
  {
    hide PartsOk, CountsOk, BufsOk, Keep, View, Content;
    if locked.Some? { SetLockGood(h, a, locked.value, false); }
  }

  // ---------------------------------------------------------------- the last part of r is not in the chain of t

  /** A part of a forked message belongs to no other message. */
  lemma ForkedAlone(h: Heap, a: Aux, r: nat, k: nat, p: nat)
    requires Good(h, a) && Forked(h, a, r) && p in a.paths[r] && k in h.raws && k in a.paths && k != r
    ensures p !in a.paths[k]
  {
    hide PartsOk, CountsOk, BufsOk, RawsOk, View, Content, Keep, Private;
    RawsAt(h, a, r);
    var m, ps, h1, a1 := h.raws[r], a.paths[r], Detach(h, r), Detached(h, a, r);
    DetachGood(h, a, r);
    AllIn(h, ps, m.firstOffset, m.lastOffset);
    ContentFrame(h, h1, ps, m.firstOffset, m.lastOffset);
    var i :| 0 <= i < |ps| && ps[i] == p;
    SolePrivate(h1, a1, ps, m.firstOffset, m.lastOffset, |ps|, i);
    PrivateElsewhere(h1, a1, k, p);
  }

  lemma PrivateElsewhere(h: Heap, a: Aux, k: nat, p: nat)
    requires Private(h, a, p) && k in h.raws && k in a.paths
    ensures p !in a.paths[k]
  {
  }

  ghost function Last(a: Aux, r: nat): nat
    requires r in a.paths && a.paths[r] != []
  {
    a.paths[r][|a.paths[r]| - 1]
  }

  /** A part that nothing follows can only be the last of a chain. */
  lemma OnlyAtTheEnd(h: Heap, a: Aux, t: nat, p: nat)
    requires RawsOk(h, a) && t in h.raws && t in a.paths && p in a.paths[t] && p in h.parts && h.parts[p].next == None
    ensures p == Last(a, t)
  {
    hide View, Content;
    assert RawOk(h, a, t);
    var ps := a.paths[t];
    var i :| 0 <= i < |ps| && ps[i] == p;
    ViewLinks(h, ps, h.raws[t].firstOffset, h.raws[t].lastOffset, i);
  }

  lemma LastStays(h1: Heap, a1: Aux, h2: Heap, a2: Aux, r: nat, t: nat)
    requires SameMessage(h1, a1, h2, a2, t) && r != t && Ready(h1, a1, r)
    ensures Ready(h2, a2, r) && a2.paths[r] == a1.paths[r] && Last(a1, r) in h2.parts &&
            h2.parts[Last(a1, r)].next == None
  {
    hide PartsOk, CountsOk, BufsOk, RawsOk, Others, Text, RawOk;
    var l := Last(a1, r);
    assert l in a1.paths[r];
    assert SameShape(h1.parts[l], h2.parts[l]);
  }

  /** After both last parts have been secured, the last part of r is not in the chain of t. */
  lemma DisjointLast(h0: Heap, a0: Aux, h1: Heap, a1: Aux, h2: Heap, a2: Aux, r: nat, t: nat, locked: Option<nat>,
                     l2: Option<nat>)
    requires r != t && LockedLast(h0, a0, h1, a1, r, locked) && LockedLast(h1, a1, h2, a2, t, l2)
    ensures Ready(h2, a2, r) && Last(a2, r) !in a2.paths[t] && a2.paths[r] == a1.paths[r]
  {
    hide PartsOk, CountsOk, BufsOk, RawsOk, Others, Text, RawOk, Forked, SameMessage;
    LastStays(h1, a1, h2, a2, r, t);
    var l := Last(a1, r);
    assert l in a1.paths[r];
    SameGood(h0, a0, h1, a1, r);
    SameGood(h1, a1, h2, a2, t);
    if l in a2.paths[t] {
      if l2 == None {
        ForkedAlone(h2, a2, t, r, l);
      } else {
        OnlyAtTheEnd(h2, a2, t, l);
        if locked == None { ForkedAlone(h1, a1, r, t, l); }
      }
    }
  }

  lemma SameGood(h0: Heap, a0: Aux, h: Heap, a: Aux, r: nat)
    requires SameMessage(h0, a0, h, a, r)
    ensures Good(h0, a0) && Good(h, a) && r in h0.raws && r in h.raws
    ensures forall k :: k in h0.raws && k != r ==>
              k in h.raws && h.raws[k] == h0.raws[k] && k in a.paths && k in a0.paths && a.paths[k] == a0.paths[k]
    ensures forall k :: k in h0.raws ==> k in h.raws
  {
    hide Good, Others, StillBut, Text, RawOk;
  }

  // ---------------------------------------------------------------- ranks

  ghost function Lowered(rank: map<nat, int>, ts: seq<nat>, k: nat): map<nat, int> {
    map p | p in rank :: if p in ts then rank[p] - k else rank[p]
  }

  /** Whatever follows a part of ts is in ts. */
  ghost predicate Closed(h: Heap, ts: seq<nat>) {
    forall p :: p in ts && p in h.parts && h.parts[p].next.Some? ==> h.parts[p].next.value in ts
  }

  /** The ranks of a chain that leads nowhere else may be lowered together. */
  lemma Rerank(h: Heap, a: Aux, ts: seq<nat>, k: nat)
    requires Good(h, a) && Closed(h, ts)
    ensures Good(h, a.(rank := Lowered(a.rank, ts, k)))
    ensures AllSame(h, a, h, a.(rank := Lowered(a.rank, ts, k)))
  {
    hide BufsOk, View, Content;
    var a' := a.(rank := Lowered(a.rank, ts, k));
    forall p | p in h.parts ensures PartOk(h, a', p) { assert PartOk(h, a, p); }
    forall p | p in h.parts ensures CountOk(h, a', p) { assert CountOk(h, a, p); }
    forall r | r in h.raws ensures RawOk(h, a', r) { assert RawOk(h, a, r); }
  }

  lemma ReadyClosed(h: Heap, a: Aux, t: nat)
    requires RawsOk(h, a) && Ready(h, a, t)
    ensures Closed(h, a.paths[t])
  {
    hide View, Content;
    assert RawOk(h, a, t);
    var ps, m := a.paths[t], h.raws[t];
    forall p | p in ps && p in h.parts && h.parts[p].next.Some? ensures h.parts[p].next.value in ps {
      var i :| 0 <= i < |ps| && ps[i] == p;
      ViewLinks(h, ps, m.firstOffset, m.lastOffset, i);
    }
  }

  // ---------------------------------------------------------------- chaining

  /** Two messages that can be united: r can grow, t starts with its first part and ends with its last,
      and the last part of r is not in t. */
  ghost predicate CanUnite(h: Heap, a: Aux, r: nat, t: nat) {
    r != t && Ready(h, a, r) && Ready(h, a, t) && Aligned(h, a, t) && Last(a, r) !in a.paths[t]
  }

  /** The heap with t chained behind r. */
  function Chain(h: Heap, l: nat, first: nat): Heap
    requires l in h.parts && first in h.parts
  {
    SetNext(Acquire(h, first), l, Some(first))
  }

  ghost function ChainRank(a: Aux, l: nat, ts: seq<nat>): Aux
    requires l in a.rank && ts != [] && ts[0] in a.rank
  {
    var k := if a.rank[ts[0]] < a.rank[l] then 0 else a.rank[ts[0]] - a.rank[l] + 1;
    a.(rank := Lowered(a.rank, ts, k))
  }

  lemma ChainGood(h: Heap, a: Aux, l: nat, ts: seq<nat>)
    requires Good(h, a) && l in h.parts && h.parts[l].next == None && ts != [] && ts[0] in h.parts && l !in ts &&
             Closed(h, ts)
    ensures l in a.rank && ts[0] in a.rank
    ensures var h', a' := Chain(h, l, ts[0]), ChainRank(a, l, ts);
            Good(h', a') && Keeps(h, a, h', a') && KeepParts(h, h') && a'.temp == a.temp && a'.paths == a.paths
  {
    hide PartsOk, CountsOk, BufsOk, RawsOk, Keeps, Keep, Closed, AllSame;
    NextIn(h, a, l);
    NextIn(h, a, ts[0]);
    var a1 := ChainRank(a, l, ts);
    var k := if a.rank[ts[0]] < a.rank[l] then 0 else a.rank[ts[0]] - a.rank[l] + 1;
    Rerank(h, a, ts, k);
    KeepsRank(h, a, a1);
    AcquireGood(h, a1, ts[0]);
    var h2, a2 := Acquire(h, ts[0]), Held(a1, ts[0]);
    LinkGood(h2, a2, l, ts[0]);
    var h3 := Chain(h, l, ts[0]);
    assert Dropped(a2, ts[0]) == a1 by { assert a1.temp + multiset{ts[0]} - multiset{ts[0]} == a1.temp; }
    KeepsTrans(h, a, h, a1, h2, a2);
    KeepsTrans(h, a, h2, a2, h3, a1);
    KeepPartsTrans(h, h2, h3);
  }

  lemma KeepsRank(h: Heap, a: Aux, a1: Aux)
    requires RawsOk(h, a) && RawsOk(h, a1) && a1.paths == a.paths
    ensures Keeps(h, a, h, a1)
  {
    forall r | r in h.raws ensures RawOk(h, a, r) && RawOk(h, a1, r) { }
  }

  lemma ChainText(h: Heap, a: Aux, r: nat, t: nat)
    requires RawsOk(h, a) && CanUnite(h, a, r, t) && a.paths[t][0] in h.parts &&
             KeepParts(h, Chain(h, Last(a, r), a.paths[t][0]))
    ensures RawOk(h, a, r) && RawOk(h, a, t)
    ensures var h', ps := Chain(h, Last(a, r), a.paths[t][0]), a.paths[r] + a.paths[t];
            View(h', ps, h.raws[r].firstOffset, h.raws[t].lastOffset) &&
            Content(h', ps, h.raws[r].firstOffset, h.raws[t].lastOffset) == Text(h, a, r) + Text(h, a, t)
  {
    hide RawsOk, View, Content, Keep, KeepParts;
    RawsAt(h, a, r);
    RawsAt(h, a, t);
    var h', rs, ts := Chain(h, Last(a, r), a.paths[t][0]), a.paths[r], a.paths[t];
    KeptView(h, h', rs, h.raws[r].firstOffset, h.raws[r].lastOffset);
    KeptView(h, h', ts, h.raws[t].firstOffset, h.raws[t].lastOffset);
    Join(h', rs, ts, h.raws[r].firstOffset, h.raws[t].lastOffset);
  }

  function United(h: Heap, r: nat, t: nat): Heap
    requires r in h.raws && t in h.raws && h.raws[r].last.Some? && h.raws[t].first.Some?
    requires h.raws[r].last.value in h.parts && h.raws[t].first.value in h.parts
  {
    var m, n := h.raws[r], h.raws[t];
    Renew(Chain(h, m.last.value, n.first.value), r, m.(last := n.last, lastOffset := n.lastOffset,
      total := m.total + n.total))
  }

  ghost function UnitedAux(a: Aux, r: nat, t: nat): Aux
    requires r in a.paths && t in a.paths && a.paths[r] != [] && a.paths[t] != [] && Last(a, r) in a.rank &&
             a.paths[t][0] in a.rank
  {
    var a' := ChainRank(a, Last(a, r), a.paths[t]);
    a'.(paths := a'.paths[r := a.paths[r] + a.paths[t]])
  }

  lemma UniteFacts(h: Heap, a: Aux, r: nat, t: nat)
    requires Good(h, a) && CanUnite(h, a, r, t)
    ensures RawOk(h, a, r) && RawOk(h, a, t) && h.raws[r].last == Some(Last(a, r)) &&
            h.raws[t].first == Some(a.paths[t][0])
    ensures r in a.paths && t in a.paths && a.paths[r] != [] && a.paths[t] != []
    ensures Last(a, r) in h.parts && a.paths[t][0] in h.parts && Last(a, r) in a.rank && a.paths[t][0] in a.rank
  {
    hide PartsOk, CountsOk, BufsOk, View, Content;
    assert RawOk(h, a, r) && RawOk(h, a, t);
    NextIn(h, a, Last(a, r));
    NextIn(h, a, a.paths[t][0]);
  }

  /** The message r becomes r followed by t; t and all others stay. */
  lemma UniteGood(h: Heap, a: Aux, r: nat, t: nat)
    requires Good(h, a) && CanUnite(h, a, r, t)
    requires RawOk(h, a, r) && RawOk(h, a, t) && h.raws[r].last == Some(Last(a, r)) &&
             h.raws[t].first == Some(a.paths[t][0])
    requires Last(a, r) in h.parts && a.paths[t][0] in h.parts && Last(a, r) in a.rank && a.paths[t][0] in a.rank
    ensures Became(h, a, United(h, r, t), UnitedAux(a, r, t), r, Text(h, a, r) + Text(h, a, t))
    ensures UnitedAux(a, r, t).temp == a.temp
  {
    hide PartsOk, CountsOk, BufsOk, RawsOk, Keeps, Keep, KeepParts, View, Content, Others, Closed;
    var l, ts := Last(a, r), a.paths[t];
    ReadyClosed(h, a, t);
    ChainGood(h, a, l, ts);
    ChainText(h, a, r, t);
    var h', a', ps := Chain(h, l, ts[0]), ChainRank(a, l, ts), a.paths[r] + ts;
    var m' := h.raws[r].(last := h.raws[t].last, lastOffset := h.raws[t].lastOffset,
      total := h.raws[r].total + h.raws[t].total);
    KeptFields(h, a, h', a', r);
    SameAux(h', a', r, ps);
    assert ps[|ps| - 1] == ts[|ts| - 1];
    RenewGood(h', a', r, m', ps);
    KeepsOthersOf(h, a, h', a', r);
    OthersTrans(h, a, h', a', Renew(h', r, m'), UnitedAux(a, r, t), r);
  }

  // ---------------------------------------------------------------- a message gone

  /** Message t is gone and nothing happened to the others. */
  ghost predicate Gone(h0: Heap, a0: Aux, h: Heap, a: Aux, t: nat) {
    Good(h0, a0) && Good(h, a) && t !in h.raws && Others(h0, a0, h, a, t) && a.temp == a0.temp && SameLocks(h0, h) &&
    forall k :: k in h0.raws && k != t ==> k in a.paths && k in a0.paths && a.paths[k] == a0.paths[k]
  }

  lemma DetachGone(h: Heap, a: Aux, t: nat)
    requires Good(h, a) && t in h.raws && h.raws[t].first == None
    ensures Gone(h, a, Detach(h, t), Detached(h, a, t), t)
  {
    hide PartsOk, CountsOk, BufsOk, Keep, View, Content, Others;
    DetachGood(h, a, t);
    DetachOthers(h, a, t);
  }

  lemma DropGone(h0: Heap, a0: Aux, h: Heap, a: Aux, t: nat, p: nat)
    requires Good(h0, a0) && t in h0.raws && h0.raws[t].first == Some(p)
    requires Good(h, a) && a == Dropped(Detached(h0, a0, t), p)
    requires RawsOk(Detach(h0, t), Detached(h0, a0, t)) && Keeps(Detach(h0, t), Detached(h0, a0, t), h, a) &&
             Shrunk(Detach(h0, t), h)
    ensures Gone(h0, a0, h, a, t)
  {
    hide PartsOk, CountsOk, BufsOk, RawsOk, Keep, Keeps, View, Content, Others;
    DetachOthers(h0, a0, t);
    KeepsFields(Detach(h0, t), Detached(h0, a0, t), h, a);
    KeepsOthers(h0, a0, Detach(h0, t), Detached(h0, a0, t), h, a, t);
    assert a0.temp + multiset{p} - multiset{p} == a0.temp;
  }

  // ---------------------------------------------------------------- a copy that shares everything

  function Cloned(h: Heap, dest: nat, src: nat): Heap
    requires src in h.raws && (h.raws[src].first.Some? ==> h.raws[src].first.value in h.parts)
  {
    var m := h.raws[src];
    Attach(if m.first.Some? then Acquire(h, m.first.value) else h, dest, m)
  }

  lemma CloneGood(h: Heap, a: Aux, dest: nat, src: nat)
    requires Good(h, a) && src in h.raws && dest !in h.raws
    ensures h.raws[src].first.Some? ==> h.raws[src].first.value in h.parts
    ensures RawOk(h, a, src) && src in a.paths
    ensures Became(h, a, Cloned(h, dest, src), a.(paths := a.paths[dest := a.paths[src]]), dest, Text(h, a, src))
  {
    hide PartsOk, CountsOk, BufsOk, Keep, Keeps, View, Content, Others;
    assert RawOk(h, a, src);
    var m, ps := h.raws[src], a.paths[src];
    if ps == [] {
      AttachGood(h, a, dest, m, ps);
      KeepsSelf(h, a);
      AttachOthers(h, a, h, a, dest, m, ps);
    } else {
      FirstIn(h, a, src);
      var h1, a1 := Acquire(h, ps[0]), Held(a, ps[0]);
      AcquireGood(h, a, ps[0]);
      KeptView(h, h1, ps, m.firstOffset, m.lastOffset);
      AttachGood(h1, a1, dest, m, ps);
      AttachOthers(h, a, h1, a1, dest, m, ps);
      assert a.temp + multiset{ps[0]} - multiset{ps[0]} == a.temp;
    }
  }

  // ---------------------------------------------------------------- the steps of rwm_union

  /** With r secured, whatever is locked is in use by another message than t. */
  lemma SecuredElsewhere(h0: Heap, a0: Aux, h: Heap, a: Aux, r: nat, t: nat, locked: Option<nat>)
    requires LockedLast(h0, a0, h, a, r, locked) && OnlyLock(h0, None) && r != t
    ensures OnlyLock(h, locked) && LocksElsewhere(h, a, t) && AllSame(h0, a0, h, a)
  {
    hide Good, SameMessage, Forked, AllSame;
    SameIsAll(h0, a0, h, a, r);
    SameGood(h0, a0, h, a, r);
    forall p | p in h.parts && h.parts[p].locked
      ensures exists k :: k in h.raws && k in a.paths && k != t && p in a.paths[k]
    {
      assert locked == Some(p) && p in a.paths[r];
    }
  }

  /** The state before chaining: everything reads as it did, r and t can be united, and at most the last
      part of r is locked. */
  ghost predicate Securing(h0: Heap, a0: Aux, h: Heap, a: Aux, r: nat, t: nat, locked: Option<nat>) {
    AllSame(h0, a0, h, a) && r in h.raws && t in h.raws && OnlyLock(h, locked) &&
    Ready(h, a, r) && Ready(h, a, t) && t in a.paths && Last(a, r) !in a.paths[t] && r != t &&
    (locked.Some? ==> locked.value == Last(a, r))
  }

  lemma BothSecured(h0: Heap, a0: Aux, h1: Heap, a1: Aux, h2: Heap, a2: Aux, r: nat, t: nat, locked: Option<nat>,
                    l2: Option<nat>)
    requires r != t && LockedLast(h0, a0, h1, a1, r, locked) && LockedLast(h1, a1, h2, a2, t, l2)
    requires AllSame(h0, a0, h1, a1) && OnlyLock(h1, locked)
    ensures l2.Some? ==> l2.value in h2.parts
    ensures Securing(h0, a0, Unlocked(h2, l2), a2, r, t, locked) && LocksElsewhere(Unlocked(h2, l2), a2, t)
    ensures Unlocked(h2, l2).raws[t].first.Some?
  {
    hide PartsOk, CountsOk, BufsOk, RawsOk, Others, Text, RawOk, Forked, SameMessage, AllSame;
    DisjointLast(h0, a0, h1, a1, h2, a2, r, t, locked, l2);
    SameIsAll(h1, a1, h2, a2, t);
    SameGood(h1, a1, h2, a2, t);
    SameGood(h0, a0, h1, a1, r);
    UnlockSame(h2, a2, l2);
    AllSameTrans(h0, a0, h1, a1, h2, a2);
    AllSameTrans(h0, a0, h2, a2, Unlocked(h2, l2), a2);
    SecuredRest(h1, a1, h2, a2, r, t, locked, l2);
  }

  lemma SecuredRest(h1: Heap, a1: Aux, h2: Heap, a2: Aux, r: nat, t: nat, locked: Option<nat>, l2: Option<nat>)
    requires r != t && LockedLast(h1, a1, h2, a2, t, l2) && OnlyLock(h1, locked)
    requires Ready(h2, a2, r) && (locked.Some? ==> locked == h2.raws[r].last) && RawsOk(h2, a2)
    ensures OnlyLock(Unlocked(h2, l2), locked) && LocksElsewhere(Unlocked(h2, l2), a2, t)
    ensures Ready(Unlocked(h2, l2), a2, r) && Ready(Unlocked(h2, l2), a2, t) && Unlocked(h2, l2).raws[t].first.Some?
  {
    hide PartsOk, CountsOk, BufsOk, RawsOk, SameMessage, Forked;
    ReadyView(h2, a2, t);
    var h3 := Unlocked(h2, l2);
    forall p | p in h3.parts && h3.parts[p].locked
      ensures locked == Some(p)
      ensures exists k :: k in h3.raws && k in a2.paths && k != t && p in a2.paths[k]
    {
      assert h2.parts[p].locked && l2 != Some(p);
      assert p in a2.paths[r];
    }
  }

  lemma FirstSecured(h0: Heap, a0: Aux, h3: Heap, a3: Aux, h: Heap, a: Aux, r: nat, t: nat, locked: Option<nat>)
    requires Securing(h0, a0, h3, a3, r, t, locked) && LockedFirst(h3, a3, h, a, t)
    ensures Securing(h0, a0, h, a, r, t, locked) && CanUnite(h, a, r, t)
  {
    hide PartsOk, CountsOk, BufsOk, RawsOk, Others, Text, RawOk, SameMessage, AllSame;
    SameIsAll(h3, a3, h, a, t);
    SameGood(h3, a3, h, a, t);
    AllSameTrans(h0, a0, h3, a3, h, a);
    LastStays(h3, a3, h, a, r, t);
    var l, ps, ns := Last(a3, r), a3.paths[t], a.paths[t];
    if ns != ps { NotInNew(ps, ns, l); }
  }

  lemma DetachedHolds(h: Heap, a: Aux, t: nat)
    requires Good(h, a) && t in h.raws && h.raws[t].first.Some?
    ensures Good(Detach(h, t), Detached(h, a, t)) && RawsOk(Detach(h, t), Detached(h, a, t)) &&
            h.raws[t].first.value in Detached(h, a, t).temp
  {
    hide PartsOk, CountsOk, BufsOk, RawsOk, Keep, View, Content;
    DetachGood(h, a, t);
  }

  /** What rwm_union promises: r is longer by the old t, t is gone, the others are as they were. */
  ghost predicate UnionDone(h0: Heap, a0: Aux, h: Heap, a: Aux, r: nat, t: nat) {
    Good(h0, a0) && Good(h, a) && a.temp == multiset{} && OnlyLock(h, None) && r in h0.raws && t in h0.raws &&
      r in h.raws &&
    h.raws.Keys == h0.raws.Keys - {t} && Text(h, a, r) == Text(h0, a0, r) + Text(h0, a0, t) &&
    forall k :: k in h.raws && k != r ==> k in h0.raws && Text(h, a, k) == Text(h0, a0, k)
  }

  lemma NotInNew(ps: seq<nat>, ns: seq<nat>, l: nat)
    requires ps != [] && ns != [] && ns[1..] == ps[1..] && l !in ps && l != ns[0]
    ensures l !in ns
  {
    forall i | 0 < i < |ns| ensures ns[i] == ps[i] {
      assert ns[i] == ns[1..][i - 1] && ps[i] == ps[1..][i - 1];
    }
  }

  // ---------------------------------------------------------------- into an empty message

  ghost function Moved(h: Heap, a: Aux, r: nat, t: nat): Aux
    requires r in h.raws && t in h.raws && r != t && t in a.paths
  {
    Renewed(Detach(h, t), Detached(h, a, t), r, a.paths[t])
  }

  lemma MoveInto(h: Heap, a: Aux, r: nat, t: nat)
    requires Good(h, a) && a.temp == multiset{} && OnlyLock(h, None) && r in h.raws && t in h.raws && r != t &&
             h.raws[r].last == None
    ensures t in a.paths && UnionDone(h, a, Renew(Detach(h, t), r, h.raws[t]), Moved(h, a, r, t), r, t)
  {
    hide PartsOk, CountsOk, BufsOk, RawsOk, Keep, Fits, Bytes, RawOk, Text, Others, OnlyLock;
    TextIs(h, a, r);
    TextIs(h, a, t);
    var h1, a1, m, ts := Detach(h, t), Detached(h, a, t), h.raws[t], a.paths[t];
    DetachGood(h, a, t);
    DetachOthers(h, a, t);
    AttachView(h, a, h1, m, ts);
    MovedTemp(h, a, r, t);
    RenewGood(h1, a1, r, m, ts);
    var h2, a2 := Renew(h1, r, m), Moved(h, a, r, t);
    TwoOthers(h, a, h1, a1, h2, a2, r, t);
    SameLocksOnly(h, h2);
  }

  lemma TextIs(h: Heap, a: Aux, r: nat)
    requires RawsOk(h, a) && r in h.raws
    ensures RawOk(h, a, r) && r in a.paths && Fits(h, h.raws[r], a.paths[r]) &&
            Text(h, a, r) == Bytes(h, h.raws[r], a.paths[r])
    ensures h.raws[r].last == None ==> h.raws[r].first == None && Text(h, a, r) == []
  {
    hide View, Content;
    assert RawOk(h, a, r);
  }

  lemma SameLocksOnly(h: Heap, h2: Heap)
    requires OnlyLock(h, None) && h2.parts == h.parts
    ensures OnlyLock(h2, None)
  {
  }

  lemma MovedTemp(h: Heap, a: Aux, r: nat, t: nat)
    requires r in h.raws && t in h.raws && r != t && t in a.paths && h.raws[r].first == None && a.temp == multiset{}
    requires RawOk(h, a, t)
    ensures Moved(h, a, r, t).temp == multiset{}
    ensures a.paths[t] != [] ==> a.paths[t][0] in Detached(Detach(h, t), Detached(h, a, t), r).temp
  {
    hide View, Content;
  }

  /** First t went, then r changed: the rest is as it was. */
  lemma TwoOthers(h: Heap, a: Aux, h1: Heap, a1: Aux, h2: Heap, a2: Aux, r: nat, t: nat)
    requires RawsOk(h, a) && RawsOk(h1, a1) && RawsOk(h2, a2) && Others(h, a, h1, a1, t) && Others(h1, a1, h2, a2, r)
    requires r != t && r in h.raws && t in h.raws && r in h2.raws && t !in h1.raws && t !in h2.raws
    ensures h2.raws.Keys == h.raws.Keys - {t}
    ensures forall k :: k in h2.raws && k != r ==> k in h.raws && Text(h2, a2, k) == Text(h, a, k)
  {
    hide RawOk, Text;
  }

  lemma NothingAdded(h0: Heap, a0: Aux, h: Heap, a: Aux, r: nat, t: nat)
    requires Gone(h0, a0, h, a, t) && r in h0.raws && t in h0.raws && r != t && h0.raws[t].first == None
    requires a0.temp == multiset{} && OnlyLock(h0, None)
    ensures UnionDone(h0, a0, h, a, r, t)
  {
    hide PartsOk, CountsOk, BufsOk, View, Content;
    assert RawOk(h0, a0, t);
    assert h.raws.Keys == h0.raws.Keys - {t};
  }

  // ---------------------------------------------------------------- the end of a union

  lemma HasParts(h: Heap, a: Aux, r: nat)
    requires Good(h, a) && r in h.raws && h.raws[r].last.Some?
    ensures h.raws[r].first.Some?
  {
    hide PartsOk, CountsOk, BufsOk, View, Content;
    assert RawOk(h, a, r);
  }

  lemma StillThere(h0: Heap, a0: Aux, h: Heap, a: Aux, r: nat, t: nat, locked: Option<nat>)
    requires LockedLast(h0, a0, h, a, r, locked) && t in h0.raws && r != t
    ensures Good(h, a) && t in h.raws && h.raws[t] == h0.raws[t]
  {
    hide Good, SameMessage, Forked;
    SameGood(h0, a0, h, a, r);
  }

  lemma SecuringGood(h0: Heap, a0: Aux, h: Heap, a: Aux, r: nat, t: nat, locked: Option<nat>)
    requires Securing(h0, a0, h, a, r, t, locked)
    ensures Good(h, a) && r in h.raws && t in h.raws
  {
    hide Good, Ready, OnlyLock;
  }

  lemma UnitedLocks(h0: Heap, a0: Aux, h: Heap, a: Aux, r: nat, t: nat, locked: Option<nat>)
    requires Securing(h0, a0, h, a, r, t, locked) && CanUnite(h, a, r, t)
    requires RawOk(h, a, r) && RawOk(h, a, t) && h.raws[r].last == Some(Last(a, r)) &&
             h.raws[t].first == Some(a.paths[t][0])
    requires Last(a, r) in h.parts && a.paths[t][0] in h.parts && Last(a, r) in a.rank && a.paths[t][0] in a.rank
    requires Became(h, a, United(h, r, t), UnitedAux(a, r, t), r, Text(h, a, r) + Text(h, a, t))
    ensures Good(United(h, r, t), UnitedAux(a, r, t)) && t in United(h, r, t).raws
    ensures OnlyLock(United(h, r, t), locked) && LocksElsewhere(United(h, r, t), UnitedAux(a, r, t), t)
  {
    hide PartsOk, CountsOk, BufsOk, RawsOk, View, Content, Others, RawOk, AllSame, Text;
    var h', a' := United(h, r, t), UnitedAux(a, r, t);
    var l := Last(a, r);
    assert a'.paths[r][|a.paths[r]| - 1] == l;
    forall p | p in h'.parts && h'.parts[p].locked
      ensures locked == Some(p)
      ensures exists k :: k in h'.raws && k in a'.paths && k != t && p in a'.paths[k]
    {
      assert h.parts[p].locked;
      assert p in a'.paths[r];
    }
  }

  lemma UnionEnds(h0: Heap, a0: Aux, h4: Heap, a4: Aux, h5: Heap, a5: Aux, h6: Heap, a6: Aux, r: nat, t: nat,
                  locked: Option<nat>)
    requires Securing(h0, a0, h4, a4, r, t, locked) && a0.temp == multiset{} && RawOk(h4, a4, r) && RawOk(h4, a4, t)
    requires Became(h4, a4, h5, a5, r, Text(h4, a4, r) + Text(h4, a4, t)) && OnlyLock(h5, locked) && a5.temp == a4.temp
    requires r in a5.paths && (locked.Some? ==> locked.value in a5.paths[r])
    requires Gone(h5, a5, h6, a6, t)
    ensures locked.Some? ==> locked.value in h6.parts
    ensures UnionDone(h0, a0, Unlocked(h6, locked), a6, r, t)
  {
    hide PartsOk, CountsOk, BufsOk, RawsOk, View, Content, Ready, RawOk, Text;
    if locked.Some? { PathParts(h6, a6, r, locked.value); }
    UnlockSame(h6, a6, locked);
    var h7 := Unlocked(h6, locked);
    UnionTexts(h0, a0, h4, a4, h5, a5, h6, a6, h7, r, t);
  }

  lemma UnionTexts(h0: Heap, a0: Aux, h4: Heap, a4: Aux, h5: Heap, a5: Aux, h6: Heap, a6: Aux, h7: Heap, r: nat, t: nat)
    requires AllSame(h0, a0, h4, a4) && r in h4.raws && t in h4.raws && r != t
    requires RawsOk(h4, a4) && RawsOk(h5, a5) && RawsOk(h6, a6) && Others(h4, a4, h5, a5, r) &&
             Others(h5, a5, h6, a6, t) && t !in h6.raws
    requires r in h5.raws && Text(h5, a5, r) == Text(h4, a4, r) + Text(h4, a4, t) && AllSame(h6, a6, h7, a6)
    ensures r in h7.raws && Good(h0, a0) && Good(h7, a6) && r in h0.raws && t in h0.raws &&
            h7.raws.Keys == h0.raws.Keys - {t}
    ensures Text(h7, a6, r) == Text(h0, a0, r) + Text(h0, a0, t)
    ensures forall k :: k in h7.raws && k != r ==> k in h0.raws && Text(h7, a6, k) == Text(h0, a0, k)
  {
    hide PartsOk, CountsOk, BufsOk, RawOk, Text;
    assert h7.raws.Keys == h0.raws.Keys - {t};
  }

  lemma UnionMeans(h0: Heap, a0: Aux, h: Heap, a: Aux, r: nat, t: nat)
    requires UnionDone(h0, a0, h, a, r, t)
    ensures Good(h0, a0) && Good(h, a) && a.temp == multiset{} && OnlyLock(h, None) && RawsOk(h, a) && RawsOk(h0, a0)
    ensures r in h.raws && h.raws.Keys == h0.raws.Keys - {t} && RawOk(h, a, r) && RawOk(h0, a0, r) && RawOk(h0, a0, t)
    ensures Text(h, a, r) == Text(h0, a0, r) + Text(h0, a0, t)
    ensures forall k :: k in h.raws && k != r ==>
              k in h0.raws && RawOk(h, a, k) && RawOk(h0, a0, k) && Text(h, a, k) == Text(h0, a0, k)
  {
    hide PartsOk, CountsOk, BufsOk, View, Content, OnlyLock;
  }

  /** The last part of r is still in the chain of r after the union. */
  lemma UnitedPath(h: Heap, a: Aux, r: nat, t: nat)
    requires CanUnite(h, a, r, t) && Last(a, r) in a.rank && a.paths[t][0] in a.rank
    ensures r in UnitedAux(a, r, t).paths && Last(a, r) in UnitedAux(a, r, t).paths[r] &&
            UnitedAux(a, r, t).temp == a.temp
  {
    var ps := UnitedAux(a, r, t).paths[r];
    assert ps[|a.paths[r]| - 1] == Last(a, r);
  }

  lemma LockedIsLast(h0: Heap, a0: Aux, h: Heap, a: Aux, r: nat, t: nat, locked: Option<nat>)
    requires Securing(h0, a0, h, a, r, t, locked)
    ensures r in a.paths && a.paths[r] != [] && (locked.Some? ==> locked.value == Last(a, r))
  {
    hide AllSame, OnlyLock;
  }

  // ---------------------------------------------------------------- a message under another name

  /** dest has the bytes of src, src is gone, and the others are as they were. */
  ghost predicate MoveDone(h0: Heap, a0: Aux, h: Heap, a: Aux, dest: nat, src: nat) {
    Good(h0, a0) && Good(h, a) && a.temp == a0.temp && src in h0.raws && dest in h.raws && dest != src &&
    h.raws.Keys == h0.raws.Keys - {src} + {dest} && Text(h, a, dest) == Text(h0, a0, src) && h.parts == h0.parts &&
    forall k :: k in h0.raws && k != src ==> k in h.raws && Text(h, a, k) == Text(h0, a0, k)
  }

  lemma MoveGood(h: Heap, a: Aux, dest: nat, src: nat)
    requires Good(h, a) && src in h.raws && dest !in h.raws
    ensures src in a.paths
    ensures MoveDone(h, a, Attach(Detach(h, src), dest, h.raws[src]), Attached(Detached(h, a, src), dest,
            a.paths[src]), dest, src)
  {
    hide PartsOk, CountsOk, BufsOk, RawsOk, Keep, Fits, Bytes, RawOk, Text, Others;
    TextIs(h, a, src);
    var h1, a1, m, ps := Detach(h, src), Detached(h, a, src), h.raws[src], a.paths[src];
    DetachGood(h, a, src);
    DetachOthers(h, a, src);
    AttachView(h, a, h1, m, ps);
    MoveTemp(h, a, src);
    AttachGood(h1, a1, dest, m, ps);
    MoveOthers(h, a, h1, a1, Attach(h1, dest, m), Attached(a1, dest, ps), dest, src);
  }

  lemma MoveTemp(h: Heap, a: Aux, src: nat)
    requires src in h.raws && RawOk(h, a, src)
    ensures var ps, a1 := a.paths[src], Detached(h, a, src);
            (ps != [] ==> ps[0] in a1.temp) && (forall dest :: Attached(a1, dest, ps).temp == a.temp)
  {
    hide View, Content;
    var ps := a.paths[src];
    assert ps != [] ==> a.temp + multiset{ps[0]} - multiset{ps[0]} == a.temp;
  }

  lemma MoveOthers(h: Heap, a: Aux, h1: Heap, a1: Aux, h2: Heap, a2: Aux, dest: nat, src: nat)
    requires RawsOk(h, a) && RawsOk(h1, a1) && RawsOk(h2, a2) && Others(h, a, h1, a1, src) && src !in h1.raws
    requires src in h.raws && dest !in h.raws && h2.raws.Keys == h1.raws.Keys + {dest}
    requires forall k :: k in h1.raws ==> k in h2.raws && RawOk(h2, a2, k) && Text(h2, a2, k) == Text(h1, a1, k)
    ensures h2.raws.Keys == h.raws.Keys - {src} + {dest}
    ensures forall k :: k in h.raws && k != src ==> k in h2.raws && Text(h2, a2, k) == Text(h, a, k)
  {
    hide RawOk, Text;
  }

  lemma MoveMeans(h0: Heap, a0: Aux, h: Heap, a: Aux, dest: nat, src: nat)
    requires MoveDone(h0, a0, h, a, dest, src)
    ensures Good(h0, a0) && Good(h, a) && a.temp == a0.temp && src in h0.raws && dest in h.raws && h.parts == h0.parts
    ensures h.raws.Keys == h0.raws.Keys - {src} + {dest} && RawOk(h0, a0, src) && RawOk(h, a, dest)
    ensures Text(h, a, dest) == Text(h0, a0, src)
    ensures forall k :: k in h0.raws && k != src ==>
              k in h.raws && RawOk(h0, a0, k) && RawOk(h, a, k) && Text(h, a, k) == Text(h0, a0, k)
  {
    hide PartsOk, CountsOk, BufsOk, View, Content;
  }
}
