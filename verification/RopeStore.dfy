/** The operations on raw messages. */
module RopeStore {
  import opened Options
  import opened RopeModel
  import opened RopeSteps
  import opened RopeChains
  import opened RopeFork
  import opened RopeOps
  import opened RopeAppend
  import opened RopeFront
  import opened RopeUnion
  import opened RopeWalk

  class Store {
    var heap: Heap
    ghost var aux: Aux

    ghost predicate Valid()
      reads this
    {
      Good(heap, aux) && aux.temp == multiset{} && OnlyLock(heap, None)
    }

    /** The bytes of message r. */
    ghost function Message(r: nat): seq<byte>
      requires Valid() && r in heap.raws
      reads this
    {
      Text(heap, aux, r)
    }

    constructor ()
      ensures Valid() && heap.raws == map[]
    {
      heap := Heap(map[], map[], map[], 0);
      aux := Aux(map[], map[], multiset{});
    }

    /** msg_part_decref: drops a reference, and frees what nobody refers to any more. */
    method Decref(first: nat)
      requires Good(heap, aux) && first in aux.temp && LocksHeld(heap, aux)
      modifies this
      ensures Good(heap, aux) && aux == Dropped(old(aux), first)
      ensures Keeps(old(heap), old(aux), heap, aux) && Shrunk(old(heap), heap) && LocksHeld(heap, aux)
    {
      hide Dropping, Release, FreePart, Good, LocksHeld, Keeps, Shrunk, StillHeld, Freed, Dropped;
      ghost var h0, a0 := heap, aux;
      DroppingSelf(heap, aux);
      HeldAtFirst(aux, first);
      var mp := Some(first);
      while mp.Some?
        invariant Dropping(h0, a0, heap, aux)
        invariant aux == StillHeld(a0, first, mp)
        decreases mp.Some?, |heap.parts|
      {
        var p := mp.value;
        HeldNext(a0, first, p, heap);
        DroppingPart(h0, a0, heap, aux, p);
        if heap.parts[p].refcnt > 1 {
          ReleaseStep(h0, a0, heap, aux, p);
          heap, aux := Release(heap, p), Dropped(aux, p);
          mp := None;
        } else {
          FreeStep(h0, a0, heap, aux, p);
          assert !heap.parts[p].locked;
          mp := heap.parts[p].next;
          heap, aux := FreePart(heap, p), Freed(heap, aux, p);
        }
      }
      DroppingMeans(h0, a0, heap, aux);
    }

    // ---------------------------------------------------------------- fork_message_chain

    /** Where the message starts inside a part that is its own, the part is trimmed. */
    method TrimHead(m: Raw, ghost ps: seq<nat>) returns (ok: bool)
      requires Loose(heap, aux, m, ps)
      modifies this`heap
      ensures Loose(heap, aux, m, ps) && Bytes(heap, m, ps) == Bytes(old(heap), m, ps)
      ensures Keeps(old(heap), aux, heap, aux) && SameLocks(old(heap), heap) && Still(old(heap), aux, heap)
      ensures ok ==> heap.parts[ps[0]].offset == m.firstOffset
    {
      hide PartsOk, CountsOk, BufsOk, RawsOk, Keeps, Keep, Private, View, Content;
      ok := true;
      LooseFirst(heap, aux, m, ps);
      KeepsSelf(heap, aux);
      var mp := m.first.value;
      if m.firstOffset != heap.parts[mp].offset {
        if heap.parts[mp].refcnt == 1 {
          TrimLemma(heap, aux, m, ps);
          heap := Resize(heap, mp, m.firstOffset, heap.parts[mp].end);
        } else {
          ok := false;
        }
      }
    }

    /** The walk over the parts that are the message's own, from its first part on. */
    method WalkOwn(m: Raw, ghost ps: seq<nat>, ok: bool) returns (mp: nat, prev: Option<nat>, total: int, ghost i: nat)
      requires Loose(heap, aux, m, ps) && LocksHeld(heap, aux)
      requires ok ==> heap.parts[ps[0]].offset == m.firstOffset
      ensures i < |ps| && mp == ps[i] && mp in heap.parts && prev == Before(ps, i) && SoleUpTo(heap, ps, i)
      ensures !ok ==> i == 0
      ensures ok ==> i == |ps| - 1 || heap.parts[mp].refcnt != 1
      ensures View(heap, ps[i..], Start(heap, ps, m.firstOffset, i), m.lastOffset)
      ensures total == |Content(heap, ps[i..], Start(heap, ps, m.firstOffset, i), m.lastOffset)|
    {
      hide PartsOk, CountsOk, BufsOk, RawsOk, Keep, Private, View, Content, LocksHeld, Start;
      LooseFirst(heap, aux, m, ps);
      mp, prev, total, i := m.first.value, None, m.total, 0;
      WalkStart(heap, m, ps);
      while ok && Some(mp) != m.last && heap.parts[mp].refcnt == 1
        invariant i < |ps| && mp == ps[i] && mp in heap.parts && prev == Before(ps, i) && SoleUpTo(heap, ps, i)
        invariant !ok ==> i == 0
        invariant View(heap, ps[i..], Start(heap, ps, m.firstOffset, i), m.lastOffset)
        invariant total == |Content(heap, ps[i..], Start(heap, ps, m.firstOffset, i), m.lastOffset)|
        decreases |ps| - i
      {
        WalkStep(heap, aux, m, ps, i);
        total := total - (heap.parts[mp].end - heap.parts[mp].offset);
        prev := Some(mp);
        mp := heap.parts[mp].next.value;
        i := i + 1;
      }
      WalkEnd(heap, aux, m, ps, i);
    }

    /** Copies the parts from mp on and drops the reference to the old ones. */
    method CopyRest(r: nat, m: Raw, ghost ps: seq<nat>, mp: nat, prev: Option<nat>, total: int, ghost i: nat)
      requires Loose(heap, aux, m, ps) && r !in heap.raws && LocksHeld(heap, aux)
      requires i < |ps| && mp == ps[i] && mp in heap.parts && prev == Before(ps, i) && SoleUpTo(heap, ps, i)
      requires i > 0 ==> heap.parts[ps[0]].offset == m.firstOffset
      requires View(heap, ps[i..], Start(heap, ps, m.firstOffset, i), m.lastOffset)
      requires total == |Content(heap, ps[i..], Start(heap, ps, m.firstOffset, i), m.lastOffset)|
      modifies this
      ensures Rebuilt(old(heap), old(aux), heap, aux, r, m, ps)
    {
      hide Loose, Good, Private, View, Content, LocksHeld, Start, SoleUpTo, CopyInv, CopyNext, CopyNextAux,
           CopyOffset, CopyEnd, Back, Forked, CopiedLength, Attach, Attached, Keeps, Shrunk, PrevOk;
      ghost var h0, a0 := heap, aux;
      ghost var qs, s := ps[i..], Start(heap, ps, m.firstOffset, i);
      CopyBegin(heap, aux, m, ps, i);
      if prev.Some? {
        heap, aux := SetNext(heap, prev.value, None), Held(aux, mp);
      }
      ghost var hd, ad := heap, aux;
      ghost var cs: seq<nat> := [];
      var cur, target, first, last, left, done := mp, prev, m.first.value, mp, total, false;
      while !done
        invariant CopyInv(hd, ad, heap, aux, qs, s, m.lastOffset, prev, cs) && target == Target(prev, cs)
        invariant if done then |cs| == |qs| && left == 0 else |cs| < |qs| && cur == qs[|cs|]
        invariant cs != [] ==> last == cs[|cs| - 1]
        invariant first == if cs == [] || prev.Some? then ps[0] else cs[0]
        invariant left == |Content(hd, qs, s, m.lastOffset)| - CopiedLength(hd, qs, s, m.lastOffset, |cs|)
        decreases |qs| - |cs|, !done
      {
        CopyIteration(h0, a0, m, ps, i, heap, aux, cs);
        left := left - (CopyEnd(heap, m, cur) - CopyOffset(heap, m, cur));
        var c, next := heap.unused, heap.parts[cur].next;
        heap, aux := CopyNext(heap, m, cur, target), CopyNextAux(heap, aux, ad.rank[cur], target);
        if target.None? { first := c; }
        cs := cs + [c];
        target, last := Some(c), c;
        if Some(cur) == m.last { done := true; } else { cur := next.value; }
      }
      assert left == 0;
      ghost var ns := ps[..i] + cs;
      CopyFinish(h0, a0, heap, aux, r, m, ps, i, cs, m.(first := Some(first), last := Some(last)));
      heap, aux := Attach(heap, r, m.(first := Some(first), last := Some(last))), Attached(aux, r, ns);
      ghost var h3, a3 := heap, aux;
      RebuiltMeans(h0, a0, heap, aux, r, m, ps, mp);
      Decref(mp);
      DropOld(h0, a0, h3, a3, heap, aux, r, m, ps, mp);
    }

    /** The whole chain is the message's own already: it is trimmed at its last part, and what follows
        is dropped. */
    method CutTail(r: nat, m: Raw, ghost ps: seq<nat>, mp: nat, total: int)
      requires Loose(heap, aux, m, ps) && r !in heap.raws && LocksHeld(heap, aux)
      requires mp == ps[|ps| - 1] && SoleUpTo(heap, ps, |ps|) && mp in heap.parts
      requires total == m.lastOffset - heap.parts[mp].offset
      modifies this
      ensures Back(old(heap), old(aux), heap, aux, r, m, ps, multiset{})
      ensures old(heap).parts[ps[0]].offset == m.firstOffset ==> Forked(heap, aux, r)
    {
      hide Loose, Good, Private, LocksHeld, SoleUpTo, Back, Forked, Attach, Attached, Keeps, Shrunk, Trimmed;
      ghost var h0, a0 := heap, aux;
      TrimLast(heap, aux, m, ps);
      heap := Resize(heap, mp, heap.parts[mp].offset, m.lastOffset);
      var left := total - (heap.parts[mp].end - heap.parts[mp].offset);
      assert left == 0;
      var next := heap.parts[mp].next;
      if next.Some? {
        TrimNext(h0, a0, heap, m, ps, r);
        heap, aux := SetNext(heap, mp, None), Held(aux, next.value);
        heap, aux := Attach(heap, r, m), Attached(aux, r, ps);
        ghost var h3, a3 := heap, aux;
        RebuiltMeans(h0, a0, heap, aux, r, m, ps, next.value);
        Decref(next.value);
        DropBack(h0, a0, h3, a3, heap, aux, r, m, ps, next.value);
        DropTail(h0, a0, h3, a3, heap, aux, r, m, ps, next.value);
      } else {
        TrimNoNext(h0, a0, heap, m, ps, r);
        heap, aux := Attach(heap, r, m), Attached(aux, r, ps);
      }
    }

    /** fork_message_chain */
    method Fork(r: nat)
      requires Good(heap, aux) && r in heap.raws && LocksElsewhere(heap, aux, r)
      modifies this
      ensures SameMessage(old(heap), old(aux), heap, aux, r) && Forked(heap, aux, r) && LocksElsewhere(heap, aux, r)
      ensures SameLocks(old(heap), heap)
    {
      hide Good, LocksHeld, SoleUpTo, Back, Keeps, View, Content, Start, SameMessage, Loose, SameLocks, Forked,
           Detach, Detached, LocksElsewhere;
      var m := heap.raws[r];
      ghost var h0, a0 := heap, aux;
      if m.first.None? {
        EmptyForked(heap, aux, r);
      } else {
        TakeOut(heap, aux, r);
        ghost var ps := aux.paths[r];
        heap, aux := Detach(heap, r), Detached(heap, aux, r);
        ghost var h1, a1 := heap, aux;
        var ok := TrimHead(m, ps);
        ghost var h2 := heap;
        TrimKeepsLocks(h1, a1, h2, m, ps);
        var mp, prev, total, i := WalkOwn(m, ps, ok);
        WalkEnd(heap, aux, m, ps, i);
        if !ok || heap.parts[mp].refcnt != 1 || Some(mp) != m.last {
          CopyRest(r, m, ps, mp, prev, total, i);
        } else {
          WholeChain(heap, aux, m, ps);
          CutTail(r, m, ps, mp, total);
        }
        PutBack(h0, a0, h1, a1, h2, heap, aux, r, m, ps);
      }
    }

    // ---------------------------------------------------------------- appending

    /** rwm_lock_last_part */
    method LockLast(r: nat) returns (locked: Option<nat>)
      requires Good(heap, aux) && r in heap.raws && heap.raws[r].first.Some? && LocksElsewhere(heap, aux, r)
      modifies this
      ensures LockedLast(old(heap), old(aux), heap, aux, r, locked)
    {
      hide Good, View, Content, SameMessage, Forked, LocksElsewhere;
      locked := None;
      ghost var h0, a0 := heap, aux;
      LastIn(heap, aux, r);
      var mp := heap.raws[r].last.value;
      if heap.parts[mp].next.Some? || heap.raws[r].lastOffset != heap.parts[mp].end || heap.parts[mp].locked {
        Fork(r);
        ForkLocks(h0, a0, heap, aux, r);
      } else {
        LockKeeps(heap, aux, r, mp);
        heap := SetLock(heap, mp, true);
        locked := Some(mp);
      }
    }

    /** The first part of an empty message, with room in front. */
    method PushIntoEmpty(r: nat, data: seq<byte>, prepend: nat, std: nat, size: nat) returns (pos: nat)
      requires Good(heap, aux) && aux.temp == multiset{} && OnlyLock(heap, None) && r in heap.raws &&
               heap.raws[r].first == None
      requires prepend <= size || (|data| <= std && std <= size)
      modifies this
      ensures pos <= |data| && Pushing(old(heap), old(aux), heap, aux, r, data[..pos], None)
    {
      hide Good, Pushing, FirstPart, OnlyLock;
      var gap := if |data| <= std && prepend > std - |data| then std - |data| else prepend;
      pos := if size - gap >= |data| then |data| else size - gap;
      var buffer := Filled(size, gap, data[..pos]);
      PushFirst(heap, aux, r, buffer, gap, gap + pos);
      heap, aux := FirstPart(heap, r, buffer, gap, gap + pos), FirstAux(heap, aux, r);
    }

    /** What fits into the last buffer goes there, unless somebody else uses the buffer. */
    method PushIntoLast(r: nat, data: seq<byte>) returns (pos: nat, locked: Option<nat>)
      requires Good(heap, aux) && aux.temp == multiset{} && OnlyLock(heap, None) && r in heap.raws &&
               heap.raws[r].first.Some?
      modifies this
      ensures pos <= |data|
      ensures RawOk(old(heap), old(aux), r) &&
              Pushing(old(heap), old(aux), heap, aux, r, Text(old(heap), old(aux), r) + data[..pos], locked)
    {
      hide Good, View, Content, Pushing, LockedLast, AppendInPlace, OnlyLock;
      ghost var h0, a0 := heap, aux;
      BecameSelf(heap, aux, r);
      ghost var text := Text(heap, aux, r);
      pos := 0;
      NoLocks(heap, aux, r);
      locked := LockLast(r);
      PushBegins(h0, a0, heap, aux, r, locked);
      PushPlace(h0, a0, heap, aux, r, text, locked);
      assert text + data[..0] == text;
      var mp := heap.raws[r].last.value;
      var b := heap.parts[mp].buf;
      if heap.bufs[b].refcnt == 1 {
        var sz := |heap.bufs[b].data| - heap.raws[r].lastOffset;
        if sz > 0 {
          pos := if sz >= |data| then |data| else sz;
          PushHere(h0, a0, heap, aux, r, mp, text, data[..pos], locked);
          heap := AppendInPlace(heap, r, mp, data[..pos]);
        }
      }
    }

    /** The rest of the bytes goes into new parts, as long as there are buffers. */
    method PushRest(r: nat, data: seq<byte>, from: nat, small: nat, std: nat, alloc: Allocator,
                    ghost h0: Heap, ghost a0: Aux, ghost text: seq<byte>, ghost locked: Option<nat>) returns (pos: nat)
      requires from <= |data| && Pushing(h0, a0, heap, aux, r, text + data[..from], locked)
      requires AllocatorOk(alloc) && 0 < small && 0 < std
      modifies this
      ensures from <= pos <= |data| && Pushing(h0, a0, heap, aux, r, text + data[..pos], locked)
      ensures NeverFails(alloc) ==> pos == |data|
    {
      hide Good, Pushing, AppendPart, AppendedPart;
      pos := from;
      var calls := 1;
      while pos < |data|
        invariant from <= pos <= |data| && Pushing(h0, a0, heap, aux, r, text + data[..pos], locked)
        decreases |data| - pos
      {
        PushPlace(h0, a0, heap, aux, r, text + data[..pos], locked);
        var mp, rest := heap.raws[r].last.value, |data| - pos;
        var X := alloc(calls, if heap.raws[r].total + rest >= std then std else small);
        if X.None? { break; }
        var k := if X.value >= rest then rest else X.value;
        var buffer := Filled(X.value, 0, data[pos..pos + k]);
        PushNew(h0, a0, heap, aux, r, mp, text + data[..pos], buffer, k, locked);
        heap, aux := AppendPart(heap, r, mp, buffer, k), AppendedPart(heap, aux, r, mp);
        assert text + data[..pos] + buffer[..k] == text + data[..pos + k];
        pos, calls := pos + k, calls + 1;
      }
    }

    /** rwm_push_data_ext with bytes to copy: what fits goes into the last buffer if nobody else uses
        it, the rest into new parts. */
    method PushData(r: nat, data: seq<byte>, prepend: nat, small: nat, std: nat, alloc: Allocator) returns (res: nat)
      requires Valid() && r in heap.raws && AllocatorOk(alloc) && 0 < small && 0 < std && prepend <= std
      modifies this
      ensures Valid() && r in heap.raws && res <= |data| && Message(r) == old(Message(r)) + data[..res]
      ensures Others(old(heap), old(aux), heap, aux, r)
      ensures NeverFails(alloc) ==> res == |data|
    {
      hide Good, View, Content, Pushing, Others, Became, AppendPart, OnlyLock;
      ghost var h0, a0 := heap, aux;
      BecameSelf(heap, aux, r);
      ghost var text := Message(r);
      assert text + data[..0] == text;
      if data == [] {
        return 0;
      }
      var locked, pos := None, 0;
      if heap.raws[r].first.None? {
        EmptyText(heap, aux, r);
        var X := alloc(0, if |data| >= small - prepend then std else small);
        if X.None? {
          return 0;
        }
        pos := PushIntoEmpty(r, data, prepend, std, X.value);
        assert text + data[..pos] == data[..pos];
      } else {
        pos, locked := PushIntoLast(r, data);
      }
      pos := PushRest(r, data, pos, small, std, alloc, h0, a0, text, locked);
      PushEnds(h0, a0, heap, aux, r, text + data[..pos], locked);
      PushingTemp(h0, a0, heap, aux, r, text + data[..pos], locked);
      heap := Unlocked(heap, locked);
      BecameMeans(h0, a0, heap, aux, r, text + data[..pos]);
      res := pos;
    }

    // ---------------------------------------------------------------- prepending

    /** rwm_lock_first_part */
    method LockFirst(r: nat)
      requires Good(heap, aux) && r in heap.raws && heap.raws[r].first.Some? && LocksElsewhere(heap, aux, r)
      modifies this
      ensures LockedFirst(old(heap), old(aux), heap, aux, r)
    {
      hide Good, LocksHeld, Loose, LocksElsewhere, BackAligned, Attach, Attached, Keeps, Shrunk, CopyFirst,
           CopyFirstAux, CopyFirstPath, LockedFirst, Text, RawOk, HasFirst;
      var m := heap.raws[r];
      ghost var h0, a0 := heap, aux;
      TakeOut(heap, aux, r);
      ghost var ps, h1, a1 := aux.paths[r], Detach(heap, r), Detached(heap, aux, r);
      FirstFacts(h1, a1, m, ps);
      var p := m.first.value;
      if heap.parts[p].refcnt == 1 {
        TrimFirst(h1, a1, m, ps, r);
        heap := Detach(heap, r);
        heap, aux := Attach(Resize(heap, p, m.firstOffset, heap.parts[p].end), r, m), Attached(a1, r, ps);
        FirstBack(h0, a0, h1, a1, heap, aux, r, m, ps);
      } else if heap.parts[p].offset == m.firstOffset {
        AlignedAlready(heap, aux, r);
      } else {
        if m.last == m.first { CopySingle(h1, a1, m, ps, r); } else { CopyMulti(h1, a1, m, ps, r); }
        heap := Detach(heap, r);
        heap, aux := Attach(CopyFirst(heap, m), r, CopyFirstRaw(heap, m)), Attached(CopyFirstAux(h1, a1, p), r,
          CopyFirstPath(h1, ps));
        ghost var h3, a3 := heap, aux;
        BackAlignedMeans(h1, a1, heap, aux, r, m, ps, multiset{p});
        Decref(p);
        DropFirst(h1, a1, h3, a3, heap, aux, r, m, ps);
        FirstBack(h0, a0, h1, a1, heap, aux, r, m, ps);
      }
    }

    /** rwm_push_data_front: the bytes before the window of the first buffer if it is the message's own,
        then new parts in front; an allocation must not fail. */
    method PushFront(r: nat, data: seq<byte>, alloc: Allocator)
      requires Valid() && r in heap.raws && AllocatorOk(alloc) && NeverFails(alloc)
      modifies this
      ensures Valid() && r in heap.raws && Message(r) == data + old(Message(r)) &&
              Others(old(heap), old(aux), heap, aux, r)
    {
      hide Good, View, Content, Others, Became, OnlyLock, Fronting, AddFront, FrontRaw, AddedFront, GrowFront,
           LockedFirst, Attach, Attached, Detach, Detached;
      BecameSelf(heap, aux, r);
      ghost var h0, a0, old_ := heap, aux, Message(r);
      if data == [] {
        assert data + old_ == old_;
        return;
      }
      if heap.raws[r].first.Some? {
        NoLocks(heap, aux, r);
        LockFirst(r);
        SecuredFront(h0, a0, heap, aux, r);
      }
      ghost var h1, a1 := heap, aux;
      PathIn(heap, aux, r);
      EmptyPath(heap, aux, r);
      FrontBegins(heap, aux, r);
      var m := heap.raws[r];
      ghost var ps := aux.paths[r];
      heap, aux := Detach(heap, r), Detached(heap, aux, r);
      ghost var h2, a2 := heap, aux;
      var n := |data|;
      assert data[n..] + old_ == old_;
      FrontFacts(h2, a2, heap, aux, m, ps, data[n..] + old_);
      if m.first.Some? && heap.parts[m.first.value].refcnt == 1 &&
        heap.bufs[heap.parts[m.first.value].buf].refcnt == 1 {
        var k := if n > m.firstOffset then m.firstOffset else n;
        FrontHere(h2, a2, heap, aux, m, ps, data[n..] + old_, data[n - k..n]);
        heap := GrowFront(heap, m.first.value, data[n - k..n]);
        m := m.(firstOffset := m.firstOffset - k, total := m.total + k);
        assert data[n - k..n] + (data[n..] + old_) == data[n - k..] + old_;
        n := n - k;
      }
      n, m, ps := PrependRest(data, n, m, ps, alloc, h2, a2, old_);
      assert data[n..] + old_ == data + old_;
      FrontEnds(h1, a1, h2, a2, heap, aux, r, m, ps, data[n..] + old_);
      heap, aux := Attach(heap, r, m), Attached(aux, r, ps);
      BecameFrom(h0, a0, h1, a1, heap, aux, r, data + old_);
      BecameMeans(h0, a0, heap, aux, r, data + old_);
    }

    method PrependRest(data: seq<byte>, from: nat, m0: Raw, ghost ps0: seq<nat>, alloc: Allocator, ghost h0: Heap,
                       ghost a0: Aux, ghost text: seq<byte>)
      returns (n: nat, m: Raw, ghost ps: seq<nat>)
      requires from <= |data| && Fronting(h0, a0, heap, aux, m0, ps0, data[from..] + text) && AllocatorOk(alloc) &&
               NeverFails(alloc)
      modifies this
      ensures n == 0 && Fronting(h0, a0, heap, aux, m, ps, data[n..] + text)
    {
      hide Good, Fronting, AddFront, FrontRaw, AddedFront;
      n, m, ps := from, m0, ps0;
      var calls := 0;
      while n > 0
        invariant n <= |data| && Fronting(h0, a0, heap, aux, m, ps, data[n..] + text)
      {
        var X := alloc(calls, if n >= 512 then 2048 else 512);
        var size := X.value;
        var k := if n > size then size else n;
        var buffer := Filled(size, size - k, data[n - k..n]);
        FrontNew(h0, a0, heap, aux, m, ps, data[n..] + text, buffer, size - k);
        ghost var ns := [heap.unused + 1] + ps;
        var m' := FrontRaw(heap, m, buffer, size - k);
        heap, aux := AddFront(heap, m.first, buffer, size - k), AddedFront(heap, aux, ps);
        assert buffer[size - k..] + (data[n..] + text) == data[n - k..] + text;
        n, m, ps, calls := n - k, m', ns, calls + 1;
      }
    }

    // ---------------------------------------------------------------- creating, cloning, freeing, uniting

    /** A new message without bytes. */
    method Create(r: nat)
      requires Valid() && r !in heap.raws
      modifies this
      ensures Valid() && r in heap.raws && Message(r) == [] && Others(old(heap), old(aux), heap, aux, r)
    {
      hide PartsOk, CountsOk, BufsOk, RawsOk, Keep, Keeps, View, Content, Others;
      var m := Raw(None, None, 0, 0, 0);
      AttachGood(heap, aux, r, m, []);
      KeepsSelf(heap, aux);
      AttachOthers(heap, aux, heap, aux, r, m, []);
      heap, aux := Attach(heap, r, m), Attached(aux, r, []);
    }

    /** rwm_clone */
    method Clone(dest: nat, src: nat)
      requires Valid() && src in heap.raws && dest !in heap.raws
      modifies this
      ensures Valid() && src in heap.raws && dest in heap.raws
      ensures Message(dest) == old(Message(src)) && Message(src) == old(Message(src))
      ensures Others(old(heap), old(aux), heap, aux, dest)
    {
      hide Good, RawOk, Text;
      CloneGood(heap, aux, dest, src);
      heap, aux := Cloned(heap, dest, src), aux.(paths := aux.paths[dest := aux.paths[src]]);
    }

    /** rwm_free, with some part of another message locked perhaps. */
    method Drop(t: nat)
      requires Good(heap, aux) && t in heap.raws && LocksElsewhere(heap, aux, t)
      modifies this
      ensures Gone(old(heap), old(aux), heap, aux, t)
    {
      hide Good, LocksHeld, Loose, LocksElsewhere, Keeps, Shrunk, Gone, Detached, Text, RawOk;
      ghost var h0, a0 := heap, aux;
      var first := heap.raws[t].first;
      if first.None? {
        DetachGone(heap, aux, t);
        heap, aux := Detach(heap, t), Detached(heap, aux, t);
      } else {
        TakeOut(heap, aux, t);
        DetachedHolds(heap, aux, t);
        heap, aux := Detach(heap, t), Detached(heap, aux, t);
        Decref(first.value);
        DropGone(h0, a0, heap, aux, t, first.value);
      }
    }

    /** rwm_free */
    method Free(r: nat)
      requires Valid() && r in heap.raws
      modifies this
      ensures Valid() && r !in heap.raws && Others(old(heap), old(aux), heap, aux, r)
    {
      hide Good, Others, LocksElsewhere;
      NoLocks(heap, aux, r);
      Drop(r);
    }

    /** rwm_union: r gets the bytes of t behind its own, and t is gone. The two may share parts, even
        their last one. */
    method Union(r: nat, t: nat)
      requires Valid() && r in heap.raws && t in heap.raws && r != t
      modifies this
      ensures Valid() && r in heap.raws && heap.raws.Keys == old(heap.raws.Keys) - {t}
      ensures Message(r) == old(Message(r)) + old(Message(t))
      ensures forall k :: k in heap.raws && k != r ==> k in old(heap.raws) && Message(k) == old(Message(k))
    {
      hide Good, Others, LocksElsewhere, LockedLast, LockedFirst, Securing, CanUnite, Became, Gone, AllSame,
           OnlyLock, Text, RawOk, UnitedAux, United, Detach, Renew, Moved;
      ghost var h0, a0 := heap, aux;
      if heap.raws[r].last.None? {
        MoveInto(heap, aux, r, t);
        ghost var a1 := Moved(heap, aux, r, t);
        heap := Renew(Detach(heap, t), r, heap.raws[t]);
        aux := a1;
      } else if heap.raws[t].first.None? {
        NoLocks(heap, aux, t);
        Drop(t);
        NothingAdded(h0, a0, heap, aux, r, t);
      } else {
        NoLocks(heap, aux, r);
        HasParts(heap, aux, r);
        var locked := LockLast(r);
        ghost var h1, a1 := heap, aux;
        SecuredElsewhere(h0, a0, h1, a1, r, t, locked);
        StillThere(h0, a0, h1, a1, r, t, locked);
        var l2 := LockLast(t);
        BothSecured(h0, a0, h1, a1, heap, aux, r, t, locked, l2);
        heap := Unlocked(heap, l2);
        ghost var h3, a3 := heap, aux;
        SecuringGood(h0, a0, h3, a3, r, t, locked);
        LockFirst(t);
        FirstSecured(h0, a0, h3, a3, heap, aux, r, t, locked);
        SecuringGood(h0, a0, heap, aux, r, t, locked);
        UniteFacts(heap, aux, r, t);
        UniteGood(heap, aux, r, t);
        UnitedPath(heap, aux, r, t);
        LockedIsLast(h0, a0, heap, aux, r, t, locked);
        UnitedLocks(h0, a0, heap, aux, r, t, locked);
        ghost var h4, a4 := heap, aux;
        heap, aux := United(heap, r, t), UnitedAux(aux, r, t);
        ghost var h5, a5 := heap, aux;
        Drop(t);
        UnionEnds(h0, a0, h4, a4, h5, a5, heap, aux, r, t, locked);
        heap := Unlocked(heap, locked);
      }
      UnionMeans(h0, a0, heap, aux, r, t);
    }

    // ---------------------------------------------------------------- splitting, fetching, truncating

    /** The walk from the first part to the part where byte k lies, and whether every part on the way
        has a single reference. */
    method Seek(r: nat, k: int) returns (mp: nat, x: int, ok: bool, ghost n: nat)
      requires Good(heap, aux) && r in heap.raws && heap.raws[r].first.Some? && 0 <= k <= heap.raws[r].total
      ensures Located(heap, aux, r, n, x, k) && Reading(heap, aux, r, n, mp)
      ensures ok ==> SoleUpTo(heap, aux.paths[r], n + 1)
    {
      hide Good, RawOk, Located, Reading, Passed, Start, Inside, SoleUpTo;
      var m, left := heap.raws[r], k;
      mp, ok, n := m.first.value, true, 0;
      WalkFrom(heap, aux, r);
      ReadingPart(heap, aux, r, 0, mp);
      WalkRange(heap, aux, r, 0, mp);
      SoleNone(heap, aux.paths[r]);
      while true
        invariant Reading(heap, aux, r, n, mp) && 0 <= left
        invariant r in aux.paths && n < |aux.paths[r]| && mp in heap.parts && forall i :: 0 <= i < |aux.paths[r]| ==>
                  aux.paths[r][i] in heap.parts
        invariant left + At(heap, aux.paths[r], m.firstOffset, n, FirstByte(heap, m, mp)) == k
        invariant ok ==> SoleUpTo(heap, aux.paths[r], n)
        decreases |aux.paths[r]| - n
      {
        WalkRange(heap, aux, r, n, mp);
        SoleMore(heap, aux, r, n, mp);
        if heap.parts[mp].refcnt != 1 { ok := false; }
        var start := FirstByte(heap, m, mp);
        var len := EndByte(heap, m, mp) - start;
        if len >= left {
          x := start + left;
          WalkPlace(heap, aux, r, n, mp, x);
          return;
        }
        AtStep(heap, aux, r, n, mp);
        left := left - len;
        mp := heap.parts[mp].next.value;
        n := n + 1;
      }
    }

    /** rwm_split, for a positive number of bytes. */
    method SplitMessage(r: nat, t: nat, bytes: int) returns (res: int)
      requires Valid() && r in heap.raws && t !in heap.raws && 0 < bytes
      modifies this
      ensures Valid() && r in heap.raws && t in heap.raws && heap.raws.Keys == old(heap.raws.Keys) + {t}
      ensures bytes < |old(Message(r))| ==>
                res == 0 && Message(r) == old(Message(r))[..bytes] && Message(t) == old(Message(r))[bytes..]
      ensures bytes >= |old(Message(r))| ==>
                res == (if bytes == |old(Message(r))| then 0 else -1) && Message(r) == old(Message(r)) &&
                  Message(t) == []
      ensures forall k :: k in old(heap.raws) && k != r ==> Message(k) == old(Message(k))
    {
      hide Good, View, Content, Others, Located, Reading, SplitDone, OnlyLock, SplitHeap, SplitAux, SoleUpTo;
      TotalIs(heap, aux, r);
      var m := heap.raws[r];
      if bytes >= m.total {
        ghost var h0, a0 := heap, aux;
        Create(t);
        NewBeside(h0, a0, heap, aux, r, t);
        return if bytes == m.total then 0 else -1;
      }
      LastOfNonEmpty(heap, aux, r);
      var q, x;
      ghost var n;
      if m.total - bytes <= m.lastOffset - heap.parts[m.last.value].offset {
        InLastPart(heap, aux, r, m.total - bytes);
        q, x, n := m.last.value, m.lastOffset - (m.total - bytes), |aux.paths[r]| - 1;
      } else {
        var ok;
        q, x, ok, n := Seek(r, bytes);
      }
      ReadingPart(heap, aux, r, n, q);
      SplitGood(heap, aux, r, t, n, x, bytes);
      PlainDone(heap, aux, SplitHeap(heap, r, t, q, x, bytes), SplitAux(aux, r, t, n), r, t, bytes);
      heap, aux := SplitHeap(heap, r, t, q, x, bytes), SplitAux(aux, r, t, n);
      return 0;
    }

    /** rwm_move */
    method Move(dest: nat, src: nat)
      requires Valid() && src in heap.raws && dest !in heap.raws
      modifies this
      ensures Valid() && dest in heap.raws && heap.raws.Keys == old(heap.raws.Keys) - {src} + {dest}
      ensures Message(dest) == old(Message(src))
      ensures forall k :: k in old(heap.raws) && k != src ==> k in heap.raws && Message(k) == old(Message(k))
    {
      hide Good, RawOk, Text, Attach, Attached, Detach, Detached, MoveDone;
      MoveGood(heap, aux, dest, src);
      ghost var a' := Attached(Detached(heap, aux, src), dest, aux.paths[src]);
      MoveMeans(heap, aux, Attach(Detach(heap, src), dest, heap.raws[src]), a', dest, src);
      heap := Attach(Detach(heap, src), dest, heap.raws[src]);
      aux := a';
    }

    /** rwm_split_head: the new message gets the first bytes, r keeps the rest. */
    method SplitHead(head: nat, r: nat, bytes: int) returns (res: int)
      requires Valid() && r in heap.raws && head !in heap.raws && 0 < bytes
      modifies this
      ensures Valid() && r in heap.raws && head in heap.raws && heap.raws.Keys == old(heap.raws.Keys) + {head}
      ensures bytes < |old(Message(r))| ==>
                res == 0 && Message(head) == old(Message(r))[..bytes] && Message(r) == old(Message(r))[bytes..]
      ensures bytes >= |old(Message(r))| ==>
                res == (if bytes == |old(Message(r))| then 0 else -1) && Message(head) == old(Message(r)) &&
                  Message(r) == []
      ensures forall k :: k in old(heap.raws) && k != r ==> Message(k) == old(Message(k))
    {
      hide Good, RawOk, Text;
      Move(head, r);
      res := SplitMessage(head, r, bytes);
    }

    /** rwm_clear */
    method Clear(r: nat)
      requires Valid() && r in heap.raws
      modifies this
      ensures Valid() && r in heap.raws && Became(old(heap), old(aux), heap, aux, r, [])
    {
      hide Good, Others, LocksElsewhere, Became, Gone, OnlyLock, Attach, Attached;
      ghost var h0, a0 := heap, aux;
      NoLocks(heap, aux, r);
      Drop(r);
      ClearedText(h0, a0, heap, aux, r);
      heap, aux := Attach(heap, r, Raw(None, None, 0, 0, 0)), Attached(aux, r, []);
      BecameMeans(h0, a0, heap, aux, r, []);
    }

    /** Reads `bytes` bytes on from position x of part mp, block by block. */
    method Collect(r: nat, mp0: nat, x0: int, ok0: bool, bytes: int, ghost n0: nat, ghost k: int)
      returns (data: seq<byte>, mp: nat, x: int, ok: bool, ghost n: nat)
      requires Good(heap, aux) && Located(heap, aux, r, n0, x0, k) && Reading(heap, aux, r, n0, mp0) && 0 <= bytes
      requires RawOk(heap, aux, r) && k + bytes <= |Text(heap, aux, r)|
      requires ok0 ==> SoleUpTo(heap, aux.paths[r], n0 + 1)
      ensures Located(heap, aux, r, n, x, k + bytes) && Reading(heap, aux, r, n, mp)
      ensures 0 <= k && data == Text(heap, aux, r)[k..k + bytes]
      ensures ok ==> SoleUpTo(heap, aux.paths[r], n + 1)
    {
      hide Good, RawOk, Located, Reading, Passed, Start, Inside, SoleUpTo, Text;
      var left := bytes;
      data, mp, x, ok, n := [], mp0, x0, ok0, n0;
      ReadingPart(heap, aux, r, n, mp);
      var m := heap.raws[r];
      ghost var at := k;
      LocatedText(heap, aux, r, n, x, k);
      while true
        invariant Reading(heap, aux, r, n, mp) && r in aux.paths && n < |aux.paths[r]| && mp in heap.parts &&
                  Located(heap, aux, r, n, x, at)
        invariant 0 <= left && k <= at && at + left == k + bytes && data == Text(heap, aux, r)[k..at]
        invariant ok ==> SoleUpTo(heap, aux.paths[r], n + 1)
        decreases |aux.paths[r]| - n
      {
        WalkRange(heap, aux, r, n, mp);
        SoleMore(heap, aux, r, n, mp);
        LocatedIn(heap, aux, r, n, mp, x, at);
        var len := EndByte(heap, m, mp) - x;
        var take := if len >= left then left else len;
        ReadOn(heap, aux, r, n, mp, x, at, x + take);
        data := data + heap.bufs[heap.parts[mp].buf].data[x..x + take];
        assert Text(heap, aux, r)[k..at] + Text(heap, aux, r)[at..at + take] == Text(heap, aux, r)[k..at + take];
        x, left, at := x + take, left - take, at + take;
        if left == 0 { return; }
        EndOfPart(heap, aux, r, n, mp, x, at);
        mp := heap.parts[mp].next.value;
        n := n + 1;
        ReadingPart(heap, aux, r, n, mp);
        SoleMore(heap, aux, r, n, mp);
        x := FirstByte(heap, m, mp);
        if heap.parts[mp].refcnt != 1 { ok := false; }
      }
    }

    /** The first k bytes of message r go: it starts at position x of part mp now. */
    method DropTo(r: nat, mp: nat, x: int, ok: bool, k: int, ghost n: nat)
      requires Valid() && Located(heap, aux, r, n, x, k) && Reading(heap, aux, r, n, mp)
      requires ok ==> SoleUpTo(heap, aux.paths[r], n + 1)
      modifies this
      ensures Valid() && r in old(heap.raws) && r in heap.raws && 0 <= k <= |old(Message(r))| &&
              Message(r) == old(Message(r))[k..]
      ensures Others(old(heap), old(aux), heap, aux, r)
    {
      hide Good, RawOk, Located, Reading, Others, Became, OnlyLock, DropHeap, DropAux, SoleUpTo, Keeps, Shrunk,
           LocksHeld, LockedFirst;
      ghost var h0, a0 := heap, aux;
      ReadingPart(heap, aux, r, n, mp);
      LocatedText(heap, aux, r, n, x, k);
      ghost var text := Text(heap, aux, r)[k..];
      var first := heap.raws[r].first;
      var moved := first != Some(mp);
      FirstOrNot(heap, aux, r, n, mp);
      if moved {
        DropFront(heap, aux, r, n, x, k);
        NotDropped(heap, aux, r, n, x, k);
        heap, aux := DropHeap(heap, r, mp, x, k), DropAux(aux, r, n);
        ghost var h1, a1 := heap, aux;
        Decref(first.value);
        DropDone(h0, a0, h1, a1, heap, aux, r, first.value, text);
        if ok { OwnAgain(h0, a0, r, n, x, k, heap, aux); }
      } else {
        ZeroPart(heap, aux, r, n, mp, x, k);
        SkipFront(heap, aux, r, x, k);
        SkipLocks(heap, r, x, k);
        heap := SkipHeap(heap, r, x, k);
        if ok { SoleFirst(h0, a0, r, x, k); }
      }
      BecameMeans(h0, a0, heap, aux, r, text);
      if ok {
        // the part is the message's own: its window is trimmed as well
        ghost var h2, a2 := heap, aux;
        NoLocks(heap, aux, r);
        LockFirst(r);
        SecuredFront(h2, a2, heap, aux, r);
        BecameFrom(h0, a0, h2, a2, heap, aux, r, text);
        BecameMeans(h0, a0, heap, aux, r, text);
      }
    }

    /** Message r ends after k bytes, at position x of part mp; what follows is dropped if the chain up
        to there is the message's own. */
    method CutTo(r: nat, mp: nat, x: int, ok: bool, k: int, ghost n: nat)
      requires Valid() && Located(heap, aux, r, n, x, k) && Reading(heap, aux, r, n, mp)
      requires ok ==> SoleUpTo(heap, aux.paths[r], n + 1)
      modifies this
      ensures Valid() && r in old(heap.raws) && r in heap.raws && 0 <= k <= |old(Message(r))| &&
              Message(r) == old(Message(r))[..k]
      ensures Others(old(heap), old(aux), heap, aux, r)
    {
      hide Good, RawOk, Located, Reading, Others, Became, OnlyLock, SoleUpTo, Back, Loose, LocksHeld, LocksElsewhere,
           Detach, Detached, SameMessage, Forked, Text;
      ghost var h0, a0 := heap, aux;
      ReadingPart(heap, aux, r, n, mp);
      CutEnd(heap, aux, r, n, x, k);
      ghost var text := Text(heap, aux, r)[..k];
      CutFacts(heap, aux, r, n, mp, x, k);
      heap, aux := CutHeap(heap, r, mp, x, k), CutEndAux(aux, r, n);
      BecameMeans(h0, a0, heap, aux, r, text);
      if ok {
        ghost var h1, a1 := heap, aux;
        NoLocks(heap, aux, r);
        CutSole(h0, a0, r, n, mp, x, k);
        TakeOut(heap, aux, r);
        ghost var ps := aux.paths[r];
        var m := heap.raws[r];
        ghost var h2, a2 := Detach(heap, r), Detached(heap, aux, r);
        DetachKeepsSole(heap, r, ps);
        heap, aux := Detach(heap, r), Detached(heap, aux, r);
        CutTail(r, m, ps, mp, x - heap.parts[mp].offset);
        PutBackAt(h1, a1, h2, a2, heap, aux, r, m, ps);
        TrimmedBack(h1, a1, heap, aux, r);
        BecameFrom(h0, a0, h1, a1, heap, aux, r, text);
        BecameMeans(h0, a0, heap, aux, r, text);
      }
    }

    /** The fast path of rwm_process_ex: everything from the offset on lies in the last part. */
    method ProcessLast(r: nat, bytes: int, offset: int, mode: Mode) returns (data: seq<byte>)
      requires Valid() && r in heap.raws && 0 < bytes && 0 <= offset && offset + bytes <= heap.raws[r].total
      requires heap.raws[r].last.Some? && heap.raws[r].last.value in heap.parts
      requires heap.raws[r].total - offset <= heap.raws[r].lastOffset - heap.parts[heap.raws[r].last.value].offset
      modifies this
      ensures ProcessDone(old(heap), old(aux), heap, aux, r, offset, bytes, mode, data)
    {
      hide Good, RawOk, Located, Reading, Others, OnlyLock, SoleUpTo, Text, ProcessDone;
      ghost var h0, a0 := heap, aux;
      var m := heap.raws[r];
      LastOfNonEmpty(heap, aux, r);
      BecameSelf(heap, aux, r);
      TotalIs(heap, aux, r);
      var left := m.total - offset;
      InLastPart(heap, aux, r, left);
      FastRead(heap, aux, r, left, bytes);
      ghost var n := |aux.paths[r]| - 1;
      var x := m.lastOffset - left;
      data := heap.bufs[heap.parts[m.last.value].buf].data[x..x + bytes];
      if mode.Advance? {
        DropTo(r, m.last.value, x + bytes, false, offset + bytes, n);
      } else if mode.Truncate? {
        CutTo(r, m.last.value, x, false, offset, n);
      }
      BecameSelf(heap, aux, r);
      ProcessBy(h0, a0, heap, aux, r, offset, bytes, mode, data);
    }

    /** The walk of rwm_process_ex along the chain. */
    method ProcessWalk(r: nat, bytes: int, offset: int, mode: Mode) returns (data: seq<byte>)
      requires Valid() && r in heap.raws && 0 < bytes && 0 <= offset && offset + bytes <= heap.raws[r].total
      modifies this
      ensures ProcessDone(old(heap), old(aux), heap, aux, r, offset, bytes, mode, data)
    {
      hide Good, RawOk, Located, Reading, Others, OnlyLock, SoleUpTo, Text, ProcessDone, Became;
      ghost var h0, a0 := heap, aux;
      LastOfNonEmpty(heap, aux, r);
      BecameSelf(heap, aux, r);
      TotalIs(heap, aux, r);
      var total := heap.raws[r].total;
      var np, x0, ok, n0 := Seek(r, offset);
      var mp, x1, ok2;
      ghost var n1;
      data, mp, x1, ok2, n1 := Collect(r, np, x0, ok, bytes, n0, offset);
      if (mode.Advance? && offset + bytes == total) || (mode.Truncate? && offset == 0) {
        Clear(r);
        BecameMeans(h0, a0, heap, aux, r, []);
      } else if mode.Advance? {
        DropTo(r, mp, x1, ok2, offset + bytes, n1);
      } else if mode.Truncate? {
        CutTo(r, np, x0, ok, offset, n0);
      }
      BecameSelf(heap, aux, r);
      ProcessBy(h0, a0, heap, aux, r, offset, bytes, mode, data);
    }

    /** rwm_process_ex with a block function that copies: rwm_fetch_data, rwm_skip_data, rwm_fetch_lookup,
        rwm_fetch_data_back, rwm_trunc are its uses. */
    method Process(r: nat, wanted: int, offset: int, mode: Mode) returns (data: seq<byte>)
      requires Valid() && r in heap.raws && 0 <= wanted && 0 <= offset
      modifies this
      ensures Valid() && r in heap.raws && Others(old(heap), old(aux), heap, aux, r)
      ensures var text := old(Message(r));
              var bytes := if offset + wanted > |text| then |text| - offset else wanted;
              if bytes <= 0 then data == [] && Message(r) == text
              else data == text[offset..offset + bytes] && Message(r) == Processed(text, offset, bytes, mode)
    {
      hide Good, RawOk, Others, OnlyLock, Text, ProcessDone, Became;
      ghost var h0, a0 := heap, aux;
      BecameSelf(heap, aux, r);
      TotalIs(heap, aux, r);
      var m := heap.raws[r];
      var bytes := if offset + wanted > m.total then m.total - offset else wanted;
      if bytes <= 0 {
        return [];
      }
      LastOfNonEmpty(heap, aux, r);
      if m.total - offset <= m.lastOffset - heap.parts[m.last.value].offset {
        data := ProcessLast(r, bytes, offset, mode);
      } else {
        data := ProcessWalk(r, bytes, offset, mode);
      }
      ProcessMeans(h0, a0, heap, aux, r, offset, bytes, mode, data);
    }
  }
}
