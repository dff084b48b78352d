/** Every step of the queue keeps the invariant. */
module MpqProof {
  import opened MpqModel
  import opened MpqInvariant

  // ---------------------------------------------------------------- what one step may change

  /** Cells only move forward: the index grows, and under one index a value never vanishes. */
  ghost predicate CellGrows(c: Cell, c': Cell) {
    c.idx <= c'.idx && (c.idx == c'.idx && c'.val == 0 ==> c.val == 0)
  }

  ghost predicate BlockGrows(k: Block, k': Block) {
    && |k.cells| == |k'.cells|
    && k.head <= k'.head
    && k.tail <= k'.tail
    && (k.closed ==> k'.closed)
    && (forall j :: 0 <= j < |k.cells| ==> CellGrows(k.cells[j], k'.cells[j]))
  }

  ghost predicate HistoryGrows(s: State, s': State, p: Tid) {
    && (forall sl :: sl in s.pushed ==> sl in s'.pushed && s'.pushed[sl] == s.pushed[sl])
    && (forall sl :: sl in s'.pushed && sl !in s.pushed ==> s'.pushed[sl].done == s.now)
    && (forall sl :: sl in s.taken ==> sl in s'.taken && s'.taken[sl] == s.taken[sl])
    && (forall sl :: sl in s'.taken && sl !in s.taken ==> s'.taken[sl].done == s.now)
    && s.left <= s'.left
    && (forall sl :: sl in s.drawn ==> sl in s'.drawn && s'.drawn[sl] == s.drawn[sl])
  }

  /** What the steps of p leave alone in the tickets of the others. */
  ghost predicate TicketsKept(s: State, s': State, p: Tid) {
    && s'.threads.Keys == s.threads.Keys
    && (forall q :: q in s.threads && q != p ==> s'.threads[q] == s.threads[q])
    && (forall q, sl :: q in s.threads && q != p && HoldsPush(s.threads[q], sl) && sl in s'.pushed ==> sl in s.pushed)
    && (forall sl :: sl in s.drawn && s.drawn[sl] != p ==>
          && (sl in s'.taken ==> sl in s.taken)
          && (sl in s'.left ==> sl in s.left))
  }

  ghost predicate Grows(s: State, s': State, p: Tid)
    requires WellFormed(s) && WellFormed(s')
  {
    && s'.gated == s.gated
    && |s.blocks| <= |s'.blocks|
    && (forall b :: 0 <= b < |s.blocks| ==> BlockGrows(s.blocks[b], s'.blocks[b]))
    && s.mqHead <= s'.mqHead
    && s'.now == s.now + 1
    && HistoryGrows(s, s', p)
    && TicketsKept(s, s', p)
    && (forall sl :: sl in s'.left && sl !in s.left && sl.blk < |s.blocks| ==>
          CellAt(s', sl).idx > sl.tkt || CellAt(s', sl).val != 0)
    && (forall b :: 0 <= b < |s.blocks| && Drained(s, b) ==> Drained(s', b))
  }

  lemma CellAtGrows(s: State, s': State, p: Tid, sl: Slot)
    requires WellFormed(s) && WellFormed(s') && Grows(s, s', p) && sl.blk < |s.blocks|
    ensures CellGrows(CellAt(s, sl), CellAt(s', sl))
  {
    assert BlockGrows(s.blocks[sl.blk], s'.blocks[sl.blk]);
  }

  lemma PushAtStays(s: State, s': State, p: Tid, sl: Slot, at: PushAt)
    requires WellFormed(s) && WellFormed(s') && Grows(s, s', p) && sl.blk < |s.blocks|
    requires PushAtOk(s, sl, at)
    ensures PushAtOk(s', sl, at)
  {
    CellAtGrows(s, s', p, sl);
    assert BlockGrows(s.blocks[sl.blk], s'.blocks[sl.blk]);
    if at.PushCas? && !at.safe && CellAt(s', sl).idx == at.i && CellAt(s', sl).val == 0 {
      forall x | x in s'.left && SameCell(s', x, sl) ensures x.tkt < sl.tkt {
        assert CellAt(s', x) == CellAt(s', sl);
        assert SameCell(s, x, sl);
      }
    }
  }

  lemma PushAfterStays(s: State, s': State, p: Tid, beg: nat, b: nat)
    requires WellFormed(s) && WellFormed(s') && Grows(s, s', p) && PushAfter(s, beg, b)
    ensures PushAfter(s', beg, b)
  {
  }

  lemma PopAfterStays(s: State, s': State, p: Tid, beg: nat, b: nat)
    requires WellFormed(s) && WellFormed(s') && Grows(s, s', p) && PopAfter(s, beg, b)
    ensures PopAfter(s', beg, b)
  {
  }

  lemma PushTicketStays(s: State, s': State, p: Tid, q: Tid, v: Val, beg: nat, sl: Slot)
    requires WellFormed(s) && WellFormed(s') && Grows(s, s', p)
    requires q in s.threads && q != p && HoldsPush(s.threads[q], sl)
    requires PushTicketOk(s, v, beg, sl)
    ensures PushTicketOk(s', v, beg, sl)
  {
    assert BlockGrows(s.blocks[sl.blk], s'.blocks[sl.blk]);
    PushAfterStays(s, s', p, beg, sl.blk);
  }

  lemma PopTicketStays(s: State, s': State, p: Tid, q: Tid, beg: nat, sl: Slot, second: bool)
    requires WellFormed(s) && WellFormed(s') && Grows(s, s', p)
    requires q != p && PopTicketOk(s, q, beg, sl, second)
    ensures PopTicketOk(s', q, beg, sl, second)
  {
    PopAfterStays(s, s', p, beg, sl.blk);
  }

  /** A thread that did not move still knows what it knew. */
  lemma OtherThreadStays(s: State, s': State, p: Tid, q: Tid)
    requires WellFormed(s) && WellFormed(s') && Grows(s, s', p)
    requires q in s.threads && q != p && ThreadOk(s, q, s.threads[q])
    ensures ThreadOk(s', q, s.threads[q])
  {
    match s.threads[q]
    case PuBlock(v, beg, b, at) =>
      PushAfterStays(s, s', p, beg, b);
      assert BlockGrows(s.blocks[b], s'.blocks[b]);
    case PuTicket(v, beg, b, _, t, at) =>
      PushTicketStays(s, s', p, q, v, beg, Slot(b, t));
      PushAtStays(s, s', p, Slot(b, t), at);
    case PoRecheck(beg, b) => PopAfterStays(s, s', p, beg, b);
    case PoFaa(beg, b, _) => PopAfterStays(s, s', p, beg, b);
    case PoTicket(beg, b, second, h, _) => PopTicketStays(s, s', p, q, beg, Slot(b, h), second);
    case PoReadTail(beg, b, _, h) =>
      PopAfterStays(s, s', p, beg, b);
      assert BlockGrows(s.blocks[b], s'.blocks[b]);
    case Fix(beg, b, _, _) => PopAfterStays(s, s', p, beg, b);
    case Check(b, at) => assert BlockGrows(s.blocks[b], s'.blocks[b]);
    case _ =>
  }

  lemma ThreadsStay(s: State, s': State, p: Tid)
    requires WellFormed(s) && WellFormed(s') && Grows(s, s', p) && ThreadsInv(s)
    requires p in s.threads && ThreadOk(s', p, s'.threads[p])
    ensures ThreadsInv(s')
  {
    forall q | q in s'.threads ensures ThreadOk(s', q, s'.threads[q]) {
      if q != p { OtherThreadStays(s, s', p, q); }
    }
  }

  // ---------------------------------------------------------------- counting threads

  function One(r: Role, pc: Pc): nat {
    if RoleOf(pc) == r then 1 else 0
  }

  lemma WhoAfter(threads: map<Tid, Pc>, p: Tid, pc: Pc, r: Role)
    requires p in threads
    ensures |Who(threads[p := pc], r)| == |Who(threads, r)| - One(r, threads[p]) + One(r, pc)
  {
    var a := Who(threads, r);
    var a' := Who(threads[p := pc], r);
    if RoleOf(pc) == r {
      assert a' == a + {p};
    } else {
      assert a' == a - {p};
    }
  }

  lemma RolesAfter(threads: map<Tid, Pc>, p: Tid, pc: Pc)
    requires p in threads
    ensures |Who(threads[p := pc], Popping)| == |Who(threads, Popping)| - One(Popping, threads[p]) + One(Popping, pc)
    ensures |Who(threads[p := pc], Undoing)| == |Who(threads, Undoing)| - One(Undoing, threads[p]) + One(Undoing, pc)
    ensures |Who(threads[p := pc], Unposted)|
            == |Who(threads, Unposted)| - One(Unposted, threads[p]) + One(Unposted, pc)
  {
    WhoAfter(threads, p, pc, Popping);
    WhoAfter(threads, p, pc, Undoing);
    WhoAfter(threads, p, pc, Unposted);
  }

  // ---------------------------------------------------------------- steps that only move a thread

  /** Nothing shared changes except p's program point, the clock, the list pointers and
      the semaphore counters. */
  ghost predicate SameQueue(s: State, s': State, p: Tid) {
    && s'.gated == s.gated && s'.blocks == s.blocks && s'.now == s.now + 1
    && s'.pushed == s.pushed && s'.taken == s.taken && s'.left == s.left && s'.drawn == s.drawn
    && s.mqHead <= s'.mqHead
    && p in s.threads && p in s'.threads && s'.threads == s.threads[p := s'.threads[p]]
    && (forall sl :: HoldsPop(s.threads[p], sl) ==> HoldsPop(s'.threads[p], sl))
    && (forall sl :: HoldsPush(s'.threads[p], sl) ==> HoldsPush(s.threads[p], sl))
  }

  lemma SameQueueGrows(s: State, s': State, p: Tid)
    requires WellFormed(s) && WellFormed(s') && SameQueue(s, s', p)
    ensures Grows(s, s', p)
  {
    forall b | 0 <= b < |s.blocks| && Drained(s, b) ensures Drained(s', b) { }
  }

  lemma SameQueueSlots(s: State, s': State, p: Tid)
    requires WellFormed(s) && WellFormed(s') && SameQueue(s, s', p)
    requires CellsInv(s) && SlotsInv(s)
    ensures CellsInv(s') && SlotsInv(s')
  {
    forall b, j | 0 <= b < |s'.blocks| && 0 <= j < |s'.blocks[b].cells| ensures CellOk(s', b, j) {
      assert CellOk(s, b, j);
    }
    forall sl | sl in s'.pushed ensures PushedOk(s', sl) { assert PushedOk(s, sl); }
    forall sl | sl in s'.taken ensures TakenOk(s', sl) { assert TakenOk(s, sl); }
    forall sl | sl in s'.left ensures LeftOk(s', sl) { assert LeftOk(s, sl); }
    forall sl | sl in s'.drawn ensures DrawnOk(s', sl) { assert DrawnOk(s, sl); }
  }

  lemma SameQueueTickets(s: State, s': State, p: Tid)
    requires WellFormed(s) && WellFormed(s') && SameQueue(s, s', p)
    requires TicketsInv(s) && OrderInv(s)
    ensures TicketsInv(s') && OrderInv(s')
  {
  }

  lemma SameQueueList(s: State, s': State, p: Tid)
    requires WellFormed(s) && WellFormed(s') && SameQueue(s, s', p)
    requires ListInv(s)
    requires s'.mqHead == s.mqHead || (s'.mqHead == s.mqHead + 1 && Drained(s, s.mqHead))
    ensures ListInv(s')
  {
    SameQueueGrows(s, s', p);
  }

  lemma SameQueueStep(s: State, s': State, p: Tid)
    requires Inv(s) && WellFormed(s') && SameQueue(s, s', p)
    requires s'.mqHead == s.mqHead || (s'.mqHead == s.mqHead + 1 && Drained(s, s.mqHead))
    requires CountInv(s')
    requires p in s'.threads && ThreadOk(s', p, s'.threads[p])
    ensures Inv(s')
  {
    hide CellsInv, SlotsInv, OrderInv, ListInv, TicketsInv, CountInv, ThreadsInv, Grows, ThreadOk;
    SameQueueGrows(s, s', p);
    SameQueueSlots(s, s', p);
    SameQueueTickets(s, s', p);
    SameQueueList(s, s', p);
    ThreadsStay(s, s', p);
  }

  /** A step that changes nothing but p's program point. */
  lemma LocalCount(s: State, p: Tid, pc: Pc)
    requires CountInv(s) && p in s.threads && (s.gated ==> RoleOf(pc) == RoleOf(s.threads[p]))
    ensures CountInv(Tick(s, p, pc))
  {
    RolesAfter(s.threads, p, pc);
  }

  lemma LocalStep(s: State, p: Tid, pc: Pc)
    requires Inv(s) && p in s.threads && PcBlock(pc) < |s.blocks|
    requires s.gated ==> RoleOf(pc) == RoleOf(s.threads[p])
    requires forall sl :: HoldsPop(s.threads[p], sl) ==> HoldsPop(pc, sl)
    requires forall sl :: HoldsPush(pc, sl) ==> HoldsPush(s.threads[p], sl)
    requires WellFormed(Tick(s, p, pc)) ==> ThreadOk(Tick(s, p, pc), p, pc)
    ensures Inv(Tick(s, p, pc))
  {
    hide CellsInv, SlotsInv, OrderInv, ListInv, TicketsInv, CountInv, ThreadsInv, Grows, ThreadOk;
    var s' := Tick(s, p, pc);
    assert WellFormed(s');
    LocalCount(s, p, pc);
    SameQueueStep(s, s', p);
  }
}
