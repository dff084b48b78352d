/** The steps of the queue that write to the list, a block's counters or a cell. */
module MpqSteps {
  import opened MpqModel
  import opened MpqInvariant
  import opened MpqProof

  // ---------------------------------------------------------------- list pointers and semaphore

  lemma MoveTailStep(s: State, p: Tid, tail: nat, pc: Pc)
    requires Inv(s) && p in s.threads && tail < |s.blocks|
    requires !s.threads[p].PoTicket? && !pc.PuTicket? && PcBlock(pc) < |s.blocks|
    requires s.gated ==> RoleOf(pc) == RoleOf(s.threads[p])
    requires var s' := Tick(s.(mqTail := tail), p, pc); WellFormed(s') ==> ThreadOk(s', p, pc)
    ensures Inv(Tick(s.(mqTail := tail), p, pc))
  {
    hide CellsInv, SlotsInv, OrderInv, ListInv, TicketsInv, ThreadsInv, Grows, ThreadOk;
    var s' := Tick(s.(mqTail := tail), p, pc);
    assert WellFormed(s');
    RolesAfter(s.threads, p, pc);
    SameQueueStep(s, s', p);
  }

  lemma MoveHeadStep(s: State, p: Tid, beg: nat, b: nat)
    requires Inv(s) && p in s.threads && s.threads[p] == Fix(beg, b, true, Empty)
    requires ThreadOk(s, p, s.threads[p]) && s.mqHead == b
    ensures Inv(Tick(s.(mqHead := b + 1), p, PoReadHead(beg)))
  {
    hide CellsInv, SlotsInv, OrderInv, ListInv, TicketsInv, ThreadsInv, Grows;
    var s' := Tick(s.(mqHead := b + 1), p, PoReadHead(beg));
    assert WellFormed(s');
    RolesAfter(s.threads, p, PoReadHead(beg));
    SameQueueStep(s, s', p);
  }

  lemma SemaphoreStep(s: State, p: Tid, s': State)
    requires Inv(s) && p in s.threads
    requires s.threads[p].Sem? || s.threads[p].PuPost?
    requires s' == s.(sem := s'.sem, posted := s'.posted, acquired := s'.acquired,
                      threads := s'.threads, now := s.now + 1)
    requires p in s'.threads && s'.threads == s.threads[p := s'.threads[p]]
    requires s'.threads[p].Idle? || (s.gated && s'.threads[p].Sem?) || s'.threads[p] == PoReadHead(s.now)
    requires CountInv(s')
    ensures Inv(s')
  {
    hide CellsInv, SlotsInv, OrderInv, ListInv, TicketsInv, ThreadsInv, Grows, CountInv;
    assert WellFormed(s');
    SameQueueStep(s, s', p);
  }

  /** A semaphore step moves the value, the units out and the undoing threads in step. */
  lemma SemCount(s: State, s': State, p: Tid, pc: Pc, got: nat)
    requires CountInv(s) && p in s.threads && RoleOf(pc) in {Plain, Undoing, Popping} &&
             One(Unposted, s.threads[p]) == 0
    requires s' == Tick(s.(sem := s'.sem, acquired := s.acquired + got), p, pc)
    requires One(Popping, s.threads[p]) == 0 && got == One(Popping, pc)
    requires s'.sem == s.sem + One(Undoing, s.threads[p]) - One(Undoing, pc) - got
    requires got == 1 ==> s.sem > 0 && One(Undoing, s.threads[p]) == 0
    ensures CountInv(s')
  {
    RolesAfter(s.threads, p, pc);
  }

  lemma SemGotInv(s: State, p: Tid, c: Choice)
    requires Inv(s) && p in s.threads && s.threads[p] == Sem(SemDec) && s.sem > 0
    ensures Inv(SemStep(s, p, SemDec, c))
  {
    hide CellsInv, SlotsInv, OrderInv, ListInv, TicketsInv, ThreadsInv;
    var s' := SemStep(s, p, SemDec, c);
    SemCount(s, s', p, PoReadHead(s.now), 1);
    SemaphoreStep(s, p, s');
  }

  lemma SemMovedInv(s: State, p: Tid, s': State, pc: Pc)
    requires Inv(s) && p in s.threads && s.threads[p].Sem? && s.gated
    requires pc.Idle? || pc.Sem?
    requires s' == Tick(s.(sem := s.sem + One(Undoing, s.threads[p]) - One(Undoing, pc)), p, pc)
    ensures Inv(s')
  {
    hide CellsInv, SlotsInv, OrderInv, ListInv, TicketsInv, ThreadsInv;
    SemCount(s, s', p, pc, 0);
    SemaphoreStep(s, p, s');
  }

  lemma SemMissedInv(s: State, p: Tid, c: Choice)
    requires Inv(s) && s.gated && p in s.threads && s.threads[p] == Sem(SemDec) && s.sem <= 0
    ensures Inv(SemStep(s, p, SemDec, c))
  {
    hide CellsInv, SlotsInv, OrderInv, ListInv, TicketsInv, CountInv, ThreadsInv;
    var s' := SemStep(s, p, SemDec, c);
    SemMovedInv(s, p, s', s'.threads[p]);
  }

  lemma SemReadInv(s: State, p: Tid, c: Choice)
    requires Inv(s) && s.gated && p in s.threads && s.threads[p] == Sem(SemRead)
    ensures Inv(SemStep(s, p, SemRead, c))
  {
    hide CellsInv, SlotsInv, OrderInv, ListInv, TicketsInv, CountInv, ThreadsInv;
    var s' := SemStep(s, p, SemRead, c);
    SemMovedInv(s, p, s', s'.threads[p]);
  }

  lemma SemUndoInv(s: State, p: Tid, c: Choice)
    requires Inv(s) && s.gated && p in s.threads && s.threads[p] == Sem(SemUndo)
    ensures Inv(SemStep(s, p, SemUndo, c))
  {
    hide CellsInv, SlotsInv, OrderInv, ListInv, TicketsInv, CountInv, ThreadsInv;
    var s' := SemStep(s, p, SemUndo, c);
    SemMovedInv(s, p, s', s'.threads[p]);
  }

  lemma PostInv(s: State, p: Tid, c: Choice)
    requires Inv(s) && p in s.threads && s.threads[p] == PuPost
    ensures Inv(Step(s, p, c))
  {
    hide CellsInv, SlotsInv, OrderInv, ListInv, TicketsInv, ThreadsInv;
    RolesAfter(s.threads, p, Idle);
    SemaphoreStep(s, p, Step(s, p, c));
  }

  // ---------------------------------------------------------------- counters of one block

  /** Only block b's counters move, and only p's program point. */
  ghost predicate CountersMove(s: State, s': State, p: Tid, b: nat)
    requires b < |s.blocks|
  {
    && s'.gated == s.gated
    && |s'.blocks| == |s.blocks|
    && s'.blocks == s.blocks[b := s'.blocks[b]]
    && s'.blocks[b].cells == s.blocks[b].cells
    && s.blocks[b].tail <= s'.blocks[b].tail
    && s.blocks[b].head <= s'.blocks[b].head
    && (s.blocks[b].closed ==> s'.blocks[b].closed)
    && s'.mqHead == s.mqHead && s'.mqTail == s.mqTail
    && s'.sem == s.sem && s'.posted == s.posted && s'.acquired == s.acquired && s'.now == s.now + 1
    && s'.pushed == s.pushed && s'.taken == s.taken && s'.left == s.left
    && p in s.threads && p in s'.threads && s'.threads == s.threads[p := s'.threads[p]]
    && RoleOf(s'.threads[p]) == RoleOf(s.threads[p])
    && !s.threads[p].PoTicket?
  }

  lemma CountersGrow(s: State, s': State, p: Tid, b: nat)
    requires WellFormed(s) && WellFormed(s') && b < |s.blocks| && CountersMove(s, s', p, b)
    requires forall sl :: sl in s.drawn ==> sl in s'.drawn && s'.drawn[sl] == s.drawn[sl]
    requires forall sl :: HoldsPush(s'.threads[p], sl) ==>
               HoldsPush(s.threads[p], sl) || (sl.blk < |s.blocks| && !s.blocks[sl.blk].closed)
    ensures Grows(s, s', p)
  {
    forall d | 0 <= d < |s.blocks| ensures BlockGrows(s.blocks[d], s'.blocks[d]) { }
    forall d | 0 <= d < |s.blocks| && Drained(s, d) ensures Drained(s', d) { }
  }

  lemma CountersKeepSlots(s: State, s': State, p: Tid, b: nat)
    requires WellFormed(s) && WellFormed(s') && b < |s.blocks| && CountersMove(s, s', p, b)
    requires forall sl :: sl in s.drawn ==> sl in s'.drawn && s'.drawn[sl] == s.drawn[sl]
    requires CellsInv(s) && SlotsInv(s)
    ensures CellsInv(s')
    ensures forall sl :: sl in s'.pushed ==> PushedOk(s', sl)
    ensures forall sl :: sl in s'.taken ==> TakenOk(s', sl)
    ensures forall sl :: sl in s'.left ==> LeftOk(s', sl)
    ensures forall sl :: sl in s.drawn ==> DrawnOk(s', sl)
  {
    forall d, j | 0 <= d < |s'.blocks| && 0 <= j < |s'.blocks[d].cells| ensures CellOk(s', d, j) {
      assert CellOk(s, d, j);
    }
    forall sl | sl in s'.pushed ensures PushedOk(s', sl) { assert PushedOk(s, sl); }
    forall sl | sl in s'.taken ensures TakenOk(s', sl) { assert TakenOk(s, sl); }
    forall sl | sl in s'.left ensures LeftOk(s', sl) { assert LeftOk(s, sl); }
    forall sl | sl in s.drawn ensures DrawnOk(s', sl) { assert DrawnOk(s, sl); }
  }

  lemma CountersKeepRest(s: State, s': State, p: Tid, b: nat)
    requires Inv(s) && WellFormed(s') && b < |s.blocks| && CountersMove(s, s', p, b)
    requires Grows(s, s', p)
    ensures ListInv(s') && OrderInv(s') && CountInv(s')
  {
    RolesAfter(s.threads, p, s'.threads[p]);
  }

  lemma TailTickets(s: State, s': State, p: Tid, b: nat)
    requires WellFormed(s) && ThreadsInv(s) && TicketsInv(s) && b < |s.blocks| && CountersMove(s, s', p, b)
    requires !s.threads[p].PuTicket?
    requires s'.threads[p].PuTicket? ==>
               Slot(s'.threads[p].b, s'.threads[p].t) == Slot(b, s.blocks[b].tail) && !s.blocks[b].closed
    ensures TicketsInv(s')
  {
    forall q, r, sl | q in s'.threads && r in s'.threads && q != r && HoldsPush(s'.threads[q], sl)
      ensures !HoldsPush(s'.threads[r], sl)
    {
      assert ThreadOk(s, q, s.threads[q]) && ThreadOk(s, r, s.threads[r]);
    }
  }

  lemma TailSlots(s: State, s': State, p: Tid, b: nat)
    requires WellFormed(s) && WellFormed(s') && b < |s.blocks| && CountersMove(s, s', p, b)
    requires s'.drawn == s.drawn && s'.blocks[b].head == s.blocks[b].head
    requires CellsInv(s) && SlotsInv(s)
    ensures CellsInv(s') && SlotsInv(s')
  {
    CountersKeepSlots(s, s', p, b);
  }

  /** Tail counters: a draw on an open block hands out a fresh ticket. */
  lemma TailStep(s: State, s': State, p: Tid, b: nat)
    requires Inv(s) && WellFormed(s') && b < |s.blocks| && CountersMove(s, s', p, b)
    requires s'.drawn == s.drawn && s'.blocks[b].head == s.blocks[b].head
    requires !s.threads[p].PuTicket?
    requires s'.threads[p].PuTicket? ==>
               Slot(s'.threads[p].b, s'.threads[p].t) == Slot(b, s.blocks[b].tail) && !s.blocks[b].closed
    requires ThreadOk(s', p, s'.threads[p])
    ensures Inv(s')
  {
    hide CellsInv, SlotsInv, OrderInv, ListInv, TicketsInv, CountInv, ThreadsInv, Grows, ThreadOk;
    CountersGrow(s, s', p, b);
    TailSlots(s, s', p, b);
    CountersKeepRest(s, s', p, b);
    ThreadsStay(s, s', p);
    TailTickets(s, s', p, b);
  }

  lemma FreshPushTicket(s: State, b: nat)
    requires WellFormed(s) && SlotsInv(s) && b < |s.blocks|
    ensures forall sl :: sl in s.pushed && sl.blk == b ==> sl.tkt < s.blocks[b].tail
  {
    forall sl | sl in s.pushed && sl.blk == b ensures sl.tkt < s.blocks[b].tail { assert PushedOk(s, sl); }
  }

  lemma DrawTailInv(s: State, p: Tid, v: Val, beg: nat, b: nat, iter: nat)
    requires Inv(s) && p in s.threads && ThreadOk(s, p, s.threads[p]) &&
             s.threads[p] == PuBlock(v, beg, b, DrawTail(iter))
    ensures Inv(PushBlockStep(s, p, v, beg, b, DrawTail(iter)))
  {
    hide CellsInv, SlotsInv, OrderInv, ListInv, TicketsInv, CountInv, ThreadsInv;
    var s' := PushBlockStep(s, p, v, beg, b, DrawTail(iter));
    assert WellFormed(s');
    FreshPushTicket(s, b);
    TailStep(s, s', p, b);
  }

  lemma CloseInv(s: State, p: Tid, v: Val, beg: nat, b: nat)
    requires Inv(s) && p in s.threads && ThreadOk(s, p, s.threads[p]) && s.threads[p] == PuBlock(v, beg, b, Close)
    ensures Inv(PushBlockStep(s, p, v, beg, b, Close))
  {
    hide CellsInv, SlotsInv, OrderInv, ListInv, TicketsInv, CountInv, ThreadsInv;
    var s' := PushBlockStep(s, p, v, beg, b, Close);
    assert WellFormed(s');
    TailStep(s, s', p, b);
  }

  lemma FixCasInv(s: State, p: Tid, beg: nat, b: nat, second: bool, ft: nat, fh: nat)
    requires Inv(s) && p in s.threads && ThreadOk(s, p, s.threads[p]) &&
             s.threads[p] == Fix(beg, b, second, FixCas(ft, fh))
    requires s.blocks[b].tail == ft && !s.blocks[b].closed
    ensures Inv(FixStep(s, p, beg, b, second, FixCas(ft, fh)))
  {
    hide CellsInv, SlotsInv, OrderInv, ListInv, TicketsInv, CountInv, ThreadsInv;
    var s' := FixStep(s, p, beg, b, second, FixCas(ft, fh));
    assert WellFormed(s');
    TailStep(s, s', p, b);
  }

  /** Head counters: a draw hands p the ticket after all those drawn so far. */
  lemma DrawHeadSlots(s: State, s': State, p: Tid, b: nat, sl: Slot)
    requires Inv(s) && WellFormed(s') && b < |s.blocks| && CountersMove(s, s', p, b)
    requires sl == Slot(b, s.blocks[b].head) && sl !in s.drawn
    requires s'.drawn == s.drawn[sl := p] && s'.blocks[b].head == s.blocks[b].head + 1
    requires HoldsPop(s'.threads[p], sl)
    ensures SlotsInv(s')
  {
    CountersKeepSlots(s, s', p, b);
    forall x | x in s'.drawn ensures DrawnOk(s', x) { }
    forall d, t: nat | 0 <= d < |s'.blocks| && t < s'.blocks[d].head ensures Slot(d, t) in s'.drawn { }
  }

  lemma FreshPopTicket(s: State, b: nat, sl: Slot)
    requires Inv(s) && b < |s.blocks| && sl == Slot(b, s.blocks[b].head)
    ensures sl !in s.drawn && sl !in s.left && sl !in s.taken
    ensures forall x :: x in s.taken && x.blk == b ==> x.tkt < sl.tkt
  {
    assert sl in s.drawn ==> DrawnOk(s, sl);
    assert sl in s.left ==> LeftOk(s, sl);
    forall x | x in s.taken ensures x in s.drawn && (x.blk == b ==> x.tkt < sl.tkt) {
      assert TakenOk(s, x) && DrawnOk(s, x);
    }
  }

  lemma DrawHeadOwn(s: State, s': State, p: Tid, beg: nat, b: nat, second: bool, sl: Slot)
    requires Inv(s) && WellFormed(s') && b < |s.blocks| && CountersMove(s, s', p, b)
    requires sl == Slot(b, s.blocks[b].head)
    requires s'.drawn == s.drawn[sl := p]
    requires ThreadOk(s, p, PoFaa(beg, b, second))
    ensures ThreadOk(s', p, PoTicket(beg, b, second, sl.tkt, PopVal))
  {
    FreshPopTicket(s, b, sl);
  }

  lemma DrawHeadInv(s: State, s': State, p: Tid, beg: nat, b: nat, second: bool)
    requires Inv(s) && p in s.threads && ThreadOk(s, p, s.threads[p]) && s.threads[p] == PoFaa(beg, b, second)
    requires b < |s.blocks|
    requires s' == Tick(SetBlock(s, b, s.blocks[b].(head := s.blocks[b].head + 1)).(drawn := s.drawn[Slot(b,
             s.blocks[b].head) := p]),
                        p, PoTicket(beg, b, second, s.blocks[b].head, PopVal))
    ensures Inv(s')
  {
    hide CellsInv, SlotsInv, OrderInv, ListInv, CountInv, ThreadsInv, Grows, ThreadOk;
    var sl := Slot(b, s.blocks[b].head);
    assert WellFormed(s');
    FreshPopTicket(s, b, sl);
    CountersGrow(s, s', p, b);
    CountersKeepSlots(s, s', p, b);
    DrawHeadSlots(s, s', p, b, sl);
    CountersKeepRest(s, s', p, b);
    DrawHeadOwn(s, s', p, beg, b, second, sl);
    ThreadsStay(s, s', p);
  }
}
