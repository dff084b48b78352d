/** Linking a block, the counting argument behind the semaphore, and the theorems about
    whole runs of the queue. */
module MpqTheorems {
  import opened MpqModel
  import opened MpqInvariant
  import opened MpqProof
  import opened MpqSteps
  import opened MpqCells

  // ---------------------------------------------------------------- linking a new block

  ghost predicate Linked(s: State, s': State, p: Tid, v: Val, beg: nat, b: nat, size: nat)
    requires 0 < size
  {
    && b + 1 == |s.blocks|
    && p in s.threads
    && s' == Tick(s.(blocks := s.blocks + [NewBlock(v, size)],
                     pushed := s.pushed[Slot(b + 1, 0) := PushRec(v, beg, s.now)]), p, PuSwing(b))
  }

  lemma LinkedFresh(s: State, sl: Slot)
    requires WellFormed(s) && SlotsInv(s) && sl.blk == |s.blocks|
    ensures sl !in s.pushed && sl !in s.taken && sl !in s.left && sl !in s.drawn
  {
    assert sl in s.pushed ==> PushedOk(s, sl);
    assert sl in s.taken ==> TakenOk(s, sl);
    assert sl in s.left ==> LeftOk(s, sl);
    assert sl in s.drawn ==> DrawnOk(s, sl);
  }

  lemma LinkedGrow(s: State, s': State, p: Tid, v: Val, beg: nat, b: nat, size: nat)
    requires 0 < size && Linked(s, s', p, v, beg, b, size)
    requires WellFormed(s) && WellFormed(s') && SlotsInv(s) && ThreadsInv(s)
    requires !s.threads[p].PoTicket?
    ensures Grows(s, s', p)
  {
    var sl := Slot(b + 1, 0);
    LinkedFresh(s, sl);
    forall q, x | q in s.threads && q != p && HoldsPush(s.threads[q], x) && x in s'.pushed ensures x in s.pushed {
      assert ThreadOk(s, q, s.threads[q]);
    }
    forall d | 0 <= d < |s.blocks| ensures BlockGrows(s.blocks[d], s'.blocks[d]) { }
    forall d | 0 <= d < |s.blocks| && Drained(s, d) ensures Drained(s', d) { }
  }

  lemma LinkedCells(s: State, s': State, p: Tid, v: Val, beg: nat, b: nat, size: nat)
    requires 0 < size && Linked(s, s', p, v, beg, b, size)
    requires WellFormed(s) && WellFormed(s') && CellsInv(s) && Slot(b + 1, 0) !in s.taken
    ensures CellsInv(s')
  {
    forall d, j | 0 <= d < |s'.blocks| && 0 <= j < |s'.blocks[d].cells| ensures CellOk(s', d, j) {
      if d < |s.blocks| {
        assert CellOk(s, d, j);
      } else {
        SmallRemainder(j, size);
      }
    }
  }

  lemma SmallRemainder(j: nat, n: nat)
    requires j < n
    ensures j % n == j
  {
  }

  lemma LinkedSlots(s: State, s': State, p: Tid, v: Val, beg: nat, b: nat, size: nat)
    requires 0 < size && v != 0 && beg <= s.now && Linked(s, s', p, v, beg, b, size)
    requires WellFormed(s) && WellFormed(s') && SlotsInv(s)
    requires !s.threads[p].PoTicket?
    ensures SlotsInv(s')
  {
    var sl := Slot(b + 1, 0);
    LinkedFresh(s, sl);
    forall x | x in s'.pushed ensures PushedOk(s', x) {
      if x != sl { assert PushedOk(s, x); }
    }
    forall x | x in s'.taken ensures TakenOk(s', x) { assert TakenOk(s, x); }
    forall x | x in s'.left ensures LeftOk(s', x) { assert LeftOk(s, x); }
    forall x | x in s'.drawn ensures DrawnOk(s', x) { assert DrawnOk(s, x); }
  }

  lemma LinkedOrder(s: State, s': State, p: Tid, v: Val, beg: nat, b: nat, size: nat)
    requires 0 < size && Linked(s, s', p, v, beg, b, size)
    requires WellFormed(s) && SlotsInv(s) && OrderInv(s) && PushAfter(s, beg, b)
    ensures OrderInv(s')
  {
    forall x | x in s.pushed ensures s.pushed[x].begin <= s.now { assert PushedOk(s, x); }
  }

  lemma LinkedRest(s: State, s': State, p: Tid, v: Val, beg: nat, b: nat, size: nat)
    requires 0 < size && Linked(s, s', p, v, beg, b, size)
    requires WellFormed(s) && WellFormed(s') && Grows(s, s', p)
    requires ListInv(s) && TicketsInv(s) && CountInv(s)
    requires s.threads[p].PuBlock? && s.blocks[b].closed && Slot(b + 1, 0) !in s.pushed
    ensures ListInv(s') && TicketsInv(s') && CountInv(s')
  {
    CellMovesCount(s, s', p, PuSwing(b));
  }

  lemma LinkedInv(s: State, s': State, p: Tid, v: Val, beg: nat, b: nat, size: nat)
    requires 0 < size && Linked(s, s', p, v, beg, b, size)
    requires Inv(s) && ThreadOk(s, p, s.threads[p]) && s.threads[p] == PuBlock(v, beg, b, Link(size))
    ensures Inv(s')
  {
    hide CellsInv, SlotsInv, OrderInv, ListInv, TicketsInv, CountInv, ThreadsInv, Grows;
    assert WellFormed(s');
    LinkedFresh(s, Slot(b + 1, 0));
    LinkedGrow(s, s', p, v, beg, b, size);
    LinkedCells(s, s', p, v, beg, b, size);
    LinkedSlots(s, s', p, v, beg, b, size);
    LinkedOrder(s, s', p, v, beg, b, size);
    LinkedRest(s, s', p, v, beg, b, size);
    ThreadsStay(s, s', p);
  }

  // ---------------------------------------------------------------- counting

  /** Distinct tickets are held by distinct threads, so they do not outnumber them. */
  lemma {:induction false} Pigeonhole(tickets: set<Slot>, holders: set<Tid>, threads: map<Tid, Pc>,
                                      drawn: map<Slot, Tid>)
    requires forall u :: u in tickets ==>
      u in drawn && drawn[u] in holders && drawn[u] in threads && HoldsPop(threads[drawn[u]], u)
    ensures |tickets| <= |holders|
  {
    if tickets != {} {
      var u :| u in tickets;
      Pigeonhole(tickets - {u}, holders - {drawn[u]}, threads, drawn);
    }
  }

  /** A pop in progress holds the ticket of value u and cannot leave without it. */
  ghost predicate Promised(s: State, u: Slot) {
    u in s.drawn && s.drawn[u] in s.threads && HoldsPop(s.threads[s.drawn[u]], u)
  }

  /** A pop that failed at ticket h and finds the tail at most h + 1, in the last block, knows
      that every value in the queue is promised to another pop in progress. */
  lemma EveryValuePromised(s: State, p: Tid, beg: nat, b: nat, second: bool, h: nat, u: Slot)
    requires WellFormed(s) && SlotsInv(s) && ListInv(s)
    requires p in s.threads && s.threads[p] == PoReadTail(beg, b, second, h) && ThreadOk(s, p, s.threads[p])
    requires s.blocks[b].tail <= h + 1 && b + 1 == |s.blocks|
    requires u in s.pushed && u !in s.taken
    ensures Promised(s, u) && s.drawn[u] != p
  {
    assert PushedOk(s, u);
    if u.blk < b { assert Drained(s, u.blk); }
    assert u.tkt < s.blocks[u.blk].head;
    assert Slot(u.blk, u.tkt) in s.drawn;
    assert DrawnOk(s, u);
    assert u in s.left ==> LeftOk(s, u);
  }

  lemma WaitingCount(pushed: map<Slot, PushRec>, taken: map<Slot, PopRec>)
    requires taken.Keys <= pushed.Keys
    ensures |pushed.Keys - taken.Keys| == |pushed| - |taken|
  {
  }

  lemma TakenWerePushed(s: State)
    requires forall x :: x in s.taken ==> TakenOk(s, x)
    ensures s.taken.Keys <= s.pushed.Keys
  {
    forall x | x in s.taken ensures x in s.pushed { assert TakenOk(s, x); }
  }

  lemma HeldCount(pushed: map<Slot, PushRec>, taken: map<Slot, PopRec>, threads: map<Tid, Pc>, drawn: map<Slot, Tid>,
                  p: Tid)
    requires taken.Keys <= pushed.Keys
    requires p in threads && RoleOf(threads[p]) == Popping
    requires forall u :: u in pushed && u !in taken ==>
      u in drawn && drawn[u] in threads && drawn[u] != p && HoldsPop(threads[drawn[u]], u)
    ensures |pushed| - |taken| < |Who(threads, Popping)|
  {
    Pigeonhole(pushed.Keys - taken.Keys, Who(threads, Popping) - {p}, threads, drawn);
    WaitingCount(pushed, taken);
  }

  lemma PopsOutnumberValues(s: State, p: Tid, beg: nat, b: nat, second: bool, h: nat)
    requires WellFormed(s) && SlotsInv(s) && ListInv(s)
    requires p in s.threads && s.threads[p] == PoReadTail(beg, b, second, h) && ThreadOk(s, p, s.threads[p])
    requires s.blocks[b].tail <= h + 1 && b + 1 == |s.blocks|
    ensures |s.pushed| - |s.taken| < |Who(s.threads, Popping)|
  {
    TakenWerePushed(s);
    hide SlotsInv, ListInv;
    forall u | u in s.pushed && u !in s.taken
      ensures u in s.drawn && s.drawn[u] in s.threads && s.drawn[u] != p && HoldsPop(s.threads[s.drawn[u]], u)
    {
      EveryValuePromised(s, p, beg, b, second, h, u);
    }
    HeldCount(s.pushed, s.taken, s.threads, s.drawn, p);
  }

  /** Behind a semaphore, an empty-looking block is never the last one. */
  lemma MoreBlocksFollow(s: State, p: Tid, beg: nat, b: nat, second: bool, h: nat)
    requires Inv(s) && s.gated
    requires p in s.threads && s.threads[p] == PoReadTail(beg, b, second, h)
    requires s.blocks[b].tail <= h + 1
    ensures b + 1 < |s.blocks|
  {
    assert ThreadOk(s, p, s.threads[p]);
    if b + 1 == |s.blocks| {
      PopsOutnumberValues(s, p, beg, b, second, h);
    }
  }

  /** The second failure on a closed block: nothing can appear there any more unpromised. */
  lemma SecondFailureDrains(s: State, b: nat, h: nat)
    requires WellFormed(s) && SlotsInv(s) && ListInv(s) && ThreadsInv(s)
    requires b + 1 < |s.blocks| && s.blocks[b].tail <= h + 1 && h < s.blocks[b].head
    ensures Drained(s, b)
  {
    OvertakenDrains(s, b);
  }

  /** A closed block whose head has caught up with its tail is drained. */
  lemma OvertakenDrains(s: State, b: nat)
    requires WellFormed(s) && SlotsInv(s) && ThreadsInv(s)
    requires b < |s.blocks| && s.blocks[b].closed && s.blocks[b].tail <= s.blocks[b].head
    ensures Drained(s, b)
  {
    forall sl | sl in s.pushed && sl.blk == b ensures sl.tkt < s.blocks[b].head { assert PushedOk(s, sl); }
    forall p, t: nat | p in s.threads && HoldsPush(s.threads[p], Slot(b, t)) ensures t < s.blocks[b].head {
      assert ThreadOk(s, p, s.threads[p]);
    }
  }

  // ---------------------------------------------------------------- every step keeps the invariant

  lemma IdleInv(s: State, p: Tid, c: Choice)
    requires Inv(s) && p in s.threads && s.threads[p] == Idle
    ensures Inv(Step(s, p, c))
  {
    hide CellsInv, SlotsInv, OrderInv, ListInv, TicketsInv, CountInv, ThreadsInv;
    LocalStep(s, p, Step(s, p, c).threads[p]);
  }

  lemma FindKnows(s: State, p: Tid, v: Val, beg: nat, at: FindAt, pc: Pc)
    requires WellFormed(s) && SlotsInv(s) && p in s.threads
    requires s.threads[p] == PuFind(v, beg, at) && ThreadOk(s, p, s.threads[p]) && !at.Help?
    requires pc == FindStep(s, p, v, beg, at).threads[p]
    ensures WellFormed(Tick(s, p, pc)) && ThreadOk(Tick(s, p, pc), p, pc)
  {
    forall sl | sl in s.pushed ensures sl.blk < |s.blocks| { assert PushedOk(s, sl); }
  }

  lemma FindInv(s: State, p: Tid, v: Val, beg: nat, at: FindAt)
    requires Inv(s) && p in s.threads && ThreadOk(s, p, s.threads[p]) && s.threads[p] == PuFind(v, beg, at)
    ensures Inv(FindStep(s, p, v, beg, at))
  {
    hide CellsInv, SlotsInv, OrderInv, ListInv, TicketsInv, CountInv, ThreadsInv;
    var s' := FindStep(s, p, v, beg, at);
    if at.Help? {
      MoveTailStep(s, p, s'.mqTail, s'.threads[p]);
    } else {
      FindKnows(s, p, v, beg, at, s'.threads[p]);
      LocalStep(s, p, s'.threads[p]);
    }
  }

  lemma PushBlockInv(s: State, p: Tid, v: Val, beg: nat, b: nat, at: BlockAt)
    requires Inv(s) && p in s.threads && ThreadOk(s, p, s.threads[p]) && s.threads[p] == PuBlock(v, beg, b, at)
    ensures Inv(PushBlockStep(s, p, v, beg, b, at))
  {
    hide CellsInv, SlotsInv, OrderInv, ListInv, TicketsInv, CountInv, ThreadsInv, ThreadOk;
    match at
    case DrawTail(iter) => DrawTailInv(s, p, v, beg, b, iter);
    case Close => CloseInv(s, p, v, beg, b);
    case Judge(iter, t) => PushBlockLocalInv(s, p, v, beg, b, at);
    case Alloc => PushBlockLocalInv(s, p, v, beg, b, at);
    case Link(size) =>
      if b + 1 == |s.blocks| && 0 < size {
        LinkedInv(s, PushBlockStep(s, p, v, beg, b, at), p, v, beg, b, size);
      } else {
        PushBlockLocalInv(s, p, v, beg, b, at);
      }
  }

  lemma PushBlockLocalInv(s: State, p: Tid, v: Val, beg: nat, b: nat, at: BlockAt)
    requires Inv(s) && p in s.threads && ThreadOk(s, p, s.threads[p]) && s.threads[p] == PuBlock(v, beg, b, at)
    requires at.Judge? || at.Alloc? || (at.Link? && !(b + 1 == |s.blocks| && 0 < at.size))
    ensures Inv(PushBlockStep(s, p, v, beg, b, at))
  {
    hide CellsInv, SlotsInv, OrderInv, ListInv, TicketsInv, CountInv, ThreadsInv;
    LocalStep(s, p, PushBlockStep(s, p, v, beg, b, at).threads[p]);
  }

  lemma PushTicketKnows(s: State, p: Tid, v: Val, beg: nat, b: nat, iter: nat, t: nat, at: PushAt, pc: Pc)
    requires WellFormed(s) && SlotsInv(s) && p in s.threads
    requires s.threads[p] == PuTicket(v, beg, b, iter, t, at) && ThreadOk(s, p, s.threads[p])
    requires at.PushCas? ==> CellAt(s, Slot(b, t)) != Cell(at.safe, at.i, 0)
    requires pc == PushTicketStep(s, p, v, beg, b, iter, t, at).threads[p]
    ensures WellFormed(Tick(s, p, pc)) && ThreadOk(Tick(s, p, pc), p, pc)
    ensures pc.PuBlock? || (pc.PuTicket? && pc.b == b && pc.t == t)
    ensures PushTicketStep(s, p, v, beg, b, iter, t, at) == Tick(s, p, pc)
  {
    if at.PushHead? {
      forall x | x in s.left && x.blk == b ensures x.tkt < s.blocks[b].head {
        assert LeftOk(s, x) && DrawnOk(s, x);
      }
    }
  }

  lemma PushTicketLocalInv(s: State, p: Tid, v: Val, beg: nat, b: nat, iter: nat, t: nat, at: PushAt)
    requires Inv(s) && p in s.threads && ThreadOk(s, p, s.threads[p]) &&
             s.threads[p] == PuTicket(v, beg, b, iter, t, at)
    requires at.PushCas? ==> CellAt(s, Slot(b, t)) != Cell(at.safe, at.i, 0)
    ensures Inv(PushTicketStep(s, p, v, beg, b, iter, t, at))
  {
    hide CellsInv, SlotsInv, OrderInv, ListInv, TicketsInv, CountInv, ThreadsInv;
    var pc := PushTicketStep(s, p, v, beg, b, iter, t, at).threads[p];
    PushTicketKnows(s, p, v, beg, b, iter, t, at, pc);
    LocalStep(s, p, pc);
  }

  lemma EarlierLeft(s: State, sl: Slot, safe: bool, i: nat)
    requires WellFormed(s) && SlotsInv(s) && sl.blk < |s.blocks|
    requires PushAtOk(s, sl, PushCas(safe, i)) && CellAt(s, sl) == Cell(safe, i, 0)
    ensures forall x :: x in s.left && SameCell(s, x, sl) ==> x.tkt < sl.tkt
  {
    forall x | x in s.left && SameCell(s, x, sl) ensures x.tkt < sl.tkt {
      assert LeftOk(s, x) && CellAt(s, x) == CellAt(s, sl);
    }
  }

  lemma PushCasInv(s: State, p: Tid, v: Val, beg: nat, b: nat, iter: nat, t: nat, safe: bool, i: nat)
    requires Inv(s) && p in s.threads && ThreadOk(s, p, s.threads[p]) &&
             s.threads[p] == PuTicket(v, beg, b, iter, t, PushCas(safe, i))
    requires CellAt(s, Slot(b, t)) == Cell(safe, i, 0)
    ensures Inv(PushTicketStep(s, p, v, beg, b, iter, t, PushCas(safe, i)))
  {
    hide CellsInv, SlotsInv, OrderInv, ListInv, TicketsInv, CountInv, ThreadsInv;
    var sl := Slot(b, t);
    var s' := PushTicketStep(s, p, v, beg, b, iter, t, PushCas(safe, i));
    EarlierLeft(s, sl, safe, i);
    assert WellFormed(s');
    PushDoneInv(s, s', p, sl, v, beg);
  }

  lemma PopTicketLocalInv(s: State, p: Tid, beg: nat, b: nat, second: bool, h: nat, at: PopAt)
    requires Inv(s) && p in s.threads && ThreadOk(s, p, s.threads[p]) && s.threads[p] == PoTicket(beg, b, second, h, at)
    requires at.PopIdx? ==> CellAt(s, Slot(b, h)).idx <= h
    requires at.PopCas? ==> CellAt(s, Slot(b, h)) != Cell(at.safe, at.i, at.val)
    ensures Inv(PopTicketStep(s, p, beg, b, second, h, at))
  {
    hide CellsInv, SlotsInv, OrderInv, ListInv, TicketsInv, CountInv, ThreadsInv;
    LocalStep(s, p, PopTicketStep(s, p, beg, b, second, h, at).threads[p]);
  }

  lemma PopTakeShape(s: State, s': State, p: Tid, beg: nat, b: nat, second: bool, h: nat, at: PopAt)
    requires WellFormed(s) && p in s.threads && s.threads[p] == PoTicket(beg, b, second, h, at)
    requires at.PopCas? && CellAt(s, Slot(b, h)) == Cell(at.safe, at.i, at.val) && at.val != 0 && at.i == h
    requires s' == PopTicketStep(s, p, beg, b, second, h, at)
    ensures WellFormed(s') && PopDone(s, s', p, Slot(b, h), beg)
  {
  }

  lemma PopTakeInv(s: State, p: Tid, beg: nat, b: nat, second: bool, h: nat, at: PopAt)
    requires Inv(s) && p in s.threads && ThreadOk(s, p, s.threads[p]) && s.threads[p] == PoTicket(beg, b, second, h, at)
    requires at.PopCas? && CellAt(s, Slot(b, h)) == Cell(at.safe, at.i, at.val) && at.val != 0 && at.i == h
    ensures Inv(PopTicketStep(s, p, beg, b, second, h, at))
  {
    hide CellsInv, SlotsInv, OrderInv, ListInv, TicketsInv, CountInv, ThreadsInv;
    var s' := PopTicketStep(s, p, beg, b, second, h, at);
    PopTakeShape(s, s', p, beg, b, second, h, at);
    PopDoneInv(s, s', p, Slot(b, h), beg, second);
  }

  /** The pop goes away without a value. */
  ghost predicate GoesAway(s: State, b: nat, h: nat, at: PopAt)
    requires WellFormed(s) && b < |s.blocks|
  {
    var c := CellAt(s, Slot(b, h));
    || (at.PopIdx? && c.idx > h)
    || (at.PopCas? && c == Cell(at.safe, at.i, at.val) && at.i <= h && !(at.val != 0 && at.i == h))
  }

  lemma PopLeaveShape(s: State, s': State, p: Tid, beg: nat, b: nat, second: bool, h: nat, at: PopAt, c': Cell)
    requires WellFormed(s) && p in s.threads && s.threads[p] == PoTicket(beg, b, second, h, at)
    requires GoesAway(s, b, h, at)
    requires s' == PopTicketStep(s, p, beg, b, second, h, at)
    requires WellFormed(s') && c' == CellAt(s', Slot(b, h))
    ensures PopLeaves(s, s', p, Slot(b, h), c')
  {
    var cells := s.blocks[b].cells;
    assert cells[h % |cells| := cells[h % |cells|]] == cells;
    assert s.blocks[b := s.blocks[b].(cells := cells)] == s.blocks;
  }

  lemma DrawnBelowHead(s: State, sl: Slot)
    requires WellFormed(s) && SlotsInv(s) && sl in s.drawn
    ensures sl.blk < |s.blocks| && sl.tkt < s.blocks[sl.blk].head
  {
    assert DrawnOk(s, sl);
  }

  lemma PopLeaveInv(s: State, p: Tid, beg: nat, b: nat, second: bool, h: nat, at: PopAt)
    requires Inv(s) && p in s.threads && ThreadOk(s, p, s.threads[p]) && s.threads[p] == PoTicket(beg, b, second, h, at)
    requires GoesAway(s, b, h, at)
    ensures Inv(PopTicketStep(s, p, beg, b, second, h, at))
  {
    hide CellsInv, SlotsInv, OrderInv, ListInv, TicketsInv, CountInv, ThreadsInv;
    var s' := PopTicketStep(s, p, beg, b, second, h, at);
    assert WellFormed(s');
    var c' := CellAt(s', Slot(b, h));
    PopLeaveShape(s, s', p, beg, b, second, h, at, c');
    DrawnBelowHead(s, Slot(b, h));
    PopLeavesInv(s, s', p, Slot(b, h), c', beg, second);
  }

  lemma FailedPopFixes(s: State, p: Tid, beg: nat, b: nat, second: bool, h: nat)
    requires Inv(s) && p in s.threads && s.threads[p] == PoReadTail(beg, b, second, h)
    requires s.blocks[b].tail <= h + 1
    ensures FixOk(s, beg, b, second)
  {
    assert ThreadOk(s, p, s.threads[p]);
    if s.gated { MoreBlocksFollow(s, p, beg, b, second, h); }
    if second { SecondFailureDrains(s, b, h); }
  }

  lemma ReadTailInv(s: State, p: Tid, c: Choice)
    requires Inv(s) && p in s.threads && ThreadOk(s, p, s.threads[p]) && s.threads[p].PoReadTail?
    ensures Inv(Step(s, p, c))
  {
    hide CellsInv, SlotsInv, OrderInv, ListInv, TicketsInv, CountInv, ThreadsInv;
    var PoReadTail(beg, b, second, h) := s.threads[p];
    if s.blocks[b].tail <= h + 1 {
      FailedPopFixes(s, p, beg, b, second, h);
      FixStart(s, p, beg, b, second, h);
    } else {
      LocalStep(s, p, PoFaa(beg, b, second));
    }
  }

  lemma FixStart(s: State, p: Tid, beg: nat, b: nat, second: bool, h: nat)
    requires Inv(s) && p in s.threads && s.threads[p] == PoReadTail(beg, b, second, h)
    requires FixOk(s, beg, b, second)
    ensures Inv(Tick(s, p, Fix(beg, b, second, FixTail)))
  {
    hide CellsInv, SlotsInv, OrderInv, ListInv, TicketsInv, CountInv, ThreadsInv;
    var pc := Fix(beg, b, second, FixTail);
    assert Drained(s, b) ==> Drained(Tick(s, p, pc), b);
    LocalStep(s, p, pc);
  }

  lemma FixEmptyHasNext(s: State, p: Tid, beg: nat, b: nat)
    requires WellFormed(s) && p in s.threads && s.threads[p] == Fix(beg, b, true, Empty)
    requires ThreadOk(s, p, s.threads[p])
    ensures b + 1 < |s.blocks|
  {
  }

  lemma FixInv(s: State, p: Tid, beg: nat, b: nat, second: bool, at: FixAt)
    requires Inv(s) && p in s.threads && ThreadOk(s, p, s.threads[p]) && s.threads[p] == Fix(beg, b, second, at)
    ensures Inv(FixStep(s, p, beg, b, second, at))
  {
    hide CellsInv, SlotsInv, OrderInv, ListInv, TicketsInv, CountInv, ThreadsInv, ThreadOk;
    if at.FixCas? && s.blocks[b].tail == at.ft && !s.blocks[b].closed {
      FixCasInv(s, p, beg, b, second, at.ft, at.fh);
    } else if at == Empty && second && s.mqHead == b {
      FixEmptyHasNext(s, p, beg, b);
      MoveHeadStep(s, p, beg, b);
    } else {
      FixLocalInv(s, p, beg, b, second, at);
    }
  }

  lemma FixKnows(s: State, p: Tid, beg: nat, b: nat, second: bool, at: FixAt, pc: Pc)
    requires WellFormed(s) && p in s.threads
    requires s.threads[p] == Fix(beg, b, second, at) && ThreadOk(s, p, s.threads[p])
    requires at.FixCas? ==> s.blocks[b].tail != at.ft || s.blocks[b].closed
    requires at == Empty && second ==> s.mqHead != b
    requires pc == FixStep(s, p, beg, b, second, at).threads[p]
    ensures WellFormed(Tick(s, p, pc)) && ThreadOk(Tick(s, p, pc), p, pc)
    ensures !pc.PuTicket? && RoleOf(pc) == Popping
    ensures FixStep(s, p, beg, b, second, at) == Tick(s, p, pc)
  {
    assert Drained(s, b) ==> Drained(Tick(s, p, pc), b);
  }

  lemma FixLocalInv(s: State, p: Tid, beg: nat, b: nat, second: bool, at: FixAt)
    requires Inv(s) && p in s.threads && ThreadOk(s, p, s.threads[p]) && s.threads[p] == Fix(beg, b, second, at)
    requires at.FixCas? ==> s.blocks[b].tail != at.ft || s.blocks[b].closed
    requires at == Empty && second ==> s.mqHead != b
    ensures Inv(FixStep(s, p, beg, b, second, at))
  {
    hide CellsInv, SlotsInv, OrderInv, ListInv, TicketsInv, CountInv, ThreadsInv, ThreadOk;
    var pc := FixStep(s, p, beg, b, second, at).threads[p];
    FixKnows(s, p, beg, b, second, at, pc);
    LocalStep(s, p, pc);
  }

  lemma PopTicketInv(s: State, p: Tid, beg: nat, b: nat, second: bool, h: nat, at: PopAt)
    requires Inv(s) && p in s.threads && ThreadOk(s, p, s.threads[p]) && s.threads[p] == PoTicket(beg, b, second, h, at)
    ensures Inv(PopTicketStep(s, p, beg, b, second, h, at))
  {
    hide CellsInv, SlotsInv, OrderInv, ListInv, TicketsInv, CountInv, ThreadsInv;
    var c := CellAt(s, Slot(b, h));
    if at.PopCas? && c == Cell(at.safe, at.i, at.val) && at.val != 0 && at.i == h {
      PopTakeInv(s, p, beg, b, second, h, at);
    } else if GoesAway(s, b, h, at) {
      PopLeaveInv(s, p, beg, b, second, h, at);
    } else {
      PopTicketLocalInv(s, p, beg, b, second, h, at);
    }
  }

  lemma PushTicketInv(s: State, p: Tid, v: Val, beg: nat, b: nat, iter: nat, t: nat, at: PushAt)
    requires Inv(s) && p in s.threads && ThreadOk(s, p, s.threads[p]) &&
             s.threads[p] == PuTicket(v, beg, b, iter, t, at)
    ensures Inv(PushTicketStep(s, p, v, beg, b, iter, t, at))
  {
    hide CellsInv, SlotsInv, OrderInv, ListInv, TicketsInv, CountInv, ThreadsInv, ThreadOk;
    if at.PushCas? && CellAt(s, Slot(b, t)) == Cell(at.safe, at.i, 0) {
      PushCasInv(s, p, v, beg, b, iter, t, at.safe, at.i);
    } else {
      PushTicketLocalInv(s, p, v, beg, b, iter, t, at);
    }
  }

  lemma SemInv(s: State, p: Tid, at: SemAt, c: Choice)
    requires Inv(s) && p in s.threads && ThreadOk(s, p, s.threads[p]) && s.threads[p] == Sem(at)
    ensures Inv(SemStep(s, p, at, c))
  {
    hide CellsInv, SlotsInv, OrderInv, ListInv, TicketsInv, CountInv, ThreadsInv;
    match at
    case SemRead => SemReadInv(s, p, c);
    case SemUndo => SemUndoInv(s, p, c);
    case SemDec => if s.sem > 0 { SemGotInv(s, p, c); } else { SemMissedInv(s, p, c); }
  }

  lemma SwingInv(s: State, p: Tid, c: Choice)
    requires Inv(s) && p in s.threads && ThreadOk(s, p, s.threads[p]) && s.threads[p].PuSwing?
    ensures Inv(Step(s, p, c))
  {
    hide CellsInv, SlotsInv, OrderInv, ListInv, TicketsInv, CountInv, ThreadsInv;
    var s' := Step(s, p, c);
    MoveTailStep(s, p, s'.mqTail, AfterPush(s));
  }

  lemma TakenBehindHead(s: State)
    requires WellFormed(s) && SlotsInv(s)
    ensures forall x :: x in s.taken ==> x.blk <= s.mqHead
  {
    forall x | x in s.taken ensures x.blk <= s.mqHead { assert TakenOk(s, x); }
  }

  lemma PopListInv(s: State, p: Tid, c: Choice)
    requires Inv(s) && p in s.threads && ThreadOk(s, p, s.threads[p])
    requires s.threads[p].PoReadHead? || s.threads[p].PoRecheck? || s.threads[p].PoNull?
    ensures Inv(Step(s, p, c))
  {
    hide CellsInv, SlotsInv, OrderInv, ListInv, TicketsInv, CountInv, ThreadsInv;
    TakenBehindHead(s);
    LocalStep(s, p, Step(s, p, c).threads[p]);
  }

  lemma CheckKnows(s: State, p: Tid, b: nat, at: CheckAt, pc: Pc)
    requires WellFormed(s) && SlotsInv(s) && ThreadsInv(s) && p in s.threads
    requires s.threads[p] == Check(b, at) && ThreadOk(s, p, s.threads[p]) && !(at.CheckSwing? && s.mqHead == b)
    requires pc == CheckStep(s, p, b, at).threads[p]
    ensures CheckStep(s, p, b, at) == Tick(s, p, pc) && PcBlock(pc) < |s.blocks|
    ensures WellFormed(Tick(s, p, pc)) && ThreadOk(Tick(s, p, pc), p, pc) && RoleOf(pc) == Plain
  {
    hide SlotsInv, ThreadsInv;
    if at.CheckBack? && s.blocks[b].closed && s.blocks[b].tail <= at.ch { OvertakenDrains(s, b); }
    assert Drained(s, b) ==> Drained(Tick(s, p, pc), b);
  }

  lemma CheckSwingInv(s: State, p: Tid, b: nat)
    requires Inv(s) && p in s.threads && s.threads[p] == Check(b, CheckSwing)
    requires ThreadOk(s, p, s.threads[p]) && s.mqHead == b
    ensures Inv(Tick(s.(mqHead := b + 1), p, Check(0, CheckHead)))
  {
    hide CellsInv, SlotsInv, OrderInv, ListInv, TicketsInv, ThreadsInv, Grows;
    var s' := Tick(s.(mqHead := b + 1), p, Check(0, CheckHead));
    assert WellFormed(s');
    RolesAfter(s.threads, p, Check(0, CheckHead));
    SameQueueStep(s, s', p);
  }

  lemma CheckInv(s: State, p: Tid, b: nat, at: CheckAt)
    requires Inv(s) && p in s.threads && ThreadOk(s, p, s.threads[p]) && s.threads[p] == Check(b, at)
    ensures Inv(CheckStep(s, p, b, at))
  {
    hide CellsInv, SlotsInv, OrderInv, ListInv, TicketsInv, CountInv, ThreadsInv, ThreadOk;
    if at.CheckSwing? && s.mqHead == b {
      CheckSwingHasNext(s, p, b);
      CheckSwingInv(s, p, b);
    } else {
      var pc := CheckStep(s, p, b, at).threads[p];
      CheckKnows(s, p, b, at, pc);
      LocalStep(s, p, pc);
    }
  }

  lemma CheckSwingHasNext(s: State, p: Tid, b: nat)
    requires WellFormed(s) && p in s.threads && s.threads[p] == Check(b, CheckSwing) && ThreadOk(s, p, s.threads[p])
    ensures b + 1 < |s.blocks|
  {
  }

  lemma PushStepInv(s: State, p: Tid, c: Choice)
    requires Inv(s) && p in s.threads && ThreadOk(s, p, s.threads[p]) && RoleOf(s.threads[p]) != Popping
    ensures Inv(Step(s, p, c))
  {
    hide CellsInv, SlotsInv, OrderInv, ListInv, TicketsInv, CountInv, ThreadsInv, ThreadOk;
    match s.threads[p]
    case Idle => IdleInv(s, p, c);
    case PuFind(v, beg, at) => FindInv(s, p, v, beg, at);
    case PuBlock(v, beg, b, at) => PushBlockInv(s, p, v, beg, b, at);
    case PuTicket(v, beg, b, iter, t, at) => PushTicketInv(s, p, v, beg, b, iter, t, at);
    case PuSwing(_) => SwingInv(s, p, c);
    case PuPost => PostInv(s, p, c);
    case Sem(at) => SemInv(s, p, at, c);
    case Check(b, at) => CheckInv(s, p, b, at);
  }

  lemma PopStepInv(s: State, p: Tid, c: Choice)
    requires Inv(s) && p in s.threads && ThreadOk(s, p, s.threads[p]) && RoleOf(s.threads[p]) == Popping
    ensures Inv(Step(s, p, c))
  {
    hide CellsInv, SlotsInv, OrderInv, ListInv, TicketsInv, CountInv, ThreadsInv, ThreadOk;
    match s.threads[p]
    case PoReadHead(_) => PopListInv(s, p, c);
    case PoRecheck(_, _) => PopListInv(s, p, c);
    case PoNull => PopListInv(s, p, c);
    case PoFaa(beg, b, second) => DrawHeadInv(s, Step(s, p, c), p, beg, b, second);
    case PoTicket(beg, b, second, h, at) => PopTicketInv(s, p, beg, b, second, h, at);
    case PoReadTail(_, _, _, _) => ReadTailInv(s, p, c);
    case Fix(beg, b, second, at) => FixInv(s, p, beg, b, second, at);
  }

  /** Every step of every thread, whatever the environment chooses, keeps the invariant. */
  lemma StepInv(s: State, p: Tid, c: Choice)
    requires Inv(s) && p in s.threads
    ensures Inv(Step(s, p, c))
  {
    hide CellsInv, SlotsInv, OrderInv, ListInv, TicketsInv, CountInv, ThreadOk, Step;
    assert ThreadOk(s, p, s.threads[p]);
    if RoleOf(s.threads[p]) == Popping {
      PopStepInv(s, p, c);
    } else {
      PushStepInv(s, p, c);
    }
  }

  /** What was pushed or taken stays as it was; a pop returns a value only through a ticket
      that p drew itself and that nobody returned through before. */
  ghost predicate SettledForGood(s: State, s': State, p: Tid) {
    && (forall sl :: sl in s.pushed ==> sl in s'.pushed && s'.pushed[sl] == s.pushed[sl])
    && (s'.taken == s.taken
        || (exists sl :: sl in s.drawn && s.drawn[sl] == p && sl !in s.taken
                         && sl in s'.taken && s'.taken == s.taken[sl := s'.taken[sl]]))
  }

  lemma OthersSettleNothing(s: State, p: Tid, c: Choice)
    requires WellFormed(s) && p in s.threads
    requires !s.threads[p].PoTicket? && !s.threads[p].PuBlock? && !s.threads[p].PuTicket?
    ensures Step(s, p, c).taken == s.taken && Step(s, p, c).pushed == s.pushed
  {
    hide FindStep, PushBlockStep, PushTicketStep, PopTicketStep, SemStep, FixStep, CheckStep;
    var s' := Step(s, p, c);
    match s.threads[p]
    case Check(b, at) => assert s' == CheckStep(s, p, b, at);
    case PuFind(v, beg, at) => assert s' == FindStep(s, p, v, beg, at);
    case Sem(at) => assert s' == SemStep(s, p, at, c);
    case Fix(beg, b, second, at) => assert s' == FixStep(s, p, beg, b, second, at);
    case _ =>
  }

  lemma PushTicketSettles(s: State, p: Tid, v: Val, beg: nat, b: nat, iter: nat, t: nat, at: PushAt)
    requires b < |s.blocks| && 0 < |s.blocks[b].cells| && Slot(b, t) !in s.pushed
    ensures forall sl :: sl in s.pushed ==>
      var s' := PushTicketStep(s, p, v, beg, b, iter, t, at); sl in s'.pushed && s'.pushed[sl] == s.pushed[sl]
  {
  }

  lemma PushBlockSettles(s: State, p: Tid, v: Val, beg: nat, b: nat, at: BlockAt)
    requires b < |s.blocks| && Slot(|s.blocks|, 0) !in s.pushed
    ensures forall sl :: sl in s.pushed ==>
      var s' := PushBlockStep(s, p, v, beg, b, at); sl in s'.pushed && s'.pushed[sl] == s.pushed[sl]
  {
  }

  lemma PopTicketSettles(s: State, s': State, p: Tid, beg: nat, b: nat, second: bool, h: nat, at: PopAt)
    requires b < |s.blocks| && 0 < |s.blocks[b].cells| && PopTicketOk(s, p, beg, Slot(b, h), second)
    requires s' == PopTicketStep(s, p, beg, b, second, h, at)
    ensures SettledForGood(s, s', p)
  {
    var sl := Slot(b, h);
    assert s'.taken == s.taken || (sl in s'.taken && s'.taken == s.taken[sl := s'.taken[sl]]);
    assert sl in s.drawn && s.drawn[sl] == p && sl !in s.taken;
  }

  lemma StepSettles(s: State, p: Tid, c: Choice)
    requires WellFormed(s) && SlotsInv(s) && p in s.threads && ThreadOk(s, p, s.threads[p])
    ensures SettledForGood(s, Step(s, p, c), p)
  {
    match s.threads[p]
    case PuBlock(v, beg, b, at) =>
      LinkedFresh(s, Slot(|s.blocks|, 0));
      PushBlockSettles(s, p, v, beg, b, at);
    case PuTicket(v, beg, b, iter, t, at) => PushTicketSettles(s, p, v, beg, b, iter, t, at);
    case PoTicket(beg, b, second, h, at) => PopTicketSettles(s, Step(s, p, c), p, beg, b, second, h, at);
    case _ => OthersSettleNothing(s, p, c);
  }

  lemma InitInv(s: State)
    requires Init(s)
    ensures Inv(s)
  {
    assert Who(s.threads, Undoing) == {};
    assert Who(s.threads, Unposted) == {};
    assert Who(s.threads, Popping) == {};
  }

  lemma NextInv(s: State, s': State)
    requires Inv(s) && Next(s, s')
    ensures Inv(s')
  {
    hide CellsInv, SlotsInv, OrderInv, ListInv, TicketsInv, CountInv, ThreadsInv;
    var p: Tid, c: Choice :| p in s.threads && s' == Step(s, p, c);
    StepInv(s, p, c);
  }

  /** The invariant holds in every state of every run. */
  lemma {:induction false} RunInv(run: seq<State>, i: nat)
    requires Execution(run) && i < |run|
    ensures Inv(run[i])
  {
    hide CellsInv, SlotsInv, OrderInv, ListInv, TicketsInv, CountInv, ThreadsInv;
    if i == 0 {
      InitInv(run[0]);
    } else {
      RunInv(run, i - 1);
      assert Next(run[i - 1], run[i - 1 + 1]);
      NextInv(run[i - 1], run[i]);
    }
  }

  // ---------------------------------------------------------------- theorems

  /** No value is ever returned twice, and no push or pop is undone, along the whole run. */
  lemma SettledAlongRun(run: seq<State>, i: nat)
    requires Execution(run) && i + 1 < |run|
    ensures exists p :: p in run[i].threads && SettledForGood(run[i], run[i + 1], p)
  {
    RunInv(run, i);
    assert Next(run[i], run[i + 1]);
    var p: Tid, c: Choice :| p in run[i].threads && run[i + 1] == Step(run[i], p, c);
    StepSettles(run[i], p, c);
  }

  /** What was pushed or taken in s is recorded unchanged in s'. */
  ghost predicate Lasts(s: State, s': State) {
    && (forall sl :: sl in s.pushed ==> sl in s'.pushed && s'.pushed[sl] == s.pushed[sl])
    && (forall sl :: sl in s.taken ==> sl in s'.taken && s'.taken[sl] == s.taken[sl])
  }

  /** Step j of the run takes nothing, or one value through a ticket never used before. */
  ghost predicate TakesAtMostOnce(run: seq<State>, j: nat) {
    j + 1 < |run| && exists p :: p in run[j].threads && SettledForGood(run[j], run[j + 1], p)
  }

  lemma {:induction false} Lasting(run: seq<State>, j: nat, i: nat)
    requires Execution(run) && j <= i < |run|
    ensures Lasts(run[j], run[i])
    decreases i
  {
    hide Execution;
    if j < i {
      Lasting(run, j, i - 1);
      SettledAlongRun(run, i - 1);
    }
  }

  /** Whatever the others do, a ticketed value is taken by the pop holding the same ticket or
      by nobody, a pop that went away empty-handed had nothing to take, and along the run every
      value is taken once for all. */
  lemma NothingLostOrDuplicated(run: seq<State>, i: nat)
    requires Execution(run) && i < |run|
    ensures var s := run[i];
      && WellFormed(s)
      && (forall sl :: sl in s.taken ==> sl in s.pushed && sl in s.drawn && s.taken[sl].val == s.pushed[sl].val)
      && (forall sl :: sl in s.left ==> sl !in s.pushed)
      && (forall sl :: sl in s.pushed && sl !in s.taken ==>
            && sl.blk < |s.blocks|
            && CellAt(s, sl).idx == sl.tkt && CellAt(s, sl).val == s.pushed[sl].val
            && (sl in s.drawn ==> s.drawn[sl] in s.threads && HoldsPop(s.threads[s.drawn[sl]], sl)))
    ensures forall j :: 0 <= j < i ==> Lasts(run[j], run[i]) && TakesAtMostOnce(run, j)
  {
    forall j | 0 <= j < i ensures Lasts(run[j], run[i]) && TakesAtMostOnce(run, j) {
      Lasting(run, j, i);
      SettledAlongRun(run, j);
    }
    RunInv(run, i);
    var s := run[i];
    forall sl | sl in s.taken ensures sl in s.pushed && sl in s.drawn && s.taken[sl].val == s.pushed[sl].val {
      assert TakenOk(s, sl);
    }
    forall sl | sl in s.left ensures sl !in s.pushed { assert LeftOk(s, sl); }
    forall sl | sl in s.pushed && sl !in s.taken
      ensures sl.blk < |s.blocks| && CellAt(s, sl).idx == sl.tkt && CellAt(s, sl).val == s.pushed[sl].val
      ensures sl in s.drawn ==> s.drawn[sl] in s.threads && HoldsPop(s.threads[s.drawn[sl]], sl)
    {
      assert PushedOk(s, sl);
      assert sl in s.drawn ==> DrawnOk(s, sl);
    }
  }

  /** Behind a semaphore no pop ever returns null: assert (v) cannot fail. */
  lemma GatedPopFindsValue(run: seq<State>, i: nat, p: Tid)
    requires Execution(run) && i < |run| && run[i].gated && p in run[i].threads
    ensures run[i].threads[p] != PoNull
  {
    RunInv(run, i);
    assert ThreadOk(run[i], p, run[i].threads[p]);
  }

  /** A block with a successor is closed, and the head pointer has only passed blocks in which
      every value, present or still to come, belongs to a pop already holding its ticket. */
  lemma HeadPassesOnlyDrainedBlocks(run: seq<State>, i: nat, b: nat)
    requires Execution(run) && i < |run|
    ensures var s := run[i];
      && (b + 1 < |s.blocks| ==> s.blocks[b].closed)
      && (b < s.mqHead ==> Drained(s, b))
      && (forall sl :: b < s.mqHead && sl in s.pushed && sl.blk == b && sl !in s.taken ==>
            sl in s.drawn && s.drawn[sl] in s.threads && HoldsPop(s.threads[s.drawn[sl]], sl))
  {
    RunInv(run, i);
    var s := run[i];
    forall sl | b < s.mqHead && sl in s.pushed && sl.blk == b && sl !in s.taken
      ensures sl in s.drawn && s.drawn[sl] in s.threads && HoldsPop(s.threads[s.drawn[sl]], sl)
    {
      assert Drained(s, b) && PushedOk(s, sl);
      assert Slot(sl.blk, sl.tkt) in s.drawn;
      assert DrawnOk(s, sl);
      assert sl in s.left ==> LeftOk(s, sl);
    }
  }

  /** First in, first out: when the push of x was over before the push of y began, the pop of
      y is never over before the pop of x begins. */
  lemma Fifo(run: seq<State>, i: nat, x: Slot, y: Slot)
    requires Execution(run) && i < |run|
    requires x in run[i].pushed && y in run[i].pushed && run[i].pushed[x].done < run[i].pushed[y].begin
    requires x in run[i].taken && y in run[i].taken
    ensures run[i].taken[x].begin <= run[i].taken[y].done
  {
    hide CellsInv, SlotsInv, ListInv, TicketsInv, CountInv, ThreadsInv, Execution;
    RunInv(run, i);
    assert Before(x, y);
    assert run[i].taken[y].done < run[i].taken[x].begin ==> Before(y, x);
  }

  /** While the earlier value is still in the queue, the later one is taken only if the earlier one
      is already promised: a pop holds its ticket. */
  lemma EarlierIsPromised(run: seq<State>, i: nat, x: Slot, y: Slot)
    requires Execution(run) && i < |run|
    requires x in run[i].pushed && y in run[i].pushed && run[i].pushed[x].done < run[i].pushed[y].begin
    requires x !in run[i].taken && y in run[i].taken
    ensures Promised(run[i], x)
  {
    hide CellsInv, TicketsInv, CountInv, ThreadsInv, Execution;
    RunInv(run, i);
    var s := run[i];
    assert Before(x, y);
    assert TakenOk(s, y) && PushedOk(s, x) && DrawnOk(s, y);
    assert x.blk < y.blk ==> Drained(s, x.blk);
    assert Slot(x.blk, x.tkt) in s.drawn;
    assert DrawnOk(s, x);
    assert x in s.left ==> LeftOk(s, x);
  }
}
