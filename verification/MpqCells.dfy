/** The steps of the queue that settle a ticket: a push filling its cell, a pop taking the
    value or leaving the cell empty-handed, and the linking of a new block. */
module MpqCells {
  import opened MpqModel
  import opened MpqInvariant
  import opened MpqProof

  lemma Multiples(n: nat, k: int)
    ensures k >= 1 ==> n * k >= n
    ensures k <= -1 ==> n * k <= 0 - n
  {
    if k >= 1 {
      assert n * k == n + n * (k - 1);
    } else if k <= -1 {
      assert n * k == n * (k + 1) - n;
    }
  }

  lemma NextLap(h: nat, n: nat)
    requires 0 < n
    ensures (h + n) % n == h % n
  {
    var q, r := (h + n) / n, (h + n) % n;
    var k := h / n + 1 - q;
    assert h + n == n * q + r && h == n * (h / n) + h % n;
    assert n * k == r - h % n by { assert n * k == n * (h / n) + n - n * q; }
    Multiples(n, k);
  }

  /** Cell sl becomes c'; counters, list and semaphore stay. */
  ghost predicate CellMoves(s: State, s': State, p: Tid, sl: Slot, c': Cell)
    requires WellFormed(s) && sl.blk < |s.blocks|
  {
    && s'.gated == s.gated
    && s'.blocks == SetCell(s, sl, c').blocks
    && CellGrows(CellAt(s, sl), c')
    && s'.mqHead == s.mqHead && s'.mqTail == s.mqTail
    && s'.sem == s.sem && s'.posted == s.posted && s'.acquired == s.acquired && s'.now == s.now + 1
    && s'.drawn == s.drawn
    && p in s.threads && p in s'.threads && s'.threads == s.threads[p := s'.threads[p]]
    && !s'.threads[p].PuTicket? && !s'.threads[p].PoTicket?
  }

  lemma CellAfter(s: State, s': State, p: Tid, sl: Slot, c': Cell, x: Slot)
    requires WellFormed(s) && WellFormed(s') && sl.blk < |s.blocks| && CellMoves(s, s', p, sl, c')
    requires x.blk < |s.blocks|
    ensures CellAt(s', x) == if SameCell(s, x, sl) then c' else CellAt(s, x)
    ensures SameCell(s, x, sl) ==> CellAt(s, x) == CellAt(s, sl)
  {
  }

  lemma CellMovesGrow(s: State, s': State, p: Tid, sl: Slot, c': Cell)
    requires WellFormed(s) && WellFormed(s') && sl.blk < |s.blocks| && CellMoves(s, s', p, sl, c')
    requires HistoryGrows(s, s', p) && TicketsKept(s, s', p)
    requires forall x :: x in s'.left && x !in s.left ==> x == sl && (c'.idx > sl.tkt || c'.val != 0)
    requires forall x :: x in s'.pushed && x !in s.pushed ==> x == sl && HoldsPush(s.threads[p], sl)
    ensures Grows(s, s', p)
  {
    forall b | 0 <= b < |s.blocks| ensures BlockGrows(s.blocks[b], s'.blocks[b]) { }
    forall b | 0 <= b < |s.blocks| && Drained(s, b) ensures Drained(s', b) { }
    CellAfter(s, s', p, sl, c', sl);
  }

  /** The parts of the invariant that a cell step cannot touch. */
  lemma CellMovesRest(s: State, s': State, p: Tid, sl: Slot, c': Cell)
    requires WellFormed(s) && WellFormed(s') && sl.blk < |s.blocks| && CellMoves(s, s', p, sl, c')
    requires Grows(s, s', p) && ListInv(s) && TicketsInv(s)
    ensures ListInv(s') && TicketsInv(s')
  {
  }

  lemma CellMovesCount(s: State, s': State, p: Tid, pc: Pc)
    requires CountInv(s) && p in s.threads
    requires s'.gated == s.gated && s'.sem == s.sem && s'.posted == s.posted && s'.acquired == s.acquired
    requires s'.threads == s.threads[p := pc]
    requires s.gated ==> One(Undoing, s.threads[p]) == One(Undoing, pc)
    requires s.gated ==> |s'.pushed| - |s.pushed| == One(Unposted, pc) - One(Unposted, s.threads[p])
    requires s.gated ==> |s'.taken| - |s.taken| == One(Popping, s.threads[p]) - One(Popping, pc)
    ensures CountInv(s')
  {
    RolesAfter(s.threads, p, pc);
  }

  // ---------------------------------------------------------------- push: the compare-and-swap succeeds

  ghost predicate PushDone(s: State, s': State, p: Tid, sl: Slot, v: Val, beg: nat)
    requires WellFormed(s) && sl.blk < |s.blocks|
  {
    && CellMoves(s, s', p, sl, Cell(true, sl.tkt, v))
    && s'.pushed == s.pushed[sl := PushRec(v, beg, s.now)]
    && s'.taken == s.taken && s'.left == s.left
    && s'.threads[p] == AfterPush(s)
  }

  /** Why the swap is right: the cell holds no value, no later lap, and no pop that already
      passed this ticket by. */
  ghost predicate MayPush(s: State, p: Tid, sl: Slot, v: Val, beg: nat)
    requires WellFormed(s)
  {
    && PushTicketOk(s, v, beg, sl)
    && p in s.threads && HoldsPush(s.threads[p], sl)
    && CellAt(s, sl).val == 0 && CellAt(s, sl).idx <= sl.tkt
    && (forall x :: x in s.left && SameCell(s, x, sl) ==> x.tkt < sl.tkt)
  }

  lemma PushDoneCells(s: State, s': State, p: Tid, sl: Slot, v: Val, beg: nat)
    requires WellFormed(s) && WellFormed(s') && sl.blk < |s.blocks| && PushDone(s, s', p, sl, v, beg)
    requires MayPush(s, p, sl, v, beg) && CellsInv(s) && SlotsInv(s)
    ensures CellsInv(s')
  {
    assert sl in s.taken ==> TakenOk(s, sl);
    forall b, j | 0 <= b < |s'.blocks| && 0 <= j < |s'.blocks[b].cells| ensures CellOk(s', b, j) {
      assert CellOk(s, b, j);
    }
  }

  lemma PushDonePushed(s: State, s': State, p: Tid, sl: Slot, v: Val, beg: nat)
    requires WellFormed(s) && WellFormed(s') && sl.blk < |s.blocks| && PushDone(s, s', p, sl, v, beg)
    requires MayPush(s, p, sl, v, beg) && sl !in s.taken
    requires forall x :: x in s.pushed ==> PushedOk(s, x)
    ensures forall x :: x in s'.pushed ==> PushedOk(s', x)
  {
    forall x | x in s'.pushed ensures PushedOk(s', x) {
      CellAfter(s, s', p, sl, Cell(true, sl.tkt, v), x);
      if x != sl { assert PushedOk(s, x); }
    }
  }

  lemma PushDoneLeft(s: State, s': State, p: Tid, sl: Slot, v: Val, beg: nat)
    requires WellFormed(s) && WellFormed(s') && sl.blk < |s.blocks| && PushDone(s, s', p, sl, v, beg)
    requires MayPush(s, p, sl, v, beg)
    requires forall x :: x in s.left ==> LeftOk(s, x)
    ensures forall x :: x in s'.left ==> LeftOk(s', x)
  {
    forall x | x in s'.left ensures LeftOk(s', x) {
      assert LeftOk(s, x);
      CellAfter(s, s', p, sl, Cell(true, sl.tkt, v), x);
    }
  }

  lemma PushDoneTickets(s: State, s': State, p: Tid, sl: Slot, v: Val, beg: nat)
    requires WellFormed(s) && WellFormed(s') && sl.blk < |s.blocks| && PushDone(s, s', p, sl, v, beg)
    requires MayPush(s, p, sl, v, beg)
    requires forall x :: x in s.taken ==> TakenOk(s, x)
    requires forall x :: x in s.drawn ==> DrawnOk(s, x)
    ensures sl !in s.taken
    ensures forall x :: x in s'.taken ==> TakenOk(s', x)
    ensures forall x :: x in s'.drawn ==> DrawnOk(s', x)
  {
    assert sl in s.taken ==> TakenOk(s, sl);
    forall x | x in s'.taken ensures TakenOk(s', x) { assert TakenOk(s, x); }
    forall x | x in s'.drawn ensures DrawnOk(s', x) { assert DrawnOk(s, x); }
  }

  lemma PushDoneSlots(s: State, s': State, p: Tid, sl: Slot, v: Val, beg: nat)
    requires WellFormed(s) && WellFormed(s') && sl.blk < |s.blocks| && PushDone(s, s', p, sl, v, beg)
    requires MayPush(s, p, sl, v, beg) && SlotsInv(s)
    ensures SlotsInv(s')
  {
    hide PushedOk, LeftOk, TakenOk, DrawnOk, MayPush;
    PushDoneTickets(s, s', p, sl, v, beg);
    PushDonePushed(s, s', p, sl, v, beg);
    PushDoneLeft(s, s', p, sl, v, beg);
  }

  lemma PushDoneGrow(s: State, s': State, p: Tid, sl: Slot, v: Val, beg: nat)
    requires WellFormed(s) && WellFormed(s') && sl.blk < |s.blocks| && PushDone(s, s', p, sl, v, beg)
    requires MayPush(s, p, sl, v, beg) && TicketsInv(s)
    ensures Grows(s, s', p)
  {
    CellMovesGrow(s, s', p, sl, Cell(true, sl.tkt, v));
  }

  lemma PushDoneCount(s: State, s': State, p: Tid, sl: Slot, v: Val, beg: nat)
    requires WellFormed(s) && sl.blk < |s.blocks| && PushDone(s, s', p, sl, v, beg)
    requires MayPush(s, p, sl, v, beg) && CountInv(s)
    ensures CountInv(s')
  {
    assert |s'.pushed| == |s.pushed| + 1;
    CellMovesCount(s, s', p, AfterPush(s));
  }

  lemma PushDoneInv(s: State, s': State, p: Tid, sl: Slot, v: Val, beg: nat)
    requires Inv(s) && WellFormed(s') && sl.blk < |s.blocks| && PushDone(s, s', p, sl, v, beg)
    requires MayPush(s, p, sl, v, beg) && PushTicketOk(s, v, beg, sl)
    ensures Inv(s')
  {
    hide CellsInv, SlotsInv, OrderInv, ListInv, TicketsInv, CountInv, ThreadsInv, Grows, MayPush;
    PushDoneGrow(s, s', p, sl, v, beg);
    PushDoneCells(s, s', p, sl, v, beg);
    PushDoneSlots(s, s', p, sl, v, beg);
    PushDoneOrder(s, s', sl, v, beg);
    CellMovesRest(s, s', p, sl, Cell(true, sl.tkt, v));
    PushDoneCount(s, s', p, sl, v, beg);
    ThreadsStay(s, s', p);
  }

  lemma PushDoneOrder(s: State, s': State, sl: Slot, v: Val, beg: nat)
    requires WellFormed(s) && SlotsInv(s) && OrderInv(s) && PushTicketOk(s, v, beg, sl)
    requires s'.pushed == s.pushed[sl := PushRec(v, beg, s.now)] && s'.taken == s.taken
    ensures OrderInv(s')
  {
    forall x | x in s.pushed ensures s.pushed[x].begin <= s.now { assert PushedOk(s, x); }
  }

  // ---------------------------------------------------------------- pop: the compare-and-swap takes the value

  ghost predicate PopDone(s: State, s': State, p: Tid, sl: Slot, beg: nat)
    requires WellFormed(s) && sl.blk < |s.blocks|
  {
    var c := CellAt(s, sl);
    && c.val != 0 && c.idx == sl.tkt
    && CellMoves(s, s', p, sl, Cell(c.safe, c.idx + |s.blocks[sl.blk].cells|, 0))
    && s'.taken == s.taken[sl := PopRec(c.val, beg, s.now)]
    && s'.pushed == s.pushed && s'.left == s.left
    && s'.threads[p] == Idle
  }

  lemma PopDoneCells(s: State, s': State, p: Tid, sl: Slot, beg: nat)
    requires WellFormed(s) && WellFormed(s') && sl.blk < |s.blocks| && PopDone(s, s', p, sl, beg)
    requires CellsInv(s)
    ensures CellsInv(s')
  {
    NextLap(sl.tkt, |s.blocks[sl.blk].cells|);
    forall b, j | 0 <= b < |s'.blocks| && 0 <= j < |s'.blocks[b].cells| ensures CellOk(s', b, j) {
      assert CellOk(s, b, j);
    }
  }

  lemma PopDoneValue(s: State, sl: Slot)
    requires WellFormed(s) && CellsInv(s) && SlotsInv(s) && sl.blk < |s.blocks|
    requires CellAt(s, sl).val != 0 && CellAt(s, sl).idx == sl.tkt
    ensures sl in s.pushed && s.pushed[sl].val == CellAt(s, sl).val
  {
    assert CellOk(s, sl.blk, sl.tkt % |s.blocks[sl.blk].cells|);
    assert PushedOk(s, sl);
  }

  lemma PopDonePushed(s: State, s': State, p: Tid, sl: Slot, beg: nat, c': Cell)
    requires WellFormed(s) && WellFormed(s') && sl.blk < |s.blocks| && PopDone(s, s', p, sl, beg)
    requires c' == Cell(CellAt(s, sl).safe, CellAt(s, sl).idx + |s.blocks[sl.blk].cells|, 0)
    requires forall x :: x in s.pushed ==> PushedOk(s, x)
    ensures forall x :: x in s'.pushed ==> PushedOk(s', x)
  {
    forall x | x in s'.pushed ensures PushedOk(s', x) {
      assert PushedOk(s, x);
      CellAfter(s, s', p, sl, c', x);
    }
  }

  lemma PopDoneLeft(s: State, s': State, p: Tid, sl: Slot, beg: nat, c': Cell)
    requires WellFormed(s) && WellFormed(s') && sl.blk < |s.blocks| && PopDone(s, s', p, sl, beg)
    requires c' == Cell(CellAt(s, sl).safe, CellAt(s, sl).idx + |s.blocks[sl.blk].cells|, 0)
    requires forall x :: x in s.left ==> LeftOk(s, x)
    ensures forall x :: x in s'.left ==> LeftOk(s', x)
  {
    forall x | x in s'.left ensures LeftOk(s', x) {
      assert LeftOk(s, x);
      CellAfter(s, s', p, sl, c', x);
    }
  }

  lemma PopDoneTickets(s: State, s': State, p: Tid, sl: Slot, beg: nat, second: bool)
    requires WellFormed(s) && WellFormed(s') && sl.blk < |s.blocks| && PopDone(s, s', p, sl, beg)
    requires PopTicketOk(s, p, beg, sl, second) && HoldsPop(s.threads[p], sl)
    requires sl in s.pushed && s.pushed[sl].val == CellAt(s, sl).val
    requires forall x :: x in s.taken ==> TakenOk(s, x)
    requires forall x :: x in s.drawn ==> DrawnOk(s, x)
    ensures forall x :: x in s'.taken ==> TakenOk(s', x)
    ensures forall x :: x in s'.drawn ==> DrawnOk(s', x)
  {
    forall x | x in s'.taken ensures TakenOk(s', x) {
      assert x != sl ==> TakenOk(s, x);
    }
    forall x | x in s'.drawn ensures DrawnOk(s', x) { assert DrawnOk(s, x); }
  }

  lemma PopDoneSlots(s: State, s': State, p: Tid, sl: Slot, beg: nat, second: bool)
    requires WellFormed(s) && WellFormed(s') && sl.blk < |s.blocks| && PopDone(s, s', p, sl, beg)
    requires SlotsInv(s) && PopTicketOk(s, p, beg, sl, second)
    requires HoldsPop(s.threads[p], sl)
    requires sl in s.pushed && s.pushed[sl].val == CellAt(s, sl).val
    ensures SlotsInv(s')
  {
    hide PushedOk, LeftOk, TakenOk, DrawnOk;
    var c' := Cell(CellAt(s, sl).safe, CellAt(s, sl).idx + |s.blocks[sl.blk].cells|, 0);
    PopDonePushed(s, s', p, sl, beg, c');
    PopDoneLeft(s, s', p, sl, beg, c');
    PopDoneTickets(s, s', p, sl, beg, second);
  }

  lemma PopDoneOrder(s: State, s': State, p: Tid, sl: Slot, beg: nat, v: Val, second: bool)
    requires WellFormed(s) && SlotsInv(s) && OrderInv(s) && PopTicketOk(s, p, beg, sl, second)
    requires s'.taken == s.taken[sl := PopRec(v, beg, s.now)] && s'.pushed == s.pushed
    ensures OrderInv(s')
  {
    forall x | x in s.taken ensures s.taken[x].begin <= s.now { assert TakenOk(s, x); }
  }

  lemma PopDoneGrow(s: State, s': State, p: Tid, sl: Slot, beg: nat, second: bool)
    requires WellFormed(s) && WellFormed(s') && sl.blk < |s.blocks| && PopDone(s, s', p, sl, beg)
    requires PopTicketOk(s, p, beg, sl, second)
    ensures Grows(s, s', p)
  {
    var c := CellAt(s, sl);
    CellMovesGrow(s, s', p, sl, Cell(c.safe, c.idx + |s.blocks[sl.blk].cells|, 0));
  }

  lemma PopDoneCount(s: State, s': State, p: Tid, sl: Slot, beg: nat)
    requires WellFormed(s) && sl.blk < |s.blocks| && PopDone(s, s', p, sl, beg)
    requires sl !in s.taken && s.threads[p].PoTicket? && CountInv(s)
    ensures CountInv(s')
  {
    assert |s'.taken| == |s.taken| + 1;
    CellMovesCount(s, s', p, Idle);
  }

  lemma PopDoneInv(s: State, s': State, p: Tid, sl: Slot, beg: nat, second: bool)
    requires Inv(s) && WellFormed(s') && sl.blk < |s.blocks| && PopDone(s, s', p, sl, beg)
    requires PopTicketOk(s, p, beg, sl, second) && HoldsPop(s.threads[p], sl) && sl !in s.taken
    ensures Inv(s')
  {
    hide CellsInv, SlotsInv, OrderInv, ListInv, TicketsInv, CountInv, ThreadsInv, Grows, PopTicketOk;
    var c := CellAt(s, sl);
    PopDoneOrder(s, s', p, sl, beg, c.val, second);
    PopDoneGrow(s, s', p, sl, beg, second);
    PopDoneCells(s, s', p, sl, beg);
    PopDoneValue(s, sl);
    PopDoneSlots(s, s', p, sl, beg, second);
    CellMovesRest(s, s', p, sl, Cell(c.safe, c.idx + |s.blocks[sl.blk].cells|, 0));
    PopDoneCount(s, s', p, sl, beg);
    ThreadsStay(s, s', p);
  }

  // ---------------------------------------------------------------- pop: leaving the cell empty-handed

  /** The cell either lies beyond the ticket, or is moved there, or loses its safe bit. */
  ghost predicate PopLeaves(s: State, s': State, p: Tid, sl: Slot, c': Cell)
    requires WellFormed(s) && sl.blk < |s.blocks|
  {
    var c := CellAt(s, sl);
    && CellMoves(s, s', p, sl, c')
    && (|| (c' == c && c.idx > sl.tkt)
        || (c.val != 0 && c.idx < sl.tkt && c' == Cell(false, c.idx, c.val))
        || (c.val == 0 && c.idx <= sl.tkt && c' == Cell(c.safe, sl.tkt + |s.blocks[sl.blk].cells|, 0)))
    && s'.left == s.left + {sl}
    && s'.pushed == s.pushed && s'.taken == s.taken
    && s'.threads[p].PoReadTail? && s.threads[p].PoTicket?
  }

  lemma PopLeavesCells(s: State, s': State, p: Tid, sl: Slot, c': Cell)
    requires WellFormed(s) && WellFormed(s') && sl.blk < |s.blocks| && PopLeaves(s, s', p, sl, c')
    requires CellsInv(s)
    ensures CellsInv(s')
  {
    NextLap(sl.tkt, |s.blocks[sl.blk].cells|);
    forall b, j | 0 <= b < |s'.blocks| && 0 <= j < |s'.blocks[b].cells| ensures CellOk(s', b, j) {
      assert CellOk(s, b, j);
    }
  }

  lemma PopLeavesPushed(s: State, s': State, p: Tid, sl: Slot, c': Cell)
    requires WellFormed(s) && WellFormed(s') && sl.blk < |s.blocks| && PopLeaves(s, s', p, sl, c')
    requires forall x :: x in s.pushed ==> PushedOk(s, x)
    ensures forall x :: x in s'.pushed ==> PushedOk(s', x)
  {
    forall x | x in s'.pushed ensures PushedOk(s', x) {
      assert PushedOk(s, x);
      CellAfter(s, s', p, sl, c', x);
    }
  }

  lemma PopLeavesLeft(s: State, s': State, p: Tid, sl: Slot, c': Cell)
    requires WellFormed(s) && WellFormed(s') && sl.blk < |s.blocks| && PopLeaves(s, s', p, sl, c')
    requires sl !in s.taken && sl in s.drawn
    requires forall x :: x in s.pushed ==> PushedOk(s, x)
    requires forall x :: x in s.left ==> LeftOk(s, x)
    ensures forall x :: x in s'.left ==> LeftOk(s', x)
  {
    assert sl in s.pushed ==> PushedOk(s, sl);
    forall x | x in s'.left ensures LeftOk(s', x) {
      assert x == sl || LeftOk(s, x);
      CellAfter(s, s', p, sl, c', x);
    }
  }

  lemma PopLeavesTickets(s: State, s': State, p: Tid, sl: Slot, c': Cell)
    requires WellFormed(s) && WellFormed(s') && sl.blk < |s.blocks| && PopLeaves(s, s', p, sl, c')
    requires s.threads[p].PoTicket? && HoldsPop(s.threads[p], sl) && sl !in s.taken
    requires forall x :: x in s.taken ==> TakenOk(s, x)
    requires forall x :: x in s.drawn ==> DrawnOk(s, x)
    ensures forall x :: x in s'.taken ==> TakenOk(s', x)
    ensures forall x :: x in s'.drawn ==> DrawnOk(s', x)
  {
    forall x | x in s'.taken ensures TakenOk(s', x) { assert TakenOk(s, x); }
    forall x | x in s'.drawn ensures DrawnOk(s', x) { assert DrawnOk(s, x); }
  }

  lemma PopLeavesSlots(s: State, s': State, p: Tid, sl: Slot, c': Cell)
    requires WellFormed(s) && WellFormed(s') && sl.blk < |s.blocks| && PopLeaves(s, s', p, sl, c')
    requires SlotsInv(s) && sl !in s.taken && sl in s.drawn
    requires s.drawn[sl] == p && HoldsPop(s.threads[p], sl)
    ensures SlotsInv(s')
  {
    hide PushedOk, LeftOk, TakenOk, DrawnOk;
    PopLeavesPushed(s, s', p, sl, c');
    PopLeavesLeft(s, s', p, sl, c');
    PopLeavesTickets(s, s', p, sl, c');
  }

  lemma PopLeavesGrow(s: State, s': State, p: Tid, sl: Slot, c': Cell)
    requires WellFormed(s) && WellFormed(s') && sl.blk < |s.blocks| && PopLeaves(s, s', p, sl, c')
    requires sl in s.drawn && s.drawn[sl] == p
    ensures Grows(s, s', p)
  {
    CellMovesGrow(s, s', p, sl, c');
  }

  lemma PopLeavesKnows(s: State, s': State, p: Tid, sl: Slot, c': Cell, beg: nat, second: bool)
    requires WellFormed(s) && WellFormed(s') && sl.blk < |s.blocks| && PopLeaves(s, s', p, sl, c')
    requires PopTicketOk(s, p, beg, sl, second) && sl.tkt < s.blocks[sl.blk].head
    ensures ThreadOk(s', p, PoReadTail(beg, sl.blk, second, sl.tkt))
  {
  }

  lemma PopLeavesRest(s: State, s': State, p: Tid, sl: Slot, c': Cell)
    requires WellFormed(s) && WellFormed(s') && sl.blk < |s.blocks| && PopLeaves(s, s', p, sl, c')
    requires Grows(s, s', p) && OrderInv(s) && ListInv(s) && TicketsInv(s) && CountInv(s)
    ensures OrderInv(s') && ListInv(s') && TicketsInv(s') && CountInv(s')
  {
    hide OrderInv, ListInv, TicketsInv, Grows;
    CellMovesRest(s, s', p, sl, c');
    CellMovesCount(s, s', p, s'.threads[p]);
    SameHistoryOrder(s, s');
  }

  lemma SameHistoryOrder(s: State, s': State)
    requires OrderInv(s) && s'.pushed == s.pushed && s'.taken == s.taken
    ensures OrderInv(s')
  {
  }

  lemma PopLeavesInv(s: State, s': State, p: Tid, sl: Slot, c': Cell, beg: nat, second: bool)
    requires Inv(s) && WellFormed(s') && sl.blk < |s.blocks| && PopLeaves(s, s', p, sl, c')
    requires PopTicketOk(s, p, beg, sl, second) && p in s.threads && HoldsPop(s.threads[p], sl)
    requires sl in s.drawn && s.drawn[sl] == p && sl !in s.taken && sl.tkt < s.blocks[sl.blk].head
    requires p in s'.threads && s'.threads[p] == PoReadTail(beg, sl.blk, second, sl.tkt)
    ensures Inv(s')
  {
    hide CellsInv, SlotsInv, OrderInv, ListInv, TicketsInv, CountInv, ThreadsInv, Grows, PopTicketOk, PopLeaves;
    PopLeavesGrow(s, s', p, sl, c');
    PopLeavesCells(s, s', p, sl, c');
    PopLeavesSlots(s, s', p, sl, c');
    PopLeavesRest(s, s', p, sl, c');
    PopLeavesKnows(s, s', p, sl, c', beg, second);
    ThreadsStay(s, s', p);
  }
}
