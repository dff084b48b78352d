/**
 What every reachable state of the queue satisfies.  The invariant speaks of three
 things: where a pushed value sits until its pop takes it, which pop owns which ticket,
 and how many semaphore units are out compared with the values still in the queue.
 */
module MpqInvariant {
  import opened MpqModel

  /** The order of tickets along the list of blocks. */
  ghost predicate Before(x: Slot, y: Slot) {
    x.blk < y.blk || (x.blk == y.blk && x.tkt < y.tkt)
  }

  /** A push between drawing its ticket and its compare-and-swap. */
  ghost predicate HoldsPush(pc: Pc, sl: Slot) {
    pc.PuTicket? && sl == Slot(pc.b, pc.t)
  }

  /** A pop that has drawn its ticket and not yet left the cell. */
  ghost predicate HoldsPop(pc: Pc, sl: Slot) {
    pc.PoTicket? && sl == Slot(pc.b, pc.h)
  }

  datatype Role = Plain | Popping | Undoing | Unposted

  function RoleOf(pc: Pc): Role {
    match pc
    case Idle | PuFind(_, _, _) | PuBlock(_, _, _, _) | PuTicket(_, _, _, _, _, _) | Check(_, _) => Plain
    case Sem(at) => if at.SemUndo? then Undoing else Plain
    case PuSwing(_) | PuPost => Unposted
    case _ => Popping
  }

  function Who(threads: map<Tid, Pc>, r: Role): set<Tid> {
    set p | p in threads && RoleOf(threads[p]) == r
  }

  /** A cell at position j only ever carries indices congruent to j, and a value in it is a
      pushed one that nobody has taken. */
  ghost predicate CellOk(s: State, b: nat, j: nat)
    requires b < |s.blocks| && j < |s.blocks[b].cells|
  {
    var c := s.blocks[b].cells[j];
    && c.idx % |s.blocks[b].cells| == j
    && (c.val != 0 ==> Slot(b, c.idx) in s.pushed && Slot(b, c.idx) !in s.taken)
  }

  /** A pushed value stays in its cell, under its own ticket, until it is taken; afterwards
      the cell has moved past the ticket for good. */
  ghost predicate PushedOk(s: State, sl: Slot)
    requires WellFormed(s) && sl in s.pushed
  {
    && s.pushed[sl].val != 0
    && s.pushed[sl].begin <= s.pushed[sl].done < s.now
    && sl.blk < |s.blocks|
    && sl.tkt < s.blocks[sl.blk].tail
    && (if sl in s.taken then CellAt(s, sl).idx > sl.tkt
        else CellAt(s, sl).idx == sl.tkt && CellAt(s, sl).val == s.pushed[sl].val)
  }

  ghost predicate TakenOk(s: State, sl: Slot)
    requires sl in s.taken
  {
    && sl in s.pushed && s.taken[sl].val == s.pushed[sl].val
    && sl in s.drawn && sl !in s.left
    && sl.blk <= s.mqHead
    && s.taken[sl].begin <= s.taken[sl].done < s.now
  }

  /** A ticket whose pop went away empty-handed can never be pushed to: its cell is past it,
      or unsafe. */
  ghost predicate LeftOk(s: State, sl: Slot)
    requires WellFormed(s)
  {
    && sl in s.drawn && sl !in s.pushed
    && sl.blk < |s.blocks|
    && (CellAt(s, sl).idx > sl.tkt || !CellAt(s, sl).safe)
  }

  /** The pop tickets drawn are those below the head, and each is settled or still held. */
  ghost predicate DrawnOk(s: State, sl: Slot)
    requires sl in s.drawn
  {
    && sl.blk < |s.blocks|
    && sl.tkt < s.blocks[sl.blk].head
    && s.drawn[sl] in s.threads
    && (sl in s.taken || sl in s.left || HoldsPop(s.threads[s.drawn[sl]], sl))
  }

  ghost predicate AllDrawn(s: State) {
    forall b, t: nat :: 0 <= b < |s.blocks| && t < s.blocks[b].head ==> Slot(b, t) in s.drawn
  }

  /** No value can appear in block b that is not already promised to a drawn pop ticket. */
  ghost predicate Drained(s: State, b: nat) {
    && b < |s.blocks|
    && s.blocks[b].closed
    && (forall sl :: sl in s.pushed && sl.blk == b ==> sl.tkt < s.blocks[b].head)
    && (forall p, t: nat :: p in s.threads && HoldsPush(s.threads[p], Slot(b, t)) ==> t < s.blocks[b].head)
  }

  ghost predicate PushAfter(s: State, beg: nat, b: nat) {
    && beg <= s.now
    && b < |s.blocks|
    && (forall sl :: sl in s.pushed && s.pushed[sl].done < beg ==> sl.blk <= b)
  }

  ghost predicate PushTicketOk(s: State, v: Val, beg: nat, sl: Slot) {
    && v != 0
    && PushAfter(s, beg, sl.blk)
    && sl.tkt < s.blocks[sl.blk].tail
    && sl !in s.pushed
    && (forall x :: x in s.pushed && s.pushed[x].done < beg ==> Before(x, sl))
  }

  ghost predicate PopAfter(s: State, beg: nat, b: nat) {
    && beg <= s.now
    && b < |s.blocks|
    && b <= s.mqHead
    && (forall sl :: sl in s.taken && s.taken[sl].done < beg ==> sl.blk <= b)
  }

  ghost predicate PopTicketOk(s: State, p: Tid, beg: nat, sl: Slot, second: bool) {
    && PopAfter(s, beg, sl.blk)
    && sl in s.drawn && s.drawn[sl] == p
    && sl !in s.taken && sl !in s.left
    && (forall x :: x in s.taken && s.taken[x].done < beg ==> Before(x, sl))
    && (second ==> sl.blk + 1 < |s.blocks|)
  }

  ghost predicate FixOk(s: State, beg: nat, b: nat, second: bool) {
    && PopAfter(s, beg, b)
    && (s.gated || second ==> b + 1 < |s.blocks|)
    && (second ==> Drained(s, b))
  }

  /** What an emptiness check has learnt about block b. */
  ghost predicate CheckOk(s: State, b: nat, at: CheckAt) {
    && b < |s.blocks| && b <= s.mqHead
    && (at.CheckBack? ==> at.ch <= s.blocks[b].head)
    && (at.CheckBehind? || at.CheckSwing? ==> Drained(s, b))
    && (at.CheckSwing? ==> b + 1 < |s.blocks|)
  }

  /** Two tickets of one block that meet in the same cell. */
  ghost predicate SameCell(s: State, x: Slot, y: Slot)
    requires y.blk < |s.blocks| && 0 < |s.blocks[y.blk].cells|
  {
    x.blk == y.blk && x.tkt % |s.blocks[y.blk].cells| == y.tkt % |s.blocks[y.blk].cells|
  }

  /** A push about to swap an unsafe cell has seen the head at or below its ticket; as long as
      the cell has not moved since, every pop that left it empty-handed was an earlier one. */
  ghost predicate PushAtOk(s: State, sl: Slot, at: PushAt)
    requires sl.blk < |s.blocks| && 0 < |s.blocks[sl.blk].cells|
  {
    var c := CellAt(s, sl);
    match at
    case PushVal => true
    case PushIdx(_) => true
    case PushHead(i) => i <= sl.tkt && i <= c.idx
    case PushCas(safe, i) =>
      && i <= sl.tkt && i <= c.idx
      && (!safe && c.idx == i && c.val == 0 ==> forall x :: x in s.left && SameCell(s, x, sl) ==> x.tkt < sl.tkt)
  }

  /** What thread p knows at its program point.  Behind a semaphore PoNull, where the
      caller's assertion would fail, is not a point a thread can be at. */
  ghost predicate ThreadOk(s: State, p: Tid, pc: Pc)
    requires WellFormed(s)
  {
    match pc
    case Idle => true
    case PuFind(v, beg, at) => v != 0 && beg <= s.now && (at.ReadTail? || at.fb < |s.blocks|)
    case PuBlock(v, beg, b, at) =>
      && v != 0 && PushAfter(s, beg, b)
      && (at.Alloc? || at.Link? ==> s.blocks[b].closed)
      && (at.Link? ==> 0 < at.size)
    case PuTicket(v, beg, b, _, t, at) => PushTicketOk(s, v, beg, Slot(b, t)) && PushAtOk(s, Slot(b, t), at)
    case PuSwing(b) => b + 1 < |s.blocks|
    case PuPost => s.gated
    case Sem(_) => s.gated
    case PoReadHead(beg) => beg <= s.now
    case PoRecheck(beg, b) => PopAfter(s, beg, b)
    case PoFaa(beg, b, second) => PopAfter(s, beg, b) && (second ==> b + 1 < |s.blocks|)
    case PoTicket(beg, b, second, h, at) =>
      PopTicketOk(s, p, beg, Slot(b, h), second) && (at.PopCas? ==> at.i <= h)
    case PoReadTail(beg, b, second, h) =>
      && PopAfter(s, beg, b) && (second ==> b + 1 < |s.blocks|)
      && h < s.blocks[b].head && Slot(b, h) in s.left
    case Fix(beg, b, second, at) =>
      FixOk(s, beg, b, second) && (at.FixRecheck? || at.FixCas? ==> at.ft < at.fh)
    case PoNull => !s.gated
    case Check(b, at) => CheckOk(s, b, at)
  }

  ghost predicate CellsInv(s: State)
    requires WellFormed(s)
  {
    forall b, j {:trigger CellOk(s, b, j)} :: 0 <= b < |s.blocks| && 0 <= j < |s.blocks[b].cells| ==> CellOk(s, b, j)
  }

  ghost predicate SlotsInv(s: State)
    requires WellFormed(s)
  {
    && (forall sl {:trigger PushedOk(s, sl)} :: sl in s.pushed ==> PushedOk(s, sl))
    && (forall sl {:trigger TakenOk(s, sl)} :: sl in s.taken ==> TakenOk(s, sl))
    && (forall sl {:trigger LeftOk(s, sl)} :: sl in s.left ==> LeftOk(s, sl))
    && (forall sl {:trigger DrawnOk(s, sl)} :: sl in s.drawn ==> DrawnOk(s, sl))
    && AllDrawn(s)
  }

  /** Pushes and pops that do not overlap in time draw their tickets in that order. */
  ghost predicate OrderInv(s: State) {
    && (forall x, y {:trigger Before(x, y)} ::
          x in s.pushed && y in s.pushed && s.pushed[x].done < s.pushed[y].begin ==> Before(x, y))
    && (forall x, y {:trigger Before(x, y)} ::
          x in s.taken && y in s.taken && s.taken[x].done < s.taken[y].begin ==> Before(x, y))
  }

  ghost predicate ListInv(s: State)
    requires WellFormed(s)
  {
    && (forall b :: 0 <= b < |s.blocks| - 1 ==> s.blocks[b].closed)
    && (forall b {:trigger Drained(s, b)} :: 0 <= b < s.mqHead ==> Drained(s, b))
  }

  ghost predicate TicketsInv(s: State) {
    forall p, q, sl ::
      p in s.threads && q in s.threads && p != q && HoldsPush(s.threads[p], sl) ==> !HoldsPush(s.threads[q], sl)
  }

  /** Semaphore accounting: units out never outnumber completed pushes. */
  ghost predicate CountInv(s: State) {
    s.gated ==>
    && s.sem + |Who(s.threads, Undoing)| == s.posted - s.acquired
    && s.acquired <= s.posted
    && s.posted + |Who(s.threads, Unposted)| == |s.pushed|
    && s.acquired == |Who(s.threads, Popping)| + |s.taken|
  }

  ghost predicate ThreadsInv(s: State)
    requires WellFormed(s)
  {
    forall p {:trigger ThreadOk(s, p, s.threads[p])} :: p in s.threads ==> ThreadOk(s, p, s.threads[p])
  }

  ghost predicate Inv(s: State) {
    && WellFormed(s)
    && CellsInv(s)
    && SlotsInv(s)
    && OrderInv(s)
    && ListInv(s)
    && TicketsInv(s)
    && CountInv(s)
    && ThreadsInv(s)
  }
}
