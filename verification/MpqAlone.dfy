/**
 A thread that runs alone finishes its call: no operation waits for another thread, wherever that one has
 stopped. Only a pop for which the semaphore has no unit waits.
 */
module MpqAlone {
  import opened MpqModel
  import opened MpqInvariant
  import opened MpqTheorems
  import opened MpqAnswers

  /** The state after n steps of thread p and of no other. */
  ghost function Alone(s: State, p: Tid, n: nat): State
    requires Inv(s) && p in s.threads
    decreases n
  {
    if n == 0 then s
    else
      StepInv(s, p, Go);
      StepKeeps(s, p);
      Alone(Step(s, p, Go), p, n - 1)
  }

  ghost predicate Finishes(s: State, p: Tid) {
    Inv(s) && p in s.threads && exists n: nat :: p in Alone(s, p, n).threads && Alone(s, p, n).threads[p] == Idle
  }

  lemma StepKeeps(s: State, p: Tid)
    requires WellFormed(s) && p in s.threads
    ensures p in Step(s, p, Go).threads
  {
    hide WellFormed, Step;
    StepShape(s, p, Go);
  }

  lemma FinishesNow(s: State, p: Tid)
    requires Inv(s) && p in s.threads && s.threads[p] == Idle
    ensures Finishes(s, p)
  {
    hide Inv;
    assert Alone(s, p, 0) == s;
  }

  lemma FinishesLater(s: State, p: Tid)
    requires WellFormed(s) && Inv(s) && p in s.threads && Finishes(Step(s, p, Go), p)
    ensures Finishes(s, p)
  {
    hide Inv, Step, WellFormed;
    var s' := Step(s, p, Go);
    var n: nat :| p in Alone(s', p, n).threads && Alone(s', p, n).threads[p] == Idle;
    AloneFrom(s, p, n);
  }

  lemma AloneFrom(s: State, p: Tid, n: nat)
    requires WellFormed(s) && Inv(s) && p in s.threads && Inv(Step(s, p, Go)) && p in Step(s, p, Go).threads
    ensures Alone(s, p, n + 1) == Alone(Step(s, p, Go), p, n)
  {
    hide Inv, Step, WellFormed;
  }

  // ---------------------------------------------------------------- pushes

  predicate Pushes(pc: Pc) {
    pc.PuFind? || pc.PuBlock? || pc.PuTicket? || pc.PuSwing? || pc.PuPost?
  }

  /** 2 in a block that is not the last, 1 looking for the last, 0 there. */
  function PushPhase(s: State, pc: Pc): nat {
    if pc.PuFind? then 1 else if (pc.PuBlock? || pc.PuTicket?) && pc.b + 1 != |s.blocks| then 2 else 0
  }

  function Tries(iter: nat): nat { if iter < 11 then 11 - iter else 0 }

  /** What is left to do in the phase. */
  function PushLeft(s: State, pc: Pc): nat {
    var lag := if s.mqTail < |s.blocks| then |s.blocks| - s.mqTail else 0;
    match pc
    case PuFind(_, _, ReadTail) => 4 * lag + 3
    case PuFind(_, _, Recheck(b)) => if b == s.mqTail then 4 * lag + 2 else 4 * lag + 4
    case PuFind(_, _, CheckNext(b)) => if b == s.mqTail then 4 * lag + 1 else 4 * lag + 6
    case PuFind(_, _, Help(b)) => if b == s.mqTail && b + 1 < |s.blocks| then 4 * lag else 4 * lag + 5
    case PuBlock(_, _, _, DrawTail(iter)) => 20 * Tries(iter) + 15
    case PuTicket(_, _, _, iter, _, PushVal) => 20 * Tries(iter) + 14
    case PuTicket(_, _, _, iter, _, PushIdx(_)) => 20 * Tries(iter) + 13
    case PuTicket(_, _, _, iter, _, PushHead(_)) => 20 * Tries(iter) + 12
    case PuTicket(_, _, _, iter, _, PushCas(_, _)) => 20 * Tries(iter) + 11
    case PuBlock(_, _, _, Judge(iter, _)) => 20 * Tries(iter) + 10
    case PuBlock(_, _, _, Close) => 5
    case PuBlock(_, _, _, Alloc) => 4
    case PuBlock(_, _, _, Link(_)) => 3
    case PuSwing(_) => 2
    case PuPost => 1
    case _ => 0
  }

  ghost predicate PushDescends(s: State, s': State, p: Tid)
    requires p in s.threads && p in s'.threads
  {
    var pc, pc' := s.threads[p], s'.threads[p];
    pc' == Idle ||
    (Pushes(pc') &&
     (PushPhase(s', pc') < PushPhase(s, pc) ||
      (PushPhase(s', pc') == PushPhase(s, pc) && PushLeft(s', pc') < PushLeft(s, pc))))
  }

  lemma FindDescends(s: State, p: Tid, v: Val, beg: nat, at: FindAt)
    requires p in s.threads && s.threads[p] == PuFind(v, beg, at) && s.mqTail < |s.blocks|
    requires at.ReadTail? || at.fb < |s.blocks|
    ensures p in FindStep(s, p, v, beg, at).threads && PushDescends(s, FindStep(s, p, v, beg, at), p)
  {
  }

  lemma BlockDescends(s: State, p: Tid, v: Val, beg: nat, b: nat, at: BlockAt)
    requires p in s.threads && s.threads[p] == PuBlock(v, beg, b, at) && b < |s.blocks|
    requires (b + 1 < |s.blocks| ==> s.blocks[b].closed) && (at.Link? ==> 0 < at.size)
    ensures p in PushBlockStep(s, p, v, beg, b, at).threads && PushDescends(s, PushBlockStep(s, p, v, beg, b, at), p)
  {
  }

  lemma TicketDescends(s: State, p: Tid, v: Val, beg: nat, b: nat, iter: nat, t: nat, at: PushAt)
    requires p in s.threads && s.threads[p] == PuTicket(v, beg, b, iter, t, at)
    requires b < |s.blocks| && 0 < |s.blocks[b].cells|
    ensures var s' := PushTicketStep(s, p, v, beg, b, iter, t, at); p in s'.threads && PushDescends(s, s', p)
  {
    hide CellAt;
  }

  lemma PushStepDescends(s: State, p: Tid)
    requires WellFormed(s) && Inv(s) && p in s.threads && Pushes(s.threads[p])
    ensures p in Step(s, p, Go).threads && PushDescends(s, Step(s, p, Go), p)
  {
    hide CellsInv, SlotsInv, OrderInv, TicketsInv, CountInv, FindStep, PushBlockStep, PushTicketStep, PushPhase,
         PushLeft;
    assert ThreadOk(s, p, s.threads[p]);
    match s.threads[p]
    case PuFind(v, beg, at) => FindDescends(s, p, v, beg, at);
    case PuBlock(v, beg, b, at) => BlockDescends(s, p, v, beg, b, at);
    case PuTicket(v, beg, b, iter, t, at) => TicketDescends(s, p, v, beg, b, iter, t, at);
    case _ => LastSteps(s, p);
  }

  lemma LastSteps(s: State, p: Tid)
    requires WellFormed(s) && p in s.threads && (s.threads[p].PuSwing? || s.threads[p].PuPost?)
    ensures p in Step(s, p, Go).threads && PushDescends(s, Step(s, p, Go), p)
  {
  }

  lemma {:induction false} PushFinishes(s: State, p: Tid)
    requires WellFormed(s) && Inv(s) && p in s.threads && Pushes(s.threads[p])
    ensures Finishes(s, p)
    decreases PushPhase(s, s.threads[p]), PushLeft(s, s.threads[p])
  {
    hide Inv, Step, PushPhase, PushLeft, Finishes, WellFormed;
    PushStepDescends(s, p);
    StepInv(s, p, Go);
    var s' := Step(s, p, Go);
    InvWellFormed(s');
    if s'.threads[p] == Idle { FinishesNow(s', p); } else { PushFinishes(s', p); }
    FinishesLater(s, p);
  }

  lemma InvWellFormed(s: State)
    requires Inv(s)
    ensures WellFormed(s)
  {
  }

  // ---------------------------------------------------------------- pops

  predicate Seeking(pc: Pc) {
    pc.PoReadHead? || pc.PoRecheck? || pc.PoFaa? || pc.PoTicket? || pc.PoReadTail? || pc.Fix? || pc.PoNull?
  }

  /** Blocks from the head pointer on. */
  function Ahead(s: State): nat {
    if s.mqHead < |s.blocks| then |s.blocks| - s.mqHead else 0
  }

  /** How far a pop is from leaving the head block: 4 and 3 in a block that is not the head block any more, 2
      looking for the head block, 1 and 0 in its first and second visit there. */
  function PopPhase(s: State, pc: Pc): nat {
    match pc
    case PoReadHead(_) => 2
    case PoRecheck(_, b) => if b == s.mqHead then 2 else 3
    case PoFaa(_, b, second) => (if b == s.mqHead then 0 else 3) + if second then 0 else 1
    case PoTicket(_, b, second, _, _) => (if b == s.mqHead then 0 else 3) + if second then 0 else 1
    case PoReadTail(_, b, second, _) => (if b == s.mqHead then 0 else 3) + if second then 0 else 1
    case Fix(_, b, second, _) => (if b == s.mqHead then 0 else 3) + if second then 0 else 1
    case _ => 0
  }

  /** Push tickets of the block that no pop has drawn. */
  function Open(s: State, b: nat): nat {
    if b < |s.blocks| && s.blocks[b].head < s.blocks[b].tail then s.blocks[b].tail - s.blocks[b].head else 0
  }

  /** What is left to do with a ticket: reads that are out of date are read once more. */
  function TicketLeft(s: State, b: nat, h: nat, at: PopAt): nat {
    if b < |s.blocks| && 0 < |s.blocks[b].cells| then
      var c := CellAt(s, Slot(b, h));
      match at
      case PopVal => 3
      case PopIdx(val) => if val == c.val then 2 else 5
      case PopCas(val, safe, i) => if c == Cell(safe, i, val) then 1 else 4
    else 0
  }

  function FixLeft(s: State, b: nat, at: FixAt): nat {
    if b < |s.blocks| then
      var blk := s.blocks[b];
      match at
      case FixTail => 4
      case FixHead(ft, fclosed) => if ft == blk.tail && fclosed == blk.closed then 3 else 6
      case FixRecheck(ft, _) => if ft == blk.tail && !blk.closed then 2 else 5
      case FixCas(ft, _) => if ft == blk.tail && !blk.closed then 1 else 5
      case Empty => 0
    else 0
  }

  /** With a ticket h below the tail the pop will draw another. */
  function Again(s: State, b: nat, h: nat, left: nat): nat {
    if b < |s.blocks| && s.blocks[b].tail > h + 1 then 20 * Open(s, b) + 20 + left else 7 + left
  }

  function PopLeft(s: State, pc: Pc): nat {
    match pc
    case PoReadHead(_) => 1
    case PoFaa(_, b, _) => 20 * Open(s, b) + 19
    case PoTicket(_, b, _, h, at) => Again(s, b, h, TicketLeft(s, b, h, at))
    case PoReadTail(_, b, _, h) => Again(s, b, h, 0)
    case Fix(_, b, _, at) => FixLeft(s, b, at)
    case _ => 0
  }

  ghost predicate PopDescends(s: State, s': State, p: Tid)
    requires p in s.threads && p in s'.threads
  {
    var pc, pc' := s.threads[p], s'.threads[p];
    pc' == Idle ||
    (Seeking(pc') &&
     (Ahead(s') < Ahead(s) ||
      (Ahead(s') == Ahead(s) &&
       (PopPhase(s', pc') < PopPhase(s, pc) ||
        (PopPhase(s', pc') == PopPhase(s, pc) && PopLeft(s', pc') < PopLeft(s, pc))))))
  }

  lemma FixDescends(s: State, p: Tid, beg: nat, b: nat, second: bool, at: FixAt)
    requires p in s.threads && s.threads[p] == Fix(beg, b, second, at) && b < |s.blocks| && s.mqHead < |s.blocks|
    requires second ==> b + 1 < |s.blocks|
    ensures var s' := FixStep(s, p, beg, b, second, at); p in s'.threads && PopDescends(s, s', p)
  {
  }

  /** The counters of the list and of block b are as they were. */
  ghost predicate SameCounters(s: State, s': State, b: nat) {
    s'.mqHead == s.mqHead && |s'.blocks| == |s.blocks| && b < |s.blocks| &&
    s'.blocks[b].head == s.blocks[b].head && s'.blocks[b].tail == s.blocks[b].tail
  }

  /** A pop with a ticket comes closer to giving it up or returns. */
  ghost predicate TicketRound(s: State, s': State, p: Tid, beg: nat, b: nat, second: bool, h: nat, at: PopAt) {
    p in s'.threads &&
    match s'.threads[p]
    case Idle => true
    case PoReadTail(beg', b', second', h') =>
      beg' == beg && b' == b && second' == second && h' == h && SameCounters(s, s', b) && TicketLeft(s, b, h, at) > 0
    case PoTicket(beg', b', second', h', at') =>
      beg' == beg && b' == b && second' == second && h' == h && SameCounters(s, s', b) &&
      TicketLeft(s', b, h, at') < TicketLeft(s, b, h, at)
    case _ => false
  }

  lemma CellSame(s: State, s': State, sl: Slot)
    requires s'.blocks == s.blocks && sl.blk < |s.blocks| && 0 < |s.blocks[sl.blk].cells|
    ensures CellAt(s', sl) == CellAt(s, sl)
  {
  }

  lemma PopReadRound(s: State, p: Tid, beg: nat, b: nat, second: bool, h: nat, at: PopAt)
    requires b < |s.blocks| && 0 < |s.blocks[b].cells| && !at.PopCas?
    ensures TicketRound(s, PopTicketStep(s, p, beg, b, second, h, at), p, beg, b, second, h, at)
  {
    hide CellAt;
    CellSame(s, PopTicketStep(s, p, beg, b, second, h, at), Slot(b, h));
  }

  lemma PopCasRound(s: State, p: Tid, beg: nat, b: nat, second: bool, h: nat, val: Val, safe: bool, i: nat)
    requires b < |s.blocks| && 0 < |s.blocks[b].cells|
    ensures TicketRound(s, PopTicketStep(s, p, beg, b, second, h, PopCas(val, safe, i)), p, beg, b, second, h,
                        PopCas(val, safe, i))
  {
    hide CellAt, SetCell;
    var sl, n, at := Slot(b, h), |s.blocks[b].cells|, PopCas(val, safe, i);
    var s' := PopTicketStep(s, p, beg, b, second, h, at);
    if CellAt(s, sl) != Cell(safe, i, val) {
      CellSame(s, s', sl);
    } else if val != 0 && i == h {
      assert s'.threads[p] == Idle;
    } else {
      CountersKept(s, sl, if val != 0 then Cell(false, i, val) else Cell(safe, h + n, 0));
    }
  }

  lemma PopTicketRound(s: State, p: Tid, beg: nat, b: nat, second: bool, h: nat, at: PopAt)
    requires b < |s.blocks| && 0 < |s.blocks[b].cells|
    ensures TicketRound(s, PopTicketStep(s, p, beg, b, second, h, at), p, beg, b, second, h, at)
  {
    hide CellAt, PopTicketStep, TicketRound;
    if at.PopCas? {
      PopCasRound(s, p, beg, b, second, h, at.val, at.safe, at.i);
    } else {
      PopReadRound(s, p, beg, b, second, h, at);
    }
  }

  lemma CountersKept(s: State, sl: Slot, c: Cell)
    requires sl.blk < |s.blocks| && 0 < |s.blocks[sl.blk].cells|
    ensures SameCounters(s, SetCell(s, sl, c), sl.blk)
  {
  }

  lemma PopTicketDescends(s: State, p: Tid, beg: nat, b: nat, second: bool, h: nat, at: PopAt)
    requires p in s.threads && s.threads[p] == PoTicket(beg, b, second, h, at)
    requires b < |s.blocks| && 0 < |s.blocks[b].cells|
    ensures var s' := PopTicketStep(s, p, beg, b, second, h, at); p in s'.threads && PopDescends(s, s', p)
  {
    hide CellAt, PopTicketStep, TicketLeft;
    PopTicketRound(s, p, beg, b, second, h, at);
  }

  lemma WalkDescends(s: State, p: Tid)
    requires WellFormed(s) && p in s.threads && Seeking(s.threads[p]) && (s.threads[p] == PoNull ==> !s.gated)
    requires !s.threads[p].PoTicket? && !s.threads[p].Fix?
    requires s.threads[p].PoReadTail? ==> s.threads[p].h < s.blocks[s.threads[p].b].head
    ensures p in Step(s, p, Go).threads && PopDescends(s, Step(s, p, Go), p)
  {
    hide CellAt;
  }

  lemma PopStepDescends(s: State, p: Tid)
    requires WellFormed(s) && Inv(s) && p in s.threads && Seeking(s.threads[p])
    ensures p in Step(s, p, Go).threads && PopDescends(s, Step(s, p, Go), p)
  {
    hide CellsInv, SlotsInv, OrderInv, ListInv, TicketsInv, CountInv, PopTicketStep, FixStep, PopDescends, Drained;
    assert ThreadOk(s, p, s.threads[p]);
    match s.threads[p]
    case PoTicket(beg, b, second, h, at) => PopTicketDescends(s, p, beg, b, second, h, at);
    case Fix(beg, b, second, at) => FixDescends(s, p, beg, b, second, at);
    case _ => WalkDescends(s, p);
  }

  lemma {:induction false} PopFinishes(s: State, p: Tid)
    requires WellFormed(s) && Inv(s) && p in s.threads && Seeking(s.threads[p])
    ensures Finishes(s, p)
    decreases Ahead(s), PopPhase(s, s.threads[p]), PopLeft(s, s.threads[p])
  {
    hide Inv, Step, Ahead, PopPhase, PopLeft, Finishes, WellFormed;
    PopStepDescends(s, p);
    StepInv(s, p, Go);
    var s' := Step(s, p, Go);
    InvWellFormed(s');
    if s'.threads[p] == Idle { FinishesNow(s', p); } else { PopFinishes(s', p); }
    FinishesLater(s, p);
  }

  // ---------------------------------------------------------------- waiting for a unit

  /** There is a unit for a pop at this point of the semaphore's code. */
  predicate UnitFor(s: State, at: SemAt) {
    (if at.SemUndo? then s.sem + 1 else s.sem) > 0
  }

  lemma SemStepAlone(s: State, p: Tid, at: SemAt)
    requires UnitFor(s, at)
    ensures var s' := SemStep(s, p, at, Go);
            p in s'.threads &&
            if at.SemDec? then s'.threads[p].PoReadHead? else s'.threads[p] == Sem(SemDec) && s'.sem > 0
  {
  }

  lemma {:induction false} UnitFinishes(s: State, p: Tid, n: nat)
    requires WellFormed(s) && Inv(s) && p in s.threads && s.threads[p].Sem? && UnitFor(s, s.threads[p].sem)
    requires n == if s.threads[p].sem.SemDec? then 0 else 1
    ensures Finishes(s, p)
    decreases n
  {
    hide Inv, Finishes, WellFormed, SemStep;
    SemStepAlone(s, p, s.threads[p].sem);
    StepInv(s, p, Go);
    var s' := Step(s, p, Go);
    InvWellFormed(s');
    if s'.threads[p].Sem? { UnitFinishes(s', p, 0); } else { PopFinishes(s', p); }
    FinishesLater(s, p);
  }

  // ---------------------------------------------------------------- emptiness checks

  function CheckLeft(s: State, b: nat, at: CheckAt): nat {
    var stale := if b == s.mqHead then 0 else 6;
    match at
    case CheckHead => 6
    case CheckAgain => if b == s.mqHead then 5 else 7
    case CheckFront => 4 + stale
    case CheckBack(_) => 3 + stale
    case CheckBehind => 2 + stale
    case CheckSwing => 1 + stale
    case Yes => 0
    case No => 0
  }

  ghost predicate CheckDescends(s: State, s': State, p: Tid, b: nat, at: CheckAt) {
    p in s'.threads &&
    (s'.threads[p] == Idle ||
     (s'.threads[p].Check? &&
      (Ahead(s') < Ahead(s) ||
       (Ahead(s') == Ahead(s) && CheckLeft(s', s'.threads[p].b, s'.threads[p].chk) < CheckLeft(s, b, at)))))
  }

  lemma CheckStepDescends(s: State, p: Tid, b: nat, at: CheckAt)
    requires b < |s.blocks| && s.mqHead < |s.blocks| && (at.CheckSwing? ==> b + 1 < |s.blocks|)
    ensures CheckDescends(s, CheckStep(s, p, b, at), p, b, at)
  {
  }

  lemma {:induction false} CheckFinishes(s: State, p: Tid)
    requires WellFormed(s) && Inv(s) && p in s.threads && s.threads[p].Check?
    ensures Finishes(s, p)
    decreases Ahead(s), CheckLeft(s, s.threads[p].b, s.threads[p].chk)
  {
    hide CellsInv, SlotsInv, OrderInv, ListInv, TicketsInv, CountInv, CheckStep, Ahead, CheckLeft, Finishes, Drained;
    assert ThreadOk(s, p, s.threads[p]);
    CheckStepDescends(s, p, s.threads[p].b, s.threads[p].chk);
    StepInv(s, p, Go);
    var s' := Step(s, p, Go);
    InvWellFormed(s');
    if s'.threads[p] == Idle { FinishesNow(s', p); } else { CheckFinishes(s', p); }
    FinishesLater(s, p);
  }

  /** From every state of every run, wherever the other threads are, a thread that runs alone finishes its call;
      unless it waits for the semaphore and there is no unit for it. */
  lemma EveryCallFinishes(run: seq<State>, i: nat, p: Tid)
    requires Execution(run) && i < |run| && p in run[i].threads
    requires run[i].threads[p].Sem? ==> UnitFor(run[i], run[i].threads[p].sem)
    ensures Finishes(run[i], p)
  {
    hide Inv, Execution, Finishes, WellFormed;
    RunInv(run, i);
    var s := run[i];
    InvWellFormed(s);
    match s.threads[p]
    case Idle => FinishesNow(s, p);
    case Sem(at) => UnitFinishes(s, p, if at.SemDec? then 0 else 1);
    case Check(_, _) => CheckFinishes(s, p);
    case _ => if Pushes(s.threads[p]) { PushFinishes(s, p); } else { PopFinishes(s, p); }
  }
}
