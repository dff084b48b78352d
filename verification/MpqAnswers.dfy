/** What an empty answer means: the null of an ungated pop, and the 1 of mpq_is_empty. */
module MpqAnswers {
  import opened MpqModel
  import opened MpqInvariant
  import opened MpqTheorems

  /** Every value in the queue is promised to a pop in progress. */
  ghost predicate AllPromised(s: State) {
    forall u :: u in s.pushed && u !in s.taken ==> Promised(s, u)
  }

  // ---------------------------------------------------------------- where a step leads

  /** Only p moves, and no block disappears. */
  ghost predicate OnlyMoves(s: State, s': State, p: Tid) {
    p in s'.threads && s'.threads == s.threads[p := s'.threads[p]] && |s.blocks| <= |s'.blocks|
  }

  /** Neither a check nor the end of an unsuccessful pop. */
  predicate Ordinary(pc: Pc) { !pc.Check? && !pc.Fix? && !pc.PoNull? }

  lemma FindShape(s: State, p: Tid, v: Val, beg: nat, at: FindAt)
    ensures OnlyMoves(s, FindStep(s, p, v, beg, at), p) && Ordinary(FindStep(s, p, v, beg, at).threads[p])
  {
  }

  lemma PushBlockShape(s: State, p: Tid, v: Val, beg: nat, b: nat, at: BlockAt)
    requires b < |s.blocks|
    ensures OnlyMoves(s, PushBlockStep(s, p, v, beg, b, at), p) &&
            Ordinary(PushBlockStep(s, p, v, beg, b, at).threads[p])
  {
  }

  lemma PushTicketShape(s: State, p: Tid, v: Val, beg: nat, b: nat, iter: nat, t: nat, at: PushAt)
    requires b < |s.blocks| && 0 < |s.blocks[b].cells|
    ensures var s' := PushTicketStep(s, p, v, beg, b, iter, t, at); OnlyMoves(s, s', p) && Ordinary(s'.threads[p])
  {
  }

  lemma PopTicketShape(s: State, p: Tid, beg: nat, b: nat, second: bool, h: nat, at: PopAt)
    requires b < |s.blocks| && 0 < |s.blocks[b].cells|
    ensures var s' := PopTicketStep(s, p, beg, b, second, h, at); OnlyMoves(s, s', p) && Ordinary(s'.threads[p])
  {
    hide CellAt, SetCell;
    forall c: Cell ensures SameButCells(s, SetCell(s, Slot(b, h), c)) { SetCellKeeps(s, Slot(b, h), c); }
  }

  ghost predicate SameButCells(s: State, s': State) {
    s'.threads == s.threads && |s'.blocks| == |s.blocks|
  }

  lemma SetCellKeeps(s: State, sl: Slot, c: Cell)
    requires sl.blk < |s.blocks| && 0 < |s.blocks[sl.blk].cells|
    ensures SameButCells(s, SetCell(s, sl, c))
  {
  }

  lemma SemShape(s: State, p: Tid, at: SemAt, c: Choice)
    ensures OnlyMoves(s, SemStep(s, p, at, c), p) && Ordinary(SemStep(s, p, at, c).threads[p])
  {
  }

  lemma FixShape(s: State, p: Tid, beg: nat, b: nat, second: bool, at: FixAt)
    requires b < |s.blocks|
    ensures var s' := FixStep(s, p, beg, b, second, at);
            OnlyMoves(s, s', p) && |s'.blocks| == |s.blocks| && !s'.threads[p].Check? &&
            (s'.threads[p].Fix? ==> s'.threads[p].b == b && s'.threads[p].second == second) &&
            (s'.threads[p].PoNull? ==> !second && b + 1 == |s.blocks|)
  {
  }

  lemma CheckShape(s: State, p: Tid, b: nat, at: CheckAt)
    requires b < |s.blocks|
    ensures var s' := CheckStep(s, p, b, at);
            OnlyMoves(s, s', p) && !s'.threads[p].Fix? && !s'.threads[p].PoNull?
  {
  }

  /** Where a step of thread p leads. */
  ghost predicate Leads(s: State, s': State, p: Tid, pc: Pc)
    requires WellFormed(s) && PcBlock(pc) < |s.blocks|
  {
    OnlyMoves(s, s', p) &&
    (s'.threads[p].Check? && !s'.threads[p].chk.CheckHead? ==> pc.Check? && s' == CheckStep(s, p, pc.b, pc.chk)) &&
    (s'.threads[p].Fix? || s'.threads[p].PoNull? ==>
       (pc.Fix? && s' == FixStep(s, p, pc.beg, pc.b, pc.second, pc.fix)) || (pc.PoNull? && s'.threads[p].PoNull?) ||
       (pc.PoReadTail? && s.blocks[pc.b].tail <= pc.h + 1 && |s'.blocks| == |s.blocks| &&
        s'.threads[p] == Fix(pc.beg, pc.b, pc.second, FixTail)))
  }

  lemma OutsideShape(s: State, p: Tid, c: Choice)
    requires WellFormed(s) && p in s.threads
    requires s.threads[p].Idle? || s.threads[p].PuSwing? || s.threads[p].PuPost? || s.threads[p].PoNull?
    ensures Leads(s, Step(s, p, c), p, s.threads[p])
  {
    hide FindStep, PushBlockStep, PushTicketStep, PopTicketStep, SemStep, FixStep, CheckStep;
  }

  lemma ListWalkShape(s: State, p: Tid, c: Choice)
    requires WellFormed(s) && p in s.threads
    requires s.threads[p].PoReadHead? || s.threads[p].PoRecheck? || s.threads[p].PoFaa? || s.threads[p].PoReadTail?
    ensures Leads(s, Step(s, p, c), p, s.threads[p])
  {
    hide FindStep, PushBlockStep, PushTicketStep, PopTicketStep, SemStep, FixStep, CheckStep;
  }

  lemma PushShape(s: State, p: Tid, c: Choice)
    requires WellFormed(s) && p in s.threads
    requires s.threads[p].PuFind? || s.threads[p].PuBlock? || s.threads[p].PuTicket?
    ensures Leads(s, Step(s, p, c), p, s.threads[p])
  {
    hide FindStep, PushBlockStep, PushTicketStep, PopTicketStep, SemStep, FixStep, CheckStep;
    match s.threads[p]
    case PuFind(v, beg, at) => FindShape(s, p, v, beg, at);
    case PuBlock(v, beg, b, at) => PushBlockShape(s, p, v, beg, b, at);
    case PuTicket(v, beg, b, iter, t, at) => PushTicketShape(s, p, v, beg, b, iter, t, at);
  }

  lemma BlockInRange(s: State, p: Tid)
    requires WellFormed(s) && p in s.threads
    ensures PcBlock(s.threads[p]) < |s.blocks| && 0 < |s.blocks[PcBlock(s.threads[p])].cells|
  {
  }

  lemma StepShape(s: State, p: Tid, c: Choice)
    requires WellFormed(s) && p in s.threads
    ensures Leads(s, Step(s, p, c), p, s.threads[p])
  {
    hide FindStep, PushBlockStep, PushTicketStep, PopTicketStep, SemStep, FixStep, CheckStep, WellFormed;
    BlockInRange(s, p);
    match s.threads[p]
    case PoTicket(beg, b, second, h, at) => PopTicketShape(s, p, beg, b, second, h, at);
    case Sem(at) => SemShape(s, p, at, c);
    case Fix(beg, b, second, at) => FixShape(s, p, beg, b, second, at);
    case Check(b, at) => CheckShape(s, p, b, at);
    case PuFind(_, _, _) => PushShape(s, p, c);
    case PuBlock(_, _, _, _) => PushShape(s, p, c);
    case PuTicket(_, _, _, _, _, _) => PushShape(s, p, c);
    case Idle => OutsideShape(s, p, c);
    case PuSwing(_) => OutsideShape(s, p, c);
    case PuPost => OutsideShape(s, p, c);
    case PoNull => OutsideShape(s, p, c);
    case _ => ListWalkShape(s, p, c);
  }

  // ---------------------------------------------------------------- mpq_is_empty

  /** The last block has nothing beyond its head, and all blocks before it are drained. */
  lemma NothingBeyondHead(s: State, b: nat)
    requires WellFormed(s) && SlotsInv(s) && ListInv(s) && b <= s.mqHead && b + 1 == |s.blocks|
    requires forall u :: u in s.pushed && u.blk == b ==> u.tkt < s.blocks[b].head
    ensures AllPromised(s)
  {
    forall u | u in s.pushed && u !in s.taken ensures Promised(s, u) {
      assert PushedOk(s, u);
      assert u.blk < b ==> Drained(s, u.blk);
      assert Slot(u.blk, u.tkt) in s.drawn;
      assert DrawnOk(s, u);
      assert u in s.left ==> LeftOk(s, u);
    }
  }

  lemma SaysYes(s: State, p: Tid, b: nat, at: CheckAt)
    requires WellFormed(s) && SlotsInv(s) && ListInv(s) && b < |s.blocks| && CheckOk(s, b, at)
    requires CheckStep(s, p, b, at).threads[p] == Check(b, Yes) && at != Yes
    ensures AllPromised(s)
  {
    forall u | u in s.pushed && u.blk == b ensures u.tkt < s.blocks[b].head { assert PushedOk(s, u); }
    NothingBeyondHead(s, b);
  }

  /** When mpq_is_empty decides for 1, every value in the queue is promised to a pop in progress. */
  lemma EmptyAnswer(run: seq<State>, i: nat, p: Tid)
    requires Execution(run) && 0 < i < |run| && p in run[i].threads && p in run[i - 1].threads
    requires run[i].threads[p].Check? && run[i].threads[p].chk.Yes? && run[i - 1].threads[p] != run[i].threads[p]
    ensures AllPromised(run[i - 1])
  {
    hide CellsInv, OrderInv, TicketsInv, CountInv, SlotsInv, ListInv, Step, Init, CheckStep, AllPromised;
    RunInv(run, i - 1);
    var s := run[i - 1];
    assert WellFormed(run[i - 1]) && Next(run[i - 1], run[i - 1 + 1]);
    var q: Tid, c: Choice :| q in s.threads && run[i] == Step(s, q, c);
    StepShape(s, q, c);
    assert ThreadOk(s, p, s.threads[p]);
    var b, at := s.threads[p].b, s.threads[p].chk;
    CheckAnswers(s, p, b, at);
    SaysYes(s, p, b, at);
  }

  lemma CheckAnswers(s: State, p: Tid, b: nat, at: CheckAt)
    requires b < |s.blocks|
    ensures var pc := CheckStep(s, p, b, at).threads[p]; pc.Check? && pc.chk.Yes? ==> pc == Check(b, Yes) && at != Yes
  {
  }

  // ---------------------------------------------------------------- a pop that returns null

  /** The pop of thread p, on its first try of the last block, is on its way to a null answer. */
  ghost predicate GivesUp(s: State, p: Tid) {
    p in s.threads && ((s.threads[p].Fix? && !s.threads[p].second && s.threads[p].b + 1 == |s.blocks|) ||
      s.threads[p].PoNull?)
  }

  /** The moment at which it found nothing. */
  ghost predicate FindsNothing(s: State, p: Tid) {
    p in s.threads && s.threads[p].PoReadTail? && !s.threads[p].second && s.threads[p].b + 1 == |s.blocks| &&
    s.threads[p].b < |s.blocks| && s.blocks[s.threads[p].b].tail <= s.threads[p].h + 1
  }

  lemma IntoGivingUp(s: State, p: Tid, c: Choice)
    requires WellFormed(s) && p in s.threads && GivesUp(Step(s, p, c), p) && !GivesUp(s, p)
    ensures FindsNothing(s, p)
  {
    hide Step, FixStep;
    StepShape(s, p, c);
    if s.threads[p].Fix? {
      FixShape(s, p, s.threads[p].beg, s.threads[p].b, s.threads[p].second, s.threads[p].fix);
    }
  }

  lemma {:induction false} BeforeNull(run: seq<State>, i: nat, p: Tid) returns (j: nat)
    requires Execution(run) && i < |run| && GivesUp(run[i], p)
    ensures j < i && FindsNothing(run[j], p) && forall m :: j < m <= i ==> GivesUp(run[m], p)
    decreases i
  {
    hide Inv, Step, Init, GivesUp, FindsNothing;
    RunInv(run, i);
    if i == 0 {
      NotAtStart(run[0], p);
    } else {
      RunInv(run, i - 1);
      var s := run[i - 1];
      assert WellFormed(run[i - 1]) && Next(run[i - 1], run[i - 1 + 1]);
      var q: Tid, c: Choice :| q in s.threads && run[i] == Step(s, q, c);
      StepShape(s, q, c);
      StillGivingUp(s, run[i], p, q);
      if GivesUp(s, p) {
        j := BeforeNull(run, i - 1, p);
      } else {
        IntoGivingUp(s, p, c);
        j := i - 1;
      }
    }
  }

  lemma NotAtStart(s: State, p: Tid)
    requires Init(s)
    ensures !GivesUp(s, p)
  {
  }

  /** Steps of others do not bring a pop into giving up. */
  lemma StillGivingUp(s: State, s': State, p: Tid, q: Tid)
    requires s'.threads.Keys == s.threads.Keys && |s.blocks| <= |s'.blocks| && GivesUp(s', p)
    requires forall t :: t in s.threads && t != q ==> s'.threads[t] == s.threads[t]
    requires p in s.threads && s.threads[p].Fix? ==> s.threads[p].b < |s.blocks|
    ensures p in s.threads && (p != q ==> GivesUp(s, p))
  {
  }

  /** A pop that returns null has, within the same call, seen a moment at which every value in the
      queue was promised to another pop in progress. */
  lemma NullMeansPromised(run: seq<State>, i: nat, p: Tid) returns (j: nat)
    requires Execution(run) && i < |run| && p in run[i].threads && run[i].threads[p].PoNull?
    ensures j < i && FindsNothing(run[j], p) && AllPromised(run[j])
    ensures forall m :: j < m <= i ==> GivesUp(run[m], p)
  {
    hide CellsInv, OrderInv, TicketsInv, CountInv, Execution;
    j := BeforeNull(run, i, p);
    RunInv(run, j);
    var s := run[j];
    assert ThreadOk(s, p, s.threads[p]);
    var PoReadTail(beg, b, second, h) := s.threads[p];
    forall u | u in s.pushed && u !in s.taken ensures Promised(s, u) {
      EveryValuePromised(s, p, beg, b, second, h, u);
    }
  }
}
