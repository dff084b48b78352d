/**
 What a call of the queue's operations does: a push delivers its value exactly once and posts the
 semaphore exactly once, a pop takes exactly one value for the one unit it acquired, or none.
 */
module MpqCalls {
  import opened MpqModel
  import opened MpqInvariant
  import opened MpqTheorems
  import opened MpqAnswers

  /** A run together with who steps and what the environment decides. */
  ghost predicate Scheduled(run: seq<State>, who: seq<Tid>, what: seq<Choice>) {
    |run| == |who| + 1 && |what| == |who| && Init(run[0]) &&
    forall i :: 0 <= i < |who| ==> StepsAt(run, who, what, i)
  }

  ghost predicate StepsAt(run: seq<State>, who: seq<Tid>, what: seq<Choice>, i: nat) {
    i < |who| && |what| == |who| && i + 1 < |run| && WellFormed(run[i]) && who[i] in run[i].threads &&
    run[i + 1] == Step(run[i], who[i], what[i])
  }

  lemma ScheduledExecution(run: seq<State>, who: seq<Tid>, what: seq<Choice>)
    requires Scheduled(run, who, what)
    ensures Execution(run)
  {
    hide Step, Init, WellFormed;
    forall i | 0 <= i < |run| - 1 ensures WellFormed(run[i]) && Next(run[i], run[i + 1]) {
      assert StepsAt(run, who, what, i);
    }
  }

  /** Every run has a schedule. */
  lemma {:induction false} ScheduleOf(run: seq<State>, n: nat) returns (who: seq<Tid>, what: seq<Choice>)
    requires Execution(run) && n < |run|
    ensures Scheduled(run[..n + 1], who, what)
  {
    hide Step, Init, WellFormed;
    if n == 0 {
      who, what := [], [];
    } else {
      var who', what' := ScheduleOf(run, n - 1);
      assert WellFormed(run[n - 1]) && Next(run[n - 1], run[n - 1 + 1]);
      var p: Tid, c: Choice :| p in run[n - 1].threads && run[n] == Step(run[n - 1], p, c);
      who, what := who' + [p], what' + [c];
      var prefix := run[..n + 1];
      forall i | 0 <= i < |who| ensures StepsAt(prefix, who, what, i) {
        if i < n - 1 { assert StepsAt(run[..n], who', what', i); }
      }
    }
  }

  // ---------------------------------------------------------------- what a thread's own steps add

  /** What is on record in m' and was not in m. */
  ghost function New<V>(m: map<Slot, V>, m': map<Slot, V>): map<Slot, V> {
    map sl | sl in m' && (sl !in m || m[sl] != m'[sl]) :: m'[sl]
  }

  /** The pushes that thread p's own steps from state i to state k have put on record. */
  ghost function Delivered(run: seq<State>, who: seq<Tid>, p: Tid, i: nat, k: nat): map<Slot, PushRec>
    requires k <= |who| && |run| == |who| + 1
    decreases k
  {
    if k <= i then map[]
    else Delivered(run, who, p, i, k - 1) + if who[k - 1] == p then New(run[k - 1].pushed, run[k].pushed) else map[]
  }

  /** The takes of its own steps. */
  ghost function Taken(run: seq<State>, who: seq<Tid>, p: Tid, i: nat, k: nat): map<Slot, PopRec>
    requires k <= |who| && |run| == |who| + 1
    decreases k
  {
    if k <= i then map[]
    else Taken(run, who, p, i, k - 1) + if who[k - 1] == p then New(run[k - 1].taken, run[k].taken) else map[]
  }

  /** How much its own steps have changed a counter. */
  ghost function Sum(run: seq<State>, who: seq<Tid>, p: Tid, i: nat, k: nat, f: State -> int): int
    requires k <= |who| && |run| == |who| + 1
    decreases k
  {
    if k <= i then 0
    else Sum(run, who, p, i, k - 1, f) + if who[k - 1] == p then f(run[k]) - f(run[k - 1]) else 0
  }

  ghost function Posted(): State -> int { (s: State) => s.posted }
  ghost function Acquired(): State -> int { (s: State) => s.acquired }
  ghost function Units(): State -> int { (s: State) => s.sem }

  /** Thread p is in one call from state i + 1 on, up to state k. */
  ghost predicate InCall(run: seq<State>, p: Tid, i: nat, k: nat) {
    i < k < |run| && (forall m :: i <= m <= k ==> p in run[m].threads) && run[i].threads[p] == Idle &&
    forall m :: i < m < k ==> run[m].threads[p] != Idle
  }

  // ---------------------------------------------------------------- one step of a push

  /** A push that has not delivered its value v yet; it began at time beg. */
  ghost predicate Carries(pc: Pc, v: Val, beg: nat) {
    match pc
    case PuFind(w, b, _) => w == v && b == beg
    case PuBlock(w, b, _, _) => w == v && b == beg
    case PuTicket(w, b, _, _, _, _) => w == v && b == beg
    case _ => false
  }

  /** The semaphore and the takes are as they were. */
  ghost predicate NoPop(s: State, s': State) {
    s'.posted == s.posted && s'.acquired == s.acquired && s'.sem == s.sem && s'.taken == s.taken
  }

  /** A push carries its value on, or delivers it under a new ticket; it never drops it. */
  ghost predicate CarriesOn(s: State, s': State, p: Tid, v: Val, beg: nat) {
    p in s'.threads && NoPop(s, s') &&
    if Carries(s'.threads[p], v, beg) then s'.pushed == s.pushed
    else (s'.threads[p].PuSwing? || s'.threads[p] == AfterPush(s)) && Puts(s, s', v, beg)
  }

  lemma PushMoves(s: State, p: Tid, c: Choice, v: Val, beg: nat)
    requires WellFormed(s) && Inv(s) && p in s.threads && Carries(s.threads[p], v, beg)
    ensures CarriesOn(s, Step(s, p, c), p, v, beg)
  {
    hide CellsInv, OrderInv, ListInv, TicketsInv, CountInv;
    assert ThreadOk(s, p, s.threads[p]);
    match s.threads[p]
    case PuFind(_, _, at) => FindMoves(s, p, v, beg, at);
    case PuBlock(_, _, b, at) =>
      LinkedFresh(s, Slot(|s.blocks|, 0));
      BlockMoves(s, p, v, beg, b, at);
    case PuTicket(_, _, b, iter, t, at) => TicketMoves(s, p, v, beg, b, iter, t, at);
  }

  /** s' has one push more on record. */
  ghost predicate Puts(s: State, s': State, v: Val, beg: nat) {
    exists sl :: sl !in s.pushed && s'.pushed == s.pushed[sl := PushRec(v, beg, s.now)]
  }

  lemma FindMoves(s: State, p: Tid, v: Val, beg: nat, at: FindAt)
    ensures CarriesOn(s, FindStep(s, p, v, beg, at), p, v, beg)
  {
  }

  lemma BlockMoves(s: State, p: Tid, v: Val, beg: nat, b: nat, at: BlockAt)
    requires b < |s.blocks| && Slot(|s.blocks|, 0) !in s.pushed
    ensures CarriesOn(s, PushBlockStep(s, p, v, beg, b, at), p, v, beg)
  {
    var s' := PushBlockStep(s, p, v, beg, b, at);
    if at.Link? && s'.threads[p].PuSwing? {
      assert s'.pushed == s.pushed[Slot(|s.blocks|, 0) := PushRec(v, beg, s.now)];
    }
  }

  lemma TicketMoves(s: State, p: Tid, v: Val, beg: nat, b: nat, iter: nat, t: nat, at: PushAt)
    requires b < |s.blocks| && 0 < |s.blocks[b].cells| && Slot(b, t) !in s.pushed
    ensures CarriesOn(s, PushTicketStep(s, p, v, beg, b, iter, t, at), p, v, beg)
  {
    hide CellAt, SetCell;
    var s' := PushTicketStep(s, p, v, beg, b, iter, t, at);
    CellKeeps(s, Slot(b, t), Cell(true, t, v));
    if !Carries(s'.threads[p], v, beg) {
      assert s'.pushed == s.pushed[Slot(b, t) := PushRec(v, beg, s.now)];
    }
  }

  lemma CellKeeps(s: State, sl: Slot, c: Cell)
    requires sl.blk < |s.blocks| && 0 < |s.blocks[sl.blk].cells|
    ensures SetCell(s, sl, c) == s.(blocks := SetCell(s, sl, c).blocks)
  {
  }

  // ---------------------------------------------------------------- steps of others, and of the clock

  /** A step leaves the other threads where they are, and time goes on. */
  ghost predicate Moved(s: State, s': State, p: Tid) {
    s'.threads.Keys == s.threads.Keys && (forall q :: q in s.threads && q != p ==> s'.threads[q] == s.threads[q]) &&
    s'.gated == s.gated && s'.now == s.now + 1
  }

  ghost predicate Clock(s: State, s': State) {
    s'.gated == s.gated && s'.now == s.now + 1
  }

  lemma FindClock(s: State, p: Tid, v: Val, beg: nat, at: FindAt)
    ensures Clock(s, FindStep(s, p, v, beg, at))
  {
  }

  lemma BlockClock(s: State, p: Tid, v: Val, beg: nat, b: nat, at: BlockAt)
    requires b < |s.blocks|
    ensures Clock(s, PushBlockStep(s, p, v, beg, b, at))
  {
  }

  lemma TicketClock(s: State, p: Tid, v: Val, beg: nat, b: nat, iter: nat, t: nat, at: PushAt)
    requires b < |s.blocks| && 0 < |s.blocks[b].cells|
    ensures Clock(s, PushTicketStep(s, p, v, beg, b, iter, t, at))
  {
    hide CellAt, SetCell;
    CellKeeps(s, Slot(b, t), Cell(true, t, v));
  }

  lemma SemClock(s: State, p: Tid, at: SemAt, c: Choice)
    ensures Clock(s, SemStep(s, p, at, c))
  {
  }

  lemma PopClock(s: State, p: Tid, beg: nat, b: nat, second: bool, h: nat, at: PopAt)
    requires b < |s.blocks| && 0 < |s.blocks[b].cells|
    ensures Clock(s, PopTicketStep(s, p, beg, b, second, h, at))
  {
    hide CellAt;
  }

  lemma FixClock(s: State, p: Tid, beg: nat, b: nat, second: bool, at: FixAt)
    requires b < |s.blocks|
    ensures Clock(s, FixStep(s, p, beg, b, second, at))
  {
  }

  lemma CheckClock(s: State, p: Tid, b: nat, at: CheckAt)
    requires b < |s.blocks|
    ensures Clock(s, CheckStep(s, p, b, at))
  {
  }

  lemma StepMoves(s: State, p: Tid, c: Choice)
    requires WellFormed(s) && p in s.threads
    ensures Moved(s, Step(s, p, c), p)
  {
    hide FindStep, PushBlockStep, PushTicketStep, PopTicketStep, SemStep, FixStep, CheckStep, WellFormed;
    StepShape(s, p, c);
    BlockInRange(s, p);
    match s.threads[p]
    case PuFind(v, beg, at) => FindClock(s, p, v, beg, at);
    case PuBlock(v, beg, b, at) => BlockClock(s, p, v, beg, b, at);
    case PuTicket(v, beg, b, iter, t, at) => TicketClock(s, p, v, beg, b, iter, t, at);
    case Sem(at) => SemClock(s, p, at, c);
    case PoTicket(beg, b, second, h, at) => PopClock(s, p, beg, b, second, h, at);
    case Fix(beg, b, second, at) => FixClock(s, p, beg, b, second, at);
    case Check(b, at) => CheckClock(s, p, b, at);
    case _ =>
  }

  // ---------------------------------------------------------------- a push call

  ghost predicate OnePush(d: map<Slot, PushRec>, v: Val, beg: nat, now: nat) {
    exists sl: Slot, at: nat :: d == map[sl := PushRec(v, beg, at)] && beg < at < now
  }

  /** Where a push call that began at state i stands at state k. */
  ghost predicate PushStage(run: seq<State>, who: seq<Tid>, p: Tid, i: nat, k: nat, v: Val) {
    i < k <= |who| && |run| == |who| + 1 && p in run[k].threads && run[k].gated == run[i].gated &&
    run[i].now < run[k].now && Taken(run, who, p, i, k) == map[] && Sum(run, who, p, i, k, Acquired()) == 0 &&
    Sum(run, who, p, i, k, Units()) == Sum(run, who, p, i, k, Posted()) &&
    var pc, d, n := run[k].threads[p], Delivered(run, who, p, i, k), Sum(run, who, p, i, k, Posted());
    if Carries(pc, v, run[i].now) then d == map[] && n == 0
    else
      OnePush(d, v, run[i].now, run[k].now) &&
      if pc.PuSwing? then n == 0
      else if pc.PuPost? then n == 0 && run[i].gated
      else pc == Idle && n == if run[i].gated then 1 else 0
  }

  lemma NewOne<V>(m: map<Slot, V>, sl: Slot, v: V)
    requires sl !in m
    ensures New(m, m[sl := v]) == map[sl := v]
  {
  }

  lemma NewNone<V>(m: map<Slot, V>)
    ensures New(m, m) == map[]
  {
  }

  /** The first step of a push call. */
  lemma PushStarts(run: seq<State>, who: seq<Tid>, what: seq<Choice>, p: Tid, i: nat, v: Val)
    requires StepsAt(run, who, what, i) && |run| == |who| + 1 && p in run[i].threads && run[i].threads[p] == Idle
    requires who[i] == p && what[i] == StartPush(v) && v != 0
    ensures PushStage(run, who, p, i, i + 1, v)
  {
    hide WellFormed;
    NewNone(run[i].pushed);
    NewNone(run[i].taken);
    NothingYet(run, who, p, i);
    assert Delivered(run, who, p, i, i + 1) == map[] && Taken(run, who, p, i, i + 1) == map[];
    FirstSum(run, who, p, i, Posted());
    FirstSum(run, who, p, i, Units());
    FirstSum(run, who, p, i, Acquired());
    assert Carries(run[i + 1].threads[p], v, run[i].now);
  }

  lemma FirstSum(run: seq<State>, who: seq<Tid>, p: Tid, i: nat, f: State -> int)
    requires i < |who| && |run| == |who| + 1 && who[i] == p
    ensures Sum(run, who, p, i, i + 1, f) == f(run[i + 1]) - f(run[i])
  {
    assert Sum(run, who, p, i, i, f) == 0;
  }

  lemma NothingYet(run: seq<State>, who: seq<Tid>, p: Tid, i: nat)
    requires i <= |who| && |run| == |who| + 1
    ensures Delivered(run, who, p, i, i) == map[] && Taken(run, who, p, i, i) == map[]
    ensures forall f :: Sum(run, who, p, i, i, f) == 0
  {
  }

  /** A step of another thread. */
  lemma PushWaits(run: seq<State>, who: seq<Tid>, p: Tid, i: nat, k: nat, v: Val)
    requires 0 < k <= |who| && PushStage(run, who, p, i, k - 1, v) && who[k - 1] != p
    requires Moved(run[k - 1], run[k], who[k - 1])
    ensures PushStage(run, who, p, i, k, v)
  {
    hide Carries;
  }

  /** A further step of its own. */
  lemma PushContinues(run: seq<State>, who: seq<Tid>, what: seq<Choice>, p: Tid, i: nat, k: nat, v: Val)
    requires 0 < k <= |who| && PushStage(run, who, p, i, k - 1, v) && who[k - 1] == p
    requires StepsAt(run, who, what, k - 1) && Inv(run[k - 1]) && run[k - 1].threads[p] != Idle
    requires Moved(run[k - 1], run[k], p)
    ensures PushStage(run, who, p, i, k, v)
  {
    hide Inv, WellFormed, Puts;
    var s, s' := run[k - 1], run[k];
    NewNone(s.pushed);
    NewNone(s.taken);
    if Carries(s.threads[p], v, run[i].now) {
      PushMoves(s, p, what[k - 1], v, run[i].now);
      hide Step;
      if !Carries(s'.threads[p], v, run[i].now) { PutsOne(s, s', v, run[i].now); }
    } else {
      AfterDelivery(s, p, what[k - 1]);
    }
  }

  lemma PutsOne(s: State, s': State, v: Val, beg: nat)
    requires Puts(s, s', v, beg) && beg < s.now && s'.now == s.now + 1
    ensures OnePush(New(s.pushed, s'.pushed), v, beg, s'.now)
  {
    var sl :| sl !in s.pushed && s'.pushed == s.pushed[sl := PushRec(v, beg, s.now)];
    NewOne(s.pushed, sl, PushRec(v, beg, s.now));
  }

  lemma AfterDelivery(s: State, p: Tid, c: Choice)
    requires WellFormed(s) && p in s.threads && (s.threads[p].PuSwing? || s.threads[p].PuPost?)
    ensures var s' := Step(s, p, c);
            s'.pushed == s.pushed && s'.taken == s.taken && s'.acquired == s.acquired && p in s'.threads &&
            if s.threads[p].PuPost? then s'.threads[p] == Idle && s'.posted == s.posted + 1 && s'.sem == s.sem + 1
            else s'.threads[p] == AfterPush(s) && s'.posted == s.posted && s'.sem == s.sem
  {
  }

  lemma {:induction false} PushProgress(run: seq<State>, who: seq<Tid>, what: seq<Choice>, p: Tid, i: nat, k: nat,
                                        v: Val)
    requires Scheduled(run, who, what) && InCall(run, p, i, k) && who[i] == p && what[i] == StartPush(v) && v != 0
    ensures PushStage(run, who, p, i, k, v)
    decreases k
  {
    hide Inv, Step, Init, WellFormed, PushStage, Carries;
    assert StepsAt(run, who, what, k - 1);
    StepMoves(run[k - 1], who[k - 1], what[k - 1]);
    if k == i + 1 {
      PushStarts(run, who, what, p, i, v);
    } else {
      PushProgress(run, who, what, p, i, k - 1, v);
      ScheduledExecution(run, who, what);
      RunInv(run, k - 1);
      if who[k - 1] == p {
        PushContinues(run, who, what, p, i, k, v);
      } else {
        PushWaits(run, who, p, i, k, v);
      }
    }
  }

  /** A push call that has returned has put exactly one value on record: the one it was given, under a ticket
      of its own, within the time of the call; and it has posted the semaphore once if there is one. */
  lemma PushDelivers(run: seq<State>, who: seq<Tid>, what: seq<Choice>, p: Tid, i: nat, k: nat)
    requires Scheduled(run, who, what) && InCall(run, p, i, k) && who[i] == p && run[k].threads[p] == Idle
    requires what[i].StartPush? && what[i].val != 0
    ensures OnePush(Delivered(run, who, p, i, k), what[i].val, run[i].now, run[k].now)
    ensures Sum(run, who, p, i, k, Posted()) == if run[i].gated then 1 else 0
    ensures Sum(run, who, p, i, k, Units()) == Sum(run, who, p, i, k, Posted())
    ensures Taken(run, who, p, i, k) == map[] && Sum(run, who, p, i, k, Acquired()) == 0
  {
    hide OnePush, Step, WellFormed, Init;
    PushProgress(run, who, what, p, i, k, what[i].val);
  }

  // ---------------------------------------------------------------- one step of a pop

  /** A pop that has what it needs to look for a value, since time beg. */
  ghost predicate Seeks(pc: Pc, beg: nat) {
    match pc
    case PoReadHead(b) => b == beg
    case PoRecheck(b, _) => b == beg
    case PoFaa(b, _, _) => b == beg
    case PoTicket(b, _, _, _, _) => b == beg
    case PoReadTail(b, _, _, _) => b == beg
    case Fix(b, _, _, _) => b == beg
    case _ => false
  }

  ghost predicate NoPush(s: State, s': State) {
    s'.pushed == s.pushed && s'.posted == s.posted
  }

  ghost predicate Takes(s: State, s': State, beg: nat) {
    exists sl, v: Val :: sl !in s.taken && v != 0 && s'.taken == s.taken[sl := PopRec(v, beg, s.now)]
  }

  /** A pop seeks on, finds nothing, or returns with one value. */
  ghost predicate SeeksOn(s: State, s': State, p: Tid, beg: nat) {
    p in s'.threads && NoPush(s, s') && s'.acquired == s.acquired && s'.sem == s.sem &&
    if Seeks(s'.threads[p], beg) || s'.threads[p] == PoNull then s'.taken == s.taken
    else s'.threads[p] == Idle && Takes(s, s', beg)
  }

  lemma PopMoves(s: State, p: Tid, c: Choice, beg: nat)
    requires WellFormed(s) && Inv(s) && p in s.threads && Seeks(s.threads[p], beg)
    ensures SeeksOn(s, Step(s, p, c), p, beg)
  {
    hide CellsInv, OrderInv, ListInv, TicketsInv, CountInv, SlotsInv, PopTicketStep, FixStep;
    assert ThreadOk(s, p, s.threads[p]);
    match s.threads[p]
    case PoTicket(_, b, second, h, at) => PopTicketMoves(s, p, beg, b, second, h, at);
    case Fix(_, b, second, at) => FixMoves(s, p, beg, b, second, at);
    case _ => WalkMoves(s, p, c, beg);
  }

  lemma WalkMoves(s: State, p: Tid, c: Choice, beg: nat)
    requires WellFormed(s) && p in s.threads && Seeks(s.threads[p], beg)
    requires !s.threads[p].PoTicket? && !s.threads[p].Fix?
    ensures SeeksOn(s, Step(s, p, c), p, beg)
  {
    hide Takes;
  }

  lemma PopTicketMoves(s: State, p: Tid, beg: nat, b: nat, second: bool, h: nat, at: PopAt)
    requires b < |s.blocks| && 0 < |s.blocks[b].cells| && Slot(b, h) !in s.taken
    ensures SeeksOn(s, PopTicketStep(s, p, beg, b, second, h, at), p, beg)
  {
    hide CellAt, SetCell;
    if at.PopCas? {
      PopCasMoves(s, p, beg, b, second, h, at.val, at.safe, at.i);
    }
  }

  lemma PopCasMoves(s: State, p: Tid, beg: nat, b: nat, second: bool, h: nat, val: Val, safe: bool, i: nat)
    requires b < |s.blocks| && 0 < |s.blocks[b].cells| && Slot(b, h) !in s.taken
    ensures SeeksOn(s, PopTicketStep(s, p, beg, b, second, h, PopCas(val, safe, i)), p, beg)
  {
    hide CellAt, SetCell;
    var sl, n := Slot(b, h), |s.blocks[b].cells|;
    var s' := PopTicketStep(s, p, beg, b, second, h, PopCas(val, safe, i));
    if CellAt(s, sl) == Cell(safe, i, val) {
      if val != 0 && i == h {
        CellKeeps(s, sl, Cell(safe, i + n, 0));
        assert s'.taken == s.taken[sl := PopRec(val, beg, s.now)];
        assert Takes(s, s', beg);
      } else {
        CellKeeps(s, sl, if val != 0 then Cell(false, i, val) else Cell(safe, h + n, 0));
      }
    }
  }

  lemma FixMoves(s: State, p: Tid, beg: nat, b: nat, second: bool, at: FixAt)
    requires b < |s.blocks|
    ensures SeeksOn(s, FixStep(s, p, beg, b, second, at), p, beg)
  {
    hide Takes;
  }

  /** Waiting for a unit: it is taken for good, or what was taken is put back. */
  lemma SemMoves(s: State, p: Tid, at: SemAt, c: Choice)
    ensures var s' := SemStep(s, p, at, c);
            NoPush(s, s') && s'.taken == s.taken && p in s'.threads &&
            match s'.threads[p]
            case Sem(at') =>
              s'.acquired == s.acquired &&
              s'.sem == s.sem + (if at.SemUndo? then 1 else 0) - (if at'.SemUndo? then 1 else 0) &&
              (at'.SemUndo? ==> at.SemDec? && s.sem <= 0)
            case PoReadHead(beg) => at.SemDec? && beg == s.now && s'.acquired == s.acquired + 1 && s'.sem == s.sem - 1
            case Idle =>
              s'.acquired == s.acquired && !at.SemDec? && s'.sem == s.sem + (if at.SemUndo? then 1 else 0) &&
              (at.SemRead? ==> s.sem <= 0)
            case _ => false
  {
  }

  // ---------------------------------------------------------------- a pop call

  ghost predicate OneTake(d: map<Slot, PopRec>, beg: nat, now: nat) {
    exists sl: Slot, v: Val, b: nat, at: nat :: d == map[sl := PopRec(v, b, at)] && v != 0 && beg <= b <= at < now
  }

  /** In the call an own step has found no unit. */
  ghost predicate Dry(run: seq<State>, who: seq<Tid>, p: Tid, i: nat, k: nat) {
    exists m :: i < m < k <= |who| < |run| && who[m] == p && run[m].sem <= 0
  }

  /** In the call the queue gave null. */
  ghost predicate GotNull(run: seq<State>, p: Tid, i: nat, k: nat) {
    exists m :: i < m < k < |run| && p in run[m].threads && run[m].threads[p] == PoNull
  }

  ghost predicate PopStage(run: seq<State>, who: seq<Tid>, p: Tid, i: nat, k: nat) {
    i < k <= |who| && |run| == |who| + 1 && p in run[k].threads && run[k].gated == run[i].gated &&
    run[i].now < run[k].now && Delivered(run, who, p, i, k) == map[] && Sum(run, who, p, i, k, Posted()) == 0 &&
    var pc, t := run[k].threads[p], Taken(run, who, p, i, k);
    var a, u := Sum(run, who, p, i, k, Acquired()), Sum(run, who, p, i, k, Units());
    var unit := if run[i].gated then 1 else 0;
    if pc.Sem? then
      run[i].gated && t == map[] && a == 0 &&
      if pc.sem.SemUndo? then u == -1 && Dry(run, who, p, i, k) else u == 0
    else if pc == Idle then
      if t == map[] then a == 0 && u == 0 && if run[i].gated then Dry(run, who, p, i, k) else GotNull(run, p, i, k)
      else OneTake(t, run[i].now, run[k].now) && a == unit && u == -unit
    else
      t == map[] && a == unit && u == -unit &&
      ((pc == PoNull && !run[i].gated) || exists beg: nat :: Seeks(pc, beg) && run[i].now <= beg < run[k].now)
  }

  lemma PopStarts(run: seq<State>, who: seq<Tid>, what: seq<Choice>, p: Tid, i: nat)
    requires StepsAt(run, who, what, i) && |run| == |who| + 1 && p in run[i].threads && run[i].threads[p] == Idle
    requires who[i] == p && what[i] == StartPop
    ensures PopStage(run, who, p, i, i + 1)
  {
    hide WellFormed;
    NewNone(run[i].pushed);
    NewNone(run[i].taken);
    NothingYet(run, who, p, i);
    assert Delivered(run, who, p, i, i + 1) == map[] && Taken(run, who, p, i, i + 1) == map[];
    FirstSum(run, who, p, i, Posted());
    FirstSum(run, who, p, i, Units());
    FirstSum(run, who, p, i, Acquired());
    assert !run[i].gated ==> Seeks(run[i + 1].threads[p], run[i].now);
  }

  lemma PopWaits(run: seq<State>, who: seq<Tid>, p: Tid, i: nat, k: nat)
    requires 0 < k <= |who| && PopStage(run, who, p, i, k - 1) && who[k - 1] != p
    requires Moved(run[k - 1], run[k], who[k - 1])
    ensures PopStage(run, who, p, i, k)
  {
    hide Seeks;
    if Dry(run, who, p, i, k - 1) { DryStays(run, who, p, i, k); }
    if GotNull(run, p, i, k - 1) { NullStays(run, p, i, k); }
  }

  lemma DryStays(run: seq<State>, who: seq<Tid>, p: Tid, i: nat, k: nat)
    requires 0 < k <= |who| < |run| && Dry(run, who, p, i, k - 1)
    ensures Dry(run, who, p, i, k)
  {
  }

  lemma NullStays(run: seq<State>, p: Tid, i: nat, k: nat)
    requires 0 < k < |run| && GotNull(run, p, i, k - 1)
    ensures GotNull(run, p, i, k)
  {
  }

  lemma PopWaitsForUnit(run: seq<State>, who: seq<Tid>, what: seq<Choice>, p: Tid, i: nat, k: nat)
    requires 0 < k <= |who| && PopStage(run, who, p, i, k - 1) && who[k - 1] == p
    requires StepsAt(run, who, what, k - 1) && run[k - 1].threads[p].Sem? && Moved(run[k - 1], run[k], p)
    ensures PopStage(run, who, p, i, k)
  {
    hide WellFormed, SemStep, Seeks;
    var s, at := run[k - 1], run[k - 1].threads[p].sem;
    NewNone(s.pushed);
    NewNone(s.taken);
    SemMoves(s, p, at, what[k - 1]);
    SeeksFrom(s.now);
    if Dry(run, who, p, i, k - 1) { DryStays(run, who, p, i, k); }
    if s.sem <= 0 { assert i < k - 1 < k && who[k - 1] == p; assert Dry(run, who, p, i, k); }
  }

  lemma SeeksFrom(beg: nat)
    ensures Seeks(PoReadHead(beg), beg) && forall b :: Seeks(PoReadHead(b), b)
  {
  }

  lemma PopSeeks(run: seq<State>, who: seq<Tid>, what: seq<Choice>, p: Tid, i: nat, k: nat)
    requires 0 < k <= |who| && PopStage(run, who, p, i, k - 1) && who[k - 1] == p
    requires StepsAt(run, who, what, k - 1) && Inv(run[k - 1]) && Moved(run[k - 1], run[k], p)
    requires var pc := run[k - 1].threads[p]; !pc.Sem? && pc != Idle && pc != PoNull
    requires run[k].threads[p] == PoNull ==> !run[k].gated
    ensures PopStage(run, who, p, i, k)
  {
    hide WellFormed, Step, Inv, Takes;
    var s, s' := run[k - 1], run[k];
    var beg: nat :| Seeks(s.threads[p], beg) && run[i].now <= beg < s.now;
    NewNone(s.pushed);
    NewNone(s.taken);
    PopMoves(s, p, what[k - 1], beg);
    if s'.threads[p] == Idle { TakesOne(s, s', run[i].now, beg); }
  }

  lemma TakesOne(s: State, s': State, from: nat, beg: nat)
    requires Takes(s, s', beg) && from <= beg < s.now && s'.now == s.now + 1
    ensures OneTake(New(s.taken, s'.taken), from, s'.now) && New(s.taken, s'.taken) != map[]
  {
    var sl, v: Val :| sl !in s.taken && v != 0 && s'.taken == s.taken[sl := PopRec(v, beg, s.now)];
    NewOne(s.taken, sl, PopRec(v, beg, s.now));
    assert New(s.taken, s'.taken) == map[sl := PopRec(v, beg, s.now)];
    assert sl in New(s.taken, s'.taken);
  }

  lemma PopReturnsNull(run: seq<State>, who: seq<Tid>, what: seq<Choice>, p: Tid, i: nat, k: nat)
    requires 0 < k <= |who| && PopStage(run, who, p, i, k - 1) && who[k - 1] == p
    requires StepsAt(run, who, what, k - 1) && Moved(run[k - 1], run[k], p) && run[k - 1].threads[p] == PoNull
    ensures PopStage(run, who, p, i, k)
  {
    hide WellFormed;
    var s := run[k - 1];
    NewNone(s.pushed);
    NewNone(s.taken);
    SeekersNotNull();
    assert GotNull(run, p, i, k) by { assert i < k - 1 < k < |run|; }
  }

  lemma SeekersNotNull()
    ensures forall beg :: !Seeks(PoNull, beg)
  {
  }

  lemma {:induction false} PopProgress(run: seq<State>, who: seq<Tid>, what: seq<Choice>, p: Tid, i: nat, k: nat)
    requires Scheduled(run, who, what) && InCall(run, p, i, k) && who[i] == p && what[i] == StartPop
    ensures PopStage(run, who, p, i, k)
    decreases k
  {
    hide Inv, Step, Init, WellFormed, PopStage, Seeks;
    assert StepsAt(run, who, what, k - 1);
    StepMoves(run[k - 1], who[k - 1], what[k - 1]);
    if k == i + 1 {
      PopStarts(run, who, what, p, i);
    } else {
      PopProgress(run, who, what, p, i, k - 1);
      ScheduledExecution(run, who, what);
      RunInv(run, k - 1);
      if who[k - 1] != p {
        PopWaits(run, who, p, i, k);
      } else if run[k - 1].threads[p].Sem? {
        PopWaitsForUnit(run, who, what, p, i, k);
      } else if run[k - 1].threads[p] == PoNull {
        PopReturnsNull(run, who, what, p, i, k);
      } else {
        if run[k].gated { GatedPopFindsValue(run, k, p); }
        PopSeeks(run, who, what, p, i, k);
      }
    }
  }

  /** A pop call that has returned has taken exactly one value, for exactly one unit of the semaphore if there
      is one; or it has taken nothing and left the semaphore as it was, because it found no unit or, without a
      semaphore, got null. */
  lemma PopTakesOne(run: seq<State>, who: seq<Tid>, what: seq<Choice>, p: Tid, i: nat, k: nat)
    requires Scheduled(run, who, what) && InCall(run, p, i, k) && who[i] == p && run[k].threads[p] == Idle
    requires what[i] == StartPop
    ensures Delivered(run, who, p, i, k) == map[] && Sum(run, who, p, i, k, Posted()) == 0
    ensures var t, a, u := Taken(run, who, p, i, k), Sum(run, who, p, i, k, Acquired()),
            Sum(run, who, p, i, k, Units());
            if t == map[] then a == 0 && u == 0 && if run[i].gated then Dry(run, who, p, i, k) else GotNull(run, p,
              i, k)
            else OneTake(t, run[i].now, run[k].now) && a == (if run[i].gated then 1 else 0) && u == -a
  {
    hide OneTake, Step, WellFormed, Init, Dry, GotNull, Seeks;
    PopProgress(run, who, what, p, i, k);
  }

  // ---------------------------------------------------------------- a quiet queue

  /** When no call is in progress, the semaphore counts the values in the queue. */
  lemma QuietBalance(run: seq<State>, i: nat)
    requires Execution(run) && i < |run| && run[i].gated
    requires forall p :: p in run[i].threads ==> run[i].threads[p] == Idle
    ensures run[i].sem == |run[i].pushed| - |run[i].taken|
  {
    hide Execution, CellsInv, SlotsInv, OrderInv, ListInv, TicketsInv, ThreadsInv;
    RunInv(run, i);
    var s := run[i];
    assert Who(s.threads, Undoing) == {} && Who(s.threads, Unposted) == {} && Who(s.threads, Popping) == {};
  }

  // ---------------------------------------------------------------- an emptiness check that says no

  /** The check reads the head of the block. */
  ghost predicate ReadsHead(s: State, p: Tid, b: nat, h: nat) {
    p in s.threads && s.threads[p] == Check(b, CheckFront) && b < |s.blocks| && s.blocks[b].head == h
  }

  lemma {:induction false} HeadWasRead(run: seq<State>, k: nat, p: Tid, b: nat, h: nat) returns (j: nat)
    requires Execution(run) && k < |run| && p in run[k].threads && run[k].threads[p] == Check(b, CheckBack(h))
    ensures j < k && ReadsHead(run[j], p, b, h)
    ensures forall m :: j < m <= k ==> p in run[m].threads && run[m].threads[p] == Check(b, CheckBack(h))
    decreases k
  {
    hide Inv, Step, Init, ReadsHead;
    if k == 0 {
      IdleAtStart(run[0], p);
    } else {
      assert WellFormed(run[k - 1]) && Next(run[k - 1], run[k - 1 + 1]);
      var q: Tid, c: Choice :| q in run[k - 1].threads && run[k] == Step(run[k - 1], q, c);
      StepMoves(run[k - 1], q, c);
      if run[k - 1].threads[p] == Check(b, CheckBack(h)) {
        j := HeadWasRead(run, k - 1, p, b, h);
      } else {
        j := k - 1;
        IntoBack(run[k - 1], q, c, b, h);
      }
    }
  }

  lemma IdleAtStart(s: State, p: Tid)
    requires Init(s) && p in s.threads
    ensures s.threads[p] == Idle
  {
  }

  lemma IntoBack(s: State, p: Tid, c: Choice, b: nat, h: nat)
    requires WellFormed(s) && p in s.threads && p in Step(s, p, c).threads
    requires Step(s, p, c).threads[p] == Check(b, CheckBack(h))
    ensures ReadsHead(s, p, b, h)
  {
    hide Step, WellFormed, CheckStep;
    StepShape(s, p, c);
    BlockInRange(s, p);
    CheckGoes(s, p, s.threads[p].b, s.threads[p].chk);
  }

  /** How a check comes to read the tail, and to the answer no. */
  lemma CheckGoes(s: State, p: Tid, b: nat, at: CheckAt)
    requires b < |s.blocks|
    ensures var pc := CheckStep(s, p, b, at).threads[p];
            pc == Idle ||
            (pc.Check? && (pc.chk.CheckBack? ==> at.CheckFront? && pc == Check(b, CheckBack(s.blocks[b].head))) &&
             (pc.chk.No? ==> at.CheckBack? && at.ch < s.blocks[b].tail))
  {
  }

  /** When mpq_is_empty decides for 0, the tail of the block is above the head that it read earlier in the call:
      a ticket was drawn there that no pop had drawn then. */
  lemma NotEmptyAnswer(run: seq<State>, i: nat, p: Tid) returns (j: nat, b: nat, h: nat)
    requires Execution(run) && 0 < i < |run| && p in run[i].threads && p in run[i - 1].threads
    requires run[i].threads[p].Check? && run[i].threads[p].chk.No? && run[i - 1].threads[p] != run[i].threads[p]
    ensures j < i && ReadsHead(run[j], p, b, h) && b < |run[i - 1].blocks| && h < run[i - 1].blocks[b].tail
  {
    hide Inv, Step, Init, ReadsHead;
    assert WellFormed(run[i - 1]) && Next(run[i - 1], run[i - 1 + 1]);
    var q: Tid, c: Choice :| q in run[i - 1].threads && run[i] == Step(run[i - 1], q, c);
    StepMoves(run[i - 1], q, c);
    b, h := IntoNo(run[i - 1], p, c);
    j := HeadWasRead(run, i - 1, p, b, h);
  }

  lemma IntoNo(s: State, p: Tid, c: Choice) returns (b: nat, h: nat)
    requires WellFormed(s) && p in s.threads && p in Step(s, p, c).threads
    requires Step(s, p, c).threads[p].Check? && Step(s, p, c).threads[p].chk.No?
    ensures s.threads[p] == Check(b, CheckBack(h)) && b < |s.blocks| && h < s.blocks[b].tail
  {
    hide Step, WellFormed, CheckStep;
    StepShape(s, p, c);
    BlockInRange(s, p);
    CheckGoes(s, p, s.threads[p].b, s.threads[p].chk);
    b := s.threads[p].b;
    h := s.threads[p].chk.ch;
  }

  /** A push that has linked a block does not leave the tail pointer on the block before. */
  lemma TailPointerLeaves(s: State, p: Tid, c: Choice)
    requires WellFormed(s) && Inv(s) && p in s.threads && s.threads[p].PuSwing?
    ensures Step(s, p, c).mqTail != s.threads[p].b
  {
    hide CellsInv, SlotsInv, OrderInv, ListInv, TicketsInv, CountInv;
    assert ThreadOk(s, p, s.threads[p]);
  }

  // ---------------------------------------------------------------- mpq_fix_state

  /** Thread p, fixing block b, reads its head. */
  ghost predicate FixReads(s: State, p: Tid, b: nat, h: nat) {
    p in s.threads && s.threads[p].Fix? && s.threads[p].b == b && s.threads[p].fix.FixHead? && b < |s.blocks| &&
    s.blocks[b].head == h
  }

  ghost predicate FixKnows(pc: Pc, b: nat, h: nat) {
    pc.Fix? && pc.b == b && (pc.fix.FixRecheck? || pc.fix.FixCas?) && pc.fix.fh == h
  }

  lemma FixGoes(s: State, p: Tid, beg: nat, b: nat, second: bool, at: FixAt)
    requires b < |s.blocks|
    ensures var s' := FixStep(s, p, beg, b, second, at); var pc := s'.threads[p];
            (pc.Fix? ==> pc.b == b && (pc.fix.FixRecheck? ==> at.FixHead? && pc.fix.fh == s.blocks[b].head) &&
                         (pc.fix.FixCas? ==> at.FixRecheck? && pc.fix.fh == at.fh) &&
                         (pc.fix.Empty? ==>
                            (at.FixHead? && (at.fclosed || s.blocks[b].head <= at.ft)) ||
                            (at.FixCas? && b < |s'.blocks| && s'.blocks[b].tail == at.fh)))
  {
  }

  lemma {:induction false} HeadWasFixed(run: seq<State>, k: nat, p: Tid, b: nat, h: nat) returns (j: nat)
    requires Execution(run) && k < |run| && p in run[k].threads && FixKnows(run[k].threads[p], b, h)
    ensures j < k && FixReads(run[j], p, b, h)
    decreases k
  {
    hide Inv, Step, Init, FixReads, FixStep;
    if k == 0 {
      IdleAtStart(run[0], p);
    } else {
      assert WellFormed(run[k - 1]) && Next(run[k - 1], run[k - 1 + 1]);
      var s := run[k - 1];
      var q: Tid, c: Choice :| q in s.threads && run[k] == Step(s, q, c);
      StepMoves(s, q, c);
      StepShape(s, q, c);
      BlockInRange(s, q);
      if q == p && s.threads[p].Fix? {
        FixGoes(s, p, s.threads[p].beg, s.threads[p].b, s.threads[p].second, s.threads[p].fix);
      }
      if FixKnows(s.threads[p], b, h) {
        j := HeadWasFixed(run, k - 1, p, b, h);
      } else {
        j := k - 1;
        ReadsNow(s, p, b, h);
      }
    }
  }

  lemma ReadsNow(s: State, p: Tid, b: nat, h: nat)
    requires p in s.threads && s.threads[p].Fix? && s.threads[p].b == b && s.threads[p].fix.FixHead? && b < |s.blocks|
    requires s.blocks[b].head == h
    ensures FixReads(s, p, b, h)
  {
  }

  /** A pop that is done fixing a block has found it closed or its head not above its tail, or has raised the
      tail to the head that it read. */
  lemma FixRaisesTail(run: seq<State>, i: nat, p: Tid) returns (j: nat)
    requires Execution(run) && 0 < i < |run| && p in run[i].threads && p in run[i - 1].threads
    requires run[i].threads[p].Fix? && run[i].threads[p].fix.Empty? && run[i - 1].threads[p] != run[i].threads[p]
    ensures var s, b := run[i - 1], run[i].threads[p].b;
            s.threads[p].Fix? && s.threads[p].b == b && b < |s.blocks| && b < |run[i].blocks| &&
            if s.threads[p].fix.FixHead? then s.threads[p].fix.fclosed || s.blocks[b].head <= s.threads[p].fix.ft
            else j < i && FixReads(run[j], p, b, run[i].blocks[b].tail)
  {
    hide Inv, Step, Init, FixReads, FixStep;
    assert WellFormed(run[i - 1]) && Next(run[i - 1], run[i - 1 + 1]);
    var s := run[i - 1];
    var q: Tid, c: Choice :| q in s.threads && run[i] == Step(s, q, c);
    StepMoves(s, q, c);
    StepShape(s, q, c);
    BlockInRange(s, q);
    FixGoes(s, p, s.threads[p].beg, s.threads[p].b, s.threads[p].second, s.threads[p].fix);
    j := 0;
    if s.threads[p].fix.FixCas? {
      j := HeadWasFixed(run, i - 1, p, s.threads[p].b, s.threads[p].fix.fh);
    }
  }
}
