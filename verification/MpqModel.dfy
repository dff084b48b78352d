/**
 The lock-free queue as a step machine.

 A queue is a list of ring blocks.  A push draws a ticket with a fetch-and-add on a
 block's tail, a pop draws one from the block's head, and the two meet in the cell whose
 position is the ticket modulo the ring size.  Every atomic access of the original (one
 read, one compare-and-swap, one fetch-and-add) is one step here; the steps of different
 threads interleave freely and memory is sequentially consistent.

 A cell is the pair (safe bit and index, value) that the original swaps as one double
 word.  The closed bit of a tail is a field of its own.  Block b has a successor exactly
 when it is not the last one of the list, since successors are only ever set from null.

 A gated queue carries the semaphore: a push posts it, a pop first takes a unit.  An
 ungated queue (the garbage and prepared block queues) has bare pushes and pops, and its
 pops may find nothing.

 The fields pushed, taken, left, drawn, posted, acquired and now are history: no step
 reads them to decide what to do.
 */
module MpqModel {

  type Tid = nat
  /** A queued pointer; 0 is the null pointer. */
  type Val = nat

  const SMALL_BLOCK: nat := 64
  const BIG_BLOCK: nat := 4096
  const MAX_PUSH_ITERATIONS: nat := 10

  datatype Slot = Slot(blk: nat, tkt: nat)
  datatype Cell = Cell(safe: bool, idx: nat, val: Val)
  datatype Block = Block(head: nat, tail: nat, closed: bool, cells: seq<Cell>)

  datatype PushRec = PushRec(val: Val, begin: nat, done: nat)
  datatype PopRec = PopRec(val: Val, begin: nat, done: nat)

  /** mpq_push looking for the last block. */
  datatype FindAt = ReadTail | Recheck(fb: nat) | CheckNext(fb: nat) | Help(fb: nat)
  /** mpq_push and mpq_block_push on a block, without a ticket. */
  datatype BlockAt = DrawTail(iter: nat) | Judge(iter: nat, t: nat) | Close | Alloc | Link(size: nat)
  /** mpq_block_push with a ticket: read the value, read the index, look at the head, swap. */
  datatype PushAt = PushVal | PushIdx(oldVal: Val) | PushHead(i: nat) | PushCas(safe: bool, i: nat)
  /** mp_sem_wait and mp_sem_trywait. */
  datatype SemAt = SemRead | SemDec | SemUndo
  /** mpq_block_pop with a ticket. */
  datatype PopAt = PopVal | PopIdx(val: Val) | PopCas(val: Val, safe: bool, i: nat)
  /** mpq_fix_state, and after it the return of 0 from mpq_block_pop. */
  datatype FixAt =
    FixTail | FixHead(ft: nat, fclosed: bool) | FixRecheck(ft: nat, fh: nat) | FixCas(ft: nat, fh: nat) | Empty

  /** mpq_is_empty: the head block, its head, its tail, its successor; then the answer. */
  datatype CheckAt = CheckHead | CheckAgain | CheckFront | CheckBack(ch: nat) | CheckBehind | CheckSwing | Yes | No

  /** Where a thread stands.  beg is the time its current operation began, b the block it
      works on, t or h its ticket, second tells the two block pops of one queue pop apart.
      PoNull: mpq_pop returned null; behind a semaphore the caller's assert (v) then fails. */
  datatype Pc =
    | Idle
    | PuFind(v: Val, beg: nat, find: FindAt)
    | PuBlock(v: Val, beg: nat, b: nat, blk: BlockAt)
    | PuTicket(v: Val, beg: nat, b: nat, iter: nat, t: nat, push: PushAt)
    | PuSwing(b: nat)
    | PuPost
    | Sem(sem: SemAt)
    | PoReadHead(beg: nat)
    | PoRecheck(beg: nat, b: nat)
    | PoFaa(beg: nat, b: nat, second: bool)
    | PoTicket(beg: nat, b: nat, second: bool, h: nat, pop: PopAt)
    | PoReadTail(beg: nat, b: nat, second: bool, h: nat)
    | Fix(beg: nat, b: nat, second: bool, fix: FixAt)
    | PoNull
    | Check(b: nat, chk: CheckAt)

  datatype State = State(
    gated: bool,
    blocks: seq<Block>,
    mqHead: nat,
    mqTail: nat,
    sem: int,
    threads: map<Tid, Pc>,
    pushed: map<Slot, PushRec>,
    taken: map<Slot, PopRec>,
    left: set<Slot>,
    drawn: map<Slot, Tid>,
    posted: nat,
    acquired: nat,
    now: nat)

  /** What the environment decides: start a call, read the semaphore anew, or give up waiting for it. */
  datatype Choice = StartPush(val: Val) | StartPop | StartCheck | Reread | GiveUp | Go

  function PcBlock(pc: Pc): nat {
    match pc
    case PuFind(_, _, at) => if at.ReadTail? then 0 else at.fb
    case Idle | PuPost | Sem(_) | PoReadHead(_) | PoNull => 0
    case _ => pc.b
  }

  /** The indices a step follows stay inside the list and the rings. */
  predicate WellFormed(s: State) {
    && 0 < |s.blocks|
    && s.mqHead < |s.blocks|
    && s.mqTail < |s.blocks|
    && (forall b :: 0 <= b < |s.blocks| ==> 0 < |s.blocks[b].cells|)
    && (forall p :: p in s.threads ==> PcBlock(s.threads[p]) < |s.blocks|)
  }

  function EmptyCells(size: nat): seq<Cell> {
    seq(size, i requires 0 <= i => Cell(true, i, 0))
  }

  /** alloc_mpq_block: a null first value leaves the tail at 0. */
  function NewBlock(first: Val, size: nat): Block
    requires 0 < size
  {
    Block(0, if first != 0 then 1 else 0, false, EmptyCells(size)[0 := Cell(true, 0, first)])
  }

  predicate Init(s: State) {
    && s.blocks == [NewBlock(0, SMALL_BLOCK)]
    && s.mqHead == 0 && s.mqTail == 0 && s.sem == 0
    && (forall p :: p in s.threads ==> s.threads[p] == Idle)
    && s.pushed == map[] && s.taken == map[] && s.left == {} && s.drawn == map[]
    && s.posted == 0 && s.acquired == 0 && s.now == 0
  }

  function CellAt(s: State, sl: Slot): Cell
    requires sl.blk < |s.blocks| && 0 < |s.blocks[sl.blk].cells|
  {
    var cells := s.blocks[sl.blk].cells;
    cells[sl.tkt % |cells|]
  }

  function Tick(s: State, p: Tid, pc: Pc): State {
    s.(threads := s.threads[p := pc], now := s.now + 1)
  }

  function SetBlock(s: State, b: nat, blk: Block): State
    requires b < |s.blocks|
  {
    s.(blocks := s.blocks[b := blk])
  }

  function SetCell(s: State, sl: Slot, c: Cell): State
    requires sl.blk < |s.blocks| && 0 < |s.blocks[sl.blk].cells|
  {
    var blk := s.blocks[sl.blk];
    SetBlock(s, sl.blk, blk.(cells := blk.cells[sl.tkt % |blk.cells| := c]))
  }

  function AfterPush(s: State): Pc {
    if s.gated then PuPost else Idle
  }

  /** One step of thread p.  A choice that does not apply leaves the thread where it is. */
  function Step(s: State, p: Tid, c: Choice): State
    requires WellFormed(s) && p in s.threads
  {
    match s.threads[p]
    case Idle =>
      Tick(s, p, if c.StartPush? && c.val != 0 then PuFind(c.val, s.now, ReadTail)
                 else if c.StartPop? then (if s.gated then Sem(SemRead) else PoReadHead(s.now))
                 else if c.StartCheck? then Check(0, CheckHead)
                 else Idle)
    case PuFind(v, beg, at) => FindStep(s, p, v, beg, at)
    case PuBlock(v, beg, b, at) => PushBlockStep(s, p, v, beg, b, at)
    case PuTicket(v, beg, b, iter, t, at) => PushTicketStep(s, p, v, beg, b, iter, t, at)
    case PuSwing(b) =>
      var s1 := if s.mqTail == b && b + 1 < |s.blocks| then s.(mqTail := b + 1) else s;
      Tick(s1, p, AfterPush(s))
    case PuPost => Tick(s.(sem := s.sem + 1, posted := s.posted + 1), p, Idle)
    case Sem(at) => SemStep(s, p, at, c)
    case PoReadHead(beg) => Tick(s, p, PoRecheck(beg, s.mqHead))
    case PoRecheck(beg, b) =>
      Tick(s, p, if s.mqHead != b then PoReadHead(beg) else PoFaa(beg, b, false))
    case PoFaa(beg, b, second) =>
      var blk := s.blocks[b];
      var s1 := SetBlock(s, b, blk.(head := blk.head + 1));
      Tick(s1.(drawn := s.drawn[Slot(b, blk.head) := p]), p, PoTicket(beg, b, second, blk.head, PopVal))
    case PoTicket(beg, b, second, h, at) => PopTicketStep(s, p, beg, b, second, h, at)
    case PoReadTail(beg, b, second, h) =>
      Tick(s, p, if s.blocks[b].tail <= h + 1 then Fix(beg, b, second, FixTail) else PoFaa(beg, b, second))
    case Fix(beg, b, second, at) => FixStep(s, p, beg, b, second, at)
    case PoNull => Tick(s, p, if s.gated then PoNull else Idle)
    case Check(b, at) => CheckStep(s, p, b, at)
  }

  /** mpq_push: find the last block, helping a tail pointer that lags behind. */
  function FindStep(s: State, p: Tid, v: Val, beg: nat, at: FindAt): (s': State)
    ensures s'.pushed == s.pushed && s'.taken == s.taken
  {
    match at
    case ReadTail => Tick(s, p, PuFind(v, beg, Recheck(s.mqTail)))
    case Recheck(b) => Tick(s, p, PuFind(v, beg, if s.mqTail != b then ReadTail else CheckNext(b)))
    case CheckNext(b) =>
      Tick(s, p, if b + 1 < |s.blocks| then PuFind(v, beg, Help(b)) else PuBlock(v, beg, b, DrawTail(0)))
    case Help(b) =>
      var s1 := if s.mqTail == b && b + 1 < |s.blocks| then s.(mqTail := b + 1) else s;
      Tick(s1, p, PuFind(v, beg, ReadTail))
  }

  /** mpq_block_push around its ticket, and mpq_push chaining a new block behind a closed one. */
  function PushBlockStep(s: State, p: Tid, v: Val, beg: nat, b: nat, at: BlockAt): (s': State)
    requires b < |s.blocks|
    ensures s'.taken == s.taken
  {
    match at
    case DrawTail(iter) =>
      var blk := s.blocks[b];
      var s1 := SetBlock(s, b, blk.(tail := blk.tail + 1));
      Tick(s1, p, if blk.closed then PuBlock(v, beg, b, Alloc) else PuTicket(v, beg, b, iter, blk.tail, PushVal))
    case Judge(iter, t) =>
      Tick(s, p, PuBlock(v, beg, b,
             if t - s.blocks[b].head >= |s.blocks[b].cells| || iter + 1 > MAX_PUSH_ITERATIONS
             then Close else DrawTail(iter + 1)))
    case Close => Tick(SetBlock(s, b, s.blocks[b].(closed := true)), p, PuBlock(v, beg, b, Alloc))
    case Alloc =>
      Tick(s, p, PuBlock(v, beg, b, Link(if b == s.mqHead then SMALL_BLOCK else BIG_BLOCK)))
    case Link(size) =>
      if b + 1 == |s.blocks| && 0 < size then
        var s1 := s.(blocks := s.blocks + [NewBlock(v, size)],
                     pushed := s.pushed[Slot(b + 1, 0) := PushRec(v, beg, s.now)]);
        Tick(s1, p, PuSwing(b))
      else
        Tick(s, p, PuFind(v, beg, ReadTail))
  }

  /** mpq_block_push holding ticket t */
  function PushTicketStep(s: State, p: Tid, v: Val, beg: nat, b: nat, iter: nat, t: nat, at: PushAt): (s': State)
    requires b < |s.blocks| && 0 < |s.blocks[b].cells|
    ensures s'.taken == s.taken
  {
    var c := CellAt(s, Slot(b, t));
    var giveUp := PuBlock(v, beg, b, Judge(iter, t));
    match at
    case PushVal => Tick(s, p, PuTicket(v, beg, b, iter, t, PushIdx(c.val)))
    case PushIdx(oldVal) =>
      Tick(s, p,
           if oldVal == 0 && c.idx <= t then
             PuTicket(v, beg, b, iter, t, if c.safe then PushCas(true, c.idx) else PushHead(c.idx))
           else giveUp)
    case PushHead(i) =>
      Tick(s, p, if s.blocks[b].head <= t then PuTicket(v, beg, b, iter, t, PushCas(false, i)) else giveUp)
    case PushCas(safe, i) =>
      if c == Cell(safe, i, 0) then
        var s1 := SetCell(s, Slot(b, t), Cell(true, t, v));
        Tick(s1.(pushed := s.pushed[Slot(b, t) := PushRec(v, beg, s.now)]), p, AfterPush(s))
      else
        Tick(s, p, giveUp)
  }

  /** mp_sem_wait and mp_sem_trywait; the futex wait is a retry. */
  function SemStep(s: State, p: Tid, at: SemAt, c: Choice): (s': State)
    ensures s'.pushed == s.pushed && s'.taken == s.taken
  {
    var again := if c.GiveUp? then Idle else Sem(SemRead);
    match at
    case SemRead => Tick(s, p, if s.sem > 0 then Sem(SemDec) else again)
    case SemDec =>
      if s.sem > 0 then
        Tick(s.(sem := s.sem - 1, acquired := s.acquired + 1), p, PoReadHead(s.now))
      else
        Tick(s.(sem := s.sem - 1), p, Sem(SemUndo))
    case SemUndo =>
      Tick(s.(sem := s.sem + 1), p, if s.sem + 1 > 0 && !c.GiveUp? && !c.Reread? then Sem(SemDec) else again)
  }

  /** mpq_block_pop holding ticket h */
  function PopTicketStep(s: State, p: Tid, beg: nat, b: nat, second: bool, h: nat, at: PopAt): (s': State)
    requires b < |s.blocks| && 0 < |s.blocks[b].cells|
    ensures s'.pushed == s.pushed
  {
    var sl := Slot(b, h);
    var c := CellAt(s, sl);
    match at
    case PopVal => Tick(s, p, PoTicket(beg, b, second, h, PopIdx(c.val)))
    case PopIdx(val) =>
      if c.idx > h then
        Tick(s.(left := s.left + {sl}), p, PoReadTail(beg, b, second, h))
      else
        Tick(s, p, PoTicket(beg, b, second, h, PopCas(val, c.safe, c.idx)))
    case PopCas(val, safe, i) =>
      if c != Cell(safe, i, val) then
        Tick(s, p, PoTicket(beg, b, second, h, PopVal))
      else if val != 0 && i == h then
        var s1 := SetCell(s, sl, Cell(safe, i + |s.blocks[b].cells|, 0));
        Tick(s1.(taken := s.taken[sl := PopRec(val, beg, s.now)]), p, Idle)
      else
        var c' := if val != 0 then Cell(false, i, val) else Cell(safe, h + |s.blocks[b].cells|, 0);
        Tick(SetCell(s, sl, c').(left := s.left + {sl}), p, PoReadTail(beg, b, second, h))
  }

  /** mpq_fix_state (a closed tail compares as a huge unsigned number), then what mpq_pop
      does once mpq_block_pop has returned 0. */
  function FixStep(s: State, p: Tid, beg: nat, b: nat, second: bool, at: FixAt): (s': State)
    requires b < |s.blocks|
    ensures s'.pushed == s.pushed && s'.taken == s.taken
  {
    var blk := s.blocks[b];
    match at
    case FixTail => Tick(s, p, Fix(beg, b, second, FixHead(blk.tail, blk.closed)))
    case FixHead(ft, fclosed) =>
      Tick(s, p, Fix(beg, b, second, if fclosed || blk.head <= ft then Empty else FixRecheck(ft, blk.head)))
    case FixRecheck(ft, fh) =>
      Tick(s, p, Fix(beg, b, second, if blk.tail != ft || blk.closed then FixTail else FixCas(ft, fh)))
    case FixCas(ft, fh) =>
      if blk.tail == ft && !blk.closed then
        Tick(SetBlock(s, b, blk.(tail := fh)), p, Fix(beg, b, second, Empty))
      else
        Tick(s, p, Fix(beg, b, second, FixTail))
    case Empty =>
      if !second then
        Tick(s, p, if b + 1 < |s.blocks| then PoFaa(beg, b, true) else PoNull)
      else
        var s1 := if s.mqHead == b && b + 1 < |s.blocks| then s.(mqHead := b + 1) else s;
        Tick(s1, p, PoReadHead(beg))
  }

  /** mpq_is_empty on block b, the head block as it was read. */
  function CheckStep(s: State, p: Tid, b: nat, at: CheckAt): (s': State)
    requires b < |s.blocks|
    ensures s'.pushed == s.pushed && s'.taken == s.taken
  {
    var blk := s.blocks[b];
    match at
    case CheckHead => Tick(s, p, Check(s.mqHead, CheckAgain))
    case CheckAgain => Tick(s, p, if s.mqHead != b then Check(0, CheckHead) else Check(b, CheckFront))
    case CheckFront => Tick(s, p, Check(b, CheckBack(blk.head)))
    case CheckBack(ch) => Tick(s, p, Check(b, if blk.tail > ch then No else if blk.closed then CheckBehind else Yes))
    case CheckBehind => Tick(s, p, Check(b, if b + 1 < |s.blocks| then CheckSwing else Yes))
    case CheckSwing =>
      var s1 := if s.mqHead == b && b + 1 < |s.blocks| then s.(mqHead := b + 1) else s;
      Tick(s1, p, Check(0, CheckHead))
    case Yes => Tick(s, p, Idle)
    case No => Tick(s, p, Idle)
  }

  ghost predicate Next(s: State, s': State)
    requires WellFormed(s)
  {
    exists p: Tid, c: Choice :: p in s.threads && s' == Step(s, p, c)
  }

  /** A finite run from the initial state. */
  ghost predicate Execution(run: seq<State>) {
    && 0 < |run|
    && Init(run[0])
    && (forall i :: 0 <= i < |run| - 1 ==> WellFormed(run[i]) && Next(run[i], run[i + 1]))
  }
}
