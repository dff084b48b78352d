/**
 The lock and signal protocol of one asynchronous job, as a machine of atomic steps.

 The job is a flag word (locked bit, one queued bit per class, pending signals), a reference
 count and the class queues; a thread that works on it is at a place in try_lock_job, unlock_job,
 job_send_signals, job_decref or process_one_job. Every read, compare-and-swap and fetch-and-op
 of the flag word or of the count is one step, and steps of different threads interleave freely.
 */
module JobModel {

  const JS_RUN: nat := 0
  const JS_FINISH: nat := 7
  const JC_NONE: nat := 0
  const JC_MAIN: nat := 3

  datatype Flags = Flags(locked: bool, queued: set<nat>, signals: set<nat>)

  /** j_status and j_sigclass: what only the owner of the lock may change. */
  datatype Status = Status(allowed: set<nat>, fast: set<nat>, sigclass: nat -> nat, subclass: int)

  datatype Place =
    | Idle
    // job_send_signals
    | SendCheck(sig: set<nat>)
    | SendRead(sig: set<nat>)
    | SendCas(sig: set<nat>, f: Flags)
    | SendOr(sig: set<nat>)
    // the second try_lock_job of job_send_signals and of process_one_job
    | RetryRead
    | RetryCas(f: Flags)
    // job_decref
    | DecRead
    | DecAdd
    | DecZero
    | DecSole
    // process_one_job
    | PopRead(c: nat)
    | PopTry(c: nat, clear: set<nat>)
    | PopCas(c: nat, clear: set<nat>, f: Flags)
    | PopAnd(c: nat, clear: set<nat>)
    // unlock_job
    | Unlock(sub: int)
    | UnlockCas(f: Flags, sub: int)
    | UnlockDecRead(sub: int)
    | UnlockDecAdd(sub: int)
    | UnlockDecZero(sub: int)
    | UnlockSole(sub: int)
    | Take(signo: nat, sub: int)
    | Execute(signo: nat, sub: int)
    | QueueCas(f: Flags, c: nat, sub: int)
    | Push(c: nat)

  datatype State = State(
    flags: Flags,
    status: Status,
    refcnt: int,
    queues: multiset<nat>,      // for every class, how often the job is in its queue
    handles: nat,               // references kept by the rest of the program
    at: seq<Place>,             // one place per thread
    asked: bool)                // JS_FINISH was once raised by something else than the count

  /** job_class_mask: what a thread of a class may run. */
  function Mask(class_: nat): set<nat> {
    {JC_NONE} + if class_ == JC_MAIN then {1, 2, 3, 4, 5, 6, 7, 8, 9, 10, 11, 12, 13, 14, 15} else {class_}
  }

  /** A set of signal numbers. */
  predicate Signals(sig: set<nat>) {
    forall x :: x in sig ==> x <= JS_FINISH
  }

  datatype Action =
    | CopyHandle
    | StartSend(t: nat, sig: set<nat>)
    | StartDecref(t: nat)
    | StartPop(t: nat, c: nat)
    | Go(t: nat, busy: bool)
    | HandlerCopies(t: nat)
    | HandlerSets(t: nat, status: Status)
    | HandlerReturns(t: nat, sig: set<nat>)
    | HandlerDestroys(t: nat)

  function Max(s: set<nat>): (m: nat)
    requires s != {}
    ensures m in s && forall x :: x in s ==> x <= m
  {
    MaxExists(s);
    var m :| m in s && forall x :: x in s ==> x <= m;
    m
  }

  lemma MaxExists(s: set<nat>)
    requires s != {}
    ensures exists m :: m in s && forall x :: x in s ==> x <= m
  {
    var y :| y in s;
    var rest := s - {y};
    assert forall x :: x in s <==> x == y || x in rest;
    if rest != {} {
      MaxExists(rest);
      var m :| m in rest && forall x :: x in rest ==> x <= m;
      if y > m { assert y in s; } else { assert m in s; }
    }
  }

  function Todo(s: State): set<nat> { s.flags.signals * s.status.allowed }

  /** A signal of no class goes through the main queue. */
  function QueueClass(c: nat): nat { if c == JC_NONE then JC_MAIN else c }

  /** Whether unlock_job may run the signal on a thread of this mask. */
  predicate MayRun(status: Status, mask: set<nat>, signo: nat, busy: bool, sub: int) {
    status.sigclass(signo) in mask && (signo in status.fast || !busy) && status.subclass == sub
  }

  /** What one step of a thread leaves behind. */
  datatype Outcome = Outcome(flags: Flags, refcnt: int, pushed: multiset<nat>, place: Place)

  /** The next atomic step of a thread at place p, inside the protocol. */
  function Local(f: Flags, refcnt: int, status: Status, mask: set<nat>, p: Place, busy: bool): Outcome
    requires !p.Idle? && !p.Execute?
  {
    var stay := Outcome(f, refcnt, multiset{}, p);
    var locked := f.(locked := true);
    match p
    // job_send_signals
    case SendCheck(sig) => stay.(place := if sig <= f.signals then DecRead else SendRead(sig))
    case SendRead(sig) => stay.(place := if f.locked then SendOr(sig) else SendCas(sig, f))
    case SendCas(sig, g) =>
      if f == g then stay.(flags := locked.(signals := f.signals + sig), place := Unlock(status.subclass))
      else stay.(place := SendRead(sig))
    case SendOr(sig) => stay.(flags := f.(signals := f.signals + sig), place := RetryRead)
    case RetryRead => stay.(place := if f.locked then DecRead else RetryCas(f))
    case RetryCas(g) =>
      if f == g then stay.(flags := locked, place := Unlock(status.subclass)) else stay.(place := RetryRead)
    // job_decref
    case DecRead => stay.(place := if refcnt >= 2 then DecAdd else DecSole)
    case DecAdd => stay.(refcnt := refcnt - 1, place := if refcnt != 1 then Idle else DecZero)
    case DecZero => stay.(refcnt := 1, place := DecSole)
    case DecSole => stay.(place := SendCheck({JS_FINISH}))
    // process_one_job
    case PopRead(c) => stay.(place := PopTry(c, f.queued * mask))
    case PopTry(c, clear) => stay.(place := if f.locked then PopAnd(c, clear) else PopCas(c, clear, f))
    case PopCas(c, clear, g) =>
      if f == g then stay.(flags := locked.(queued := f.queued - clear), place := Unlock(status.subclass))
      else stay.(place := PopTry(c, clear))
    case PopAnd(c, clear) => stay.(flags := f.(queued := f.queued - clear), place := RetryRead)
    // unlock_job
    case Unlock(sub) =>
      var todo := f.signals * status.allowed;
      if todo == {} then stay.(place := UnlockCas(f, sub))
      else
        var signo := Max(todo);
        stay.(place := if MayRun(status, mask, signo, busy, sub) then Take(signo, sub)
                       else QueueCas(f, QueueClass(status.sigclass(signo)), sub))
    case UnlockCas(g, sub) =>
      if f == g then stay.(flags := f.(locked := false), place := UnlockDecRead(sub))
      else stay.(place := Unlock(sub))
    case UnlockDecRead(sub) => stay.(place := if refcnt >= 2 then UnlockDecAdd(sub) else UnlockSole(sub))
    case UnlockDecAdd(sub) => stay.(refcnt := refcnt - 1, place := if refcnt != 1 then Idle else UnlockDecZero(sub))
    case UnlockDecZero(sub) => stay.(refcnt := 1, place := UnlockSole(sub))
    case UnlockSole(sub) => stay.(flags := locked.(signals := f.signals + {JS_FINISH}), place := Unlock(sub))
    case Take(signo, sub) => stay.(flags := f.(signals := f.signals - {signo}), place := Execute(signo, sub))
    case QueueCas(g, c, sub) =>
      if f == g then
        stay.(flags := f.(locked := false, queued := f.queued + {c}),
          place := if c in f.queued then DecRead else Push(c))
      else stay.(place := Unlock(sub))
    case Push(c) => stay.(pushed := multiset{c}, place := Idle)
  }

  function Goto(s: State, t: nat, p: Place): State
    requires t < |s.at|
  {
    s.(at := s.at[t := p])
  }

  function Advance(s: State, mask: set<nat>, t: nat, busy: bool): State
    requires t < |s.at| && !s.at[t].Idle? && !s.at[t].Execute?
  {
    var r := Local(s.flags, s.refcnt, s.status, mask, s.at[t], busy);
    Goto(s.(flags := r.flags, refcnt := r.refcnt, queues := s.queues + r.pushed), t, r.place)
  }

  /** What the rest of the program and the handler may do, and when. */
  predicate Enabled(s: State, classes: seq<nat>, a: Action) {
    match a
    case CopyHandle => s.handles > 0
    case StartSend(t, sig) => t < |s.at| && s.at[t].Idle? && s.handles > 0 && Signals(sig)
    case StartDecref(t) => t < |s.at| && s.at[t].Idle? && s.handles > 0
    case StartPop(t, c) => t < |s.at| <= |classes| && s.at[t].Idle? && c in s.queues && c in Mask(classes[t])
    case Go(t, busy) => t < |s.at| <= |classes| && !s.at[t].Idle? && !s.at[t].Execute?
    case HandlerCopies(t) => t < |s.at| && s.at[t].Execute?
    case HandlerSets(t, status) => t < |s.at| && s.at[t].Execute? && JS_FINISH in status.allowed
    case HandlerReturns(t, sig) => t < |s.at| && s.at[t].Execute? && Signals(sig)
    case HandlerDestroys(t) => t < |s.at| && s.at[t].Execute? && Alone(s, t)
  }

  function Step(s: State, classes: seq<nat>, a: Action): State
    requires Enabled(s, classes, a)
  {
    match a
    case CopyHandle => s.(handles := s.handles + 1, refcnt := s.refcnt + 1)
    case StartSend(t, sig) =>
      Goto(s.(handles := s.handles - 1, asked := s.asked || JS_FINISH in sig), t, SendCheck(sig))
    case StartDecref(t) => Goto(s.(handles := s.handles - 1), t, DecRead)
    case StartPop(t, c) => Goto(s.(queues := s.queues - multiset{c}), t, PopRead(c))
    case Go(t, busy) => Advance(s, Mask(classes[t]), t, busy)
    case HandlerCopies(t) => s.(handles := s.handles + 1, refcnt := s.refcnt + 1)
    case HandlerSets(t, status) => s.(status := status)
    case HandlerReturns(t, sig) =>
      Goto(s.(flags := s.flags.(signals := s.flags.signals + sig), asked := s.asked || JS_FINISH in sig),
           t, Unlock(s.at[t].sub))
    case HandlerDestroys(t) =>
      Goto(s.(flags := Flags(false, {}, {}), refcnt := 0), t, Idle)
  }

  /** Thread t holds the only reference to the job. */
  predicate Alone(s: State, t: nat) {
    s.handles == 0 && s.queues == multiset{} &&
    forall u :: 0 <= u < |s.at| && u != t ==> s.at[u].Idle?
  }

  /** create_async_job and schedule_job: locked, one reference, JS_RUN pending. */
  predicate Init(s: State) {
    s.flags == Flags(true, {}, {JS_RUN}) && JS_FINISH in s.status.allowed && s.refcnt == 1 &&
    s.queues == multiset{} && s.handles == 0 && !s.asked &&
    |s.at| > 0 && s.at[0] == Unlock(s.status.subclass) && Alone(s, 0)
  }

  /** A run: states joined by enabled steps. */
  ghost predicate Run(states: seq<State>, actions: seq<Action>, classes: seq<nat>) {
    |states| == |actions| + 1 && Init(states[0]) &&
    forall i :: 0 <= i < |actions| ==> Follows(states, actions, classes, i)
  }

  ghost predicate Follows(states: seq<State>, actions: seq<Action>, classes: seq<nat>, i: nat) {
    i < |actions| && i + 1 < |states| && Enabled(states[i], classes, actions[i]) &&
    states[i + 1] == Step(states[i], classes, actions[i])
  }
}
