/** What holds in every run of the job protocol. */
module JobTheorems {
  import opened JobModel
  import opened JobProof

  // ---------------------------------------------------------------- steps of the environment

  /** Handles, entries and handlers: everything but the steps inside the protocol. */
  predicate Outside(a: Action) { !a.Go? }

  /** The thread that acts; a copied handle is nobody's move in particular. */
  function Actor(a: Action): nat {
    if a.CopyHandle? then 0 else a.t
  }

  lemma OutsideMoves(s: State, classes: seq<nat>, a: Action)
    requires Enabled(s, classes, a) && Outside(a) && |s.at| > 0
    ensures Moved(s, Step(s, classes, a), Actor(a)) && HasReference(s, Actor(a))
    ensures a.CopyHandle? ==> Step(s, classes, a).at == s.at
  {
  }

  lemma OutsideCounted(s: State, classes: seq<nat>, a: Action)
    requires Enabled(s, classes, a) && Outside(a) && |s.at| > 0 && Counted(s) && SoleOk(s)
    ensures Counted(Step(s, classes, a))
  {
    hide Count, Alone;
    var s' := Step(s, classes, a);
    OutsideMoves(s, classes, a);
    RefsMove(s, s', Actor(a));
    if a.HandlerDestroys? {
      AloneCount(s, a.t);
      SeesOne(s, a.t);
    }
  }

  lemma OutsideSole(s: State, classes: seq<nat>, a: Action)
    requires Enabled(s, classes, a) && Outside(a) && |s.at| > 0 && SoleOk(s)
    ensures SoleOk(Step(s, classes, a))
  {
    var s' := Step(s, classes, a);
    OutsideMoves(s, classes, a);
    SoleMove(s, s', Actor(a));
  }

  lemma OutsideLock(s: State, classes: seq<nat>, a: Action)
    requires Enabled(s, classes, a) && Outside(a) && |s.at| > 0 && LockOk(s)
    ensures LockOk(Step(s, classes, a))
  {
    hide Alone, Mask;
    var s' := Step(s, classes, a);
    OutsideMoves(s, classes, a);
    LockMove(s, s', Actor(a));
  }

  lemma OutsidePlaces(s: State, classes: seq<nat>, a: Action)
    requires Enabled(s, classes, a) && Outside(a) && |s.at| > 0 && PlacesOk(s, classes) && LockOk(s)
    ensures PlacesOk(Step(s, classes, a), classes)
  {
    hide Alone, Mask;
    OutsideMoves(s, classes, a);
  }

  lemma OutsideQueued(s: State, classes: seq<nat>, a: Action)
    requires Enabled(s, classes, a) && Outside(a) && |s.at| > 0 && QueuedOk(s)
    ensures QueuedOk(Step(s, classes, a))
  {
    hide Alone, Mask, QueuedOk;
    var s' := Step(s, classes, a);
    var t := Actor(a);
    OutsideMoves(s, classes, a);
    QueuedMove(s, s', t);
  }

  lemma OutsideWake(s: State, classes: seq<nat>, a: Action)
    requires Enabled(s, classes, a) && Outside(a) && |s.at| > 0 && LockOk(s) && WakeOk(s)
    ensures WakeOk(Step(s, classes, a))
  {
    hide Alone, Mask, Coming, LockOk;
    var s' := Step(s, classes, a);
    OutsideMoves(s, classes, a);
    if !a.CopyHandle? && s.at[a.t].Execute? { HolderLocks(s, a.t); }
    if !s'.flags.locked && Todo(s') != {} {
      ComingMove(s, s', Actor(a));
    }
  }

  lemma OutsideTake(s: State, classes: seq<nat>, a: Action)
    requires Enabled(s, classes, a) && Outside(a) && |s.at| > 0 && LockOk(s) && TakeOk(s, classes)
    ensures TakeOk(Step(s, classes, a), classes)
  {
    hide Alone, Mask, LockOk, TakeOk;
    OutsideMoves(s, classes, a);
    if a.CopyHandle? {
      TakeKept(s, Step(s, classes, a), classes);
    } else {
      TakeMove(s, Step(s, classes, a), classes, a.t);
    }
  }

  lemma TakeKept(s: State, s': State, classes: seq<nat>)
    requires TakeOk(s, classes) && s'.at == s.at && s'.flags == s.flags && s'.status == s.status
    ensures TakeOk(s', classes)
  {
    hide Mask;
  }

  lemma HolderLocks(s: State, t: nat)
    requires LockOk(s) && t < |s.at| && Holds(s.at[t])
    ensures s.flags.locked
  {
  }

  /** Somebody who is on the way to the job, or already has it in hand. */
  predicate AtWork(p: Place) { Holds(p) || Committed(p) || p.Push? }

  /** A pending allowed signal on a job is in somebody's hands: locked, queued, or on the way. */
  lemma PendingInHand(s: State)
    requires LockOk(s) && WakeOk(s) && QueuedOk(s) && Todo(s) != {}
    ensures (!s.flags.locked && exists c :: c in s.flags.queued && c in s.queues)
            || exists t :: 0 <= t < |s.at| && AtWork(s.at[t])
    ensures !s.flags.locked ==>
              (exists c :: c in s.flags.queued && c in s.queues)
              || exists t :: 0 <= t < |s.at| && (Committed(s.at[t]) || s.at[t].Push?)
  {
    hide Todo;
    if s.flags.locked {
      var t :| 0 <= t < |s.at| && Holds(s.at[t]);
      assert AtWork(s.at[t]);
    } else if s.flags.queued != {} {
      var c :| c in s.flags.queued;
      if c !in s.queues {
        var t :| 0 <= t < |s.at| && Carries(s.at[t], c);
        assert AtWork(s.at[t]);
      }
    } else {
      var t :| 0 <= t < |s.at| && Committed(s.at[t]);
      assert AtWork(s.at[t]);
    }
  }

  /** Whoever holds a handle beside a pending, allowed signal is not alone. */
  lemma PendingNotAlone(s: State)
    requires LockOk(s) && WakeOk(s) && QueuedOk(s) && Todo(s) != {} && s.handles > 0
    ensures Refs(s) != 1
  {
    hide Count, LockOk, WakeOk, QueuedOk, Todo;
    PendingInHand(s);
    if t :| 0 <= t < |s.at| && AtWork(s.at[t]) {
      CountOne(s.at, t, Busy);
    } else {
      assert |s.queues| > 0;
    }
  }

  lemma OutsideFinish(s: State, classes: seq<nat>, a: Action)
    requires Enabled(s, classes, a) && Outside(a) && |s.at| > 0 && Inv(s, classes)
    ensures FinishOk(Step(s, classes, a))
  {
    hide Mask, Refs, LockOk, WakeOk, QueuedOk, Counted, SoleOk;
    var s' := Step(s, classes, a);
    var t := Actor(a);
    OutsideMoves(s, classes, a);
    RefsOutside(s, classes, a);
    if JS_FINISH in s.flags.signals {
      assert JS_FINISH in Todo(s);
      if s.handles > 0 { PendingNotAlone(s); }
    }
    FinishMove(s, s', t);
  }

  lemma RefsOutside(s: State, classes: seq<nat>, a: Action)
    requires Enabled(s, classes, a) && Outside(a) && |s.at| > 0
    ensures a.StartPop? || a.HandlerSets? || a.HandlerReturns? ==> Refs(Step(s, classes, a)) == Refs(s)
  {
    hide Count, Mask;
    OutsideMoves(s, classes, a);
    RefsMove(s, Step(s, classes, a), Actor(a));
  }

  // ---------------------------------------------------------------- every step, every run

  lemma StepInv(s: State, classes: seq<nat>, a: Action)
    requires Inv(s, classes) && |s.at| > 0 && Enabled(s, classes, a)
    ensures Inv(Step(s, classes, a), classes) && |Step(s, classes, a).at| == |s.at|
  {
    hide Counted, SoleOk, LockOk, PlacesOk, QueuedOk, WakeOk, FinishOk, TakeOk, Local, Mask;
    if a.Go? {
      var t, busy := a.t, a.busy;
      GoMoves(s, classes, t, busy);
      GoCounted(s, classes, t, busy);
      GoSole(s, classes, t, busy);
      GoLock(s, classes, t, busy);
      GoPlaces(s, classes, t, busy);
      GoQueued(s, classes, t, busy);
      GoWake(s, classes, t, busy);
      GoTake(s, classes, t, busy);
      GoFinish(s, classes, t, busy);
    } else {
      OutsideMoves(s, classes, a);
      OutsideCounted(s, classes, a);
      OutsideSole(s, classes, a);
      OutsideLock(s, classes, a);
      OutsidePlaces(s, classes, a);
      OutsideQueued(s, classes, a);
      OutsideWake(s, classes, a);
      OutsideTake(s, classes, a);
      OutsideFinish(s, classes, a);
    }
  }

  lemma InitInv(s: State, classes: seq<nat>)
    requires Init(s) && |s.at| <= |classes|
    ensures Inv(s, classes)
  {
    hide Mask;
    AloneCount(s, 0);
    CountNone(s.at, Zero);
  }

  lemma {:induction false} RunInv(states: seq<State>, actions: seq<Action>, classes: seq<nat>, i: nat)
    requires Run(states, actions, classes) && i < |states| && |states[0].at| <= |classes|
    ensures Inv(states[i], classes) && |states[i].at| == |states[0].at|
  {
    hide Inv, Step, Init, Enabled;
    if i == 0 {
      InitInv(states[0], classes);
    } else {
      RunInv(states, actions, classes, i - 1);
      assert Follows(states, actions, classes, i - 1);
      InitThreads(states[0]);
      StepInv(states[i - 1], classes, actions[i - 1]);
    }
  }

  lemma InitThreads(s: State)
    requires Init(s)
    ensures |s.at| > 0
  {
  }

  /** A state that some run reaches, with one class per thread. */
  ghost predicate Reachable(s: State, classes: seq<nat>) {
    exists states, actions :: Reaches(states, actions, classes, s)
  }

  ghost predicate Reaches(states: seq<State>, actions: seq<Action>, classes: seq<nat>, s: State) {
    Run(states, actions, classes) && |states[0].at| <= |classes| && states[|states| - 1] == s
  }

  lemma ReachableInv(s: State, classes: seq<nat>)
    requires Reachable(s, classes)
    ensures Inv(s, classes)
  {
    hide Inv, Run;
    var states, actions :| Reaches(states, actions, classes, s);
    assert |states| > 0 by { RunNonempty(states, actions, classes); }
    RunInv(states, actions, classes, |states| - 1);
  }

  lemma RunNonempty(states: seq<State>, actions: seq<Action>, classes: seq<nat>)
    requires Run(states, actions, classes)
    ensures |states| > 0
  {
  }

  // ---------------------------------------------------------------- the promises

  /** At most one thread runs a handler of the job. */
  lemma MutualExclusion(s: State, classes: seq<nat>, t: nat, u: nat)
    requires Reachable(s, classes) && t < |s.at| && u < |s.at|
    requires s.at[t].Execute? && s.at[u].Execute?
    ensures t == u
  {
    ReachableInv(s, classes);
    assert Holds(s.at[t]) && Holds(s.at[u]);
  }

  /** An allowed signal pending on an unlocked job is never forgotten: the job is in a queue whose
      queued bit is set, or a thread is committed to trying the lock or to filling the queue. */
  lemma NoLostSignal(s: State, classes: seq<nat>)
    requires Reachable(s, classes) && !s.flags.locked && Todo(s) != {}
    ensures (exists c :: c in s.flags.queued && c in s.queues)
            || exists t :: 0 <= t < |s.at| && (Committed(s.at[t]) || s.at[t].Push?)
  {
    hide Todo;
    ReachableInv(s, classes);
    PendingInHand(s);
  }

  /** When every thread has left and the queues are empty, nothing allowed is pending. */
  lemma QuietMeansDone(s: State, classes: seq<nat>)
    requires Reachable(s, classes) && s.queues == multiset{}
    requires forall t :: 0 <= t < |s.at| ==> s.at[t].Idle?
    ensures !s.flags.locked && Todo(s) == {} && s.flags.queued == {}
  {
    hide Todo, Counted, SoleOk, PlacesOk, QueuedOk, FinishOk, TakeOk;
    ReachableInv(s, classes);
    QuietQueues(s);
  }

  lemma QuietQueues(s: State)
    requires QueuedOk(s) && s.queues == multiset{} && forall t :: 0 <= t < |s.at| ==> s.at[t].Idle?
    ensures s.flags.queued == {}
  {
  }

  /** A handler starts only for a pending allowed signal, on a thread whose class may run it. */
  lemma RunsWhereAllowed(s: State, classes: seq<nat>, t: nat)
    requires Reachable(s, classes) && t < |s.at| && s.at[t].Take?
    ensures s.at[t].signo in Todo(s) && t < |classes| && s.status.sigclass(s.at[t].signo) in Mask(classes[t])
    ensures var c := s.status.sigclass(s.at[t].signo);
            c == 0 || c == classes[t] || (classes[t] == JC_MAIN && c <= 15)
  {
    hide Counted, SoleOk, LockOk, PlacesOk, QueuedOk, WakeOk, FinishOk, Mask;
    ReachableInv(s, classes);
    assert Chosen(s.flags, s.status, Mask(classes[t]), s.at[t]);
    MaskIs(s.status.sigclass(s.at[t].signo), classes[t]);
  }

  /** A thread may run what has no class and what has its own class; the main thread may run everything. */
  lemma MaskIs(c: nat, class_: nat)
    ensures c in Mask(class_) <==> c == 0 || c == class_ || (class_ == JC_MAIN && c <= 15)
  {
  }

  /** The count is the number of references whenever somebody relies on it: while a thread is at
      work the count is positive, and it is one exactly when that thread has the last reference. */
  lemma CountIsExact(s: State, classes: seq<nat>, t: nat)
    requires Reachable(s, classes) && t < |s.at| && !s.at[t].Idle? && !Zero(s.at[t])
    ensures s.refcnt >= 1 && (s.refcnt == 1 <==> Alone(s, t))
  {
    hide Counted, SoleOk, LockOk, PlacesOk, QueuedOk, WakeOk, FinishOk, TakeOk, Alone;
    ReachableInv(s, classes);
    SeesOne(s, t);
  }

  /** Reference counting raises JS_FINISH only on the last reference. */
  lemma FinishOnLastReference(s: State, classes: seq<nat>, t: nat)
    requires Reachable(s, classes) && t < |s.at| && (s.at[t].DecSole? || s.at[t].UnlockSole?)
    ensures Alone(s, t) && s.refcnt == 1
  {
    hide Counted, LockOk, PlacesOk, QueuedOk, WakeOk, FinishOk, TakeOk, Alone;
    ReachableInv(s, classes);
    SeesOne(s, t);
  }

  /** Unless somebody asked for it, the JS_FINISH handler starts on the last reference. */
  lemma FinishHandlerIsAlone(s: State, classes: seq<nat>, t: nat)
    requires Reachable(s, classes) && !s.asked
    requires t < |s.at| && s.at[t].Take? && s.at[t].signo == JS_FINISH
    ensures Alone(s, t) && s.refcnt == 1
  {
    hide Counted, SoleOk, LockOk, PlacesOk, QueuedOk, WakeOk, Alone, Refs, Mask;
    ReachableInv(s, classes);
    assert Chosen(s.flags, s.status, Mask(classes[t]), s.at[t]);
    AloneCount(s, t);
    SeesOne(s, t);
  }

  /** The assertion of job_send_signals: on the last reference JS_FINISH is not already pending. */
  lemma SendAssertionHolds(s: State, classes: seq<nat>, t: nat)
    requires Reachable(s, classes) && t < |s.at| && s.at[t].SendCheck?
    ensures s.refcnt > 0
    ensures s.refcnt > 1 || JS_FINISH !in s.flags.signals
  {
    hide Counted, SoleOk, LockOk, QueuedOk, WakeOk, FinishOk, TakeOk;
    ReachableInv(s, classes);
    SeesOne(s, t);
    assert JS_FINISH in s.flags.signals ==> JS_FINISH in Todo(s);
    if JS_FINISH in s.flags.signals { PendingInHand(s); }
  }
}
