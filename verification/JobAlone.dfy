/**
 A thread at work on a job waits for nobody: by its own steps it comes to the end of its work or to a handler.
 And where a job is queued, whoever takes it from there may run the signal it was queued for.
 */
module JobAlone {
  import opened JobModel
  import opened JobProof
  import opened JobTheorems

  // ---------------------------------------------------------------- what the invariant says about the way

  predicate AtRest(p: Place) { p.Idle? || p.Execute? }

  /** Who finds the job locked by another, or queued already, is not alone. */
  lemma NotLast(s: State, classes: seq<nat>, t: nat)
    requires Inv(s, classes) && t < |s.at| && Busy(s.at[t]) && !Zero(s.at[t])
    requires (s.flags.locked && !Holds(s.at[t])) ||
             (s.at[t].QueueCas? && s.at[t].c in s.flags.queued)
    ensures s.refcnt >= 2
  {
    hide Counted, SoleOk, PlacesOk, WakeOk, FinishOk, TakeOk;
    SeesOne(s, t);
    if s.flags.locked && !Holds(s.at[t]) {
      var u :| 0 <= u < |s.at| && Holds(s.at[u]);
      assert u != t && !s.at[u].Idle?;
    } else {
      var c := s.at[t].c;
      if c !in s.queues {
        var u :| 0 <= u < |s.at| && Carries(s.at[u], c);
        assert u != t && !s.at[u].Idle?;
      }
    }
  }

  /** The last reference finds JS_FINISH not yet sent. */
  lemma FinishNotPending(s: State, classes: seq<nat>, t: nat)
    requires Inv(s, classes) && t < |s.at| && s.at[t].DecSole?
    ensures JS_FINISH !in s.flags.signals
  {
    hide Counted, WakeOk, QueuedOk, LockOk, FinishOk, TakeOk;
    assert Alone(s, t);
    if JS_FINISH in s.flags.signals {
      assert JS_FINISH in Todo(s);
      PendingInHand(s);
      assert false;
    }
  }

  // ---------------------------------------------------------------- the way that is left

  /** The flag word that a thread is going to replace is still the same. */
  predicate Fresh(p: Place, f: Flags) {
    (p.SendCas? || p.RetryCas? || p.PopCas? || p.UnlockCas? || p.QueueCas?) && p.f == f
  }

  function Left(s: State, p: Place): nat {
    match p
    case Idle => 0
    case Execute(_, _) => 0
    case Push(_) => 1
    case Take(_, _) => 1
    case DecAdd => if s.refcnt != 1 then 2 else 90
    case DecRead => if s.refcnt >= 2 then 3 else 89
    case DecZero => 89
    case DecSole => 88
    case QueueCas(_, _, _) => if Fresh(p, s.flags) then 19 else 50
    case Unlock(_) => if Todo(s) != {} then 20 else 40
    case UnlockSole(_) => 35
    case UnlockDecZero(_) => 36
    case UnlockDecAdd(_) => 37
    case UnlockDecRead(_) => 38
    case UnlockCas(_, _) => if Fresh(p, s.flags) then 39 else 50
    case RetryCas(_) => if Fresh(p, s.flags) then 75 else 77
    case RetryRead => 76
    case SendOr(_) => 78
    case SendCas(_, _) => if Fresh(p, s.flags) then 78 else 80
    case SendRead(_) => 79
    case SendCheck(sig) => if sig <= s.flags.signals then 95 else 80
    case PopAnd(_, _) => 83
    case PopCas(_, _, _) => if Fresh(p, s.flags) then 84 else 86
    case PopTry(_, _) => 85
    case PopRead(_) => 87
  }

  /** The conditions under which every step shortens the way. */
  ghost predicate WayOk(s: State, t: nat) {
    t < |s.at| &&
    (s.at[t].RetryRead? && s.flags.locked ==> s.refcnt >= 2) &&
    (s.at[t].QueueCas? && s.at[t].c in s.flags.queued ==> s.refcnt >= 2) &&
    (s.at[t].DecSole? ==> JS_FINISH !in s.flags.signals) && JS_FINISH in s.status.allowed
  }

  lemma WayIsOk(s: State, classes: seq<nat>, t: nat)
    requires Inv(s, classes) && t < |s.at|
    ensures WayOk(s, t)
  {
    hide Counted, SoleOk, LockOk, QueuedOk, WakeOk, FinishOk, TakeOk;
    if s.at[t].RetryRead? && s.flags.locked { NotLast(s, classes, t); }
    if s.at[t].QueueCas? && s.at[t].c in s.flags.queued { NotLast(s, classes, t); }
    if s.at[t].DecSole? { FinishNotPending(s, classes, t); }
  }

  lemma StepShortens(s: State, mask: set<nat>, t: nat, busy: bool)
    requires WayOk(s, t) && !AtRest(s.at[t])
    ensures var s' := Advance(s, mask, t, busy); t < |s'.at| && Left(s', s'.at[t]) < Left(s, s.at[t])
  {
    hide MayRun, QueueClass;
    var s' := Advance(s, mask, t, busy);
    assert s.at[t].UnlockSole? ==> JS_FINISH in Todo(s');
  }

  // ---------------------------------------------------------------- alone

  /** Thread t comes to rest by its own steps. */
  ghost predicate Ends(s: State, classes: seq<nat>, t: nat, busy: bool, n: nat)
    decreases n
  {
    t < |s.at| <= |classes| &&
    (AtRest(s.at[t]) || (n > 0 && Ends(Advance(s, Mask(classes[t]), t, busy), classes, t, busy, n - 1)))
  }

  lemma {:induction false} WorkEnds(s: State, classes: seq<nat>, t: nat, busy: bool)
    requires Inv(s, classes) && t < |s.at| <= |classes|
    ensures exists n: nat :: Ends(s, classes, t, busy, n)
    decreases Left(s, s.at[t])
  {
    hide Inv, Left, Advance, Mask;
    if AtRest(s.at[t]) {
      assert Ends(s, classes, t, busy, 0);
    } else {
      WayIsOk(s, classes, t);
      StepShortens(s, Mask(classes[t]), t, busy);
      StepInvHere(s, classes, t, busy);
      var s' := Advance(s, Mask(classes[t]), t, busy);
      WorkEnds(s', classes, t, busy);
      var n: nat :| Ends(s', classes, t, busy, n);
      assert Ends(s, classes, t, busy, n + 1);
    }
  }

  lemma StepInvHere(s: State, classes: seq<nat>, t: nat, busy: bool)
    requires Inv(s, classes) && t < |s.at| <= |classes| && !AtRest(s.at[t])
    ensures var s' := Advance(s, Mask(classes[t]), t, busy); Inv(s', classes) && |s'.at| == |s.at|
  {
    hide Inv, Advance, Mask;
    assert Enabled(s, classes, Go(t, busy));
    StepInv(s, classes, Go(t, busy));
  }

  /** In every reachable state, wherever the others have stopped: a thread at work comes to rest, idle or at a
      handler, without them. */
  lemma NobodyWaits(s: State, classes: seq<nat>, t: nat, busy: bool)
    requires Reachable(s, classes) && t < |s.at|
    ensures exists n: nat :: Ends(s, classes, t, busy, n)
  {
    hide Reachable, Inv;
    ReachableInv(s, classes);
    EnoughClasses(s, classes);
    WorkEnds(s, classes, t, busy);
  }

  lemma EnoughClasses(s: State, classes: seq<nat>)
    requires Inv(s, classes)
    ensures |s.at| <= |classes|
  {
    hide Counted, SoleOk, LockOk, QueuedOk, WakeOk, FinishOk, TakeOk;
  }

  // ---------------------------------------------------------------- the right queue

  /** A thread that queues the job does so for the highest pending allowed signal of the flag word it replaces. */
  ghost predicate QueueFor(status: Status, p: Place) {
    p.QueueCas? ==>
      var todo := p.f.signals * status.allowed;
      todo != {} && p.c == QueueClass(status.sigclass(Max(todo)))
  }

  lemma LocalQueueFor(f: Flags, refcnt: int, status: Status, mask: set<nat>, p: Place, busy: bool)
    requires !p.Idle? && !p.Execute? && QueueFor(status, p)
    ensures QueueFor(status, Local(f, refcnt, status, mask, p, busy).place)
  {
    hide MayRun, QueueClass;
  }

  lemma QueueForStep(s: State, classes: seq<nat>, a: Action, t: nat)
    requires Inv(s, classes) && Enabled(s, classes, a) && t < |s.at| && QueueFor(s.status, s.at[t])
    ensures var s' := Step(s, classes, a); t < |s'.at| && QueueFor(s'.status, s'.at[t])
  {
    hide Counted, SoleOk, PlacesOk, QueuedOk, WakeOk, FinishOk, TakeOk, Local, Mask, QueueClass, Alone;
    if a.Go? && a.t == t {
      LocalQueueFor(s.flags, s.refcnt, s.status, Mask(classes[a.t]), s.at[a.t], a.busy);
    }
    assert a.HandlerSets? ==> Holds(s.at[a.t]);
    assert s.at[t].QueueCas? ==> Holds(s.at[t]);
  }

  lemma {:induction false} QueueForRun(states: seq<State>, actions: seq<Action>, classes: seq<nat>, k: nat, t: nat)
    requires Run(states, actions, classes) && |states[0].at| <= |classes| && k < |states| && t < |states[k].at|
    ensures QueueFor(states[k].status, states[k].at[t])
    decreases k
  {
    hide Inv, Step, Enabled, QueueFor;
    RunInv(states, actions, classes, k);
    if k == 0 {
      NotAtFirst(states[0], t);
    } else {
      RunInv(states, actions, classes, k - 1);
      assert Follows(states, actions, classes, k - 1);
      QueueForRun(states, actions, classes, k - 1, t);
      QueueForStep(states[k - 1], classes, actions[k - 1], t);
    }
  }

  lemma NotAtFirst(s: State, t: nat)
    requires Init(s) && t < |s.at|
    ensures QueueFor(s.status, s.at[t])
  {
  }

  /** Step j puts the job on its way to the queue of class c, for the signal x. */
  ghost predicate Queues(states: seq<State>, actions: seq<Action>, j: nat, c: nat, x: nat) {
    j < |actions| && j + 1 < |states| && actions[j].Go? &&
    var t := actions[j].t;
    t < |states[j].at| && states[j].at[t].QueueCas? && states[j].at[t].f == states[j].flags && states[j].at[t].c == c &&
    Todo(states[j]) != {} && x == Max(Todo(states[j]))
  }

  /** Any thread that may serve the queue may run the signal. */
  lemma QueuedWhereRunnable(states: seq<State>, actions: seq<Action>, classes: seq<nat>, j: nat, c: nat, x: nat,
                            class_: nat)
    requires Run(states, actions, classes) && |states[0].at| <= |classes| && Queues(states, actions, j, c, x)
    requires c in Mask(class_)
    ensures states[j].status.sigclass(x) in Mask(class_)
  {
    hide Inv, Step, Enabled, Init, Mask;
    QueueForRun(states, actions, classes, j, actions[j].t);
    ServesToo(states[j].status.sigclass(x), class_);
  }

  lemma ServesToo(c: nat, class_: nat)
    requires QueueClass(c) in Mask(class_)
    ensures c in Mask(class_)
  {
  }
}
