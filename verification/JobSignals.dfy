/**
 Which signal a handler runs for. unlock_job reads the flag word, picks the highest pending allowed
 signal and then clears its bit with a separate atomic step; so the signal is the highest at the
 time of the read, and a higher one may have arrived by the time the handler starts.
 */
module JobSignals {
  import opened JobModel
  import opened JobProof
  import opened JobTheorems

  // ---------------------------------------------------------------- from the read to the handler

  /** Step j is the read of thread t that chose `signo`: the highest pending allowed signal. */
  ghost predicate Chooses(states: seq<State>, actions: seq<Action>, classes: seq<nat>, j: nat, t: nat, signo: nat) {
    j < |actions| && j + 1 < |states| && t < |states[j].at| && t < |states[j + 1].at| && t < |classes| &&
    actions[j].Go? && actions[j].t == t && states[j].at[t].Unlock? &&
    states[j + 1].at[t] == Take(signo, states[j].at[t].sub) &&
    signo in Todo(states[j]) && (forall x :: x in Todo(states[j]) ==> x <= signo) &&
    RunsHere(states[j].status, classes[t], signo, actions[j].busy, states[j].at[t].sub) &&
    states[j + 1].status == states[j].status && states[j + 1].flags == states[j].flags
  }

  /** From state j on up to state i thread t keeps the choice, and nobody touches the status. */
  ghost predicate Keeps(states: seq<State>, j: nat, i: nat, t: nat) {
    i < |states| && t < |states[i].at| &&
    forall m :: j < m <= i ==>
      t < |states[m].at| && states[m].at[t] == states[i].at[t] && states[m].status == states[j].status
  }

  lemma ChoiceStep(s: State, classes: seq<nat>, t: nat, busy: bool)
    requires t < |s.at| <= |classes| && s.at[t].Unlock? && Enabled(s, classes, Go(t, busy))
    requires Step(s, classes, Go(t, busy)).at[t].Take?
    ensures var s', signo := Step(s, classes, Go(t, busy)), Step(s, classes, Go(t, busy)).at[t].signo;
            s'.at[t] == Take(signo, s.at[t].sub) && signo in Todo(s) && (forall x :: x in Todo(s) ==> x <= signo) &&
            RunsHere(s.status, classes[t], signo, busy, s.at[t].sub) && s'.status == s.status && s'.flags == s.flags
  {
    hide Mask, MayRun, RunsHere;
    RunsHereIs(s.status, classes[t], Step(s, classes, Go(t, busy)).at[t].signo, busy, s.at[t].sub);
  }

  /** A thread of a class may run a signal that has no class or that class, the main thread any; one that is in a
      handler already only a fast one; and only while the job is in the subclass for which it was locked. */
  predicate RunsHere(status: Status, class_: nat, signo: nat, busy: bool, sub: int) {
    var c := status.sigclass(signo);
    (c == 0 || c == class_ || (class_ == JC_MAIN && c <= 15)) && (busy ==> signo in status.fast) &&
      status.subclass == sub
  }

  lemma RunsHereIs(status: Status, class_: nat, signo: nat, busy: bool, sub: int)
    ensures RunsHere(status, class_, signo, busy, sub) <==> MayRun(status, Mask(class_), signo, busy, sub)
  {
    MaskIs(status.sigclass(signo), class_);
  }

  /** What unlock_job decides with the flag word it has read: nothing pending, the handler here, or the queue. */
  lemma UnlockDecides(s: State, classes: seq<nat>, t: nat, busy: bool)
    requires t < |s.at| && s.at[t].Unlock? && Enabled(s, classes, Go(t, busy))
    ensures var s', sub := Step(s, classes, Go(t, busy)), s.at[t].sub;
            s'.flags == s.flags && t < |s'.at| &&
            (Todo(s) == {} <==> s'.at[t].UnlockCas?) &&
            (Todo(s) != {} ==> forall x :: x in Todo(s) && (forall y :: y in Todo(s) ==> y <= x) ==>
               if RunsHere(s.status, classes[t], x, busy, sub) then s'.at[t] == Take(x, sub) else s'.at[t].QueueCas?)
  {
    hide Mask, MayRun, RunsHere, QueueClass;
    if Todo(s) != {} {
      var x := Max(Todo(s));
      RunsHereIs(s.status, classes[t], x, busy, s.at[t].sub);
      assert forall y :: y in Todo(s) && (forall z :: z in Todo(s) ==> z <= y) ==> y == x;
    }
  }

  /** Only its own step brings a thread to Take, and it comes from Unlock. */
  lemma IntoTake(s: State, classes: seq<nat>, a: Action, t: nat)
    requires Enabled(s, classes, a) && t < |s.at| && |Step(s, classes, a).at| == |s.at|
    requires Step(s, classes, a).at[t].Take? && !s.at[t].Take?
    ensures a.Go? && a.t == t && s.at[t].Unlock?
  {
    hide Mask, Local;
    if a.Go? { OnlyFromUnlock(s.flags, s.refcnt, s.status, Mask(classes[a.t]), s.at[a.t], a.busy); }
  }

  lemma OnlyFromUnlock(f: Flags, refcnt: int, status: Status, mask: set<nat>, p: Place, busy: bool)
    requires !p.Idle? && !p.Execute? && Local(f, refcnt, status, mask, p, busy).place.Take?
    ensures p.Unlock?
  {
    hide MayRun, QueueClass;
  }

  /** A thread that has chosen holds the lock: meanwhile signals only arrive and the status stays. */
  lemma TenureStep(s: State, classes: seq<nat>, a: Action, t: nat)
    requires Inv(s, classes) && Enabled(s, classes, a) && t < |s.at| && |Step(s, classes, a).at| == |s.at|
    requires s.at[t].Take? && Step(s, classes, a).at[t].Take?
    ensures Step(s, classes, a).at[t] == s.at[t]
    ensures Step(s, classes, a).status == s.status && s.flags.signals <= Step(s, classes, a).flags.signals
  {
    hide Mask, Counted, SoleOk, PlacesOk, QueuedOk, WakeOk, FinishOk, TakeOk, Local, Alone;
    if a.Go? {
      LocalTake(s.flags, s.refcnt, s.status, Mask(classes[a.t]), s.at[a.t], a.busy);
      if a.t == t {
        OutOfTake(s.flags, s.refcnt, s.status, Mask(classes[t]), s.at[t], a.busy);
      } else {
        assert Holds(s.at[t]) && !Holds(s.at[a.t]);
      }
    } else if !a.CopyHandle? {
      assert Holds(s.at[t]);
      assert s.at[a.t].Execute? ==> Holds(s.at[a.t]);
    }
  }

  lemma OutOfTake(f: Flags, refcnt: int, status: Status, mask: set<nat>, p: Place, busy: bool)
    requires p.Take?
    ensures Local(f, refcnt, status, mask, p, busy).place.Execute?
  {
  }

  /** Whenever a thread is about to start a handler, an earlier step of its own, in the same tenure of
      the lock, found that signal to be the highest pending allowed one. */
  lemma {:induction false} ChosenAsHighest(states: seq<State>, actions: seq<Action>, classes: seq<nat>, i: nat,
                                           t: nat) returns (j: nat)
    requires Run(states, actions, classes) && i < |states| && |states[0].at| <= |classes|
    requires t < |states[i].at| && states[i].at[t].Take?
    ensures j < i && Chooses(states, actions, classes, j, t, states[i].at[t].signo) && Keeps(states, j, i, t)
    decreases i
  {
    hide Inv, Step, Init, Enabled, Todo, Mask, RunsHere;
    RunInv(states, actions, classes, i);
    if i == 0 {
      InitPlace(states[0], t);
    } else {
      RunInv(states, actions, classes, i - 1);
      assert Follows(states, actions, classes, i - 1);
      var s, a := states[i - 1], actions[i - 1];
      if s.at[t].Take? {
        TenureStep(s, classes, a, t);
        j := ChosenAsHighest(states, actions, classes, i - 1, t);
      } else {
        IntoTake(s, classes, a, t);
        ChoiceStep(s, classes, t, a.busy);
        j := i - 1;
      }
    }
  }

  lemma InitPlace(s: State, t: nat)
    requires Init(s) && t < |s.at|
    ensures !s.at[t].Take?
  {
  }

  // ---------------------------------------------------------------- exactly when it is still the highest

  /** An allowed signal above `signo` is pending. */
  ghost predicate HigherPending(s: State, signo: nat) {
    exists x :: x in Todo(s) && x > signo
  }

  /** Between states j and i an allowed signal above `signo` arrived. */
  ghost predicate HigherArrived(states: seq<State>, j: nat, i: nat, signo: nat) {
    j < |states| &&
    exists m: nat, x: nat :: Arrives(states, m, x) && j <= m < i && x > signo && x in states[j].status.allowed
  }

  ghost predicate Arrives(states: seq<State>, m: nat, x: nat) {
    m + 1 < |states| && x !in states[m].flags.signals && x in states[m + 1].flags.signals
  }

  lemma {:induction false} SignalsOnlyArrive(states: seq<State>, actions: seq<Action>, classes: seq<nat>, j: nat,
                                             i: nat, m: nat, t: nat)
    requires Run(states, actions, classes) && |states[0].at| <= |classes| && j < m <= i < |states|
    requires Keeps(states, j, i, t) && states[i].at[t].Take?
    ensures states[m].flags.signals <= states[i].flags.signals
    decreases i - m
  {
    hide Inv, Step, Init, Enabled, Mask;
    if m < i {
      RunInv(states, actions, classes, m);
      RunInv(states, actions, classes, m + 1);
      assert Follows(states, actions, classes, m);
      TenureStep(states[m], classes, actions[m], t);
      SignalsOnlyArrive(states, actions, classes, j, i, m + 1, t);
    }
  }

  lemma {:induction false} FindArrival(states: seq<State>, j: nat, i: nat, x: nat) returns (m: nat)
    requires j < i < |states| && x !in states[j].flags.signals && x in states[i].flags.signals
    ensures j <= m < i && Arrives(states, m, x)
    decreases i - j
  {
    if x in states[j + 1].flags.signals {
      m := j;
    } else {
      m := FindArrival(states, j + 1, i, x);
    }
  }

  /** A higher allowed signal is pending when the handler starts exactly when one arrived after the
      read that chose the handler's signal. */
  lemma HigherOnlyByArrival(states: seq<State>, actions: seq<Action>, classes: seq<nat>, j: nat, i: nat, t: nat)
    requires Run(states, actions, classes) && |states[0].at| <= |classes| && j < i < |states|
    requires t < |states[i].at| && states[i].at[t].Take?
    requires Chooses(states, actions, classes, j, t, states[i].at[t].signo) && Keeps(states, j, i, t)
    ensures HigherPending(states[i], states[i].at[t].signo) <==> HigherArrived(states, j, i, states[i].at[t].signo)
  {
    hide Run, Mask, RunsHere;
    var signo := states[i].at[t].signo;
    if HigherPending(states[i], signo) {
      var x :| x in Todo(states[i]) && x > signo;
      assert x !in Todo(states[j]);
      var m := FindArrival(states, j, i, x);
      assert Arrives(states, m, x);
    }
    if HigherArrived(states, j, i, signo) {
      var m: nat, x: nat :| Arrives(states, m, x) && j <= m < i && x > signo && x in states[j].status.allowed;
      SignalsOnlyArrive(states, actions, classes, j, i, m + 1, t);
      assert x in Todo(states[i]);
    }
  }

  // ---------------------------------------------------------------- a run in which a higher signal arrives

  function Open(): Status {
    Status({0, 5, JS_FINISH}, {}, (s: nat) => JC_MAIN, 0)
  }

  /** The job of the run below, locked all the time, with two threads. */
  function At(signals: set<nat>, refcnt: int, handles: nat, p: Place, q: Place): State {
    State(Flags(true, {}, signals), Open(), refcnt, multiset{}, handles, [p, q], false)
  }

  function Script(): seq<Action> {
    [Go(0, false), Go(0, false), HandlerCopies(0), StartSend(1, {5}), Go(1, false), Go(1, false),
     HandlerReturns(0, {JS_RUN}), Go(0, false), Go(1, false), Go(0, false)]
  }

  function Trace(): seq<State> {
    [At({0}, 1, 0, Unlock(0), Idle),
     At({0}, 1, 0, Take(0, 0), Idle),
     At({}, 1, 0, Execute(0, 0), Idle),
     At({}, 2, 1, Execute(0, 0), Idle),
     At({}, 2, 0, Execute(0, 0), SendCheck({5})),
     At({}, 2, 0, Execute(0, 0), SendRead({5})),
     At({}, 2, 0, Execute(0, 0), SendOr({5})),
     At({0}, 2, 0, Unlock(0), SendOr({5})),
     At({0}, 2, 0, Take(0, 0), SendOr({5})),
     At({0, 5}, 2, 0, Take(0, 0), RetryRead),
     At({5}, 2, 0, Execute(0, 0), RetryRead)]
  }

  lemma MaxOf(s: set<nat>, m: nat)
    requires m in s && forall x :: x in s ==> x <= m
    ensures s != {} && Max(s) == m
  {
  }

  lemma ReadsZero(refcnt: int, handles: nat, q: Place)
    ensures Step(At({0}, refcnt, handles, Unlock(0), q), [3, 3], Go(0, false))
            == At({0}, refcnt, handles, Take(0, 0), q)
  {
    var s := At({0}, refcnt, handles, Unlock(0), q);
    assert Todo(s) == {0};
    MaxOf({0}, 0);
    assert s.at[0 := Take(0, 0)] == [Take(0, 0), q];
  }

  lemma HandlerStarts()
    ensures Follows(Trace(), Script(), [3, 3], 0) && Follows(Trace(), Script(), [3, 3], 1)
  {
    ReadsZero(1, 0, Idle);
    assert {0} - {0} == {};
    assert Step(Trace()[1], [3, 3], Script()[1]) == Trace()[2];
  }

  lemma HandleCopied()
    ensures Follows(Trace(), Script(), [3, 3], 2)
  {
  }

  lemma SenderStarts()
    ensures Follows(Trace(), Script(), [3, 3], 3) && Follows(Trace(), Script(), [3, 3], 4)
  {
    var c := [3, 3];
    assert Step(Trace()[3], c, Script()[3]) == Trace()[4];
    assert Step(Trace()[4], c, Script()[4]) == Trace()[5];
  }

  lemma SenderFindsLock()
    ensures Follows(Trace(), Script(), [3, 3], 5) && Follows(Trace(), Script(), [3, 3], 6)
  {
    var c := [3, 3];
    assert Step(Trace()[5], c, Script()[5]) == Trace()[6];
    assert Step(Trace()[6], c, Script()[6]) == Trace()[7];
  }

  lemma SignalArrives()
    ensures Follows(Trace(), Script(), [3, 3], 7) && Follows(Trace(), Script(), [3, 3], 8)
  {
    var c := [3, 3];
    ReadsZero(2, 0, SendOr({5}));
    assert {0} + {5} == {0, 5};
    assert Step(Trace()[8], c, Script()[8]) == Trace()[9];
  }

  lemma HandlerStartsAgain()
    ensures Follows(Trace(), Script(), [3, 3], 9)
  {
    assert {0, 5} - {0} == {5};
    assert Step(Trace()[9], [3, 3], Script()[9]) == Trace()[10];
  }

  /** The handler of signal 0 starts while the allowed signal 5 is pending. */
  lemma HigherSignalCanArrive()
    ensures Run(Trace(), Script(), [3, 3]) && |Trace()[0].at| <= 2
    ensures Trace()[10].at[0] == Execute(0, 0) && 5 in Todo(Trace()[10])
    ensures HigherPending(Trace()[9], 0)
  {
    hide Follows;
    HandlerStarts();
    HandleCopied();
    SenderStarts();
    SenderFindsLock();
    SignalArrives();
    HandlerStartsAgain();
    assert Init(Trace()[0]);
    assert 5 in Todo(Trace()[9]);
  }
}
