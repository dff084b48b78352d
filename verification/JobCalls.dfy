/**
 What becomes of signals that are sent: they become pending before the sender is done, and a pending signal
 goes away only when its handler starts or the job is destroyed.
 */
module JobCalls {
  import opened JobModel
  import opened JobProof
  import opened JobTheorems

  // ---------------------------------------------------------------- sending

  /** In job_send_signals, before the signals are set. */
  predicate Sending(p: Place) { p.SendCheck? || p.SendRead? || p.SendCas? || p.SendOr? }

  /** A sender goes on with the same signals, or leaves when they are all pending. */
  lemma SendGoes(f: Flags, refcnt: int, status: Status, mask: set<nat>, p: Place, busy: bool)
    requires Sending(p)
    ensures var r := Local(f, refcnt, status, mask, p, busy);
            if Sending(r.place) then r.place.sig == p.sig else p.sig <= r.flags.signals
  {
  }

  /** Only its own steps move a thread inside the protocol. */
  lemma OthersWait(s: State, classes: seq<nat>, a: Action, t: nat)
    requires Enabled(s, classes, a) && t < |s.at| && !s.at[t].Idle? && !s.at[t].Execute?
    requires !(a.Go? && a.t == t)
    ensures t < |Step(s, classes, a).at| && Step(s, classes, a).at[t] == s.at[t]
  {
    hide Local, Mask;
  }

  /** When a sender leaves, every signal it was given is pending. */
  lemma {:induction false} SignalsBecomePending(states: seq<State>, actions: seq<Action>, classes: seq<nat>, i: nat,
                                                k: nat,
                                                t: nat, sig: set<nat>)
    requires Run(states, actions, classes) && i < |actions| && actions[i] == StartSend(t, sig) && i < k < |states|
    requires forall m :: i < m < k ==> t < |states[m].at| && Sending(states[m].at[t])
    ensures t < |states[k].at|
    ensures if Sending(states[k].at[t]) then states[k].at[t].sig == sig else sig <= states[k].flags.signals
    decreases k
  {
    hide Step, Init, Local, Mask, Enabled;
    assert Follows(states, actions, classes, k - 1);
    if k == i + 1 {
      SendStarts(states[i], classes, t, sig);
    } else {
      SignalsBecomePending(states, actions, classes, i, k - 1, t, sig);
      SenderSteps(states[k - 1], classes, actions[k - 1], t);
    }
  }

  lemma SendStarts(s: State, classes: seq<nat>, t: nat, sig: set<nat>)
    requires Enabled(s, classes, StartSend(t, sig))
    ensures t < |Step(s, classes, StartSend(t, sig)).at| && Step(s, classes, StartSend(t, sig)).at[t] == SendCheck(sig)
  {
  }

  lemma SenderSteps(s: State, classes: seq<nat>, a: Action, t: nat)
    requires Enabled(s, classes, a) && t < |s.at| && Sending(s.at[t])
    ensures var s' := Step(s, classes, a);
            t < |s'.at| && if Sending(s'.at[t]) then s'.at[t].sig == s.at[t].sig else s.at[t].sig <= s'.flags.signals
  {
    hide Local, Mask;
    if a.Go? && a.t == t {
      SendGoes(s.flags, s.refcnt, s.status, Mask(classes[t]), s.at[t], a.busy);
    } else {
      OthersWait(s, classes, a, t);
    }
  }

  /** A handler's own signals are pending when it returns. */
  lemma ReturnedSignalsPend(s: State, classes: seq<nat>, t: nat, sig: set<nat>)
    requires Enabled(s, classes, HandlerReturns(t, sig))
    ensures sig <= Step(s, classes, HandlerReturns(t, sig)).flags.signals
    ensures s.flags.signals <= Step(s, classes, HandlerReturns(t, sig)).flags.signals
  {
  }

  // ---------------------------------------------------------------- pending signals

  /** At step j the handler of x starts. */
  ghost predicate Starts(states: seq<State>, actions: seq<Action>, j: nat, x: nat) {
    j < |actions| && j + 1 < |states| && actions[j].Go? &&
    var t := actions[j].t;
    t < |states[j].at| && t < |states[j + 1].at| && states[j].at[t].Take? && states[j].at[t].signo == x &&
    states[j + 1].at[t].Execute? && states[j + 1].at[t].signo == x
  }

  ghost predicate Destroyed(actions: seq<Action>, j: nat) {
    j < |actions| && actions[j].HandlerDestroys?
  }

  lemma LocalSignals(f: Flags, refcnt: int, status: Status, mask: set<nat>, p: Place, busy: bool, x: nat)
    requires !p.Idle? && !p.Execute? && x in f.signals && x !in Local(f, refcnt, status, mask, p, busy).flags.signals
    ensures p.Take? && p.signo == x && Local(f, refcnt, status, mask, p, busy).place == Execute(x, p.sub)
  {
    hide MayRun, QueueClass;
  }

  /** A pending signal goes away only with the start of its handler, or with the job. */
  lemma GoesOnlyToHandler(states: seq<State>, actions: seq<Action>, classes: seq<nat>, j: nat, x: nat)
    requires Follows(states, actions, classes, j)
    requires x in states[j].flags.signals && x !in states[j + 1].flags.signals
    ensures Starts(states, actions, j, x) || Destroyed(actions, j)
  {
    hide Local, Mask;
    var s, a := states[j], actions[j];
    if a.Go? { LocalSignals(s.flags, s.refcnt, s.status, Mask(classes[a.t]), s.at[a.t], a.busy, x); }
  }

  /** A handler starts only for a signal that is pending, and takes it away. */
  lemma HandlerConsumes(states: seq<State>, actions: seq<Action>, classes: seq<nat>, j: nat, t: nat)
    requires Run(states, actions, classes) && |states[0].at| <= |classes| && j < |actions|
    requires t < |states[j].at| && !states[j].at[t].Execute? && t < |states[j + 1].at| && states[j + 1].at[t].Execute?
    ensures var x := states[j + 1].at[t].signo;
            x in states[j].flags.signals && x !in states[j + 1].flags.signals && Starts(states, actions, j, x)
  {
    hide Local, Mask, Init, Counted, SoleOk, LockOk, PlacesOk, QueuedOk, WakeOk, FinishOk;
    assert Follows(states, actions, classes, j);
    RunInv(states, actions, classes, j);
    var s, a := states[j], actions[j];
    if a.Go? && a.t == t {
      IntoExecute(s.flags, s.refcnt, s.status, Mask(classes[t]), s.at[t], a.busy);
      assert Chosen(s.flags, s.status, Mask(classes[t]), s.at[t]);
    }
  }

  lemma IntoExecute(f: Flags, refcnt: int, status: Status, mask: set<nat>, p: Place, busy: bool)
    requires !p.Idle? && !p.Execute? && Local(f, refcnt, status, mask, p, busy).place.Execute?
    ensures p.Take? && Local(f, refcnt, status, mask, p, busy).place == Execute(p.signo, p.sub)
    ensures p.signo !in Local(f, refcnt, status, mask, p, busy).flags.signals
  {
    hide MayRun, QueueClass;
  }

  /** Between states m and l the handler of x started, or the job was destroyed. */
  ghost predicate Served(states: seq<State>, actions: seq<Action>, m: nat, l: nat, x: nat) {
    exists j :: m <= j < l && (Starts(states, actions, j, x) || Destroyed(actions, j))
  }

  /** A signal that is pending stays so until it is served. */
  lemma {:induction false} PendingUntilServed(states: seq<State>, actions: seq<Action>, classes: seq<nat>, m: nat,
                                              l: nat,
                                              x: nat)
    requires Run(states, actions, classes) && m <= l < |states| && x in states[m].flags.signals
    ensures x in states[l].flags.signals || Served(states, actions, m, l, x)
    decreases l
  {
    hide Step, Init, Enabled, Starts;
    if m < l {
      PendingUntilServed(states, actions, classes, m, l - 1, x);
      assert Follows(states, actions, classes, l - 1);
      if x in states[l - 1].flags.signals {
        if x !in states[l].flags.signals { GoesOnlyToHandler(states, actions, classes, l - 1, x); }
      }
    }
  }

  // ---------------------------------------------------------------- sent signals are served

  ghost predicate Quiet(s: State) {
    s.queues == multiset{} && forall t :: 0 <= t < |s.at| ==> s.at[t].Idle?
  }

  /** The first state after step i at which thread t is not sending any more. */
  lemma {:induction false} LeavesSend(states: seq<State>, i: nat, l: nat, t: nat) returns (k: nat)
    requires i < l < |states| && (forall m :: i < m <= l ==> t < |states[m].at|) && !Sending(states[l].at[t])
    ensures i < k <= l && !Sending(states[k].at[t]) && forall m :: i < m < k ==> Sending(states[m].at[t])
    decreases l
  {
    if l > i + 1 && exists m :: i < m < l && !Sending(states[m].at[t]) {
      var m :| i < m < l && !Sending(states[m].at[t]);
      k := LeavesSend(states, i, m, t);
    } else {
      k := l;
    }
  }

  /** Every signal that was sent: when the job is quiet again and the signal is allowed then, its handler has
      started since the call, or the job was destroyed. */
  lemma SentIsServed(states: seq<State>, actions: seq<Action>, classes: seq<nat>, i: nat, l: nat, t: nat, sig: set<nat>,
                     x: nat)
    requires Run(states, actions, classes) && |states[0].at| <= |classes|
    requires i < |actions| && actions[i] == StartSend(t, sig) && x in sig && i < l < |states|
    requires Quiet(states[l]) && x in states[l].status.allowed
    ensures Served(states, actions, i, l, x)
  {
    hide Step, Init, Enabled, Inv, Starts, Sending, Reachable;
    forall m | 0 <= m < |states| ensures |states[m].at| == |states[0].at| {
      RunInv(states, actions, classes, m);
    }
    assert Follows(states, actions, classes, i);
    SendStarts(states[i], classes, t, sig);
    IdleNotSending(states[l].at[t]);
    var k := LeavesSend(states, i, l, t);
    SignalsBecomePending(states, actions, classes, i, k, t, sig);
    PendingUntilServed(states, actions, classes, k, l, x);
    ReachedInRun(states, actions, classes, l);
    QuietMeansDone(states[l], classes);
    assert x !in Todo(states[l]);
    ServedSince(states, actions, i, k, l, x);
  }

  lemma IdleNotSending(p: Place)
    requires p.Idle?
    ensures !Sending(p)
  {
  }

  lemma ServedSince(states: seq<State>, actions: seq<Action>, i: nat, k: nat, l: nat, x: nat)
    requires i <= k && Served(states, actions, k, l, x)
    ensures Served(states, actions, i, l, x)
  {
  }

  lemma ReachedInRun(states: seq<State>, actions: seq<Action>, classes: seq<nat>, l: nat)
    requires Run(states, actions, classes) && |states[0].at| <= |classes| && l < |states|
    ensures Reachable(states[l], classes)
  {
    hide Step, Init, Enabled;
    var ss, aa := states[..l + 1], actions[..l];
    forall i | 0 <= i < |aa| ensures Follows(ss, aa, classes, i) { assert Follows(states, actions, classes, i); }
    assert Reaches(ss, aa, classes, states[l]);
  }

  /** The signals a handler returns with, in the same way. */
  lemma ReturnedIsServed(states: seq<State>, actions: seq<Action>, classes: seq<nat>, i: nat, l: nat, t: nat,
                         sig: set<nat>,
                         x: nat)
    requires Run(states, actions, classes) && |states[0].at| <= |classes|
    requires i < |actions| && actions[i] == HandlerReturns(t, sig) && x in sig && i < l < |states|
    requires Quiet(states[l]) && x in states[l].status.allowed
    ensures Served(states, actions, i, l, x)
  {
    hide Step, Init, Enabled, Inv, Starts, Reachable;
    assert Follows(states, actions, classes, i);
    ReturnedSignalsPend(states[i], classes, t, sig);
    PendingUntilServed(states, actions, classes, i + 1, l, x);
    ReachedInRun(states, actions, classes, l);
    QuietMeansDone(states[l], classes);
    assert x !in Todo(states[l]);
    ServedSince(states, actions, i, i + 1, l, x);
  }

  /** And JS_RUN, with which the job was created. */
  lemma FirstRunIsServed(states: seq<State>, actions: seq<Action>, classes: seq<nat>, l: nat)
    requires Run(states, actions, classes) && |states[0].at| <= |classes| && l < |states|
    requires Quiet(states[l]) && JS_RUN in states[l].status.allowed
    ensures Served(states, actions, 0, l, JS_RUN)
  {
    hide Step, Enabled, Inv, Starts, Reachable;
    PendingUntilServed(states, actions, classes, 0, l, JS_RUN);
    ReachedInRun(states, actions, classes, l);
    QuietMeansDone(states[l], classes);
    assert JS_RUN !in Todo(states[l]);
  }

  // ---------------------------------------------------------------- what the outside has done so far

  /** References handed out and given up by the first i actions. */
  ghost function Copied(actions: seq<Action>, i: nat): nat
    requires i <= |actions|
  {
    if i == 0 then 0
    else Copied(actions, i - 1) + if actions[i - 1].CopyHandle? || actions[i - 1].HandlerCopies? then 1 else 0
  }

  ghost function GivenUp(actions: seq<Action>, i: nat): nat
    requires i <= |actions|
  {
    if i == 0 then 0
    else GivenUp(actions, i - 1) + if actions[i - 1].StartSend? || actions[i - 1].StartDecref? then 1 else 0
  }

  /** How often the job was put into the queue of class c, and taken from it. */
  ghost function PutInto(states: seq<State>, actions: seq<Action>, i: nat, c: nat): nat {
    if i == 0 then 0
    else PutInto(states, actions, i - 1, c) + if PutsInto(states, actions, i - 1, c) then 1 else 0
  }

  ghost predicate PutsInto(states: seq<State>, actions: seq<Action>, j: nat, c: nat) {
    j < |actions| && j < |states| && actions[j].Go? && actions[j].t < |states[j].at| &&
      states[j].at[actions[j].t] == Push(c)
  }

  ghost function TakenFrom(actions: seq<Action>, i: nat, c: nat): nat
    requires i <= |actions|
  {
    if i == 0 then 0
    else TakenFrom(actions, i - 1, c) + if actions[i - 1].StartPop? && actions[i - 1].c == c then 1 else 0
  }

  /** The status that the last handler to set it has set. */
  ghost function LastStatus(states: seq<State>, actions: seq<Action>, i: nat): Status
    requires i <= |actions| && |states| > 0
  {
    if i == 0 then states[0].status
    else if actions[i - 1].HandlerSets? then actions[i - 1].status
    else LastStatus(states, actions, i - 1)
  }

  lemma StepAccounts(s: State, classes: seq<nat>, a: Action, c: nat)
    requires Enabled(s, classes, a)
    ensures var s' := Step(s, classes, a);
            s'.handles == s.handles + (if a.CopyHandle? || a.HandlerCopies? then 1 else 0)
                                    - (if a.StartSend? || a.StartDecref? then 1 else 0) &&
            s'.queues[c] == s.queues[c] + (if a.Go? && a.t < |s.at| && s.at[a.t] == Push(c) then 1 else 0)
                                        - (if a.StartPop? && a.c == c then 1 else 0) &&
            s'.status == if a.HandlerSets? then a.status else s.status
  {
    hide Mask, Local;
    if a.Go? { LocalPushes(s.flags, s.refcnt, s.status, Mask(classes[a.t]), s.at[a.t], a.busy, c); }
  }

  lemma LocalPushes(f: Flags, refcnt: int, status: Status, mask: set<nat>, p: Place, busy: bool, c: nat)
    requires !p.Idle? && !p.Execute?
    ensures Local(f, refcnt, status, mask, p, busy).pushed[c] == if p == Push(c) then 1 else 0
  {
    hide MayRun, QueueClass;
  }

  /** References in the hands of others, entries of each queue and the status are what the calls so far make
      them; with CountIsExact this fixes the reference count. */
  lemma {:induction false} Accounts(states: seq<State>, actions: seq<Action>, classes: seq<nat>, i: nat, c: nat)
    requires Run(states, actions, classes) && i < |states|
    ensures states[i].handles == Copied(actions, i) - GivenUp(actions, i)
    ensures states[i].queues[c] == PutInto(states, actions, i, c) - TakenFrom(actions, i, c)
    ensures states[i].status == LastStatus(states, actions, i)
  {
    hide Step, Enabled;
    if i > 0 {
      Accounts(states, actions, classes, i - 1, c);
      assert Follows(states, actions, classes, i - 1);
      StepAccounts(states[i - 1], classes, actions[i - 1], c);
    }
  }
}
