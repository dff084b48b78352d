/** The invariant of the job protocol and its preservation. */
module JobProof {
  import opened JobModel

  // ---------------------------------------------------------------- counting threads

  predicate Busy(p: Place) { !p.Idle? }

  /** The count has been taken down to zero and not yet set back to one. */
  predicate Zero(p: Place) { p.DecZero? || p.UnlockDecZero? }

  ghost function Count(at: seq<Place>, f: Place -> bool): nat {
    if at == [] then 0 else Count(at[..|at| - 1], f) + (if f(at[|at| - 1]) then 1 else 0)
  }

  lemma {:induction false} CountUpdate(at: seq<Place>, t: nat, p: Place, f: Place -> bool)
    requires t < |at|
    ensures Count(at[t := p], f) + (if f(at[t]) then 1 else 0) == Count(at, f) + (if f(p) then 1 else 0)
    decreases |at|
  {
    var n := |at| - 1;
    if t == n {
      assert at[t := p][..n] == at[..n];
    } else {
      CountUpdate(at[..n], t, p, f);
      assert at[t := p][..n] == at[..n][t := p];
    }
  }

  lemma {:induction false} CountNone(at: seq<Place>, f: Place -> bool)
    ensures Count(at, f) == 0 <==> forall u :: 0 <= u < |at| ==> !f(at[u])
    decreases |at|
  {
    if at != [] {
      CountNone(at[..|at| - 1], f);
      forall u | 0 <= u < |at| - 1 ensures at[u] == at[..|at| - 1][u] { }
    }
  }

  /** Exactly one when t is the only one. */
  lemma CountOne(at: seq<Place>, t: nat, f: Place -> bool)
    requires t < |at| && f(at[t]) && !f(Idle)
    ensures Count(at, f) >= 1
    ensures Count(at, f) == 1 <==> forall u :: 0 <= u < |at| && u != t ==> !f(at[u])
  {
    CountUpdate(at, t, Idle, f);
    CountNone(at[t := Idle], f);
    forall u | 0 <= u < |at| && u != t ensures at[t := Idle][u] == at[u] { }
  }

  // ---------------------------------------------------------------- the invariant

  /** The references that exist: handles, queue entries and threads at work. */
  ghost function Refs(s: State): nat {
    s.handles + |s.queues| + Count(s.at, Busy)
  }

  ghost predicate Counted(s: State) {
    s.refcnt + Count(s.at, Zero) == Refs(s)
  }

  predicate Sole(p: Place) { p.DecZero? || p.DecSole? || p.UnlockDecZero? || p.UnlockSole? }

  /** A thread that found the count at one is alone with the job. */
  ghost predicate SoleOk(s: State) {
    forall t :: 0 <= t < |s.at| && Sole(s.at[t]) ==> Alone(s, t)
  }

  predicate Holds(p: Place) { p.Unlock? || p.UnlockCas? || p.Take? || p.Execute? || p.QueueCas? }

  /** The locked bit is set exactly while one thread owns the lock. */
  ghost predicate LockOk(s: State) {
    (forall t :: 0 <= t < |s.at| && Holds(s.at[t]) ==> s.flags.locked) &&
    (forall t, u :: 0 <= t < |s.at| && 0 <= u < |s.at| && Holds(s.at[t]) && Holds(s.at[u]) ==> t == u) &&
    (s.flags.locked ==> exists t :: 0 <= t < |s.at| && Holds(s.at[t]))
  }

  /** What a thread remembers about the flag word it is going to replace. */
  predicate RemembersOk(status: Status, p: Place) {
    (p.SendCas? || p.RetryCas? || p.PopCas? ==> !p.f.locked) &&
    (p.UnlockCas? ==> p.f.signals * status.allowed == {}) &&
    (p.SendCheck? || p.SendRead? || p.SendCas? || p.SendOr? ==> Signals(p.sig))
  }

  /** A thread pops only from queues of its own classes. */
  predicate PopsOk(p: Place, mask: set<nat>) { p.PopRead? ==> p.c in mask }

  ghost predicate PlacesOk(s: State, classes: seq<nat>) {
    JS_FINISH in s.status.allowed && Signals(s.flags.signals) && |s.at| <= |classes| &&
    forall t :: 0 <= t < |s.at| ==> RemembersOk(s.status, s.at[t]) && PopsOk(s.at[t], Mask(classes[t]))
  }

  /** A thread that is about to push to queue c, or that popped from it and has not yet cleared
      the queued bit. */
  predicate Carries(p: Place, c: nat) {
    (p.Push? && p.c == c) || (p.PopRead? && p.c == c) ||
    ((p.PopTry? || p.PopCas? || p.PopAnd?) && p.c == c && c in p.clear)
  }

  /** A queued bit stands for a queue entry, or for a thread on its way to or from the queue. */
  ghost predicate QueuedOk(s: State) {
    forall c :: c in s.flags.queued ==> c in s.queues || exists t :: 0 <= t < |s.at| && Carries(s.at[t], c)
  }

  /** A thread that is committed to trying the lock. */
  predicate Committed(p: Place) {
    p.RetryRead? || p.RetryCas? || p.PopRead? || p.PopTry? || p.PopCas? || p.PopAnd?
  }

  ghost predicate Coming(s: State) {
    s.flags.queued != {} || exists t :: 0 <= t < |s.at| && Committed(s.at[t])
  }

  /** No signal is lost. */
  ghost predicate WakeOk(s: State) {
    !s.flags.locked && Todo(s) != {} ==> Coming(s)
  }

  /** A chosen signal is pending and allowed, and its class is one of the thread's. */
  predicate Chosen(flags: Flags, status: Status, mask: set<nat>, p: Place) {
    p.Take? ==> p.signo in flags.signals && p.signo in status.allowed && status.sigclass(p.signo) in mask
  }

  ghost predicate TakeOk(s: State, classes: seq<nat>) {
    |s.at| <= |classes| && forall t :: 0 <= t < |s.at| ==> Chosen(s.flags, s.status, Mask(classes[t]), s.at[t])
  }

  predicate Sends(p: Place, signo: nat) {
    (p.SendCheck? || p.SendRead? || p.SendCas? || p.SendOr?) && signo in p.sig
  }

  /** A handler of another signal is running or chosen. */
  predicate RunsOther(p: Place) { (p.Take? && p.signo != JS_FINISH) || p.Execute? }

  /** As long as only the count raises JS_FINISH, it is pending only on the last reference. */
  ghost predicate FinishOk(s: State) {
    !s.asked ==>
      (JS_FINISH in s.flags.signals ==> Refs(s) == 1) &&
      (forall t :: 0 <= t < |s.at| && Sends(s.at[t], JS_FINISH) ==> Alone(s, t)) &&
      (forall t :: 0 <= t < |s.at| && RunsOther(s.at[t]) ==> JS_FINISH !in s.flags.signals)
  }

  ghost predicate Inv(s: State, classes: seq<nat>) {
    Counted(s) && SoleOk(s) && LockOk(s) && PlacesOk(s, classes) && QueuedOk(s) && WakeOk(s) &&
    TakeOk(s, classes) && FinishOk(s)
  }

  // ---------------------------------------------------------------- being alone

  lemma AloneCount(s: State, t: nat)
    requires t < |s.at| && Busy(s.at[t])
    ensures Refs(s) >= 1
    ensures Refs(s) == 1 <==> Alone(s, t)
  {
    CountOne(s.at, t, Busy);
    assert |s.queues| == 0 <==> s.queues == multiset{};
  }

  lemma ZeroIsAlone(s: State, u: nat)
    requires u < |s.at| && SoleOk(s) && Zero(s.at[u])
    ensures Alone(s, u)
  {
  }

  lemma OtherNotAlone(s: State, t: nat, u: nat)
    requires HasReference(s, t) && u != t
    ensures !Alone(s, u)
  {
  }

  /** Something of the job was in t's hands: its own reference, a handle or a queue entry. */
  predicate HasReference(s: State, t: nat) {
    t < |s.at| && (Busy(s.at[t]) || s.handles > 0 || s.queues != multiset{})
  }

  /** Who sees a count of one is alone. */
  lemma SeesOne(s: State, t: nat)
    requires Counted(s) && SoleOk(s) && t < |s.at| && Busy(s.at[t]) && !Zero(s.at[t])
    ensures s.refcnt >= 1
    ensures s.refcnt == 1 <==> Alone(s, t)
  {
    hide SoleOk, Alone, Count, Zero;
    AloneCount(s, t);
    CountNone(s.at, Zero);
    if Count(s.at, Zero) != 0 {
      var u :| 0 <= u < |s.at| && Zero(s.at[u]);
      OtherNotAlone(s, t, u);
      ZeroIsAlone(s, u);
    }
  }

  // ---------------------------------------------------------------- one thread moves

  /** Only thread t changes its place. */
  ghost predicate Moved(s: State, s': State, t: nat) {
    t < |s.at| == |s'.at| && forall u :: 0 <= u < |s.at| && u != t ==> s'.at[u] == s.at[u]
  }

  lemma SoleMove(s: State, s': State, t: nat)
    requires Moved(s, s', t) && SoleOk(s) && HasReference(s, t)
    requires Sole(s'.at[t]) ==> Alone(s', t)
    ensures SoleOk(s')
  {
    hide Alone;
    forall u | 0 <= u < |s'.at| && Sole(s'.at[u]) ensures Alone(s', u) {
      if u != t { OtherNotAlone(s, t, u); }
    }
  }

  predicate LockChange(s: State, s': State, p: Place, p': Place) {
    if Holds(p') then s'.flags.locked && (Holds(p) || !s.flags.locked)
    else if Holds(p) then !s'.flags.locked
    else s'.flags.locked == s.flags.locked
  }

  lemma LockMove(s: State, s': State, t: nat)
    requires Moved(s, s', t) && LockOk(s) && LockChange(s, s', s.at[t], s'.at[t])
    ensures LockOk(s')
  {
    if s'.flags.locked {
      if Holds(s'.at[t]) {
      } else {
        var u :| 0 <= u < |s.at| && Holds(s.at[u]);
        assert Holds(s'.at[u]);
      }
    }
  }

  ghost predicate KeepsCarried(s: State, s': State, p: Place, p': Place, c: nat) {
    (c in s.queues ==> c in s'.queues || Carries(p', c)) &&
    (Carries(p, c) ==> Carries(p', c) || c in s'.queues)
  }

  lemma QueuedMove(s: State, s': State, t: nat)
    requires Moved(s, s', t) && QueuedOk(s)
    requires forall c :: c in s'.flags.queued ==>
               Carries(s'.at[t], c) || (c in s.flags.queued && KeepsCarried(s, s', s.at[t], s'.at[t], c))
    ensures QueuedOk(s')
  {
    hide Carries;
    forall c | c in s'.flags.queued
      ensures c in s'.queues || exists u :: 0 <= u < |s'.at| && Carries(s'.at[u], c)
    {
      if !Carries(s'.at[t], c) && c !in s.queues {
        var u :| 0 <= u < |s.at| && Carries(s.at[u], c);
        if u != t { assert Carries(s'.at[u], c); }
      }
    }
  }

  predicate KeepsComing(s: State, s': State, p: Place, p': Place) {
    (Committed(p) ==> Committed(p') || s'.flags.queued != {}) &&
    (s.flags.queued != {} ==> s'.flags.queued != {} || Committed(p'))
  }

  lemma ComingMove(s: State, s': State, t: nat)
    requires Moved(s, s', t) && Coming(s) && KeepsComing(s, s', s.at[t], s'.at[t])
    ensures Coming(s')
  {
    hide Committed;
    if s.flags.queued == {} {
      var u :| 0 <= u < |s.at| && Committed(s.at[u]);
      if u != t { assert Committed(s'.at[u]); }
    } else if s'.flags.queued == {} {
      assert Committed(s'.at[t]);
    }
  }

  /** References change hands but are neither created nor lost, as far as Delta says. */
  lemma RefsMove(s: State, s': State, t: nat)
    requires Moved(s, s', t)
    ensures Refs(s') + s.handles + |s.queues| + (if Busy(s.at[t]) then 1 else 0)
            == Refs(s) + s'.handles + |s'.queues| + (if Busy(s'.at[t]) then 1 else 0)
    ensures Count(s'.at, Zero) + (if Zero(s.at[t]) then 1 else 0) == Count(s.at, Zero)
            + (if Zero(s'.at[t]) then 1 else 0)
  {
    hide Count;
    assert s'.at == s.at[t := s'.at[t]];
    CountUpdate(s.at, t, s'.at[t], Busy);
    CountUpdate(s.at, t, s'.at[t], Zero);
  }

  lemma FinishMove(s: State, s': State, t: nat)
    requires Moved(s, s', t) && FinishOk(s) && HasReference(s, t)
    requires s.asked ==> s'.asked
    requires !s'.asked ==>
               (JS_FINISH in s'.flags.signals ==> Refs(s') == 1) &&
               (Sends(s'.at[t], JS_FINISH) ==> Alone(s', t)) &&
               (RunsOther(s'.at[t]) ==> JS_FINISH !in s'.flags.signals) &&
               (JS_FINISH in s'.flags.signals ==> JS_FINISH in s.flags.signals || Alone(s, t))
    ensures FinishOk(s')
  {
    hide Alone, Refs, Sends, RunsOther;
    if !s'.asked {
      forall u | 0 <= u < |s'.at| && u != t
        ensures Sends(s'.at[u], JS_FINISH) ==> Alone(s', u)
        ensures RunsOther(s'.at[u]) ==> JS_FINISH !in s'.flags.signals
      {
        OtherNotAlone(s, t, u);
        assert s'.at[u] == s.at[u];
        if Alone(s, t) { AloneIdle(s, t, u); }
      }
    }
  }

  lemma TakeMove(s: State, s': State, classes: seq<nat>, t: nat)
    requires Moved(s, s', t) && LockOk(s) && TakeOk(s, classes)
    requires (s.flags.signals <= s'.flags.signals && s'.status == s.status) || Holds(s.at[t])
    requires Chosen(s'.flags, s'.status, Mask(classes[t]), s'.at[t])
    ensures TakeOk(s', classes)
  {
    hide Mask;
    forall u | 0 <= u < |s'.at| && u != t ensures Chosen(s'.flags, s'.status, Mask(classes[u]), s'.at[u]) {
      assert Chosen(s.flags, s.status, Mask(classes[u]), s.at[u]);
      assert s.at[u].Take? ==> Holds(s.at[u]);
    }
  }

  lemma AloneIdle(s: State, t: nat, u: nat)
    requires Alone(s, t) && u < |s.at| && u != t
    ensures s.at[u].Idle? && !RunsOther(s.at[u]) && !Sends(s.at[u], JS_FINISH) && !Holds(s.at[u])
  {
  }

  // ---------------------------------------------------------------- what one local step does

  lemma LocalLock(f: Flags, refcnt: int, status: Status, mask: set<nat>, p: Place, busy: bool)
    requires !p.Idle? && !p.Execute? && RemembersOk(status, p)
    requires (Holds(p) ==> f.locked) && (p.UnlockSole? ==> !f.locked)
    ensures var r := Local(f, refcnt, status, mask, p, busy);
            if Holds(r.place) then r.flags.locked && (Holds(p) || !f.locked)
            else if Holds(p) then !r.flags.locked
            else r.flags.locked == f.locked
  {
    hide Max, MayRun, QueueClass, Signals;
  }

  lemma LocalPlaces(f: Flags, refcnt: int, status: Status, mask: set<nat>, p: Place, busy: bool)
    requires !p.Idle? && !p.Execute? && RemembersOk(status, p) && Signals(f.signals)
    ensures var r := Local(f, refcnt, status, mask, p, busy);
            RemembersOk(status, r.place) && PopsOk(r.place, mask) && Signals(r.flags.signals)
  {
    hide Max, MayRun, QueueClass;
  }

  lemma LocalQueued(f: Flags, refcnt: int, status: Status, mask: set<nat>, p: Place, busy: bool, c: nat)
    requires !p.Idle? && !p.Execute? && PopsOk(p, mask)
    ensures var r := Local(f, refcnt, status, mask, p, busy);
            c in r.flags.queued ==>
              Carries(r.place, c) || (c in f.queued && (Carries(p, c) ==> Carries(r.place, c) || c in r.pushed))
  {
    hide Max, MayRun, QueueClass, Signals;
  }

  lemma LocalWake(f: Flags, refcnt: int, status: Status, mask: set<nat>, p: Place, busy: bool)
    requires !p.Idle? && !p.Execute? && RemembersOk(status, p) && (Holds(p) ==> f.locked)
    ensures var r := Local(f, refcnt, status, mask, p, busy);
            !r.flags.locked && r.flags.signals * status.allowed != {} ==>
              Committed(r.place) || r.flags.queued != {} ||
              (!f.locked && f.signals * status.allowed != {} && !Committed(p) && f.queued == {})
  {
    hide Max, MayRun, QueueClass, Signals;
  }

  lemma LocalRefs(f: Flags, refcnt: int, status: Status, mask: set<nat>, p: Place, busy: bool)
    requires !p.Idle? && !p.Execute?
    ensures var r := Local(f, refcnt, status, mask, p, busy);
            |r.pushed| + (if Busy(r.place) then 1 else 0) <= 1 &&
            (refcnt == 1 ==> |r.pushed| + (if Busy(r.place) then 1 else 0) == 1) &&
            (if Zero(p) then r.refcnt == 1 && !Zero(r.place) && Busy(r.place) && r.pushed == multiset{}
             else r.refcnt + (if Zero(r.place) then 1 else 0) + 1
                  == refcnt + |r.pushed| + (if Busy(r.place) then 1 else 0))
  {
    hide Max, MayRun, QueueClass, Signals;
  }

  lemma LocalSole(f: Flags, refcnt: int, status: Status, mask: set<nat>, p: Place, busy: bool)
    requires !p.Idle? && !p.Execute?
    ensures var r := Local(f, refcnt, status, mask, p, busy);
            Sole(r.place) ==> (Sole(p) || refcnt <= 1) && r.pushed == multiset{}
    ensures var r := Local(f, refcnt, status, mask, p, busy);
            Sends(r.place, JS_FINISH) ==> (Sends(p, JS_FINISH) || p.DecSole?) && r.pushed == multiset{}
  {
    hide Max, MayRun, QueueClass, Signals;
  }

  lemma LocalFinish(f: Flags, refcnt: int, status: Status, mask: set<nat>, p: Place, busy: bool)
    requires !p.Idle? && !p.Execute? && JS_FINISH in status.allowed && Signals(f.signals)
    ensures var r := Local(f, refcnt, status, mask, p, busy);
            JS_FINISH in r.flags.signals ==> JS_FINISH in f.signals || Sends(p, JS_FINISH) || p.UnlockSole?
    ensures var r := Local(f, refcnt, status, mask, p, busy);
            RunsOther(r.place) ==> JS_FINISH !in r.flags.signals || (RunsOther(p) && JS_FINISH in f.signals)
  {
    hide MayRun, QueueClass;
    var todo := f.signals * status.allowed;
    assert JS_FINISH in f.signals ==> JS_FINISH in todo;
    if JS_FINISH in todo { assert Max(todo) == JS_FINISH; }
  }

  lemma LocalTake(f: Flags, refcnt: int, status: Status, mask: set<nat>, p: Place, busy: bool)
    requires !p.Idle? && !p.Execute?
    ensures var r := Local(f, refcnt, status, mask, p, busy);
            (f.signals <= r.flags.signals || Holds(p)) && Chosen(r.flags, status, mask, r.place)
  {
    hide QueueClass, Signals;
  }

  // ---------------------------------------------------------------- a step inside the protocol

  ghost predicate Goes(s: State, classes: seq<nat>, t: nat) {
    t < |s.at| <= |classes| && !s.at[t].Idle? && !s.at[t].Execute?
  }

  ghost function After(s: State, classes: seq<nat>, t: nat, busy: bool): State
    requires Goes(s, classes, t)
  {
    Advance(s, Mask(classes[t]), t, busy)
  }

  lemma GoMoves(s: State, classes: seq<nat>, t: nat, busy: bool)
    requires Goes(s, classes, t)
    ensures Moved(s, After(s, classes, t, busy), t)
  {
    hide Local, Mask;
  }

  lemma GoCounted(s: State, classes: seq<nat>, t: nat, busy: bool)
    requires Goes(s, classes, t) && Counted(s) && SoleOk(s)
    ensures Counted(After(s, classes, t, busy))
    ensures Refs(s) == 1 ==> Refs(After(s, classes, t, busy)) == 1
  {
    hide Local, Mask, Count, Alone;
    var s' := After(s, classes, t, busy);
    GoMoves(s, classes, t, busy);
    LocalRefs(s.flags, s.refcnt, s.status, Mask(classes[t]), s.at[t], busy);
    RefsMove(s, s', t);
    AloneCount(s, t);
    if Zero(s.at[t]) {
      ZeroAlone(s, t);
    } else {
      SeesOne(s, t);
    }
  }

  lemma ZeroAlone(s: State, t: nat)
    requires t < |s.at| && SoleOk(s) && Zero(s.at[t])
    ensures Refs(s) == 1 && Count(s.at, Zero) == 1
  {
    AloneCount(s, t);
    CountOne(s.at, t, Zero);
  }

  lemma AloneKept(s: State, s': State, t: nat)
    requires Moved(s, s', t) && Alone(s, t) && s'.handles == s.handles && s'.queues == s.queues
    ensures Alone(s', t)
  {
  }

  lemma GoSole(s: State, classes: seq<nat>, t: nat, busy: bool)
    requires Goes(s, classes, t) && Counted(s) && SoleOk(s)
    ensures SoleOk(After(s, classes, t, busy))
  {
    hide Local, Mask, Counted, Alone, Zero;
    var s' := After(s, classes, t, busy);
    GoMoves(s, classes, t, busy);
    LocalSole(s.flags, s.refcnt, s.status, Mask(classes[t]), s.at[t], busy);
    if Sole(s'.at[t]) {
      if !Sole(s.at[t]) {
        assert !Zero(s.at[t]) by { ZeroSole(s.at[t]); }
        SeesOne(s, t);
      }
      AloneKept(s, s', t);
    }
    SoleMove(s, s', t);
  }

  lemma ZeroSole(p: Place)
    ensures Zero(p) ==> Sole(p)
  {
  }

  lemma GoLock(s: State, classes: seq<nat>, t: nat, busy: bool)
    requires Goes(s, classes, t) && SoleOk(s) && LockOk(s) && PlacesOk(s, classes)
    ensures LockOk(After(s, classes, t, busy))
  {
    hide Local, Mask, Alone, Holds;
    var s' := After(s, classes, t, busy);
    GoMoves(s, classes, t, busy);
    if s.at[t].UnlockSole? { SoleUnlocked(s, t); }
    LocalLock(s.flags, s.refcnt, s.status, Mask(classes[t]), s.at[t], busy);
    LockMove(s, s', t);
  }

  /** Nobody else can own the lock of a job that one thread is alone with. */
  lemma SoleUnlocked(s: State, t: nat)
    requires t < |s.at| && LockOk(s) && SoleOk(s) && Sole(s.at[t])
    ensures !s.flags.locked
  {
  }

  lemma GoPlaces(s: State, classes: seq<nat>, t: nat, busy: bool)
    requires Goes(s, classes, t) && PlacesOk(s, classes)
    ensures PlacesOk(After(s, classes, t, busy), classes)
  {
    hide Local, Mask, RemembersOk, PopsOk, Signals;
    GoMoves(s, classes, t, busy);
    LocalPlaces(s.flags, s.refcnt, s.status, Mask(classes[t]), s.at[t], busy);
  }

  lemma GoQueued(s: State, classes: seq<nat>, t: nat, busy: bool)
    requires Goes(s, classes, t) && PlacesOk(s, classes) && QueuedOk(s)
    ensures QueuedOk(After(s, classes, t, busy))
  {
    hide Local, Mask, RemembersOk, PopsOk, Signals, Carries, QueuedOk;
    var s' := After(s, classes, t, busy);
    GoMoves(s, classes, t, busy);
    forall c | c in s'.flags.queued
      ensures Carries(s'.at[t], c) || (c in s.flags.queued && KeepsCarried(s, s', s.at[t], s'.at[t], c))
    {
      LocalQueued(s.flags, s.refcnt, s.status, Mask(classes[t]), s.at[t], busy, c);
    }
    QueuedMove(s, s', t);
  }

  lemma GoWake(s: State, classes: seq<nat>, t: nat, busy: bool)
    requires Goes(s, classes, t) && LockOk(s) && PlacesOk(s, classes) && WakeOk(s)
    ensures WakeOk(After(s, classes, t, busy))
  {
    hide Local, Mask, RemembersOk, PopsOk, Signals, Committed, Coming, Holds;
    var s' := After(s, classes, t, busy);
    GoMoves(s, classes, t, busy);
    LocalWake(s.flags, s.refcnt, s.status, Mask(classes[t]), s.at[t], busy);
    if !s'.flags.locked && Todo(s') != {} {
      if Committed(s'.at[t]) || s'.flags.queued != {} {
        SomebodyComes(s', t);
      } else {
        ComingMove(s, s', t);
      }
    }
  }

  lemma SomebodyComes(s: State, t: nat)
    requires t < |s.at| && (Committed(s.at[t]) || s.flags.queued != {})
    ensures Coming(s)
  {
  }

  lemma GoTake(s: State, classes: seq<nat>, t: nat, busy: bool)
    requires Goes(s, classes, t) && LockOk(s) && TakeOk(s, classes)
    ensures TakeOk(After(s, classes, t, busy), classes)
  {
    hide Local, Mask, LockOk, TakeOk, Holds;
    GoMoves(s, classes, t, busy);
    LocalTake(s.flags, s.refcnt, s.status, Mask(classes[t]), s.at[t], busy);
    TakeMove(s, After(s, classes, t, busy), classes, t);
  }

  lemma GoFinish(s: State, classes: seq<nat>, t: nat, busy: bool)
    requires Goes(s, classes, t) && Counted(s) && SoleOk(s) && PlacesOk(s, classes) && FinishOk(s)
    ensures FinishOk(After(s, classes, t, busy))
  {
    hide Local, Mask, RemembersOk, PopsOk, Signals, Counted, Refs, Alone, Sends, RunsOther;
    var s' := After(s, classes, t, busy);
    GoMoves(s, classes, t, busy);
    LocalFinish(s.flags, s.refcnt, s.status, Mask(classes[t]), s.at[t], busy);
    LocalSole(s.flags, s.refcnt, s.status, Mask(classes[t]), s.at[t], busy);
    GoCounted(s, classes, t, busy);
    AloneCount(s, t);
    if !s'.asked && Sends(s'.at[t], JS_FINISH) { AloneKept(s, s', t); }
    FinishMove(s, s', t);
  }
}
