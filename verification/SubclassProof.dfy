/** What holds in every run of subclass draining. */
module SubclassProof {
  import opened SubclassModel

  // ---------------------------------------------------------------- sums over threads

  ghost function Sum(at: seq<Place>, w: Place -> nat): nat {
    if at == [] then 0 else Sum(at[..|at| - 1], w) + w(at[|at| - 1])
  }

  lemma {:induction false} SumUpdate(at: seq<Place>, t: nat, p: Place, w: Place -> nat)
    requires t < |at|
    ensures Sum(at[t := p], w) + w(at[t]) == Sum(at, w) + w(p)
    decreases |at|
  {
    var n := |at| - 1;
    if t == n {
      assert at[t := p][..n] == at[..n];
    } else {
      SumUpdate(at[..n], t, p, w);
      assert at[t := p][..n] == at[..n][t := p];
    }
  }

  lemma {:induction false} SumDominates(at: seq<Place>, v: Place -> nat, w: Place -> nat)
    requires forall u :: 0 <= u < |at| ==> v(at[u]) <= w(at[u])
    ensures Sum(at, v) <= Sum(at, w)
    decreases |at|
  {
    if at != [] {
      var front := at[..|at| - 1];
      forall u | 0 <= u < |front| ensures v(front[u]) <= w(front[u]) {
        assert front[u] == at[u];
      }
      SumDominates(front, v, w);
    }
  }

  lemma {:induction false} SumZero(at: seq<Place>, w: Place -> nat)
    requires forall u :: 0 <= u < |at| ==> w(at[u]) == 0
    ensures Sum(at, w) == 0
    decreases |at|
  {
    if at != [] {
      var front := at[..|at| - 1];
      forall u | 0 <= u < |front| ensures w(front[u]) == 0 {
        assert front[u] == at[u];
      }
      SumZero(front, w);
    }
  }

  /** Two different threads contribute both their weights. */
  lemma SumTwo(at: seq<Place>, t: nat, u: nat, w: Place -> nat)
    requires t < |at| && u < |at| && t != u && w(Idle) == 0
    ensures w(at[t]) + w(at[u]) <= Sum(at, w)
  {
    SumUpdate(at, t, Idle, w);
    SumUpdate(at[t := Idle], u, Idle, w);
  }

  // ---------------------------------------------------------------- the invariant

  /** Announced jobs of a subclass that no drainer may count on yet. */
  ghost function Ahead(id: int): Place -> nat {
    (p: Place) => if (p.PushJob? || p.PushToken? || p.Got?) && p.id == id then 1 else 0
  }

  /** Announced jobs that are not in the queue of the subclass: not yet put there, or running. */
  ghost function Outside(id: int): Place -> nat {
    (p: Place) => if (p.PushJob? || p.Running?) && p.id == id then 1 else 0
  }

  /** The units of the semaphore that a thread holds. */
  ghost function Held(): Place -> nat {
    (p: Place) => HeldAt(p)
  }

  function HeldAt(p: Place): nat {
    if p.Wait? || p.Post? then p.units
    else if Draining(p) || Rechecking(p) || p.Null? then Needed(p.id)
    else 0
  }

  /** The drainer of a subclass, with all its units. */
  predicate Draining(p: Place) { p.Drain? || p.Pop? || p.Running? || p.Release? }

  /** A former drainer that looks once more. */
  predicate Rechecking(p: Place) { p.RecheckRead? || p.Recheck? || p.Recontend? }

  /** The owner of the lock of a subclass. */
  predicate Owns(p: Place, id: int) { (p.Wait? || Draining(p) || p.Null?) && p.id == id }

  ghost predicate TokensOk(s: State, id: int)
    requires id in s.subs
  {
    s.subs[id].total == s.subs[id].allowed + s.tokens[id] + Sum(s.at, Ahead(id))
  }

  ghost predicate JobsOk(s: State, id: int)
    requires id in s.subs
  {
    s.subs[id].total == s.subs[id].jobs + s.subs[id].processed + Sum(s.at, Outside(id))
  }

  ghost predicate UnitsOk(s: State) {
    s.sem + Sum(s.at, Held()) == UNITS
  }

  ghost predicate OwnerOk(s: State, id: int)
    requires id in s.subs
  {
    (forall t :: 0 <= t < |s.at| && Owns(s.at[t], id) ==> s.subs[id].locked) &&
    (forall t, u :: 0 <= t < |s.at| && 0 <= u < |s.at| && Owns(s.at[t], id) && Owns(s.at[u], id) ==> t == u) &&
    (s.subs[id].locked ==> exists t :: 0 <= t < |s.at| && Owns(s.at[t], id))
  }

  /** A thread that will still look whether there is work for the subclass. */
  predicate Looks(p: Place, id: int) {
    (p.Contend? || Rechecking(p)) && p.id == id
  }

  /** Allowed work is never abandoned. */
  ghost predicate WorkOk(s: State, id: int)
    requires id in s.subs
  {
    s.subs[id].processed < s.subs[id].allowed && !s.subs[id].locked ==>
      exists t :: 0 <= t < |s.at| && Looks(s.at[t], id)
  }

  ghost predicate PlaceOk(s: State, p: Place) {
    !p.Null? &&
    (!p.Idle? ==> p.id in s.subs) &&
    (p.Wait? ==> p.units <= Needed(p.id)) &&
    (p.Pop? || p.Running? ==> p.id in s.subs && s.subs[p.id].processed < s.subs[p.id].allowed) &&
    (p.Recheck? ==> p.id in s.subs && p.processed <= s.subs[p.id].processed)
  }

  ghost predicate SubOk(s: State, id: int)
    requires id in s.subs
  {
    TokensOk(s, id) && JobsOk(s, id) && OwnerOk(s, id) && WorkOk(s, id)
  }

  ghost predicate Inv(s: State) {
    (forall id :: id in s.subs ==> SubOk(s, id)) && UnitsOk(s) &&
    (forall t :: 0 <= t < |s.at| ==> PlaceOk(s, s.at[t])) &&
    (forall id :: id in s.tokens ==> id in s.subs)
  }

  // ---------------------------------------------------------------- one thread moves

  /** Only thread t moves, and only the subclass id changes. */
  ghost predicate Moved(s: State, s': State, t: nat, id: int) {
    t < |s.at| == |s'.at| && s'.at == s.at[t := s'.at[t]] && s.subs.Keys == s'.subs.Keys && id in s.subs &&
    (forall k :: k in s.subs && k != id ==> s'.subs[k] == s.subs[k] && s'.tokens[k] == s.tokens[k]) &&
    (s.at[t].Idle? || s.at[t].id == id) && (s'.at[t].Idle? || s'.at[t].id == id)
  }

  lemma StepMoves(s: State, a: Action)
    requires Enabled(s, a)
    ensures Moved(s, Step(s, a), a.t, if a.Go? then s.at[a.t].id else a.id)
  {
    hide Local, Needed, Moved;
    if a.Go? { GoMoves(s, a.t); } else { OutsideMoves(s, a); }
  }

  lemma OutsideMoves(s: State, a: Action)
    requires Enabled(s, a) && !a.Go?
    ensures Moved(s, Step(s, a), a.t, a.id)
  {
    hide Local, Needed;
  }

  lemma GoMoves(s: State, t: nat)
    requires Enabled(s, Go(t))
    ensures Moved(s, Step(s, Go(t)), t, s.at[t].id)
  {
    hide Local, Needed;
    LocalId(s.subs[s.at[t].id], s.sem, s.at[t]);
  }

  lemma LocalId(s: Sub, sem: nat, p: Place)
    requires !p.Idle? && !p.Null? && (p.Wait? && p.units < Needed(p.id) ==> sem > 0)
    ensures var r := Local(s, sem, p); r.place.Idle? || r.place.id == p.id
  {
  }

  lemma OtherSub(s: State, s': State, t: nat, id: int, k: int)
    requires Moved(s, s', t, id) && k in s.subs && k != id && SubOk(s, k)
    ensures SubOk(s', k)
  {
    SumUpdate(s.at, t, s'.at[t], Ahead(k));
    SumUpdate(s.at, t, s'.at[t], Outside(k));
    if s.subs[k].locked {
      var u :| 0 <= u < |s.at| && Owns(s.at[u], k);
      assert Owns(s'.at[u], k);
    } else if s.subs[k].processed < s.subs[k].allowed {
      var u :| 0 <= u < |s.at| && Looks(s.at[u], k);
      assert Looks(s'.at[u], k);
    }
  }

  // ---------------------------------------------------------------- what one local step does

  predicate MayGo(sem: nat, p: Place) {
    !p.Idle? && !p.Null? && (p.Wait? && p.units < Needed(p.id) ==> sem > 0)
  }

  lemma LocalCounts(s: Sub, sem: nat, p: Place)
    requires MayGo(sem, p) && (p.Wait? ==> p.units <= Needed(p.id))
    ensures var r := Local(s, sem, p);
            r.sub.total == s.total && s.processed <= r.sub.processed && s.allowed <= r.sub.allowed &&
            r.sub.allowed + (if r.token then 1 else 0) + Ahead(p.id)(r.place) == s.allowed + Ahead(p.id)(p) &&
            r.sub.jobs + r.sub.processed + Outside(p.id)(r.place) == s.jobs + s.processed + Outside(p.id)(p) &&
            r.sem + HeldAt(r.place) == sem + HeldAt(p)
  {
  }

  lemma LocalOwner(s: Sub, sem: nat, p: Place)
    requires MayGo(sem, p) && (Owns(p, p.id) ==> s.locked)
    ensures var r := Local(s, sem, p);
            if Owns(r.place, p.id) then r.sub.locked && (Owns(p, p.id) || !s.locked)
            else if Owns(p, p.id) then !r.sub.locked
            else r.sub.locked == s.locked
    ensures Local(s, sem, p).sub.processed != s.processed ==> Owns(p, p.id)
  {
  }

  lemma LocalWork(s: Sub, sem: nat, p: Place)
    requires MayGo(sem, p) && (Owns(p, p.id) ==> s.locked) && (p.Recheck? ==> p.processed <= s.processed)
    ensures var r := Local(s, sem, p);
            r.sub.processed < r.sub.allowed && !r.sub.locked ==>
              Looks(r.place, p.id) || (s.processed < s.allowed && !s.locked && !Looks(p, p.id))
  {
  }

  /** The place it leads to is sound, provided that the queue is not empty when it is popped. */
  lemma LocalPlace(s: Sub, sem: nat, p: Place)
    requires MayGo(sem, p) && (p.Wait? ==> p.units <= Needed(p.id)) && (p.Pop? ==> s.jobs > 0)
    requires p.Pop? || p.Running? ==> s.processed < s.allowed
    ensures var r := Local(s, sem, p);
            !r.place.Null? && (r.place.Wait? ==> r.place.units <= Needed(p.id)) &&
            (r.place.Pop? || r.place.Running? ==> r.sub.processed < r.sub.allowed) &&
            (r.place.Recheck? ==> r.place.processed <= r.sub.processed)
  {
  }

  // ---------------------------------------------------------------- the subclass that the step is about

  lemma OwnerMove(s: State, s': State, t: nat, id: int)
    requires Moved(s, s', t, id) && OwnerOk(s, id)
    requires if Owns(s'.at[t], id) then s'.subs[id].locked && (Owns(s.at[t], id) || !s.subs[id].locked)
             else if Owns(s.at[t], id) then !s'.subs[id].locked
             else s'.subs[id].locked == s.subs[id].locked
    ensures OwnerOk(s', id)
  {
    hide Owns;
    if s'.subs[id].locked && !Owns(s'.at[t], id) {
      var u :| 0 <= u < |s.at| && Owns(s.at[u], id);
      assert Owns(s'.at[u], id);
    }
  }

  lemma WorkMove(s: State, s': State, t: nat, id: int)
    requires Moved(s, s', t, id) && WorkOk(s, id)
    requires s'.subs[id].processed < s'.subs[id].allowed && !s'.subs[id].locked ==>
               Looks(s'.at[t], id) ||
               (s.subs[id].processed < s.subs[id].allowed && !s.subs[id].locked && !Looks(s.at[t], id))
    ensures WorkOk(s', id)
  {
    hide Looks;
    if s'.subs[id].processed < s'.subs[id].allowed && !s'.subs[id].locked && !Looks(s'.at[t], id) {
      var u :| 0 <= u < |s.at| && Looks(s.at[u], id);
      assert Looks(s'.at[u], id);
    }
  }

  lemma CountsMove(s: State, s': State, t: nat, id: int)
    requires Moved(s, s', t, id) && TokensOk(s, id) && JobsOk(s, id)
    requires s'.subs[id].total + s.subs[id].allowed + s.tokens[id] + Ahead(id)(s.at[t])
             == s.subs[id].total + s'.subs[id].allowed + s'.tokens[id] + Ahead(id)(s'.at[t])
    requires s'.subs[id].total + s.subs[id].jobs + s.subs[id].processed + Outside(id)(s.at[t])
             == s.subs[id].total + s'.subs[id].jobs + s'.subs[id].processed + Outside(id)(s'.at[t])
    ensures TokensOk(s', id) && JobsOk(s', id)
  {
    hide Sum, Ahead, Outside;
    SumUpdate(s.at, t, s'.at[t], Ahead(id));
    SumUpdate(s.at, t, s'.at[t], Outside(id));
  }

  lemma UnitsMove(s: State, s': State, t: nat)
    requires t < |s.at| == |s'.at| && s'.at == s.at[t := s'.at[t]] && UnitsOk(s)
    requires s'.sem + HeldAt(s'.at[t]) == s.sem + HeldAt(s.at[t])
    ensures UnitsOk(s')
  {
    hide Sum, HeldAt;
    SumUpdate(s.at, t, s'.at[t], Held());
  }

  /** The drainer that is about to pop finds a job: what it may count on was queued before. */
  lemma QueueNotEmpty(s: State, t: nat)
    requires Inv(s) && t < |s.at| && s.at[t].Pop?
    ensures s.at[t].id in s.subs && s.subs[s.at[t].id].jobs > 0
  {
    hide Sum, UnitsOk, WorkOk;
    var id := s.at[t].id;
    assert PlaceOk(s, s.at[t]);
    assert SubOk(s, id);
    forall u | 0 <= u < |s.at| ensures Outside(id)(s.at[u]) <= Ahead(id)(s.at[u]) {
      assert Owns(s.at[t], id);
      assert s.at[u].Running? && s.at[u].id == id ==> Owns(s.at[u], id);
    }
    SumDominates(s.at, Outside(id), Ahead(id));
  }

  // ---------------------------------------------------------------- every step keeps the invariant

  lemma GoSub(s: State, t: nat)
    requires Inv(s) && Enabled(s, Go(t))
    ensures SubOk(Step(s, Go(t)), s.at[t].id) && UnitsOk(Step(s, Go(t)))
  {
    hide Sum, Local, Ahead, Outside, HeldAt, Owns, Looks, OwnerOk, WorkOk, TokensOk, JobsOk, UnitsOk, Needed;
    var s' := Step(s, Go(t));
    var id, p := s.at[t].id, s.at[t];
    assert PlaceOk(s, p) && SubOk(s, id);
    StepMoves(s, Go(t));
    OwnerLocked(s, t, id);
    LocalCounts(s.subs[id], s.sem, p);
    LocalOwner(s.subs[id], s.sem, p);
    LocalWork(s.subs[id], s.sem, p);
    CountsMove(s, s', t, id);
    OwnerMove(s, s', t, id);
    WorkMove(s, s', t, id);
    UnitsMove(s, s', t);
  }

  lemma OwnerLocked(s: State, t: nat, id: int)
    requires id in s.subs && OwnerOk(s, id) && t < |s.at|
    ensures Owns(s.at[t], id) ==> s.subs[id].locked
    ensures forall u :: 0 <= u < |s.at| && Owns(s.at[t], id) && Owns(s.at[u], id) ==> u == t
  {
  }

  lemma GoPlace(s: State, t: nat)
    requires Inv(s) && Enabled(s, Go(t))
    ensures PlaceOk(Step(s, Go(t)), Step(s, Go(t)).at[t])
  {
    hide Sum, Local, SubOk, UnitsOk, Needed;
    var p := s.at[t];
    assert PlaceOk(s, p);
    if p.Pop? { QueueNotEmpty(s, t); }
    LocalPlace(s.subs[p.id], s.sem, p);
    LocalId(s.subs[p.id], s.sem, p);
  }

  lemma OtherPlace(s: State, t: nat, u: nat)
    requires Inv(s) && Enabled(s, Go(t)) && u < |s.at| && u != t
    ensures PlaceOk(Step(s, Go(t)), s.at[u])
  {
    hide Sum, Local, UnitsOk, Needed, WorkOk, TokensOk, JobsOk, OwnerOk;
    var p, id := s.at[t], s.at[t].id;
    assert PlaceOk(s, p) && PlaceOk(s, s.at[u]) && SubOk(s, id);
    OwnerLocked(s, t, id);
    LocalCounts(s.subs[id], s.sem, p);
    LocalOwner(s.subs[id], s.sem, p);
  }

  lemma GoInv(s: State, t: nat)
    requires Inv(s) && Enabled(s, Go(t))
    ensures Inv(Step(s, Go(t)))
  {
    hide Sum, Local, SubOk, UnitsOk, PlaceOk;
    var s' := Step(s, Go(t));
    GoSub(s, t);
    StepMoves(s, Go(t));
    forall k | k in s'.subs ensures SubOk(s', k) {
      if k != s.at[t].id { OtherSub(s, s', t, s.at[t].id, k); }
    }
    forall u | 0 <= u < |s'.at| ensures PlaceOk(s', s'.at[u]) {
      if u == t { GoPlace(s, t); } else { OtherPlace(s, t, u); }
    }
  }

  lemma EnvironmentInv(s: State, a: Action)
    requires Inv(s) && Enabled(s, a) && !a.Go?
    ensures Inv(Step(s, a))
  {
    hide Sum, OwnerOk, WorkOk, TokensOk, JobsOk, UnitsOk, Needed;
    var s' := Step(s, a);
    StepMoves(s, a);
    assert SubOk(s, a.id);
    OwnerMove(s, s', a.t, a.id);
    WorkMove(s, s', a.t, a.id);
    CountsMove(s, s', a.t, a.id);
    UnitsMove(s, s', a.t);
    forall k | k in s'.subs ensures SubOk(s', k) {
      if k != a.id { OtherSub(s, s', a.t, a.id, k); }
    }
    forall u | 0 <= u < |s'.at| ensures PlaceOk(s', s'.at[u]) {
      if u != a.t { assert PlaceOk(s, s.at[u]); }
    }
  }

  lemma StepInv(s: State, a: Action)
    requires Inv(s) && Enabled(s, a)
    ensures Inv(Step(s, a))
  {
    hide Inv, Step;
    if a.Go? { GoInv(s, a.t); } else { EnvironmentInv(s, a); }
  }

  lemma InitInv(s: State)
    requires Init(s)
    ensures Inv(s)
  {
    forall id | id in s.subs ensures SubOk(s, id) {
      SumZero(s.at, Ahead(id));
      SumZero(s.at, Outside(id));
    }
    SumZero(s.at, Held());
  }

  lemma {:induction false} RunInv(states: seq<State>, actions: seq<Action>, i: nat)
    requires Run(states, actions) && i < |states|
    ensures Inv(states[i])
  {
    hide Inv, Step, Init, Enabled;
    if i == 0 {
      InitInv(states[0]);
    } else {
      RunInv(states, actions, i - 1);
      assert Follows(states, actions, i - 1);
      StepInv(states[i - 1], actions[i - 1]);
    }
  }

  ghost predicate Reaches(states: seq<State>, actions: seq<Action>, s: State) {
    Run(states, actions) && states[|states| - 1] == s
  }

  ghost predicate Reachable(s: State) {
    exists states, actions :: Reaches(states, actions, s)
  }

  lemma ReachableInv(s: State)
    requires Reachable(s)
    ensures Inv(s)
  {
    hide Inv, Init, Follows;
    var states, actions :| Reaches(states, actions, s);
    RunInv(states, actions, |states| - 1);
  }

  // ---------------------------------------------------------------- the promises

  /** At most one thread drains a subclass. */
  lemma OneDrainer(s: State, t: nat, u: nat)
    requires Reachable(s) && t < |s.at| && u < |s.at|
    requires Draining(s.at[t]) && Draining(s.at[u]) && s.at[t].id == s.at[u].id
    ensures t == u
  {
    hide Sum;
    ReachableInv(s);
    assert PlaceOk(s, s.at[t]) && SubOk(s, s.at[t].id);
    assert Owns(s.at[t], s.at[t].id) && Owns(s.at[u], s.at[t].id);
  }

  /** The drainer never pops from an empty queue. */
  lemma NeverNull(s: State, t: nat)
    requires Reachable(s) && t < |s.at|
    ensures !s.at[t].Null?
  {
    hide Sum;
    ReachableInv(s);
    assert PlaceOk(s, s.at[t]);
  }

  /** Subclass -1 drains only while no other subclass does. */
  lemma ExclusiveAlone(s: State, t: nat, u: nat)
    requires Reachable(s) && t < |s.at| && u < |s.at|
    requires Draining(s.at[t]) && s.at[t].id == EXCLUSIVE && Draining(s.at[u])
    ensures t == u
  {
    hide Sum;
    ReachableInv(s);
    if t != u { SumTwo(s.at, t, u, Held()); }
  }

  /** When all threads have left and no token is queued, every announced job has been processed
      and the semaphore is whole. */
  lemma NothingLeft(s: State, id: int)
    requires Reachable(s) && id in s.subs && s.tokens == multiset{}
    requires forall t :: 0 <= t < |s.at| ==> s.at[t].Idle?
    ensures s.subs[id].processed == s.subs[id].allowed == s.subs[id].total && s.subs[id].jobs == 0
    ensures !s.subs[id].locked && s.sem == UNITS
  {
    hide Sum;
    ReachableInv(s);
    assert SubOk(s, id);
    SumZero(s.at, Ahead(id));
    SumZero(s.at, Outside(id));
    SumZero(s.at, Held());
  }

  // ---------------------------------------------------------------- announced jobs are run

  /** How many jobs of the subclass were announced in the first i steps. */
  ghost function Announced(actions: seq<Action>, i: nat, id: int): nat
    requires i <= |actions|
  {
    if i == 0 then 0
    else Announced(actions, i - 1, id) + if actions[i - 1].Announce? && actions[i - 1].id == id then 1 else 0
  }

  /** Step j is the end of process_one_job for a job of the subclass. */
  ghost predicate Runs(states: seq<State>, actions: seq<Action>, j: nat, id: int) {
    j < |actions| && j < |states| && actions[j].Go? && actions[j].t < |states[j].at| &&
    states[j].at[actions[j].t] == Running(id)
  }

  /** How many jobs of the subclass were run in the first i steps. */
  ghost function Ran(states: seq<State>, actions: seq<Action>, i: nat, id: int): nat {
    if i == 0 then 0 else Ran(states, actions, i - 1, id) + if Runs(states, actions, i - 1, id) then 1 else 0
  }

  /** Tokens put into and taken from the queue of the class for the subclass. */
  ghost function TokensPut(states: seq<State>, actions: seq<Action>, i: nat, id: int): nat {
    if i == 0 then 0 else TokensPut(states, actions, i - 1, id) + if PutsToken(states, actions, i - 1, id) then 1 else 0
  }

  ghost predicate PutsToken(states: seq<State>, actions: seq<Action>, j: nat, id: int) {
    j < |actions| && j < |states| && actions[j].Go? && actions[j].t < |states[j].at| &&
    states[j].at[actions[j].t] == PushToken(id)
  }

  ghost function TokensTaken(actions: seq<Action>, i: nat, id: int): nat
    requires i <= |actions|
  {
    if i == 0 then 0
    else TokensTaken(actions, i - 1, id) + if actions[i - 1].TakeToken? && actions[i - 1].id == id then 1 else 0
  }

  lemma StepCounts(s: State, a: Action, id: int)
    requires Enabled(s, a) && id in s.subs
    ensures var s' := Step(s, a);
            id in s'.subs && a.t < |s.at| &&
            s'.subs[id].total == s.subs[id].total + (if a.Announce? && a.id == id then 1 else 0) &&
            s'.subs[id].processed == s.subs[id].processed + (if a.Go? && s.at[a.t] == Running(id) then 1 else 0) &&
            s'.tokens[id] == s.tokens[id] + (if a.Go? && s.at[a.t] == PushToken(id) then 1 else 0)
                                          - (if a.TakeToken? && a.id == id then 1 else 0)
  {
    hide Needed, Local;
    if a.Go? { LocalTallies(s.subs[s.at[a.t].id], s.sem, s.at[a.t]); }
  }

  lemma LocalTallies(s: Sub, sem: nat, p: Place)
    requires !p.Idle? && !p.Null? && (p.Wait? && p.units < Needed(p.id) ==> sem > 0)
    ensures var r := Local(s, sem, p);
            r.sub.total == s.total && r.sub.processed == s.processed + (if p.Running? then 1 else 0) &&
            (r.token <==> p.PushToken?)
  {
  }

  lemma {:induction false} CountersAreCounts(states: seq<State>, actions: seq<Action>, i: nat, id: int)
    requires Run(states, actions) && i < |states| && id in states[0].subs
    ensures id in states[i].subs && states[i].subs[id].total == Announced(actions, i, id)
    ensures states[i].subs[id].processed == Ran(states, actions, i, id)
    ensures states[i].tokens[id] == TokensPut(states, actions, i, id) - TokensTaken(actions, i, id)
  {
    hide Step, Enabled;
    if i > 0 {
      CountersAreCounts(states, actions, i - 1, id);
      assert Follows(states, actions, i - 1);
      StepCounts(states[i - 1], actions[i - 1], id);
    }
  }

  /** When all is quiet, as many jobs of each subclass have been run as were announced. */
  lemma AnnouncedAreRun(states: seq<State>, actions: seq<Action>, i: nat, id: int)
    requires Run(states, actions) && i < |states| && id in states[0].subs && states[i].tokens == multiset{}
    requires forall t :: 0 <= t < |states[i].at| ==> states[i].at[t].Idle?
    ensures Ran(states, actions, i, id) == Announced(actions, i, id)
  {
    hide Sum, Step, Enabled, Init, Announced, Ran;
    RunInv(states, actions, i);
    CountersAreCounts(states, actions, i, id);
    var s := states[i];
    assert SubOk(s, id);
    SumZero(s.at, Ahead(id));
    SumZero(s.at, Outside(id));
  }

  predicate Blocked(s: State, p: Place) {
    p.Wait? && p.units < Needed(p.id) && s.sem == 0
  }

  lemma SumPositive(at: seq<Place>, w: Place -> nat) returns (u: nat)
    requires Sum(at, w) > 0
    ensures u < |at| && w(at[u]) > 0
  {
    hide Sum;
    if forall k :: 0 <= k < |at| ==> w(at[k]) == 0 {
      SumZero(at, w);
    } else {
      u :| u < |at| && w(at[u]) > 0;
    }
  }

  /** Only one waiting thread can hold units, and never all of them. */
  lemma SomeHolderMoves(s: State) returns (u: nat)
    requires Inv(s) && s.sem == 0
    ensures u < |s.at| && HeldAt(s.at[u]) > 0 && !Blocked(s, s.at[u])
  {
    hide Sum, WorkOk, TokensOk, JobsOk;
    u := SumPositive(s.at, Held());
    if Blocked(s, s.at[u]) {
      var w := u;
      assert PlaceOk(s, s.at[w]) && SubOk(s, EXCLUSIVE) && Owns(s.at[w], EXCLUSIVE);
      SumUpdate(s.at, w, Idle, Held());
      u := SumPositive(s.at[w := Idle], Held());
      var p := s.at[u];
      assert p == s.at[w := Idle][u];
      assert Blocked(s, p) ==> Owns(p, EXCLUSIVE);
    }
  }

  /** The drainers never block each other for good: while a thread is at work, some thread can
      take a step. */
  lemma NoDeadlock(s: State, t: nat)
    requires Reachable(s) && t < |s.at| && !s.at[t].Idle?
    ensures exists u :: 0 <= u < |s.at| && Enabled(s, Go(u))
  {
    hide Sum, SubOk, UnitsOk, Needed;
    ReachableInv(s);
    assert PlaceOk(s, s.at[t]);
    if !Enabled(s, Go(t)) {
      var u := SomeHolderMoves(s);
      assert PlaceOk(s, s.at[u]);
      assert Enabled(s, Go(u));
    }
  }
}
