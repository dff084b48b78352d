/**
 Draining the subclasses of a job class, as a machine of atomic steps. Every queued job is
 announced by a token in the queue of the class; the thread that takes a token either becomes
 the one drainer of that subclass or leaves the work to the drainer that is there. Subclass -1
 takes every unit of the semaphore, so that it runs alone.
 */
module SubclassModel {

  const UNITS: nat := 16
  const EXCLUSIVE: int := -1

  /** struct job_subclass */
  datatype Sub = Sub(total: nat, allowed: nat, processed: nat, locked: bool, jobs: nat)

  datatype Place =
    | Idle
    // unlock_job: the job goes to the queue of its subclass, then the token to that of the class
    | PushJob(id: int)
    | PushToken(id: int)
    // process_one_sublist
    | Got(id: int)
    | Contend(id: int)
    | Wait(id: int, units: nat)
    | Drain(id: int)
    | Pop(id: int)
    | Running(id: int)
    | Release(id: int)
    | RecheckRead(id: int)
    | Recheck(id: int, processed: nat)
    | Recontend(id: int)
    | Post(id: int, units: nat)
    // the queue of the subclass was empty: the assertion in process_one_sublist fails
    | Null(id: int)

  datatype State = State(subs: map<int, Sub>, tokens: multiset<int>, sem: nat, at: seq<Place>)

  datatype Action =
    | Announce(t: nat, id: int)
    | TakeToken(t: nat, id: int)
    | Go(t: nat)

  function Needed(id: int): nat { if id == EXCLUSIVE then UNITS else 1 }

  datatype Outcome = Outcome(sub: Sub, sem: nat, token: bool, place: Place)

  /** The next atomic step of a thread at p; a wait on the semaphore is a step only when there is a unit. */
  function Local(s: Sub, sem: nat, p: Place): Outcome
    requires !p.Idle? && !p.Null? && (p.Wait? && p.units < Needed(p.id) ==> sem > 0)
  {
    var stay := Outcome(s, sem, false, p);
    match p
    case PushJob(id) => stay.(sub := s.(jobs := s.jobs + 1), place := PushToken(id))
    case PushToken(id) => stay.(token := true, place := Idle)
    case Got(id) => stay.(sub := s.(allowed := s.allowed + 1), place := Contend(id))
    case Contend(id) =>
      if s.locked then stay.(place := Idle) else stay.(sub := s.(locked := true), place := Wait(id, 0))
    case Wait(id, k) =>
      if k < Needed(id) then stay.(sem := sem - 1, place := Wait(id, k + 1)) else stay.(place := Drain(id))
    case Drain(id) => stay.(place := if s.processed < s.allowed then Pop(id) else Release(id))
    case Pop(id) =>
      if s.jobs == 0 then stay.(place := Null(id)) else stay.(sub := s.(jobs := s.jobs - 1), place := Running(id))
    case Running(id) => stay.(sub := s.(processed := s.processed + 1), place := Drain(id))
    case Release(id) => stay.(sub := s.(locked := false), place := RecheckRead(id))
    case RecheckRead(id) => stay.(place := Recheck(id, s.processed))
    case Recheck(id, n) => stay.(place := if n < s.allowed then Recontend(id) else Post(id, Needed(id)))
    case Recontend(id) =>
      if s.locked then stay.(place := Post(id, Needed(id))) else stay.(sub := s.(locked := true), place := Drain(id))
    case Post(id, k) => if k == 0 then stay.(place := Idle) else stay.(sem := sem + 1, place := Post(id, k - 1))
  }

  predicate Enabled(s: State, a: Action) {
    a.t < |s.at| &&
    match a
    case Announce(t, id) => s.at[t].Idle? && id in s.subs
    case TakeToken(t, id) => s.at[t].Idle? && id in s.tokens && id in s.subs
    case Go(t) =>
      !s.at[t].Idle? && !s.at[t].Null? && s.at[t].id in s.subs &&
      (s.at[t].Wait? && s.at[t].units < Needed(s.at[t].id) ==> s.sem > 0)
  }

  function Step(s: State, a: Action): State
    requires Enabled(s, a)
  {
    match a
    case Announce(t, id) =>
      var sub := s.subs[id];
      s.(subs := s.subs[id := sub.(total := sub.total + 1)], at := s.at[t := PushJob(id)])
    case TakeToken(t, id) => s.(tokens := s.tokens - multiset{id}, at := s.at[t := Got(id)])
    case Go(t) =>
      var id := s.at[t].id;
      var r := Local(s.subs[id], s.sem, s.at[t]);
      State(s.subs[id := r.sub], if r.token then s.tokens + multiset{id} else s.tokens, r.sem, s.at[t := r.place])
  }

  predicate Init(s: State) {
    s.tokens == multiset{} && s.sem == UNITS &&
    (forall id :: id in s.subs ==> s.subs[id] == Sub(0, 0, 0, false, 0)) &&
    forall t :: 0 <= t < |s.at| ==> s.at[t].Idle?
  }

  ghost predicate Run(states: seq<State>, actions: seq<Action>) {
    |states| == |actions| + 1 && Init(states[0]) &&
    forall i :: 0 <= i < |actions| ==> Follows(states, actions, i)
  }

  ghost predicate Follows(states: seq<State>, actions: seq<Action>, i: nat) {
    i < |actions| && i + 1 < |states| && Enabled(states[i], actions[i]) &&
    states[i + 1] == Step(states[i], actions[i])
  }
}
