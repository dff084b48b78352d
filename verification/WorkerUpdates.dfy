/** What the shared statistics have to do with the updates that the worker makes. */
module WorkerUpdates {
  import opened WorkerStats

  /** How many times the worker has come to rest again by state k: its complete updates. */
  ghost function Updates(states: seq<State>, k: nat): nat
    requires k < |states|
  {
    if k == 0 then 0
    else Updates(states, k - 1) + if !states[k - 1].writer.Resting? && states[k].writer.Resting? then 1 else 0
  }

  /** At step m, in update number j, the worker was given v for field i of copy c. */
  ghost predicate Given(states: seq<State>, actions: seq<Action>, m: nat, c: nat, j: nat, i: nat, v: int) {
    m < |actions| && m < |states| && actions[m] == Write(i, v) && states[m].writer.Writing? &&
    states[m].writer.c == c && i in states[m].writer.todo && j == Updates(states, m) + 1
  }

  /** It was given so before state k. */
  ghost predicate WasGiven(states: seq<State>, actions: seq<Action>, k: nat, c: nat, j: nat, i: nat, v: int) {
    exists m :: 0 <= m < k && Given(states, actions, m, c, j, i, v)
  }

  // ---------------------------------------------------------------- both copies get every update

  /** The first copy is ahead while the second is being updated. */
  ghost predicate Level(s: State, u: nat) {
    Shape(s) && |s.values[1]| == u + 1 &&
    |s.values[0]| == if !s.writer.Resting? && s.writer.c == 1 then u + 2 else u + 1
  }

  lemma {:induction false} EveryUpdateReachesBoth(states: seq<State>, actions: seq<Action>, k: nat)
    requires Run(states, actions) && k < |states|
    ensures Level(states[k], Updates(states, k))
    decreases k
  {
    RunInv(states, actions, k);
    if k > 0 {
      EveryUpdateReachesBoth(states, actions, k - 1);
      StepAt(states, actions, k - 1);
    }
  }

  lemma StepAt(states: seq<State>, actions: seq<Action>, k: nat)
    requires Run(states, actions) && k < |actions|
    ensures Inv(states[k]) && Inv(states[k + 1]) && states[k + 1] == Step(states[k], actions[k])
  {
    RunInv(states, actions, k);
    RunInv(states, actions, k + 1);
  }

  // ---------------------------------------------------------------- and what it was given

  /** What is written of copy c so far was given in the present update. */
  ghost predicate FieldGiven(states: seq<State>, actions: seq<Action>, k: nat, c: nat, i: nat) {
    k < |states| && Shape(states[k]) && c < 2 &&
    (Busy(states[k].writer, c) && i !in states[k].writer.todo && i < states[k].n ==>
       WasGiven(states, actions, k, c, Updates(states, k) + 1, i, states[k].copies[c].fields[i]))
  }

  lemma {:induction false} FieldsGiven(states: seq<State>, actions: seq<Action>, k: nat, c: nat, i: nat)
    requires Run(states, actions) && k < |states| && c < 2
    ensures FieldGiven(states, actions, k, c, i)
    decreases k
  {
    hide Inv, Given, Updates;
    RunShape(states, actions, k);
    if k > 0 {
      FieldsGiven(states, actions, k - 1, c, i);
      StepAt(states, actions, k - 1);
      RunShape(states, actions, k - 1);
      UpdatesStep(states, k);
      var s, a := states[k - 1], actions[k - 1];
      if a.Write? && a.i == i && Busy(s.writer, c) && i in s.writer.todo {
        GivenNow(states, actions, k - 1, c, i, a.v);
      }
    }
  }

  lemma RunShape(states: seq<State>, actions: seq<Action>, k: nat)
    requires Run(states, actions) && k < |states|
    ensures Shape(states[k])
  {
    RunInv(states, actions, k);
  }

  lemma UpdatesStep(states: seq<State>, k: nat)
    requires 0 < k < |states|
    ensures !(!states[k - 1].writer.Resting? && states[k].writer.Resting?) ==>
            Updates(states, k) == Updates(states, k - 1)
    ensures Updates(states, k) <= Updates(states, k - 1) + 1
  {
  }

  lemma GivenNow(states: seq<State>, actions: seq<Action>, m: nat, c: nat, i: nat, v: int)
    requires m < |actions| && m < |states| && actions[m] == Write(i, v) && Busy(states[m].writer, c)
    requires i in states[m].writer.todo
    ensures Given(states, actions, m, c, Updates(states, m) + 1, i, v)
  {
  }

  /** Value number j of a copy xs, field by field, what the worker was given in update j. */
  lemma {:induction false} ValuesAreGiven(states: seq<State>, actions: seq<Action>, k: nat, c: nat, j: nat, i: nat)
      returns (m: nat)
    requires Run(states, actions) && k < |states| && c < 2 && i < states[k].n
    requires Shape(states[k]) && 0 < j < |states[k].values[c]| && i < |states[k].values[c][j]|
    ensures m < k && Given(states, actions, m, c, j, i, states[k].values[c][j][i])
    decreases k
  {
    hide Inv, Given, Updates, FieldGiven;
    if k > 0 {
      StepAt(states, actions, k - 1);
      RunShape(states, actions, k - 1);
      var s := states[k - 1];
      if j < |s.values[c]| {
        m := ValuesAreGiven(states, actions, k - 1, c, j, i);
      } else {
        FieldsGiven(states, actions, k - 1, c, i);
        EveryUpdateReachesBoth(states, actions, k - 1);
        m := LastGiven(states, actions, k - 1, c, i);
      }
    }
  }

  lemma LastGiven(states: seq<State>, actions: seq<Action>, k: nat, c: nat, i: nat) returns (m: nat)
    requires FieldGiven(states, actions, k, c, i) && Busy(states[k].writer, c) && states[k].writer.todo == {}
    requires i < states[k].n
    ensures m < k && Given(states, actions, m, c, Updates(states, k) + 1, i, states[k].copies[c].fields[i])
  {
    m :| 0 <= m < k && Given(states, actions, m, c, Updates(states, k) + 1, i, states[k].copies[c].fields[i]);
  }

  // ---------------------------------------------------------------- what a reader gets

  /** The reader's present call began at step b. */
  ghost predicate CallSince(states: seq<State>, b: nat, k: nat, r: nat) {
    b < k < |states| && (forall m :: b <= m <= k ==> r < |states[m].readers|) && states[b].readers[r].Away? &&
    (forall m :: b < m <= k ==> !states[m].readers[r].Away?)
  }

  /** Only the first step of a call notes what the copies have had. */
  lemma ReaderMoves(s: State, a: Action, r: nat)
    requires Shape(s) && r < |Step(s, a).readers|
    ensures r < |s.readers|
    ensures !Step(s, a).readers[r].Away? ==>
              Step(s, a).readers[r].before ==
                if s.readers[r].Away? then [|s.values[0]|, |s.values[1]|] else s.readers[r].before
  {
  }

  lemma {:induction false} CallBegan(states: seq<State>, actions: seq<Action>, k: nat, r: nat) returns (b: nat)
    requires Run(states, actions) && k < |states| && r < |states[k].readers| && !states[k].readers[r].Away?
    ensures CallSince(states, b, k, r) && Shape(states[b])
    ensures states[k].readers[r].before == [|states[b].values[0]|, |states[b].values[1]|]
    decreases k
  {
    hide Inv, Step;
    if k > 0 {
      StepAt(states, actions, k - 1);
      RunShape(states, actions, k - 1);
      ReaderMoves(states[k - 1], actions[k - 1], r);
      if states[k - 1].readers[r].Away? {
        b := k - 1;
      } else {
        b := CallBegan(states, actions, k - 1, r);
      }
    }
  }

  /** A reader accepts one complete update j, no older than the last one complete when its call began: each
      field is what the worker was given for it in update j, or the initial one if j is 0. */
  lemma SnapshotIsRecent(states: seq<State>, actions: seq<Action>, k: nat, r: nat) returns (b: nat, j: nat)
    requires Run(states, actions) && k < |states| && r < |states[k].readers| && states[k].readers[r].Done?
    ensures CallSince(states, b, k, r) && Updates(states, b) <= j && states[k].readers[r].c < 2
    ensures var p := states[k].readers[r];
            forall i :: 0 <= i < states[k].n ==> i in p.got && FromUpdate(states, actions, k, p.c, j, i, p.got[i])
  {
    hide Given, Updates, Run, Level, Inv, FromUpdate;
    b := CallBegan(states, actions, k, r);
    SnapshotIsWhole(states, actions, k, r);
    EveryUpdateReachesBoth(states, actions, b);
    LevelAtLeast(states[b], Updates(states, b));
    var p := states[k].readers[r];
    j := p.cnt / 2;
    forall i | 0 <= i < states[k].n ensures i in p.got && FromUpdate(states, actions, k, p.c, j, i, p.got[i]) {
      ValueFromUpdate(states, actions, k, p.c, j, i);
    }
  }

  /** v is what update j, or the beginning, has for field i of copy c. */
  ghost predicate FromUpdate(states: seq<State>, actions: seq<Action>, k: nat, c: nat, j: nat, i: nat, v: int) {
    if j > 0 then WasGiven(states, actions, k, c, j, i, v)
    else
      |states| > 0 && c < |states[0].copies| && i < |states[0].copies[c].fields| && v == states[0].copies[c].fields[i]
  }

  lemma ValueFromUpdate(states: seq<State>, actions: seq<Action>, k: nat, c: nat, j: nat, i: nat)
    requires Run(states, actions) && k < |states| && c < 2 && i < states[k].n
    requires |states[k].values| == 2 && j < |states[k].values[c]| && i < |states[k].values[c][j]|
    ensures FromUpdate(states, actions, k, c, j, i, states[k].values[c][j][i])
  {
    hide Given, Run, Inv;
    RunShape(states, actions, k);
    if j == 0 {
      FirstValue(states, actions, k, c);
    } else {
      var m := ValuesAreGiven(states, actions, k, c, j, i);
    }
  }

  lemma LevelAtLeast(s: State, u: nat)
    requires Level(s, u)
    ensures |s.values[0]| >= u + 1 && |s.values[1]| >= u + 1
  {
  }

  lemma {:induction false} FirstValue(states: seq<State>, actions: seq<Action>, k: nat, c: nat)
    requires Run(states, actions) && k < |states| && c < 2
    ensures Shape(states[k]) && Shape(states[0]) && states[k].n == states[0].n
    ensures states[k].values[c] != [] && states[k].values[c][0] == states[0].copies[c].fields
    decreases k
  {
    hide Inv;
    RunShape(states, actions, k);
    if k == 0 {
      assert Init(states[0]);
    } else {
      FirstValue(states, actions, k - 1, c);
      StepAt(states, actions, k - 1);
    }
  }

  // ---------------------------------------------------------------- a reader left alone comes to an end

  /** The state after reader r has made steps for the fields xs, and nobody else any. */
  ghost function Reads(s: State, r: nat, xs: seq<nat>): State
    requires Inv(s)
    decreases |xs|
  {
    if xs == [] then s
    else
      StepInv(s, Read(r, xs[0]));
      Reads(Step(s, Read(r, xs[0])), r, xs[1..])
  }

  /** Reader r can go from s to s' by itself. */
  ghost predicate Leads(s: State, s': State, r: nat) {
    Inv(s) && exists xs: seq<nat> :: Reads(s, r, xs) == s'
  }

  lemma LeadsSelf(s: State, r: nat)
    requires Inv(s)
    ensures Leads(s, s, r)
  {
    assert Reads(s, r, []) == s;
  }

  lemma LeadsOn(s: State, i: nat, s': State, r: nat)
    requires Inv(s) && Leads(Step(s, Read(r, i)), s', r)
    ensures Leads(s, s', r)
  {
    var xs: seq<nat> :| Reads(Step(s, Read(r, i)), r, xs) == s';
    assert ([i] + xs)[1..] == xs;
    assert Reads(s, r, [i] + xs) == s';
  }

  /** A reader that copies a value nobody changes accepts it. */
  lemma {:induction false} CopiesOut(s: State, r: nat) returns (s': State)
    requires Inv(s) && r < |s.readers| && s.readers[r].Copying?
    ensures Leads(s, s', r) && Inv(s') && r < |s'.readers| && s' == s.(readers := s.readers[r := s'.readers[r]])
    ensures if s.copies[s.readers[r].c].cnt == s.readers[r].cnt then s'.readers[r].Done? else s'.readers[r].Looking?
    decreases All(s.n) - s.readers[r].got.Keys
  {
    hide ReaderOk, CopyOk, Leads;
    var p := s.readers[r];
    var i := if All(s.n) <= p.got.Keys then s.n else var i :| i in All(s.n) && i !in p.got.Keys; i;
    GotWithin(s, r);
    StepInv(s, Read(r, i));
    var t := Step(s, Read(r, i));
    if i == s.n {
      s' := t;
      LeadsSelf(t, r);
    } else {
      assert t.readers[r].got.Keys == p.got.Keys + {i};
      s' := CopiesOut(t, r);
    }
    LeadsOn(s, i, s', r);
  }

  lemma GotWithin(s: State, r: nat)
    requires Inv(s) && r < |s.readers| && s.readers[r].Copying?
    ensures All(s.n) <= s.readers[r].got.Keys ==> s.readers[r].got.Keys == All(s.n)
  {
    assert ReaderOk(s, s.readers[r]);
  }

  /** While the worker pauses, wherever it xs, a reader gets its snapshot. */
  lemma ReaderFinishes(s: State, r: nat) returns (s': State)
    requires Inv(s) && r < |s.readers| && (s.readers[r].Looking? || s.readers[r].Copying?)
    ensures Leads(s, s', r) && r < |s'.readers| && s'.readers[r].Done?
  {
    hide ReaderOk, Leads;
    if s.readers[r].Copying? {
      s' := CopiesOut(s, r);
      if s'.readers[r].Looking? {
        var t := FindsCopy(s', r);
        LeadsJoin(s, s', t, r);
        s' := t;
      }
    } else {
      s' := FindsCopy(s, r);
    }
  }

  lemma {:induction false} FindsCopy(s: State, r: nat) returns (s': State)
    requires Inv(s) && r < |s.readers| && s.readers[r].Looking?
    ensures Leads(s, s', r) && r < |s'.readers| && s'.readers[r].Done?
    decreases s.copies[s.readers[r].c].cnt % 2
  {
    hide ReaderOk, Leads;
    assert CopyOk(s, 0) && CopyOk(s, 1);
    StepInv(s, Read(r, 0));
    var t := Step(s, Read(r, 0));
    if t.readers[r].Copying? {
      s' := CopiesOut(t, r);
    } else {
      s' := FindsCopy(t, r);
    }
    LeadsOn(s, 0, s', r);
  }

  lemma {:induction false} ReadsJoin(s: State, r: nat, xs: seq<nat>, ys: seq<nat>)
    requires Inv(s)
    ensures Inv(Reads(s, r, xs)) && Reads(Reads(s, r, xs), r, ys) == Reads(s, r, xs + ys)
    decreases |xs|
  {
    hide ReaderOk, CopyOk;
    if xs == [] {
      assert xs + ys == ys;
    } else {
      StepInv(s, Read(r, xs[0]));
      ReadsJoin(Step(s, Read(r, xs[0])), r, xs[1..], ys);
      assert (xs + ys)[1..] == xs[1..] + ys;
    }
  }

  lemma LeadsJoin(s: State, t: State, u: State, r: nat)
    requires Leads(s, t, r) && Leads(t, u, r)
    ensures Leads(s, u, r)
  {
    hide Inv;
    var xs: seq<nat> :| Reads(s, r, xs) == t;
    var ys: seq<nat> :| Reads(t, r, ys) == u;
    ReadsJoin(s, r, xs, ys);
  }
}
