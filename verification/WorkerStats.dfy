/**
 The statistics of a worker in shared memory: two copies, each with a counter that is odd while the
 worker writes it. A reader takes a copy whose counter is even and takes it again if the counter has
 changed meanwhile.
 */
module WorkerStats {
  /** One copy: the counter and the fields. */
  datatype Copy = Copy(cnt: nat, fields: seq<int>)

  /** update_local_stats: which copy is next, or which fields of it are not written yet. */
  datatype Writer = Resting | Opening(c: nat) | Writing(c: nat, todo: set<nat>)

  /** compute_stats_sum: looking for a copy, copying it in any order, and what it got. `before` is how many
      values each copy had had when the call began. */
  datatype Reader =
    | Away
    | Looking(c: nat, before: seq<nat>)
    | Copying(c: nat, cnt: nat, got: map<nat, int>, before: seq<nat>)
    | Done(c: nat, cnt: nat, got: map<nat, int>, before: seq<nat>)

  /** The two copies, the worker, the readers, and all complete values that each copy has had. */
  datatype State = State(n: nat, copies: seq<Copy>, writer: Writer, readers: seq<Reader>, values: seq<seq<seq<int>>>)

  datatype Action = Write(i: nat, v: int) | Read(r: nat, i: nat)

  ghost predicate Shape(s: State) {
    |s.copies| == 2 && |s.values| == 2 && (s.writer.Resting? || s.writer.c < 2) &&
    (forall c :: 0 <= c < 2 ==> |s.copies[c].fields| == s.n) &&
    (s.writer.Writing? ==> forall i :: i in s.writer.todo ==> i < s.n) &&
    forall r :: 0 <= r < |s.readers| ==> s.readers[r].Away? || s.readers[r].c < 2
  }

  // ---------------------------------------------------------------- steps

  function All(n: nat): (s: set<nat>)
    ensures forall i: nat :: i in s <==> i < n
  {
    if n == 0 then {} else All(n - 1) + {n - 1}
  }

  /** update_local_stats_copy on both copies, one memory access a step; v is the statistic of the moment. */
  function WriterStep(s: State, i: nat, v: int): State
    requires |s.copies| == 2 && |s.values| == 2 && (s.writer.Resting? || s.writer.c < 2)
    requires forall c :: 0 <= c < 2 ==> |s.copies[c].fields| == s.n
  {
    match s.writer
    case Resting => s.(writer := Opening(0))
    case Opening(c) =>
      s.(copies := s.copies[c := s.copies[c].(cnt := s.copies[c].cnt + 1)], writer := Writing(c, All(s.n)))
    case Writing(c, todo) =>
      if i in todo && i < s.n then
        s.(copies := s.copies[c := s.copies[c].(fields := s.copies[c].fields[i := v])],
           writer := Writing(c, todo - {i}))
      else if todo == {} then
        s.(copies := s.copies[c := s.copies[c].(cnt := s.copies[c].cnt + 1)],
           values := s.values[c := s.values[c] + [s.copies[c].fields]],
           writer := if c == 0 then Opening(1) else Resting)
      else s
  }

  /** One memory access of compute_stats_sum; i is the field that the copying fetches next. */
  function ReaderStep(s: State, p: Reader, i: nat): Reader
    requires |s.copies| == 2 && |s.values| == 2 && (p.Away? || p.c < 2)
    requires forall c :: 0 <= c < 2 ==> |s.copies[c].fields| == s.n
  {
    match p
    case Away => Looking(1, [|s.values[0]|, |s.values[1]|])
    case Looking(c, before) =>
      if s.copies[c].cnt % 2 == 0 then Copying(c, s.copies[c].cnt, map[], before) else Looking(1 - c, before)
    case Copying(c, cnt, got, before) =>
      if i < s.n && i !in got then Copying(c, cnt, got[i := s.copies[c].fields[i]], before)
      else if got.Keys != All(s.n) then p
      else if s.copies[c].cnt == cnt then Done(c, cnt, got, before)
      else Looking(1, before)
    case Done(_, _, _, _) => Away
  }

  function Step(s: State, a: Action): State
    requires |s.copies| == 2 && |s.values| == 2 && (s.writer.Resting? || s.writer.c < 2)
    requires forall c :: 0 <= c < 2 ==> |s.copies[c].fields| == s.n
    requires forall r :: 0 <= r < |s.readers| ==> s.readers[r].Away? || s.readers[r].c < 2
  {
    match a
    case Write(i, v) => WriterStep(s, i, v)
    case Read(r, i) => if r < |s.readers| then s.(readers := s.readers[r := ReaderStep(s, s.readers[r], i)]) else s
  }

  ghost predicate Init(s: State) {
    Shape(s) && s.writer == Resting && (forall r :: 0 <= r < |s.readers| ==> s.readers[r].Away?) &&
    forall c :: 0 <= c < 2 ==> s.copies[c].cnt == 0 && s.values[c] == [s.copies[c].fields]
  }

  ghost predicate Run(states: seq<State>, actions: seq<Action>) {
    |states| == |actions| + 1 && Init(states[0]) &&
    forall k :: 0 <= k < |actions| ==> Shape(states[k]) && states[k + 1] == Step(states[k], actions[k])
  }

  // ---------------------------------------------------------------- the invariant

  predicate Busy(w: Writer, c: nat) {
    w.Writing? && w.c == c
  }

  /** The counter tells how many values the copy has had, and whether it is being written. */
  ghost predicate CopyOk(s: State, c: nat)
    requires Shape(s) && c < 2
  {
    s.values[c] != [] && (forall k :: 0 <= k < |s.values[c]| ==> |s.values[c][k]| == s.n) &&
    s.copies[c].cnt == 2 * (|s.values[c]| - 1) + (if Busy(s.writer, c) then 1 else 0) &&
    (!Busy(s.writer, c) ==> s.copies[c].fields == s.values[c][|s.values[c]| - 1])
  }

  ghost predicate Recent(s: State, c: nat, cnt: nat, before: seq<nat>)
    requires Shape(s) && c < 2
  {
    cnt % 2 == 0 && cnt <= s.copies[c].cnt && |before| == 2 && before[c] <= cnt / 2 + 1
  }

  ghost predicate Got(n: nat, got: map<nat, int>, value: seq<int>) {
    forall i :: i in got ==> i < n && i < |value| && got[i] == value[i]
  }

  /** What a reader has copied agrees with the value that its counter stands for, unless the counter has
      changed. */
  ghost predicate ReaderOk(s: State, p: Reader)
    requires Shape(s) && (p.Away? || p.c < 2)
  {
    match p
    case Away => true
    case Looking(_, before) => |before| == 2 && forall c :: 0 <= c < 2 ==> before[c] <= |s.values[c]|
    case Copying(c, cnt, got, before) =>
      Recent(s, c, cnt, before) && (forall c' :: 0 <= c' < 2 ==> before[c'] <= |s.values[c']|) &&
      (forall i :: i in got ==> i < s.n) && (s.copies[c].cnt == cnt ==> Got(s.n, got, s.copies[c].fields))
    case Done(c, cnt, got, before) =>
      Recent(s, c, cnt, before) && got.Keys == All(s.n) && cnt / 2 < |s.values[c]| &&
      Got(s.n, got, s.values[c][cnt / 2])
  }

  ghost predicate Inv(s: State) {
    Shape(s) && (forall c :: 0 <= c < 2 ==> CopyOk(s, c)) &&
    forall r :: 0 <= r < |s.readers| ==> ReaderOk(s, s.readers[r])
  }

  lemma InitInv(s: State)
    requires Init(s)
    ensures Inv(s)
  {
    forall c | 0 <= c < 2 ensures CopyOk(s, c) { }
  }

  /** A reader copes with any writing: a copy's counter only grows, and its fields change only while the
      counter is odd. */
  ghost predicate Grown(s: State, s': State) {
    Shape(s) && Shape(s') && s'.n == s.n && s'.readers == s.readers &&
    forall c :: 0 <= c < 2 ==>
      s.copies[c].cnt <= s'.copies[c].cnt && s.values[c] <= s'.values[c] &&
      (s'.copies[c].cnt == s.copies[c].cnt && s.copies[c].cnt % 2 == 0 ==> s'.copies[c].fields == s.copies[c].fields)
  }

  lemma ReaderKept(s: State, s': State, p: Reader)
    requires Grown(s, s') && (p.Away? || p.c < 2) && ReaderOk(s, p)
    ensures ReaderOk(s', p)
  {
    if p.Copying? || p.Done? {
      assert s.copies[p.c].cnt <= s'.copies[p.c].cnt && s.values[p.c] <= s'.values[p.c];
    }
  }

  lemma WriterInv(s: State, i: nat, v: int)
    requires Inv(s)
    ensures Inv(WriterStep(s, i, v))
  {
    hide ReaderOk;
    var s' := WriterStep(s, i, v);
    WriterCopies(s, i, v);
    forall r | 0 <= r < |s'.readers| ensures ReaderOk(s', s'.readers[r]) {
      ReaderKept(s, s', s.readers[r]);
    }
  }

  lemma WriterCopies(s: State, i: nat, v: int)
    requires Inv(s)
    ensures var s' := WriterStep(s, i, v); Grown(s, s') && CopyOk(s', 0) && CopyOk(s', 1)
  {
    hide ReaderOk;
    assert CopyOk(s, 0) && CopyOk(s, 1);
  }

  lemma ReaderInv(s: State, p: Reader, i: nat)
    requires Inv(s) && (p.Away? || p.c < 2) && ReaderOk(s, p)
    ensures var p' := ReaderStep(s, p, i); (p'.Away? || p'.c < 2) && ReaderOk(s, p')
  {
    assert CopyOk(s, 0) && CopyOk(s, 1);
  }

  lemma StepInv(s: State, a: Action)
    requires Inv(s)
    ensures Inv(Step(s, a))
  {
    hide ReaderOk, CopyOk;
    match a
    case Write(i, v) => WriterInv(s, i, v);
    case Read(r, i) =>
      if r < |s.readers| {
        ReaderInv(s, s.readers[r], i);
        var s' := Step(s, a);
        forall c | 0 <= c < 2 ensures CopyOk(s', c) { CopySame(s, s', c); }
        forall q | 0 <= q < |s'.readers| ensures ReaderOk(s', s'.readers[q]) { ReaderSame(s, s', s'.readers[q]); }
      }
  }

  lemma CopySame(s: State, s': State, c: nat)
    requires Shape(s) && Shape(s') && s' == s.(readers := s'.readers) && c < 2 && CopyOk(s, c)
    ensures CopyOk(s', c)
  {
  }

  lemma ReaderSame(s: State, s': State, p: Reader)
    requires Shape(s) && Shape(s') && s' == s.(readers := s'.readers) && (p.Away? || p.c < 2) && ReaderOk(s, p)
    ensures ReaderOk(s', p)
  {
  }

  lemma {:induction false} RunInv(states: seq<State>, actions: seq<Action>, k: nat)
    requires Run(states, actions) && k < |states|
    ensures Inv(states[k])
    decreases k
  {
    hide Inv;
    if k == 0 {
      InitInv(states[0]);
    } else {
      RunInv(states, actions, k - 1);
      assert states[k - 1 + 1] == Step(states[k - 1], actions[k - 1]);
      StepInv(states[k - 1], actions[k - 1]);
    }
  }

  // ---------------------------------------------------------------- the promises

  /** What a reader accepts is one complete value of one copy, never a mixture, and not older than the
      value that copy had when the call began. */
  lemma SnapshotIsWhole(states: seq<State>, actions: seq<Action>, k: nat, r: nat)
    requires Run(states, actions) && k < |states| && r < |states[k].readers| && states[k].readers[r].Done?
    ensures var s := states[k]; var p := s.readers[r];
            p.c < 2 && |s.values| == 2 && |p.before| == 2 && p.cnt / 2 < |s.values[p.c]| &&
            p.before[p.c] <= p.cnt / 2 + 1 && |s.values[p.c][p.cnt / 2]| == s.n &&
            (forall i :: 0 <= i < s.n ==> i in p.got && p.got[i] == s.values[p.c][p.cnt / 2][i]) &&
            (forall i :: i in p.got ==> i < s.n)
  {
    RunInv(states, actions, k);
    var s := states[k];
    assert ReaderOk(s, s.readers[r]) && CopyOk(s, s.readers[r].c);
  }

  /** What the second copy is for: at any moment one of the two can be read. */
  lemma SomeCopyReadable(states: seq<State>, actions: seq<Action>, k: nat)
    requires Run(states, actions) && k < |states|
    ensures |states[k].copies| == 2 && (states[k].copies[0].cnt % 2 == 0 || states[k].copies[1].cnt % 2 == 0)
  {
    RunInv(states, actions, k);
    assert CopyOk(states[k], 0) && CopyOk(states[k], 1);
  }
}
