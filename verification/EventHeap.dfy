/**
 The queue of ready events: a binary heap of events ordered by priority and then by time, where
 every event knows its own place in the heap.
 */
module EventHeap {
  import opened Options

  /** The heap array (slot 0 is unused), every event's place in it (0 when not queued) and its key. */
  datatype Table = Table(heap: seq<int>, place: seq<int>, priority: seq<int>, stamp: seq<int>)

  predicate Shape(t: Table) {
    |t.priority| == |t.place| && |t.stamp| == |t.place| && |t.heap| == |t.place| + 1
  }

  predicate IsEvent(t: Table, e: int) {
    0 <= e < |t.place|
  }

  /** x need not wait for y: a lower priority number, or the same and not a later time. */
  predicate Before(t: Table, x: int, y: int)
    requires Shape(t)
  {
    IsEvent(t, x) && IsEvent(t, y) &&
    (t.priority[x] < t.priority[y] || (t.priority[x] == t.priority[y] && t.stamp[x] <= t.stamp[y]))
  }

  ghost function Queued(t: Table): set<int> {
    set e | 0 <= e < |t.place| && t.place[e] != 0
  }

  // ---------------------------------------------------------------- places

  /** Slot k, other than the hole, holds an event other than x that knows its place. */
  ghost predicate SlotOk(t: Table, hole: int, x: int, k: int)
    requires Shape(t) && 0 <= k < |t.heap|
  {
    k != hole ==> IsEvent(t, t.heap[k]) && t.heap[k] != x && t.place[t.heap[k]] == k
  }

  /** A queued event other than x is where it says, and not in the hole. */
  ghost predicate EventOk(t: Table, n: int, hole: int, x: int, e: int)
    requires Shape(t) && IsEvent(t, e) && n < |t.heap|
  {
    e != x && t.place[e] != 0 ==> 1 <= t.place[e] <= n && t.place[e] != hole && t.heap[t.place[e]] == e
  }

  /** The first n slots, without the hole, hold the queued events without x. */
  ghost predicate Floating(t: Table, n: int, hole: int, x: int) {
    Shape(t) && 0 <= n < |t.heap| &&
    (forall k {:trigger SlotOk(t, hole, x, k)} :: 1 <= k <= n ==> SlotOk(t, hole, x, k)) &&
    (forall e {:trigger EventOk(t, n, hole, x, e)} :: IsEvent(t, e) ==> EventOk(t, n, hole, x, e))
  }

  /** No hole and no event in the air. */
  ghost predicate Settled(t: Table, n: int) {
    Floating(t, n, 0, -1)
  }

  // ---------------------------------------------------------------- order

  /** The order between slot k and the slot above it, reading through the hole. */
  ghost predicate LinkOk(t: Table, hole: int, k: int)
    requires Shape(t) && 2 <= k < |t.heap|
  {
    (k != hole && k / 2 != hole ==> Before(t, t.heap[k / 2], t.heap[k])) &&
    (k / 2 == hole && hole >= 2 ==> Before(t, t.heap[hole / 2], t.heap[k]))
  }

  ghost predicate Ordered(t: Table, n: int, hole: int) {
    Shape(t) && 0 <= n < |t.heap| &&
    forall k {:trigger LinkOk(t, hole, k)} :: 2 <= k <= n ==> LinkOk(t, hole, k)
  }

  /** The event x need not wait for what is right below the hole. */
  ghost predicate Above(t: Table, n: int, hole: int, x: int)
    requires Shape(t)
  {
    n < |t.heap| && forall k :: 2 <= k <= n && k / 2 == hole ==> Before(t, x, t.heap[k])
  }

  /** What is right above the hole need not wait for x. */
  ghost predicate Below(t: Table, hole: int, x: int)
    requires Shape(t)
  {
    1 <= hole < |t.heap| && (hole >= 2 ==> Before(t, t.heap[hole / 2], x))
  }

  // ---------------------------------------------------------------- the two moves

  /** Slot j's event moves into the hole i. */
  function Move(t: Table, i: int, j: int): Table
    requires Shape(t) && 0 <= i < |t.heap| && 0 <= j < |t.heap| && IsEvent(t, t.heap[j])
  {
    t.(heap := t.heap[i := t.heap[j]], place := t.place[t.heap[j] := i])
  }

  /** The event x settles in slot i. */
  function Land(t: Table, i: int, x: int): Table
    requires Shape(t) && 0 <= i < |t.heap| && IsEvent(t, x)
  {
    t.(heap := t.heap[i := x], place := t.place[x := i])
  }

  lemma MoveKeeps(t: Table, n: int, i: int, j: int, x: int)
    requires Floating(t, n, i, x) && 1 <= i <= n && 1 <= j <= n && i != j
    ensures IsEvent(t, t.heap[j]) && t.heap[j] != x && Floating(Move(t, i, j), n, j, x)
    ensures Queued(Move(t, i, j)) == Queued(t) && Move(t, i, j).place[t.heap[j]] == i
  {
    assert SlotOk(t, i, x, j);
    var u := Move(t, i, j);
    forall k | 1 <= k <= n ensures SlotOk(u, j, x, k) {
      assert SlotOk(t, i, x, k);
    }
    forall e | IsEvent(u, e) ensures EventOk(u, n, j, x, e) {
      assert EventOk(t, n, i, x, e);
    }
  }

  lemma LandKeeps(t: Table, n: int, i: int, x: int)
    requires Floating(t, n, i, x) && 1 <= i <= n && IsEvent(t, x)
    ensures Settled(Land(t, i, x), n) && Queued(Land(t, i, x)) == Queued(t) + {x}
  {
    var u := Land(t, i, x);
    forall k | 1 <= k <= n ensures SlotOk(u, 0, -1, k) {
      assert SlotOk(t, i, x, k);
    }
    forall e | IsEvent(u, e) ensures EventOk(u, n, 0, -1, e) {
      assert EventOk(t, n, i, x, e);
    }
  }

  /** Taking the event in slot i into the air leaves a hole there. */
  lemma Lift(t: Table, n: int, i: int)
    requires Settled(t, n) && 1 <= i <= n
    ensures IsEvent(t, t.heap[i]) && Floating(t, n, i, t.heap[i])
  {
    assert SlotOk(t, 0, -1, i);
    var x := t.heap[i];
    forall k | 1 <= k <= n ensures SlotOk(t, i, x, k) {
      assert SlotOk(t, 0, -1, k);
    }
    forall e | IsEvent(t, e) ensures EventOk(t, n, i, x, e) {
      assert EventOk(t, n, 0, -1, e);
    }
  }

  /** An event in the air may forget its place. */
  lemma Forget(t: Table, n: int, i: int, x: int)
    requires Floating(t, n, i, x) && IsEvent(t, x)
    ensures Floating(t.(place := t.place[x := 0]), n, i, x)
    ensures Queued(t.(place := t.place[x := 0])) == Queued(t) - {x}
  {
    var u := t.(place := t.place[x := 0]);
    forall k | 1 <= k <= n ensures SlotOk(u, i, x, k) {
      assert SlotOk(t, i, x, k);
    }
    forall e | IsEvent(u, e) ensures EventOk(u, n, i, x, e) {
      assert EventOk(t, n, i, x, e);
    }
  }

  /** A hole in the last slot is no hole in a shorter heap. */
  lemma Shorten(t: Table, n: int, x: int)
    requires Floating(t, n, n, x) && 1 <= n && IsEvent(t, x) && t.place[x] == 0
    ensures Settled(t, n - 1)
  {
    forall k | 1 <= k <= n - 1 ensures SlotOk(t, 0, -1, k) {
      assert SlotOk(t, n, x, k);
    }
    forall e | IsEvent(t, e) ensures EventOk(t, n - 1, 0, -1, e) {
      assert EventOk(t, n, n, x, e);
    }
  }

  /** With a hole at i for the gone event g, the last event x can be taken into the air instead. */
  lemma TakeLast(t: Table, n: int, i: int, g: int)
    requires Floating(t, n, i, g) && 1 <= i < n && IsEvent(t, g) && t.place[g] == 0
    ensures IsEvent(t, t.heap[n]) && t.heap[n] != g && Floating(t, n - 1, i, t.heap[n])
    ensures t.heap[n] in Queued(t)
  {
    assert SlotOk(t, i, g, n);
    var x := t.heap[n];
    forall k | 1 <= k <= n - 1 ensures SlotOk(t, i, x, k) {
      assert SlotOk(t, i, g, k);
    }
    forall e | IsEvent(t, e) ensures EventOk(t, n - 1, i, x, e) {
      assert EventOk(t, n, i, g, e);
    }
  }

  /** One slot more is a hole at the end. */
  lemma Lengthen(t: Table, n: int, x: int)
    requires Settled(t, n) && n + 1 < |t.heap| && IsEvent(t, x) && t.place[x] == 0
    ensures Floating(t, n + 1, n + 1, x)
  {
    var m := n + 1;
    forall k | 1 <= k <= m ensures SlotOk(t, m, x, k) {
      if k <= n { assert SlotOk(t, 0, -1, k); }
    }
    forall e | IsEvent(t, e) ensures EventOk(t, m, m, x, e) {
      assert EventOk(t, n, 0, -1, e);
    }
  }

  // ---------------------------------------------------------------- moves keep the order

  lemma BeforeTransitive(t: Table, x: int, y: int, z: int)
    requires Shape(t) && Before(t, x, y) && Before(t, y, z)
    ensures Before(t, x, z)
  {
  }

  lemma BeforeTotal(t: Table, x: int, y: int)
    requires Shape(t) && IsEvent(t, x) && IsEvent(t, y)
    ensures Before(t, x, y) || Before(t, y, x)
  {
  }

  /** The hole goes down to its earlier child. */
  lemma HoleDown(t: Table, n: int, i: int, j: int)
    requires Ordered(t, n, i) && 1 <= i <= n && 2 <= j <= n && j / 2 == i && IsEvent(t, t.heap[j])
    requires forall k :: 2 <= k <= n && k / 2 == i && k != j ==> Before(t, t.heap[j], t.heap[k])
    ensures Ordered(Move(t, i, j), n, j)
  {
    var u := Move(t, i, j);
    forall k | 2 <= k <= n ensures LinkOk(u, j, k) {
      assert LinkOk(t, i, k);
      assert LinkOk(t, i, j);
    }
  }

  /** The hole goes up, past an event that comes after x. */
  lemma HoleUp(t: Table, n: int, i: int, x: int)
    requires Ordered(t, n, i) && Above(t, n, i, x) && 2 <= i <= n && IsEvent(t, x)
    requires IsEvent(t, t.heap[i / 2]) && !Before(t, t.heap[i / 2], x)
    ensures Ordered(Move(t, i, i / 2), n, i / 2) && Above(Move(t, i, i / 2), n, i / 2, x)
  {
    var j := i / 2;
    var u := Move(t, i, j);
    BeforeTotal(t, t.heap[j], x);
    forall k | 2 <= k <= n ensures LinkOk(u, j, k) && (k / 2 == j ==> Before(u, x, u.heap[k])) {
      assert LinkOk(t, i, k);
      if j >= 2 { assert LinkOk(t, i, j); }
      if k / 2 == j && k != i {
        BeforeTransitive(t, x, t.heap[j], t.heap[k]);
        if j >= 2 { BeforeTransitive(t, t.heap[j / 2], t.heap[j], t.heap[k]); }
      }
    }
  }

  /** Landing between what is above and what is below the hole. */
  lemma HoleFilled(t: Table, n: int, i: int, x: int)
    requires Ordered(t, n, i) && Above(t, n, i, x) && Below(t, i, x) && 1 <= i <= n && IsEvent(t, x)
    ensures Ordered(Land(t, i, x), n, 0)
  {
    var u := Land(t, i, x);
    forall k | 2 <= k <= n ensures LinkOk(u, 0, k) {
      assert LinkOk(t, i, k);
    }
  }

  /** In an ordered heap any slot can be read as a hole. */
  lemma HoleAnywhere(t: Table, n: int, i: int)
    requires Settled(t, n) && Ordered(t, n, 0) && 1 <= i <= n
    ensures Ordered(t, n, i)
  {
    forall k | 2 <= k <= n ensures LinkOk(t, i, k) {
      assert LinkOk(t, 0, k);
      if k / 2 == i && i >= 2 {
        assert LinkOk(t, 0, i);
        BeforeTransitive(t, t.heap[i / 2], t.heap[i], t.heap[k]);
      }
    }
  }

  /** The head of an ordered heap comes before everything in it. */
  lemma {:induction false} HeadIsFirst(t: Table, n: int, k: int)
    requires Settled(t, n) && Ordered(t, n, 0) && 1 <= k <= n
    ensures Before(t, t.heap[1], t.heap[k])
    decreases k
  {
    assert SlotOk(t, 0, -1, k);
    if k > 1 {
      HeadIsFirst(t, n, k / 2);
      assert LinkOk(t, 0, k);
      BeforeTransitive(t, t.heap[1], t.heap[k / 2], t.heap[k]);
    }
  }

  // ---------------------------------------------------------------- changed keys

  /** u differs from t at most in the key of event e. */
  ghost predicate Rekeyed(t: Table, u: Table, e: int) {
    Shape(t) && Shape(u) && u.heap == t.heap && u.place == t.place &&
    forall x :: IsEvent(t, x) && x != e ==> u.priority[x] == t.priority[x] && u.stamp[x] == t.stamp[x]
  }

  /** An ordered heap in which then only the key of the queued event e was changed, or nothing. */
  ghost predicate OrderedBut(t: Table, n: int, e: int) {
    Settled(t, n) && IsEvent(t, e) &&
    if t.place[e] == 0 then Ordered(t, n, 0) else Ordered(t, n, t.place[e])
  }

  /** Any change to an event's own key is harmless to the order among the others. */
  lemma AnyKeyChange(t: Table, u: Table, n: int, e: int)
    requires Settled(t, n) && Ordered(t, n, 0) && IsEvent(t, e) && Rekeyed(t, u, e)
    ensures OrderedBut(u, n, e)
  {
    forall k | 1 <= k <= n ensures SlotOk(u, 0, -1, k) { assert SlotOk(t, 0, -1, k); }
    forall x | IsEvent(u, x) ensures EventOk(u, n, 0, -1, x) { assert EventOk(t, n, 0, -1, x); }
    assert EventOk(t, n, 0, -1, e);
    var i := t.place[e];
    if i != 0 { HoleAnywhere(t, n, i); }
    forall k | 2 <= k <= n ensures LinkOk(u, i, k) {
      assert LinkOk(t, i, k);
      assert SlotOk(t, 0, -1, k) && SlotOk(t, 0, -1, k / 2);
      if i >= 2 { assert SlotOk(t, 0, -1, i / 2); }
    }
  }

  // ---------------------------------------------------------------- what the loops start and end with

  ghost predicate SameHeap(t: Table, u: Table) {
    Shape(t) && u.heap == t.heap && |u.place| == |t.place| && u.priority == t.priority && u.stamp == t.stamp
  }

  /** A shorter heap is ordered too, and without a hole if the hole is cut off. */
  lemma OrderedFrom(t: Table, u: Table, n: int, hole: int, m: int)
    requires Ordered(t, n, hole) && SameHeap(t, u) && 0 <= m <= n
    ensures Ordered(u, m, hole) && (hole > m ==> Ordered(u, m, 0))
  {
    forall k | 2 <= k <= m ensures LinkOk(u, hole, k) && (hole > m ==> LinkOk(u, 0, k)) {
      assert LinkOk(t, hole, k);
    }
  }

  lemma OrderedTo(t: Table, n: int)
    requires Ordered(t, n, 0) && n + 1 < |t.heap|
    ensures Ordered(t, n + 1, n + 1)
  {
    var m := n + 1;
    forall k | 2 <= k <= m ensures LinkOk(t, m, k) {
      if k <= n { assert LinkOk(t, 0, k); }
    }
  }

  lemma NothingBelow(t: Table, n: int, i: int, x: int)
    requires Shape(t) && n < 2 * i && n < |t.heap|
    ensures Above(t, n, i, x)
  {
  }

  lemma StopDown(t: Table, n: int, i: int, j: int, x: int)
    requires Shape(t) && 1 <= i <= n < |t.heap| && IsEvent(t, x)
    requires if j == 0 then 2 * i > n else 2 <= j <= n && j / 2 == i && Before(t, x, t.heap[j])
    requires j != 0 ==> forall k :: 2 <= k <= n && k / 2 == i && k != j ==> Before(t, t.heap[j], t.heap[k])
    ensures Above(t, n, i, x)
  {
    forall k | 2 <= k <= n && k / 2 == i ensures Before(t, x, t.heap[k]) {
      if k != j { BeforeTransitive(t, x, t.heap[j], t.heap[k]); }
    }
  }

  lemma PlaceOf(t: Table, n: int, e: int)
    requires Settled(t, n) && IsEvent(t, e)
    ensures n < |t.heap| && (t.place[e] != 0 ==> 1 <= t.place[e] <= n && t.heap[t.place[e]] == e)
  {
    assert EventOk(t, n, 0, -1, e);
  }

  lemma SizeIsCount(t: Table, n: int)
    requires Settled(t, n)
    ensures 0 <= n < |t.heap| && (n == 0 <==> Queued(t) == {})
  {
    if n > 0 {
      assert SlotOk(t, 0, -1, 1);
      assert t.heap[1] in Queued(t);
    } else {
      forall e | IsEvent(t, e) ensures t.place[e] == 0 { PlaceOf(t, n, e); }
    }
  }

  /** The head is queued and comes before everything queued. */
  lemma HeadOfAll(t: Table, n: int)
    requires Settled(t, n) && Ordered(t, n, 0) && 1 <= n
    ensures t.heap[1] in Queued(t) && forall e :: e in Queued(t) ==> Before(t, t.heap[1], e)
  {
    assert SlotOk(t, 0, -1, 1);
    forall e | e in Queued(t) ensures Before(t, t.heap[1], e) {
      PlaceOf(t, n, e);
      HeadIsFirst(t, n, t.place[e]);
    }
  }

  lemma QueuedSame(t: Table, u: Table)
    requires t.place == u.place
    ensures Queued(t) == Queued(u)
  {
  }

  // ---------------------------------------------------------------- there is always room

  ghost function FirstEvents(m: nat): (s: set<int>)
    ensures |s| == m && forall e :: e in s <==> 0 <= e < m
  {
    if m == 0 then {} else FirstEvents(m - 1) + {m - 1}
  }

  lemma {:induction false} FitsIn(t: Table, n: int, x: int, k: nat) returns (s: set<int>)
    requires Settled(t, n) && k <= n && IsEvent(t, x) && t.place[x] == 0
    ensures |s| == k && x !in s && forall e :: e in s ==> IsEvent(t, e) && 1 <= t.place[e] <= k
  {
    s := {};
    if k > 0 {
      s := FitsIn(t, n, x, k - 1);
      assert SlotOk(t, 0, -1, k);
      s := s + {t.heap[k]};
    }
  }

  lemma SubsetSize(s: set<int>, u: set<int>)
    requires s <= u
    ensures |s| <= |u|
  {
    assert u == s + (u - s);
  }

  /** While some event is not queued, the heap array has a free slot. */
  lemma RoomForOneMore(t: Table, n: int, x: int)
    requires Settled(t, n) && IsEvent(t, x) && t.place[x] == 0
    ensures n < |t.place|
  {
    var s := FitsIn(t, n, x, n);
    assert x in FirstEvents(|t.place|);
    SubsetSize(s + {x}, FirstEvents(|t.place|));
  }

  // ---------------------------------------------------------------- the queue

  class EventQueue {
    const heap: array<int>
    const place: array<int>
    const priority: array<int>
    const stamp: array<int>
    var size: int

    ghost function T(): (t: Table)
      reads this, heap, place, priority, stamp
    {
      Table(heap[..], place[..], priority[..], stamp[..])
    }

    ghost predicate Arrays()
      reads this, heap, place, priority, stamp
    {
      heap != place && heap != priority && heap != stamp && place != priority && place != stamp &&
      priority != stamp && Shape(T())
    }

    /** Heap order, exact places. */
    ghost predicate Valid()
      reads this, heap, place, priority, stamp
    {
      Arrays() && Settled(T(), size) && Ordered(T(), size, 0)
    }

    /** Valid but for the key of event e. */
    ghost predicate ValidBut(e: int)
      reads this, heap, place, priority, stamp
    {
      Arrays() && OrderedBut(T(), size, e)
    }

    constructor (events: nat)
      ensures Valid() && Queued(T()) == {} && heap.Length == events + 1
      ensures fresh(heap) && fresh(place) && fresh(priority) && fresh(stamp)
    {
      heap := new int[events + 1](_ => 0);
      place := new int[events](_ => 0);
      priority := new int[events](_ => 0);
      stamp := new int[events](_ => 0);
      size := 0;
      new;
      assert forall e :: IsEvent(T(), e) ==> EventOk(T(), 0, 0, -1, e);
    }

    /** greater_ev: positive when x comes after y. */
    function Compare(x: int, y: int): (r: int)
      requires Arrays() && IsEvent(T(), x) && IsEvent(T(), y)
      reads this, heap, place, priority, stamp
      ensures r <= 0 <==> Before(T(), x, y)
    {
      var d := priority[x] - priority[y];
      if d != 0 then d else if stamp[x] > stamp[y] then 1 else 0
    }

    /** The loop that takes x from the hole towards the head, and settles it there. */
    method SiftUp(from: int, x: int, n: int) returns (i: int)
      requires Arrays() && Floating(T(), n, from, x) && 1 <= from <= n < heap.Length && IsEvent(T(), x)
      requires Ordered(T(), n, from) && Above(T(), n, from, x)
      modifies heap, place
      ensures Arrays() && Settled(T(), n) && Ordered(T(), n, 0) && 1 <= i <= n && place[x] == i
      ensures Queued(T()) == old(Queued(T())) + {x}
    {
      hide Floating, Ordered, Above, Queued;
      i := from;
      ghost var q := Queued(T());
      if i > 1 { MoveKeeps(T(), n, i, i / 2, x); }
      while i > 1 && Compare(heap[i / 2], x) > 0
        invariant Arrays() && Floating(T(), n, i, x) && 1 <= i <= n && IsEvent(T(), x) && Queued(T()) == q
        invariant Ordered(T(), n, i) && Above(T(), n, i, x)
        invariant i > 1 ==> IsEvent(T(), heap[i / 2])
      {
        var j := i / 2;
        var y := heap[j];
        MoveKeeps(T(), n, i, j, x);
        HoleUp(T(), n, i, x);
        ghost var t := T();
        heap[i] := y;
        place[y] := i;
        assert T() == Move(t, i, j);
        i := j;
        if i > 1 { MoveKeeps(T(), n, i, i / 2, x); }
      }
      LandKeeps(T(), n, i, x);
      HoleFilled(T(), n, i, x);
      ghost var t := T();
      heap[i] := x;
      place[x] := i;
      assert T() == Land(t, i, x);
    }

    /** The child of slot i whose event comes first; 0 when there is none. */
    method EarlierChild(i: int, n: int, ghost x: int) returns (j: int)
      requires Arrays() && Floating(T(), n, i, x) && 1 <= i <= n < heap.Length
      ensures j == 0 <==> 2 * i > n
      ensures j != 0 ==> 2 <= j <= n && j / 2 == i && IsEvent(T(), heap[j])
      ensures j != 0 ==> forall k :: 2 <= k <= n && k / 2 == i && k != j ==> Before(T(), heap[j], heap[k])
    {
      j := 2 * i;
      if j > n { return 0; }
      assert SlotOk(T(), i, x, j);
      if j < n {
        assert SlotOk(T(), i, x, j + 1);
        BeforeTotal(T(), heap[j], heap[j + 1]);
        if Compare(heap[j], heap[j + 1]) > 0 { j := j + 1; }
      }
    }

    /** pop_heap_head */
    method Pop() returns (ev: Option<int>)
      requires Valid()
      modifies this`size, heap, place
      ensures Valid() && (ev.None? <==> old(Queued(T())) == {})
      ensures ev.None? ==> T() == old(T())
      ensures ev.Some? ==> ev.value in old(Queued(T())) && Queued(T()) == old(Queued(T())) - {ev.value}
      ensures ev.Some? ==> forall e :: e in old(Queued(T())) ==>
                0 <= ev.value < priority.Length && 0 <= e < priority.Length && stamp.Length == priority.Length &&
                (priority[ev.value] < priority[e] ||
                 (priority[ev.value] == priority[e] && stamp[ev.value] <= stamp[e]))
    {
      hide Floating, Ordered, Above, Queued;
      var n := size;
      SizeIsCount(T(), n);
      if n == 0 { return None; }
      var head := heap[1];
      HeadOfAll(T(), n);
      Lift(T(), n, 1);
      HoleAnywhere(T(), n, 1);
      Forget(T(), n, 1, head);
      ghost var t0 := T();
      place[head] := 0;
      assert T() == t0.(place := t0.place[head := 0]);
      OrderedFrom(t0, T(), n, 1, n);
      size := size - 1;
      if size == 0 {
        Shorten(T(), n, head);
        OrderedFrom(T(), T(), n, 1, 0);
        return Some(head);
      }
      TakeLast(T(), n, 1, head);
      OrderedFrom(T(), T(), n, 1, n - 1);
      var x := heap[n];
      SiftDown(x, n - 1);
      return Some(head);
    }

    /** The loop of pop_heap_head that takes x from the head down. */
    method SiftDown(x: int, n: int)
      requires Arrays() && Floating(T(), n, 1, x) && 1 <= n < heap.Length && IsEvent(T(), x) && Ordered(T(), n, 1)
      modifies heap, place
      ensures Arrays() && Settled(T(), n) && Ordered(T(), n, 0)
      ensures Queued(T()) == old(Queued(T())) + {x}
    {
      hide Floating, Ordered, Queued;
      var i := 1;
      ghost var q := Queued(T());
      var j := EarlierChild(i, n, x);
      while j != 0 && Compare(x, heap[j]) > 0
        invariant Arrays() && Floating(T(), n, i, x) && 1 <= i <= n && IsEvent(T(), x) && Queued(T()) == q
        invariant Ordered(T(), n, i) && Below(T(), i, x)
        invariant j == 0 <==> 2 * i > n
        invariant j != 0 ==> 2 <= j <= n && j / 2 == i && IsEvent(T(), heap[j])
        invariant j != 0 ==> forall k :: 2 <= k <= n && k / 2 == i && k != j ==> Before(T(), heap[j], heap[k])
        decreases n - i
      {
        var y := heap[j];
        MoveKeeps(T(), n, i, j, x);
        HoleDown(T(), n, i, j);
        BeforeTotal(T(), x, y);
        ghost var t := T();
        heap[i] := y;
        place[y] := i;
        assert T() == Move(t, i, j);
        i := j;
        j := EarlierChild(i, n, x);
      }
      StopDown(T(), n, i, j, x);
      LandKeeps(T(), n, i, x);
      HoleFilled(T(), n, i, x);
      ghost var t := T();
      heap[i] := x;
      place[x] := i;
      assert T() == Land(t, i, x);
    }

    /** The loop of remove_event_from_heap: the event's place becomes a hole, which goes down to a leaf. */
    method Hollow(e: int) returns (i: int)
      requires ValidBut(e) && place[e] != 0
      modifies heap, place
      ensures Arrays() && Floating(T(), size, i, e) && Ordered(T(), size, i) && IsEvent(T(), e) && place[e] == 0
      ensures 1 <= i <= size < heap.Length && size < 2 * i && Queued(T()) == old(Queued(T())) - {e}
    {
      hide Floating, Ordered, Queued;
      var n := size;
      i := place[e];
      PlaceOf(T(), n, e);
      Lift(T(), n, i);
      Forget(T(), n, i, e);
      ghost var t0 := T();
      place[e] := 0;
      assert T() == t0.(place := t0.place[e := 0]);
      OrderedFrom(t0, T(), n, i, n);
      ghost var q := Queued(T());
      var j := EarlierChild(i, n, e);
      while j != 0
        invariant Arrays() && Floating(T(), n, i, e) && Ordered(T(), n, i) && 1 <= i <= n && Queued(T()) == q
        invariant IsEvent(T(), e) && place[e] == 0 && (j == 0 <==> 2 * i > n)
        invariant j != 0 ==> 2 <= j <= n && j / 2 == i && IsEvent(T(), heap[j])
        invariant j != 0 ==> forall k :: 2 <= k <= n && k / 2 == i && k != j ==> Before(T(), heap[j], heap[k])
        decreases n - i
      {
        MoveKeeps(T(), n, i, j, e);
        HoleDown(T(), n, i, j);
        ghost var t := T();
        heap[i] := heap[j];
        place[heap[i]] := i;
        assert T() == Move(t, i, j);
        i := j;
        j := EarlierChild(i, n, e);
      }
    }

    /** remove_event_from_heap without a hole; the event's own key may have been changed before. */
    method Remove(e: int) returns (r: int)
      requires ValidBut(e)
      modifies this`size, heap, place
      ensures old(place[e]) == 0 ==> r == 0 && T() == old(T()) && size == old(size)
      ensures old(place[e]) != 0 ==> r == old(size) && size == old(size) - 1
      ensures Valid() && Queued(T()) == old(Queued(T())) - {e}
    {
      hide Floating, Ordered, Above;
      if place[e] == 0 { return 0; }
      var n := size;
      var i := Hollow(e);
      OrderedFrom(T(), T(), n, i, n - 1);
      if i < n {
        TakeLast(T(), n, i, e);
        NothingBelow(T(), n - 1, i, heap[n]);
        var at := SiftUp(i, heap[n], n - 1);
      } else {
        Shorten(T(), n, e);
      }
      size := size - 1;
      return n;
    }

    /** put_event_into_heap: queues the event, or restores the order after its own key was changed. */
    method Put(e: int) returns (i: int)
      requires ValidBut(e)
      modifies this`size, heap, place
      ensures Valid() && Queued(T()) == old(Queued(T())) + {e} && place[e] == i && 1 <= i <= place.Length
      ensures size == if old(place[e]) == 0 then old(size) + 1 else old(size)
    {
      hide Floating, Ordered, Above;
      if place[e] != 0 {
        i := Hollow(e);
      } else {
        SizeIsCount(T(), size);
        RoomForOneMore(T(), size, e);
        Lengthen(T(), size, e);
        OrderedTo(T(), size);
        size := size + 1;
        i := size;
      }
      NothingBelow(T(), size, i, e);
      i := SiftUp(i, e, size);
    }

    /** put_event_into_heap_tail, and the arrival of an event in epoll_fetch_events: a new time stamp for
        an event that may be queued already. */
    method PutAt(e: int, time: int) returns (i: int)
      requires Valid() && IsEvent(T(), e)
      modifies this`size, heap, place, stamp
      ensures Valid() && Queued(T()) == old(Queued(T())) + {e} && place[e] == i
      ensures stamp[..] == old(stamp[..])[e := time]
    {
      hide Floating, Ordered, Queued;
      ghost var t := T();
      stamp[e] := time;
      assert T() == t.(stamp := t.stamp[e := time]);
      AnyKeyChange(t, T(), size, e);
      QueuedSame(t, T());
      i := Put(e);
    }
  }
}
