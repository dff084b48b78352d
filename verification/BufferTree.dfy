/**
 The counting tree of a chunk of message buffers. Node i of the array counts the free buffers
 below it; its children are 2i and 2i + 1, and the leaves start at a power of two.
 */
module BufferTree {
  import opened Arithmetic

  predicate PowerOfTwo(n: nat) {
    n == 1 || (n > 1 && n % 2 == 0 && PowerOfTwo(n / 2))
  }

  predicate Node(t: seq<nat>, i: nat) {
    0 < i && 2 * i + 1 < |t| && t[i] == t[2 * i] + t[2 * i + 1]
  }

  /** Every inner node is the sum of its children and every leaf is 0 or 1. */
  ghost predicate Tree(t: seq<nat>, tp: nat) {
    PowerOfTwo(tp) && |t| == 2 * tp &&
    (forall i :: 1 <= i < tp ==> Node(t, i)) &&
    (forall i :: tp <= i < 2 * tp ==> t[i] <= 1)
  }

  // ---------------------------------------------------------------- counting leaves

  /** The number of free buffers in [l, r). */
  ghost function Count(f: seq<nat>, l: nat, r: nat): nat
    requires l <= r <= |f|
  {
    if l == r then 0 else Count(f, l, r - 1) + f[r - 1]
  }

  ghost predicate NoneFree(f: seq<nat>, l: nat, r: nat)
    requires r <= |f|
  {
    forall z :: l <= z < r ==> f[z] == 0
  }

  lemma {:induction false} CountSplit(f: seq<nat>, l: nat, m: nat, r: nat)
    requires l <= m <= r <= |f|
    ensures Count(f, l, r) == Count(f, l, m) + Count(f, m, r)
    decreases r
  {
    if m < r { CountSplit(f, l, m, r - 1); }
  }

  lemma {:induction false} CountZero(f: seq<nat>, l: nat, r: nat)
    requires l <= r <= |f|
    ensures Count(f, l, r) == 0 <==> NoneFree(f, l, r)
    decreases r
  {
    if l < r { CountZero(f, l, r - 1); }
  }

  lemma {:induction false} CountBound(f: seq<nat>, l: nat, r: nat)
    requires l <= r <= |f| && forall z :: 0 <= z < |f| ==> f[z] <= 1
    ensures Count(f, l, r) <= r - l
    decreases r
  {
    if l < r { CountBound(f, l, r - 1); }
  }

  /** Node i spans the w leaves from l on. */
  ghost predicate Spans(tp: nat, i: nat, l: nat, w: nat) {
    PowerOfTwo(w) && i * w == tp + l && l + w <= tp
  }

  lemma Halves(tp: nat, i: nat, l: nat, w: nat)
    requires Spans(tp, i, l, w) && PowerOfTwo(tp) && i < tp
    ensures 1 < w && w % 2 == 0 && 1 <= i
    ensures Spans(tp, 2 * i, l, w / 2) && Spans(tp, 2 * i + 1, l + w / 2, w / 2)
  {
    assert w == 1 ==> i == tp + l;
    var h := w / 2;
    assert w == 2 * h;
    assert 2 * i * h == i * w;
    assert (2 * i + 1) * h == i * w + h;
  }

  /** A node at the bottom spans its own leaf, and only there is the span a single leaf. */
  lemma AtLeaf(tp: nat, i: nat, l: nat, w: nat)
    requires Spans(tp, i, l, w) && i >= tp
    ensures w == 1 && i == tp + l
  {
    if w >= 2 {
      assert i * w >= tp * w by { MulMono(tp, i, w); }
      assert tp * w >= tp * 2 by { MulMono(2, w, tp); }
    }
  }

  /** What a node holds is the number of free leaves it spans. */
  lemma {:induction false} NodeCount(t: seq<nat>, tp: nat, i: nat, l: nat, w: nat)
    requires Tree(t, tp) && Spans(tp, i, l, w)
    ensures i < 2 * tp && t[i] == Count(t[tp..], l, l + w)
    decreases w
  {
    if i >= tp {
      AtLeaf(tp, i, l, w);
      assert Count(t[tp..], l, l) == 0;
    } else {
      Halves(tp, i, l, w);
      NodeCount(t, tp, 2 * i, l, w / 2);
      NodeCount(t, tp, 2 * i + 1, l + w / 2, w / 2);
      CountSplit(t[tp..], l, l + w / 2, l + w);
      assert Node(t, i);
    }
  }

  lemma RootSpan(tp: nat)
    requires PowerOfTwo(tp)
    ensures Spans(tp, 1, 0, tp)
  {
  }

  // ---------------------------------------------------------------- paths to the root

  /** n is `leaf` or one of its ancestors. */
  predicate OnPath(n: nat, leaf: nat)
  {
    0 < n <= leaf && (n == leaf || OnPath(n, leaf / 2))
  }

  lemma {:induction false} PathSplits(i: nat, leaf: nat)
    requires i >= 1
    ensures OnPath(2 * i, leaf) || OnPath(2 * i + 1, leaf) <==> OnPath(i, leaf) && i != leaf
    ensures !(OnPath(2 * i, leaf) && OnPath(2 * i + 1, leaf))
    decreases leaf
  {
    if leaf > 0 && leaf / 2 != i { PathSplits(i, leaf / 2); }
  }

  /** A path that contains a free leaf has something to give back at every node. */
  lemma {:induction false} PathPositive(t: seq<nat>, tp: nat, n: nat, leaf: nat)
    requires Tree(t, tp) && OnPath(n, leaf) && leaf < 2 * tp && t[leaf] >= 1
    ensures t[n] >= 1
    decreases leaf
  {
    if n != leaf {
      var p := leaf / 2;
      assert Node(t, p);
      assert leaf == 2 * p || leaf == 2 * p + 1;
      PathPositive(t, tp, n, p);
    }
  }

  /** The tree with every node on the path to `leaf` changed by d. */
  ghost predicate Shifted(t: seq<nat>, t': seq<nat>, leaf: nat, d: int) {
    |t'| == |t| && forall n :: 0 <= n < |t| ==> t'[n] == if OnPath(n, leaf) then t[n] + d else t[n]
  }

  lemma ShiftedNode(t: seq<nat>, t': seq<nat>, tp: nat, leaf: nat, d: int, i: nat)
    requires Tree(t, tp) && Shifted(t, t', leaf, d) && 1 <= i < tp <= leaf
    ensures Node(t', i)
  {
    assert Node(t, i);
    PathSplits(i, leaf);
  }

  /** Taking or returning one leaf and adjusting its path leaves a tree. */
  lemma ShiftedTree(t: seq<nat>, t': seq<nat>, tp: nat, leaf: nat, d: int)
    requires Tree(t, tp) && tp <= leaf < 2 * tp && Shifted(t, t', leaf, d)
    requires (d == 1 && t[leaf] == 0) || (d == -1 && t[leaf] == 1)
    ensures Tree(t', tp)
    ensures t'[tp..] == t[tp..][leaf - tp := if d == 1 then 1 else 0]
  {
    forall i | 1 <= i < tp ensures Node(t', i) { ShiftedNode(t, t', tp, leaf, d, i); }
    forall i | tp <= i < 2 * tp ensures OnPath(i, leaf) <==> i == leaf { }
  }

  /** Taking a leaf and giving it back restores every counter. */
  lemma TakeAndGiveBack(t: seq<nat>, t1: seq<nat>, t2: seq<nat>, leaf: nat)
    requires Shifted(t, t1, leaf, -1) && Shifted(t1, t2, leaf, 1)
    ensures t2 == t
  {
  }

  /** The counters are a function of the leaves. */
  lemma LeavesDecide(t: seq<nat>, t': seq<nat>, tp: nat)
    requires Tree(t, tp) && Tree(t', tp) && t[tp..] == t'[tp..]
    ensures t[1..] == t'[1..]
  {
    forall i | 1 <= i < 2 * tp ensures t[i] == t'[i] { SameNode(t, t', tp, i); }
  }

  lemma {:induction false} SameNode(t: seq<nat>, t': seq<nat>, tp: nat, i: nat)
    requires Tree(t, tp) && Tree(t', tp) && t[tp..] == t'[tp..] && 1 <= i < 2 * tp
    ensures t[i] == t'[i]
    decreases 2 * tp - i
  {
    if i >= tp {
      assert t[i] == t[tp..][i - tp] && t'[i] == t'[tp..][i - tp];
    } else {
      assert Node(t, i) && Node(t', i);
      SameNode(t, t', tp, 2 * i);
      SameNode(t, t', tp, 2 * i + 1);
    }
  }

  // ---------------------------------------------------------------- what the searches find

  /** y is the j-th free buffer, counting from 0. */
  ghost predicate IsRank(f: seq<nat>, j: nat, y: nat) {
    y < |f| && f[y] == 1 && Count(f, 0, y) == j
  }

  /** y is the first free buffer after x or, when there is none, the first of all. */
  ghost predicate IsNext(f: seq<nat>, x: nat, y: nat) {
    x < |f| && y < |f| && f[y] == 1 &&
    if x < y then NoneFree(f, x + 1, y) else NoneFree(f, x + 1, |f|) && NoneFree(f, 0, y)
  }

  lemma {:induction false} CountMono(f: seq<nat>, l: nat, m: nat, r: nat)
    requires l <= m <= r <= |f|
    ensures Count(f, l, m) <= Count(f, l, r)
    decreases r
  {
    if m < r { CountMono(f, l, m, r - 1); }
  }

  /** Only one buffer has a given rank. */
  lemma RankUnique(f: seq<nat>, j: nat, y: nat, y': nat)
    requires IsRank(f, j, y) && IsRank(f, j, y')
    ensures y == y'
  {
    if y < y' { CountMono(f, 0, y + 1, y'); }
    if y' < y { CountMono(f, 0, y' + 1, y); }
  }

  lemma NextUnique(f: seq<nat>, x: nat, y: nat, y': nat)
    requires IsNext(f, x, y) && IsNext(f, x, y')
    ensures y == y'
  {
  }

  // ---------------------------------------------------------------- the operations on the array

  /** The set-up loop of alloc_new_msg_buffers_chunk. */
  method Build(tp: nat, tot: nat) returns (a: array<nat>)
    requires PowerOfTwo(tp) && tot <= tp
    ensures fresh(a) && Tree(a[..], tp)
    ensures forall i :: tp <= i < 2 * tp ==> a[i] == if i < tp + tot then 1 else 0
  {
    a := new nat[2 * tp](_ => 0);
    var i := 0;
    while i < tot
      invariant 0 <= i <= tot
      invariant forall k :: tp <= k < 2 * tp ==> a[k] == if k < tp + i then 1 else 0
    {
      a[tp + i] := 1;
      i := i + 1;
    }
    i := tp - 1;
    while i > 0
      invariant 0 <= i < tp
      invariant forall k :: tp <= k < 2 * tp ==> a[k] == if k < tp + tot then 1 else 0
      invariant forall k :: i < k < tp ==> Node(a[..], k)
    {
      ghost var t := a[..];
      a[i] := a[2 * i] + a[2 * i + 1];
      forall k | i <= k < tp ensures Node(a[..], k) {
        assert k > i ==> Node(t, k);
      }
      i := i - 1;
    }
  }

  /** s is t with one less at the nodes of the path that lie below `from`. */
  ghost predicate TakenBelow(t: seq<nat>, s: seq<nat>, leaf: nat, from: nat) {
    |s| == |t| &&
    forall n :: 0 <= n < |t| ==> s[n] + (if OnPath(n, leaf) && n > from then 1 else 0) == t[n]
  }

  /** The decrements from node `from` up to the root; the path below `from` is already done. */
  method TakeUp(a: array<nat>, tp: nat, leaf: nat, from: nat, ghost t: seq<nat>)
    requires Tree(t, tp) && tp <= leaf < 2 * tp && t[leaf] == 1
    requires OnPath(from, leaf) && TakenBelow(t, a[..], leaf, from)
    modifies a
    ensures Shifted(t, a[..], leaf, -1)
  {
    var k := from;
    while k > 0
      invariant 0 <= k < 2 * tp && (k > 0 ==> OnPath(k, leaf))
      invariant TakenBelow(t, a[..], leaf, k)
    {
      PathPositive(t, tp, k, leaf);
      NextOnPath(k, leaf);
      assert a[k] == a[..][k];
      a[k] := a[k] - 1;
      k := k / 2;
    }
  }

  /** Between a node and its parent there is no other node of the path. */
  lemma {:induction false} NextOnPath(k: nat, leaf: nat)
    requires OnPath(k, leaf)
    ensures forall n: nat :: OnPath(n, leaf) && n < k ==> n <= k / 2
    ensures k / 2 > 0 ==> OnPath(k / 2, leaf)
    decreases leaf
  {
    if k != leaf {
      NextOnPath(k, leaf / 2);
    }
    forall n: nat | OnPath(n, leaf) && n < k ensures n <= k / 2 {
      assert OnPath(n, leaf / 2);
      PathBelow(n, leaf / 2);
    }
  }

  lemma PathBelow(n: nat, leaf: nat)
    requires OnPath(n, leaf)
    ensures n <= leaf
  {
  }

  // ---------------------------------------------------------------- taking the j-th free buffer

  /** s is t with one less at the proper ancestors of i. */
  ghost predicate TakenAbove(t: seq<nat>, s: seq<nat>, i: nat) {
    |s| == |t| &&
    forall n :: 0 <= n < |t| ==> s[n] + (if OnPath(n, i) && n < i then 1 else 0) == t[n]
  }

  lemma TakenOne(t: seq<nat>, s: seq<nat>, s': seq<nat>, i: nat, c: nat)
    requires TakenAbove(t, s, i) && 1 <= i < |t| && (c == 2 * i || c == 2 * i + 1)
    requires s[i] > 0 && s' == s[i := s[i] - 1]
    ensures TakenAbove(t, s', c)
  {
    forall n | 0 <= n < |t| ensures s'[n] + (if OnPath(n, c) && n < c then 1 else 0) == t[n] {
      assert OnPath(n, c) && n < c <==> OnPath(n, i);
    }
  }

  /** The free leaves to the left of the span and the rank left to go add up to j. */
  ghost predicate Ranked(f: seq<nat>, j0: nat, j: nat, l: nat, w: nat) {
    l + w <= |f| && Count(f, 0, l) + j == j0 && j < Count(f, l, l + w)
  }

  /** The left child is passed over exactly when its free leaves do not reach rank j. */
  lemma RankStep(t: seq<nat>, tp: nat, i: nat, l: nat, w: nat, j0: nat, j: nat)
    requires Tree(t, tp) && Spans(tp, i, l, w) && i < tp && Ranked(t[tp..], j0, j, l, w)
    ensures 2 * i + 1 < 2 * tp && w % 2 == 0
    ensures t[2 * i] <= j ==>
              Spans(tp, 2 * i + 1, l + w / 2, w / 2) && Ranked(t[tp..], j0, j - t[2 * i], l + w / 2, w / 2)
    ensures t[2 * i] > j ==> Spans(tp, 2 * i, l, w / 2) && Ranked(t[tp..], j0, j, l, w / 2)
  {
    hide Spans, Count;
    Halves(tp, i, l, w);
    NodeCount(t, tp, 2 * i, l, w / 2);
    assert l + w <= |t[tp..]|;
    CountSplit(t[tp..], l, l + w / 2, l + w);
    CountSplit(t[tp..], 0, l, l + w / 2);
  }

  /** The random path of alloc_msg_buffer_internal: the leaf of the j-th free buffer. */
  method TakeRank(a: array<nat>, tp: nat, rank: nat) returns (i: nat)
    requires Tree(a[..], tp) && rank < a[1]
    modifies a
    ensures tp <= i < 2 * tp
    ensures IsRank(old(a[..])[tp..], rank, i - tp)
    ensures Shifted(old(a[..]), a[..], i, -1)
  {
    hide Spans, Ranked, Count;
    ghost var t := a[..];
    i := 1;
    var j := rank;
    ghost var l, w := 0, tp;
    RootSpan(tp);
    NodeCount(t, tp, 1, 0, tp);
    RankStart(t[tp..], rank);
    while i < tp
      invariant 1 <= i < 2 * tp && Spans(tp, i, l, w)
      invariant Ranked(t[tp..], rank, j, l, w)
      invariant TakenAbove(t, a[..], i)
    {
      RankStep(t, tp, i, l, w, rank, j);
      RankPositive(t, tp, i, l, w, rank, j);
      ghost var s := a[..];
      assert s[i] == t[i] && s[2 * i] == t[2 * i] && a[2 * i] == s[2 * i];
      a[i] := a[i] - 1;
      TakenOne(t, s, a[..], i, 2 * i);
      TakenOne(t, s, a[..], i, 2 * i + 1);
      i := 2 * i;
      w := w / 2;
      if a[i] <= j {
        j := j - a[i];
        i := i + 1;
        l := l + w;
      }
    }
    RankEnd(t, tp, i, l, w, rank, j);
    ghost var s := a[..];
    assert s[i] == t[i];
    a[i] := a[i] - 1;
    TakenAll(t, s, a[..], i);
  }

  lemma RankStart(f: seq<nat>, rank: nat)
    requires rank < Count(f, 0, |f|)
    ensures Ranked(f, rank, rank, 0, |f|)
  {
  }

  lemma RankPositive(t: seq<nat>, tp: nat, i: nat, l: nat, w: nat, j0: nat, j: nat)
    requires Tree(t, tp) && Spans(tp, i, l, w) && Ranked(t[tp..], j0, j, l, w)
    ensures i < 2 * tp && t[i] > j
  {
    NodeCount(t, tp, i, l, w);
  }

  lemma RankEnd(t: seq<nat>, tp: nat, i: nat, l: nat, w: nat, j0: nat, j: nat)
    requires Tree(t, tp) && tp <= i < 2 * tp && Spans(tp, i, l, w) && Ranked(t[tp..], j0, j, l, w)
    ensures IsRank(t[tp..], j0, i - tp) && t[i] == 1
  {
    RankPositive(t, tp, i, l, w, j0, j);
    AtLeaf(tp, i, l, w);
    assert t[tp..][l] == t[i];
  }

  lemma TakenAll(t: seq<nat>, s: seq<nat>, s': seq<nat>, i: nat)
    requires TakenAbove(t, s, i) && i < |t| && s[i] > 0 && s' == s[i := s[i] - 1]
    requires i > 0
    ensures Shifted(t, s', i, -1)
  {
  }

  // ---------------------------------------------------------------- taking the next free buffer

  /** Where the search for a buffer after x stands at node i, with j the node to fall back to. */
  ghost predicate Searching(f: seq<nat>, tp: nat, x: nat, i: nat, l: nat, w: nat, j: nat, jl: nat, jw: nat) {
    |f| == tp && Spans(tp, i, l, w) && Spans(tp, j, jl, jw) && Count(f, l, l + w) > 0 &&
    if l <= x < l + w then
      if j == 1 then NoneFree(f, l + w, tp)
      else l + w <= jl && NoneFree(f, l + w, jl) && Count(f, jl, jl + jw) > 0
    else x < l && NoneFree(f, x + 1, l)
  }

  lemma ChildPath(i: nat, c: nat)
    requires i > 0 && (c == 2 * i || c == 2 * i + 1)
    ensures forall n: nat :: OnPath(n, c) <==> n == c || OnPath(n, i)
  {
  }

  lemma TakenChild(t: seq<nat>, s: seq<nat>, s': seq<nat>, i: nat, c: nat, from: nat)
    requires TakenBelow(t, s, i, from) && 0 < i && c < |t| && (c == 2 * i || c == 2 * i + 1)
    requires OnPath(from, i)
    ensures s[c] == t[c] && OnPath(from, c)
    ensures s[c] > 0 && s' == s[c := s[c] - 1] ==> TakenBelow(t, s', c, from)
  {
    ChildPath(i, c);
    PathBelow(from, i);
    if OnPath(c, i) { PathBelow(c, i); }
  }

  /** The leftmost of the two children that has something free. */
  lemma LeftmostStep(t: seq<nat>, tp: nat, i: nat, l: nat, w: nat)
    requires Tree(t, tp) && Spans(tp, i, l, w) && i < tp && Count(t[tp..], l, l + w) > 0
    ensures 2 * i + 1 < 2 * tp && w % 2 == 0 && t[i] == t[2 * i] + t[2 * i + 1] && i > 0 && t[i] > 0
    ensures Spans(tp, 2 * i, l, w / 2) && Spans(tp, 2 * i + 1, l + w / 2, w / 2)
    ensures t[2 * i] == Count(t[tp..], l, l + w / 2)
    ensures t[2 * i + 1] == Count(t[tp..], l + w / 2, l + w)
    ensures t[2 * i] == 0 <==> NoneFree(t[tp..], l, l + w / 2)
    ensures t[2 * i + 1] == 0 <==> NoneFree(t[tp..], l + w / 2, l + w)
  {
    hide Spans, Count;
    Halves(tp, i, l, w);
    NodeCount(t, tp, 2 * i, l, w / 2);
    NodeCount(t, tp, 2 * i + 1, l + w / 2, w / 2);
    assert l + w <= tp by { SpanFits(tp, i, l, w); }
    CountSplit(t[tp..], l, l + w / 2, l + w);
    CountZero(t[tp..], l, l + w / 2);
    CountZero(t[tp..], l + w / 2, l + w);
    assert Node(t, i);
  }

  lemma SpanFits(tp: nat, i: nat, l: nat, w: nat)
    requires Spans(tp, i, l, w)
    ensures l + w <= tp
  {
  }

  lemma LeafFree(t: seq<nat>, tp: nat, i: nat, l: nat, w: nat)
    requires Tree(t, tp) && Spans(tp, i, l, w) && i >= tp && Count(t[tp..], l, l + w) > 0
    ensures w == 1 && i == tp + l && i < 2 * tp && t[i] == 1
  {
    AtLeaf(tp, i, l, w);
    assert Count(t[tp..], l, l) == 0;
    assert t[tp..][l] == t[i];
  }

  /** The descent to the first free leaf below `from`, counting down on the way. */
  method TakeFirst(a: array<nat>, tp: nat, from: nat, ghost jl: nat, ghost jw: nat) returns (i: nat)
    requires Tree(a[..], tp) && Spans(tp, from, jl, jw) && 0 < from
    requires Count(a[..][tp..], jl, jl + jw) > 0
    modifies a
    ensures tp <= i < 2 * tp && OnPath(from, i) && TakenBelow(old(a[..]), a[..], i, from)
    ensures old(a[..])[i] == 1 && jl <= i - tp && NoneFree(old(a[..])[tp..], jl, i - tp)
  {
    hide Spans, Count;
    ghost var t := a[..];
    i := from;
    ghost var l: nat, w: nat := jl, jw;
    SpanFits(tp, from, jl, jw);
    while i < tp
      invariant 0 < i && Spans(tp, i, l, w) && jl <= l && l + w <= tp
      invariant Count(t[tp..], l, l + w) > 0 && NoneFree(t[tp..], jl, l)
      invariant OnPath(from, i) && TakenBelow(t, a[..], i, from)
    {
      LeftmostStep(t, tp, i, l, w);
      ghost var s := a[..];
      TakenChild(t, s, [], i, 2 * i, from);
      TakenChild(t, s, [], i, 2 * i + 1, from);
      ghost var parent := i;
      i := 2 * i;
      w := w / 2;
      assert a[i] == s[i];
      if a[i] == 0 {
        i := i + 1;
        l := l + w;
      }
      assert a[i] == s[i];
      a[i] := a[i] - 1;
      TakenChild(t, s, a[..], parent, i, from);
    }
    LeafFree(t, tp, i, l, w);
  }

  /** The search position after one step down, to the left or to the right. */
  lemma SearchLeft(t: seq<nat>, tp: nat, x: nat, i: nat, l: nat, w: nat, j: nat, jl: nat, jw: nat)
    requires Tree(t, tp) && i < tp && Searching(t[tp..], tp, x, i, l, w, j, jl, jw)
    requires x < l + w / 2 && 2 * i + 1 < 2 * tp && t[2 * i] > 0
    ensures t[2 * i + 1] > 0 ==> Searching(t[tp..], tp, x, 2 * i, l, w / 2, 2 * i + 1, l + w / 2, w / 2)
    ensures t[2 * i + 1] == 0 ==> Searching(t[tp..], tp, x, 2 * i, l, w / 2, j, jl, jw)
  {
    hide Spans, Count;
    LeftmostStep(t, tp, i, l, w);
  }

  lemma SearchRight(t: seq<nat>, tp: nat, x: nat, i: nat, l: nat, w: nat, j: nat, jl: nat, jw: nat)
    requires Tree(t, tp) && i < tp && Searching(t[tp..], tp, x, i, l, w, j, jl, jw)
    requires 2 * i + 1 < 2 * tp && t[2 * i + 1] > 0 && (x < l + w / 2 ==> t[2 * i] == 0)
    ensures Searching(t[tp..], tp, x, 2 * i + 1, l + w / 2, w / 2, j, jl, jw)
  {
    hide Spans, Count;
    LeftmostStep(t, tp, i, l, w);
  }

  /** When nothing is left to the right of x in its span, the fallback holds the answer. */
  lemma SearchOver(t: seq<nat>, tp: nat, x: nat, i: nat, l: nat, w: nat, j: nat, jl: nat, jw: nat, y: nat)
    requires Tree(t, tp) && x < tp && i < tp && Searching(t[tp..], tp, x, i, l, w, j, jl, jw)
    requires 2 * i + 1 < 2 * tp && t[2 * i + 1] == 0 && x >= l + w / 2
    ensures Count(t[tp..], jl, jl + jw) > 0 && 0 < j
    ensures jl <= y < tp && t[tp..][y] == 1 && NoneFree(t[tp..], jl, y) ==> IsNext(t[tp..], x, y)
  {
    hide Count;
    LeftmostStep(t, tp, i, l, w);
    assert NoneFree(t[tp..], x + 1, l + w);
    if j == 1 {
      RootJ(tp, jl, jw);
      CountSplit(t[tp..], 0, l, tp);
      CountSplit(t[tp..], l, l + w, tp);
    } else {
      PositiveJ(tp, j, jl, jw);
    }
  }

  lemma RootJ(tp: nat, jl: nat, jw: nat)
    requires Spans(tp, 1, jl, jw)
    ensures jl == 0 && jw == tp
  {
  }

  lemma PositiveJ(tp: nat, j: nat, jl: nat, jw: nat)
    requires Spans(tp, j, jl, jw)
    ensures j > 0
  {
  }

  lemma SearchDone(t: seq<nat>, tp: nat, x: nat, i: nat, l: nat, w: nat, j: nat, jl: nat, jw: nat)
    requires Tree(t, tp) && x < tp <= i && t[tp + x] == 0 && Searching(t[tp..], tp, x, i, l, w, j, jl, jw)
    ensures i < 2 * tp && IsNext(t[tp..], x, i - tp) && t[i] == 1
  {
    hide Count;
    LeafFree(t, tp, i, l, w);
  }

  /** The neighbor path of alloc_msg_buffer_internal: the first free buffer after x, cyclically. */
  method TakeNext(a: array<nat>, tp: nat, x: nat) returns (i: nat)
    requires Tree(a[..], tp) && x < tp && a[tp + x] == 0 && a[1] > 0
    modifies a
    ensures tp <= i < 2 * tp
    ensures IsNext(old(a[..])[tp..], x, i - tp)
    ensures Shifted(old(a[..]), a[..], i, -1)
  {
    hide Spans, Count, Searching, Tree, IsNext, TakenBelow, Shifted, OnPath, NoneFree;
    ghost var t := a[..];
    TreeLength(t, tp);
    ghost var f := t[tp..];
    i := 1;
    var k := 0;
    if x < tp - 1 && a[tp + x + 1] != 0 {
      i := tp + x + 1;
      NextDoor(t, tp, x);
    } else {
      var j, l, r := 1, 0, tp;
      ghost var jl, jw := 0, tp;
      SearchStart(t, tp, x);
      while i < tp
        invariant k == 0 && 0 < i && l <= r && a[..] == t
        invariant Searching(f, tp, x, i, l, r - l, j, jl, jw)
        decreases 2 * tp - i
      {
        SearchBounds(t, tp, x, i, l, r - l, j, jl, jw);
        i := 2 * i;
        var m := (l + r) / 2;
        if x < m {
          if a[i] > 0 {
            SearchLeft(t, tp, x, i / 2, l, r - l, j, jl, jw);
            r := m;
            if a[i + 1] > 0 {
              j, jl, jw := i + 1, m, m - l;
            }
          } else {
            SearchRight(t, tp, x, i / 2, l, r - l, j, jl, jw);
            l := m;
            i := i + 1;
          }
        } else if a[i + 1] > 0 {
          SearchRight(t, tp, x, i / 2, l, r - l, j, jl, jw);
          l := m;
          i := i + 1;
        } else {
          SearchOver(t, tp, x, i / 2, l, r - l, j, jl, jw, 0);
          k := j;
          ghost var parent := i / 2;
          i := TakeFirst(a, tp, j, jl, jw);
          SearchOver(t, tp, x, parent, l, r - l, j, jl, jw, i - tp);
          break;
        }
      }
      if k == 0 { SearchDone(t, tp, x, i, l, r - l, j, jl, jw); }
    }
    if k == 0 {
      k := i;
      NoneTaken(t, i);
    }
    TakeUp(a, tp, i, k, t);
  }

  lemma TreeLength(t: seq<nat>, tp: nat)
    requires Tree(t, tp)
    ensures |t| == 2 * tp && tp > 0
  {
  }

  lemma NextDoor(t: seq<nat>, tp: nat, x: nat)
    requires Tree(t, tp) && x + 1 < tp && t[tp + x + 1] > 0
    ensures IsNext(t[tp..], x, x + 1) && t[tp + x + 1] == 1
  {
  }

  lemma NoneTaken(t: seq<nat>, i: nat)
    requires 0 < i
    ensures OnPath(i, i) && TakenBelow(t, t, i, i)
  {
    forall n | 0 <= n < |t| && n > i ensures !OnPath(n, i) { }
  }

  lemma SearchStart(t: seq<nat>, tp: nat, x: nat)
    requires Tree(t, tp) && x < tp && t[1] > 0
    ensures Searching(t[tp..], tp, x, 1, 0, tp, 1, 0, tp)
  {
    hide Count;
    RootSpan(tp);
    NodeCount(t, tp, 1, 0, tp);
  }

  lemma SearchBounds(t: seq<nat>, tp: nat, x: nat, i: nat, l: nat, w: nat, j: nat, jl: nat, jw: nat)
    requires Tree(t, tp) && i < tp && Searching(t[tp..], tp, x, i, l, w, j, jl, jw)
    ensures 2 * i + 1 < 2 * tp && w % 2 == 0 && t[i] == t[2 * i] + t[2 * i + 1] && t[i] > 0 && Spans(tp, j, jl, jw)
  {
    hide Spans, Count;
    LeftmostStep(t, tp, i, l, w);
  }

  // ---------------------------------------------------------------- giving a buffer back

  /** The loop of free_std_msg_buffer. */
  method GiveBack(a: array<nat>, tp: nat, leaf: nat)
    requires Tree(a[..], tp) && tp <= leaf < 2 * tp && a[leaf] == 0
    modifies a
    ensures Shifted(old(a[..]), a[..], leaf, 1)
  {
    ghost var t := a[..];
    var x := leaf;
    while x > 0
      invariant 0 <= x < 2 * tp && (x > 0 ==> OnPath(x, leaf))
      invariant forall n :: 0 <= n < 2 * tp ==> a[n] == t[n] + (if OnPath(n, leaf) && n > x then 1 else 0)
    {
      NextOnPath(x, leaf);
      a[x] := a[x] + 1;
      x := x / 2;
    }
  }

  lemma {:induction false} RootBiggest(t: seq<nat>, tp: nat, i: nat)
    requires Tree(t, tp) && 1 <= i < 2 * tp
    ensures t[i] <= t[1]
    decreases i
  {
    if i > 1 {
      assert Node(t, i / 2);
      RootBiggest(t, tp, i / 2);
    }
  }

  /** No counter exceeds the number of buffers, which fits an unsigned short. */
  lemma CountersFit(t: seq<nat>, tp: nat, tot: nat, i: nat)
    requires Tree(t, tp) && tot <= tp && 1 <= i < 2 * tp
    requires forall k :: tp + tot <= k < 2 * tp ==> t[k] == 0
    ensures t[i] <= tot
  {
    var f := t[tp..];
    RootBiggest(t, tp, i);
    RootSpan(tp);
    NodeCount(t, tp, 1, 0, tp);
    CountSplit(f, 0, tot, tp);
    CountZero(f, tot, tp);
    CountBound(f, 0, tot);
  }
}
