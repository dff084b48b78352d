/**
 Circular doubly linked lists that go through a head for each descriptor; one connection is on at most
 one of them. A node without pointers is on none.
 */
module Rings {
  import opened Sequences

  datatype Node = Head(fd: int) | Member(conn: nat)

  /** The two pointers of every node that has them. */
  datatype Ring = Ring(next: map<Node, Node>, prev: map<Node, Node>)

  /** The connections behind each head, in order. */
  type Lists = map<int, seq<nat>>

  /** Node i of the ring of f: the head, the members, and the head again. */
  function NodeAt(f: int, l: seq<nat>, i: int): Node {
    if 1 <= i <= |l| then Member(l[i - 1]) else Head(f)
  }

  predicate LinkOk(r: Ring, f: int, l: seq<nat>, i: int) {
    NodeAt(f, l, i) in r.next && r.next[NodeAt(f, l, i)] == NodeAt(f, l, i + 1) &&
    NodeAt(f, l, i + 1) in r.prev && r.prev[NodeAt(f, l, i + 1)] == NodeAt(f, l, i)
  }

  ghost predicate RingOk(r: Ring, f: int, l: seq<nat>) {
    forall i {:trigger LinkOk(r, f, l, i)} :: 0 <= i <= |l| ==> LinkOk(r, f, l, i)
  }

  ghost predicate Listed(ls: Lists, c: nat) {
    exists f :: f in ls && c in ls[f]
  }

  ghost predicate Known(ls: Lists, x: Node) {
    if x.Head? then x.fd in ls else Listed(ls, x.conn)
  }

  ghost predicate Distinct(ls: Lists) {
    forall f, g, i, j :: f in ls && g in ls && 0 <= i < |ls[f]| && 0 <= j < |ls[g]| && ls[f][i] == ls[g][j] ==>
      f == g && i == j
  }

  /** The pointers are exactly those of the lists. */
  ghost predicate RingsOk(r: Ring, ls: Lists) {
    (forall f {:trigger RingOk(r, f, ls[f])} :: f in ls ==> RingOk(r, f, ls[f])) && Distinct(ls) &&
    r.next.Keys == r.prev.Keys && forall x :: x in r.next ==> Known(ls, x)
  }

  // ---------------------------------------------------------------- what the pointers say

  /** A connection has pointers exactly when it is listed. */
  lemma OnRing(r: Ring, ls: Lists, c: nat)
    requires RingsOk(r, ls)
    ensures Member(c) in r.next <==> Listed(ls, c)
  {
    if Listed(ls, c) {
      var f :| f in ls && c in ls[f];
      var i :| 0 <= i < |ls[f]| && ls[f][i] == c;
      assert RingOk(r, f, ls[f]) && LinkOk(r, f, ls[f], i + 1);
    }
  }

  lemma HeadLinks(r: Ring, ls: Lists, f: int)
    requires RingsOk(r, ls)
    ensures Head(f) in r.next <==> f in ls
    ensures f in ls ==> r.next[Head(f)] == NodeAt(f, ls[f], 1) && Head(f) in r.prev &&
                        r.prev[Head(f)] == NodeAt(f, ls[f], |ls[f]|)
  {
    if f in ls {
      assert RingOk(r, f, ls[f]) && LinkOk(r, f, ls[f], 0) && LinkOk(r, f, ls[f], |ls[f]|);
    }
  }

  lemma MemberLinks(r: Ring, ls: Lists, f: int, i: nat)
    requires RingsOk(r, ls) && f in ls && i < |ls[f]|
    ensures Member(ls[f][i]) in r.next && r.next[Member(ls[f][i])] == NodeAt(f, ls[f], i + 2)
    ensures Member(ls[f][i]) in r.prev && r.prev[Member(ls[f][i])] == NodeAt(f, ls[f], i)
  {
    assert RingOk(r, f, ls[f]) && LinkOk(r, f, ls[f], i) && LinkOk(r, f, ls[f], i + 1);
  }

  /** Nodes of different places are different. */
  lemma NodesDiffer(ls: Lists, f: int, i: int, g: int, j: int)
    requires Distinct(ls) && f in ls && g in ls && 0 <= i <= |ls[f]| && 0 <= j <= |ls[g]|
    requires NodeAt(f, ls[f], i) == NodeAt(g, ls[g], j)
    ensures f == g && i == j
  {
  }

  // ---------------------------------------------------------------- opening and shutting a ring

  function Open(r: Ring, f: int): Ring {
    Ring(r.next[Head(f) := Head(f)], r.prev[Head(f) := Head(f)])
  }

  function Shut(r: Ring, f: int): Ring {
    Ring(r.next - {Head(f)}, r.prev - {Head(f)})
  }

  lemma OpenOk(r: Ring, ls: Lists, f: int)
    requires RingsOk(r, ls) && f !in ls
    ensures RingsOk(Open(r, f), ls[f := []])
  {
    var r', ls' := Open(r, f), ls[f := []];
    forall g | g in ls' ensures RingOk(r', g, ls'[g]) {
      forall i | 0 <= i <= |ls'[g]| ensures LinkOk(r', g, ls'[g], i) {
        if g != f { assert RingOk(r, g, ls[g]) && LinkOk(r, g, ls[g], i); }
      }
    }
    forall x | x in r'.next ensures Known(ls', x) {
      if x != Head(f) { assert Known(ls, x); KnownStays(ls, ls', x); }
    }
  }

  lemma KnownStays(ls: Lists, ls': Lists, x: Node)
    requires Known(ls, x) && forall f :: f in ls ==> f in ls' && forall c :: c in ls[f] && Member(c) == x ==>
             c in ls'[f]
    ensures Known(ls', x)
  {
    if x.Member? {
      var f :| f in ls && x.conn in ls[f];
      assert x.conn in ls'[f];
    }
  }

  lemma ShutOk(r: Ring, ls: Lists, f: int)
    requires RingsOk(r, ls) && f in ls && ls[f] == []
    ensures RingsOk(Shut(r, f), ls - {f})
  {
    var r', ls' := Shut(r, f), ls - {f};
    forall g | g in ls' ensures RingOk(r', g, ls'[g]) {
      forall i | 0 <= i <= |ls'[g]| ensures LinkOk(r', g, ls'[g], i) {
        assert RingOk(r, g, ls[g]) && LinkOk(r, g, ls[g], i);
      }
    }
    forall x | x in r'.next ensures Known(ls', x) {
      assert Known(ls, x);
      if x.Member? {
        var g :| g in ls && x.conn in ls[g];
        assert g in ls' && x.conn in ls'[g];
      }
    }
  }

  // ---------------------------------------------------------------- inserting at the end

  function Insert(r: Ring, f: int, c: nat): Ring
    requires Head(f) in r.prev
  {
    var last := r.prev[Head(f)];
    Ring(r.next[Member(c) := Head(f)][last := Member(c)], r.prev[Member(c) := last][Head(f) := Member(c)])
  }

  lemma InsertOk(r: Ring, ls: Lists, f: int, c: nat)
    requires RingsOk(r, ls) && f in ls && !Listed(ls, c)
    ensures Head(f) in r.prev && RingsOk(Insert(r, f, c), ls[f := ls[f] + [c]])
  {
    HeadLinks(r, ls, f);
    OnRing(r, ls, c);
    var r', ls' := Insert(r, f, c), ls[f := ls[f] + [c]];
    var n := |ls[f]|;
    forall g | g in ls' ensures RingOk(r', g, ls'[g]) {
      forall i | 0 <= i <= |ls'[g]| ensures LinkOk(r', g, ls'[g], i) {
        InsertLink(r, ls, f, c, g, i);
      }
    }
    assert Distinct(ls') by { InsertDistinct(ls, f, c); }
    assert NodeAt(f, ls[f], n) in r.next by { assert RingOk(r, f, ls[f]) && LinkOk(r, f, ls[f], n); }
    forall x | x in r'.next ensures Known(ls', x) {
      if x == Member(c) {
        assert c in ls'[f];
      } else {
        assert Known(ls, x);
        KnownStays(ls, ls', x);
      }
    }
  }

  lemma InsertDistinct(ls: Lists, f: int, c: nat)
    requires Distinct(ls) && f in ls && !Listed(ls, c)
    ensures Distinct(ls[f := ls[f] + [c]])
  {
    forall g | g in ls ensures c !in ls[g] { }
  }

  lemma InsertLink(r: Ring, ls: Lists, f: int, c: nat, g: int, i: int)
    requires RingsOk(r, ls) && f in ls && !Listed(ls, c) && Head(f) in r.prev
    requires g in ls && 0 <= i <= |ls[f := ls[f] + [c]][g]|
    ensures LinkOk(Insert(r, f, c), g, ls[f := ls[f] + [c]][g], i)
  {
    HeadLinks(r, ls, f);
    OnRing(r, ls, c);
    var n, l' := |ls[f]|, ls[f := ls[f] + [c]][g];
    if g == f && i >= n {
      assert RingOk(r, f, ls[f]) && LinkOk(r, f, ls[f], n);
    } else {
      assert RingOk(r, g, ls[g]) && LinkOk(r, g, ls[g], i);
      assert NodeAt(g, l', i) == NodeAt(g, ls[g], i) && NodeAt(g, l', i + 1) == NodeAt(g, ls[g], i + 1);
      assert NodeAt(g, ls[g], i) != NodeAt(f, ls[f], n) by {
        if NodeAt(g, ls[g], i) == NodeAt(f, ls[f], n) { NodesDiffer(ls, g, i, f, n); assert false; }
      }
      assert NodeAt(g, ls[g], i + 1) != Head(f);
    }
  }

  // ---------------------------------------------------------------- unlinking

  function Unlink(r: Ring, c: nat): Ring
    requires Member(c) in r.next && Member(c) in r.prev
  {
    var x, y := r.next[Member(c)], r.prev[Member(c)];
    Ring(r.next[y := x] - {Member(c)}, r.prev[x := y] - {Member(c)})
  }

  lemma UnlinkOk(r: Ring, ls: Lists, f: int, i: nat)
    requires RingsOk(r, ls) && f in ls && i < |ls[f]|
    ensures Member(ls[f][i]) in r.next && Member(ls[f][i]) in r.prev
    ensures RingsOk(Unlink(r, ls[f][i]), ls[f := Without(ls[f], i)])
    ensures !Listed(ls[f := Without(ls[f], i)], ls[f][i])
  {
    var c := ls[f][i];
    MemberLinks(r, ls, f, i);
    var r', ls' := Unlink(r, c), ls[f := Without(ls[f], i)];
    forall g | g in ls' ensures RingOk(r', g, ls'[g]) {
      forall j | 0 <= j <= |ls'[g]| ensures LinkOk(r', g, ls'[g], j) {
        UnlinkLink(r, ls, f, i, g, j);
      }
    }
    NeighboursKnown(r, ls, f, i);
    forall x | x in r'.next ensures Known(ls', x) {
      assert Known(ls, x);
      if x.Member? {
        var g :| g in ls && x.conn in ls[g];
        var j :| 0 <= j < |ls[g]| && ls[g][j] == x.conn;
        assert x.conn in ls'[g] by {
          if g == f { assert j != i; assert Without(ls[f], i)[if j < i then j else j - 1] == x.conn; }
        }
      }
    }
  }

  lemma NeighboursKnown(r: Ring, ls: Lists, f: int, i: nat)
    requires RingsOk(r, ls) && f in ls && i < |ls[f]|
    ensures NodeAt(f, ls[f], i) in r.next && NodeAt(f, ls[f], i + 2) in r.next
  {
    assert RingOk(r, f, ls[f]) && LinkOk(r, f, ls[f], i) && LinkOk(r, f, ls[f], i + 1);
  }

  lemma UnlinkLink(r: Ring, ls: Lists, f: int, i: nat, g: int, j: int)
    requires RingsOk(r, ls) && f in ls && i < |ls[f]| && g in ls
    requires Member(ls[f][i]) in r.next && Member(ls[f][i]) in r.prev
    requires 0 <= j <= |ls[f := Without(ls[f], i)][g]|
    ensures LinkOk(Unlink(r, ls[f][i]), g, ls[f := Without(ls[f], i)][g], j)
  {
    var l, l' := ls[g], ls[f := Without(ls[f], i)][g];
    MemberLinks(r, ls, f, i);
    if g == f && j == i {
      assert NodeAt(f, l', i) == NodeAt(f, l, i) && NodeAt(f, l', i + 1) == NodeAt(f, l, i + 2);
      NeighboursKnown(r, ls, f, i);
      assert NodeAt(f, l, i) != Member(l[i]) && NodeAt(f, l, i + 2) != Member(l[i]);
    } else {
      var k := if g == f && j > i then j + 1 else j;
      assert RingOk(r, g, l) && LinkOk(r, g, l, k);
      assert NodeAt(g, l', j) == NodeAt(g, l, k) && NodeAt(g, l', j + 1) == NodeAt(g, l, k + 1);
      OtherNodes(ls, f, i, g, k);
    }
  }

  /** Away from the unlinked member, the links do not touch it or the changed pointers. */
  lemma OtherNodes(ls: Lists, f: int, i: nat, g: int, k: int)
    requires Distinct(ls) && f in ls && g in ls && i < |ls[f]| && 0 <= k <= |ls[g]| && (g == f ==> k != i && k != i + 1)
    ensures NodeAt(g, ls[g], k) != NodeAt(f, ls[f], i) && NodeAt(g, ls[g], k) != NodeAt(f, ls[f], i + 1)
    ensures NodeAt(g, ls[g], k + 1) != NodeAt(f, ls[f], i + 1) && NodeAt(g, ls[g], k + 1) != NodeAt(f, ls[f], i + 2)
  {
  }

  // ---------------------------------------------------------------- unlinking what may be listed

  ghost predicate OnList(ls: Lists, f: int, c: nat) {
    f in ls && c in ls[f]
  }

  /** ls' is ls without c, in the same order. */
  ghost predicate Detached(ls: Lists, ls': Lists, c: nat) {
    ls'.Keys == ls.Keys &&
    (forall f :: f in ls && c !in ls[f] ==> ls'[f] == ls[f]) &&
    (forall f, i :: f in ls && 0 <= i < |ls[f]| && ls[f][i] == c ==> ls'[f] == Without(ls[f], i))
  }

  lemma DetachedMembers(ls: Lists, ls': Lists, c: nat, f: int, x: nat)
    requires Distinct(ls) && Detached(ls, ls', c)
    ensures OnList(ls', f, x) <==> OnList(ls, f, x) && x != c
  {
    if f in ls && c in ls[f] {
      var i :| 0 <= i < |ls[f]| && ls[f][i] == c;
      WithoutMembers(ls[f], i, x);
    }
  }

  /** Unlink the connection, if it has pointers at all. */
  method Detach(r: Ring, ghost ls: Lists, c: nat) returns (r': Ring, ghost ls': Lists)
    requires RingsOk(r, ls)
    ensures RingsOk(r', ls') && Detached(ls, ls', c)
  {
    OnRing(r, ls, c);
    r', ls' := r, ls;
    if Member(c) in r.next {
      ghost var f :| f in ls && c in ls[f];
      ghost var i :| 0 <= i < |ls[f]| && ls[f][i] == c;
      UnlinkOk(r, ls, f, i);
      r' := Unlink(r, c);
      ls' := ls[f := Without(ls[f], i)];
    }
  }
}
