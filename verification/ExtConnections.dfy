/**
 The proxy's table of external connections: one set of live connections, reached through a hash on the
 incoming side, through an id table with generations on the outgoing side, through a list for each
 descriptor on both sides and through the list of the least recently used.
 */
module ExtConnections {
  import opened Options
  import opened Sequences
  import opened Rings
  import opened HashChains

  /** EXT_CONN_TABLE_SIZE */
  const TableSize: int := 4194304

  /** struct ext_connection, without its pointers */
  datatype Conn = Conn(inFd: int, inGen: int, inId: int, outId: int, outFd: int, outGen: int, key: int)

  /** struct ext_connection_ref */
  datatype Slot = Slot(ref: Option<nat>, id: int)

  type Conns = map<nat, Conn>
  type Hash = (int, int) -> int

  // ---------------------------------------------------------------- consistency

  predicate HasKey(x: Conn, fd: int, id: int) {
    x.inFd == fd && x.inId == id
  }

  ghost predicate KeysOk(conns: Conns) {
    forall c, d :: c in conns && d in conns && HasKey(conns[c], conns[d].inFd, conns[d].inId) ==> c == d
  }

  ghost predicate InBucket(conns: Conns, hash: Hash, h: int, c: nat) {
    c in conns && hash(conns[c].inFd, conns[c].inId) == h
  }

  /** Every bucket's chain holds exactly the live connections that hash to it. */
  ghost predicate HashOk(conns: Conns, hash: Hash, ch: Chains, bs: Buckets) {
    ChainsOk(ch, bs) && forall h, c :: c in Bucket(bs, h) <==> InBucket(conns, hash, h, c)
  }

  ghost predicate SlotOk(conns: Conns, slots: seq<Slot>, h: int)
    requires 0 <= h < |slots|
  {
    slots[h].id >= 0 && (slots[h].id > 0 ==> slots[h].id % TableSize == h) &&
    (slots[h].ref.Some? ==>
       slots[h].id > 0 && slots[h].ref.value in conns && conns[slots[h].ref.value].outId == slots[h].id)
  }

  ghost predicate ConnOk(conns: Conns, slots: seq<Slot>, c: nat)
    requires |slots| == TableSize && c in conns
  {
    conns[c].outId > 0 && slots[conns[c].outId % TableSize] == Slot(Some(c), conns[c].outId)
  }

  /** The id table refers to exactly the live connections, under their current ids. */
  ghost predicate SlotsOk(conns: Conns, slots: seq<Slot>) {
    |slots| == TableSize &&
    (forall h {:trigger SlotOk(conns, slots, h)} :: 0 <= h < TableSize ==> SlotOk(conns, slots, h)) &&
    forall c {:trigger ConnOk(conns, slots, c)} :: c in conns ==> ConnOk(conns, slots, c)
  }

  ghost predicate IdOk(slots: seq<Slot>, id: int)
    requires |slots| == TableSize
  {
    0 < id <= slots[id % TableSize].id
  }

  /** No id was handed out that is above the last id of its slot. */
  ghost predicate IssuedOk(conns: Conns, slots: seq<Slot>, issued: set<int>) {
    |slots| == TableSize && (forall id {:trigger IdOk(slots, id)} :: id in issued ==> IdOk(slots, id)) &&
    forall c :: c in conns ==> conns[c].outId in issued
  }

  ghost predicate InListOk(conns: Conns, ls: Lists, f: int, c: nat) {
    OnList(ls, f, c) <==> c in conns && conns[c].inFd == f && f != 0
  }

  /** The lists of the incoming side hold exactly the live connections, at most one a descriptor. */
  ghost predicate InOk(conns: Conns, r: Ring, ls: Lists) {
    RingsOk(r, ls) && (forall f :: f in ls ==> |ls[f]| <= 1) && forall f, c :: InListOk(conns, ls, f, c)
  }

  ghost predicate OutListOk(conns: Conns, ls: Lists, f: int, c: nat) {
    (OnList(ls, f, c) ==> c in conns && conns[c].outFd == f) &&
    (c in conns && conns[c].outFd == f && f != 0 ==> OnList(ls, f, c))
  }

  /** The lists of the outgoing side hold exactly the live connections that are bound to a backend. */
  ghost predicate OutOk(conns: Conns, r: Ring, ls: Lists) {
    RingsOk(r, ls) && forall f, c :: OutListOk(conns, ls, f, c)
  }

  /** Only live connections are on the list of the least recently used. */
  ghost predicate LruOk(conns: Conns, r: Ring, ls: Lists) {
    RingsOk(r, ls) && ls.Keys == {0} && forall f, c :: OnList(ls, f, c) ==> c in conns
  }

  // ---------------------------------------------------------------- a removed connection

  lemma DropHash(conns: Conns, hash: Hash, ch: Chains, bs: Buckets, h: int, i: nat)
    requires HashOk(conns, hash, ch, bs) && i < |Bucket(bs, h)|
    ensures HashOk(conns - {Bucket(bs, h)[i]}, hash, Cut(ch, h, Previous(Bucket(bs, h), i), Bucket(bs, h)[i]),
                   bs[h := Without(Bucket(bs, h), i)])
  {
    hide ChainsOk;
    var l := Bucket(bs, h);
    CutOk(ch, bs, h, i);
    var bs', conns' := bs[h := Without(l, i)], conns - {l[i]};
    forall g, c ensures c in Bucket(bs', g) <==> InBucket(conns', hash, g, c) {
      assert c in Bucket(bs, g) <==> InBucket(conns, hash, g, c);
      assert l[i] in Bucket(bs, h);
      if g == h {
        ApartOnce(ch, bs, h, i);
        WithoutMembers(l, i, c);
      }
    }
  }

  lemma ApartOnce(ch: Chains, bs: Buckets, h: int, i: nat)
    requires ChainsOk(ch, bs) && i < |Bucket(bs, h)|
    ensures forall j :: 0 <= j < |Bucket(bs, h)| && Bucket(bs, h)[j] == Bucket(bs, h)[i] ==> j == i
  {
  }

  lemma DropSlot(conns: Conns, slots: seq<Slot>, c: nat)
    requires SlotsOk(conns, slots) && c in conns
    ensures var h := conns[c].outId % TableSize;
            slots[h].ref == Some(c) && slots[h].id == conns[c].outId &&
            SlotsOk(conns - {c}, slots[h := slots[h].(ref := None)])
  {
    assert ConnOk(conns, slots, c);
    var h := conns[c].outId % TableSize;
    var conns', slots' := conns - {c}, slots[h := slots[h].(ref := None)];
    forall g | 0 <= g < TableSize ensures SlotOk(conns', slots', g) {
      assert SlotOk(conns, slots, g);
    }
    forall d | d in conns' ensures ConnOk(conns', slots', d) {
      assert ConnOk(conns, slots, d);
    }
  }

  lemma DropIssued(conns: Conns, slots: seq<Slot>, issued: set<int>, c: nat)
    requires SlotsOk(conns, slots) && IssuedOk(conns, slots, issued) && c in conns
    ensures var h := conns[c].outId % TableSize;
            IssuedOk(conns - {c}, slots[h := slots[h].(ref := None)], issued)
  {
    var h := conns[c].outId % TableSize;
    var slots' := slots[h := slots[h].(ref := None)];
    forall id | id in issued ensures IdOk(slots', id) {
      assert IdOk(slots, id);
    }
  }

  lemma DropKeys(conns: Conns, c: nat)
    requires KeysOk(conns) && c in conns
    ensures KeysOk(conns - {c}) && |conns - {c}| == |conns| - 1
  {
    assert (conns - {c}).Keys == conns.Keys - {c};
  }

  lemma AddKeys(conns: Conns, c: nat, x: Conn)
    requires KeysOk(conns) && c !in conns && forall d :: d in conns ==> !HasKey(conns[d], x.inFd, x.inId)
    ensures KeysOk(conns[c := x]) && |conns[c := x]| == |conns| + 1
  {
    assert conns[c := x].Keys == conns.Keys + {c};
  }

  lemma FirstDetached(ls: Lists, ls': Lists, f: int, c: nat)
    requires Detached(ls, ls', c) && f in ls && ls[f] != [] && ls[f][0] == c
    ensures ls'.Keys == ls.Keys && ls'[f] == ls[f][1..]
  {
    assert Without(ls[f], 0) == ls[f][1..];
  }

  lemma CloseOut(conns: Conns, r: Ring, ls: Lists, f: int)
    requires OutOk(conns, r, ls) && f in ls && ls[f] == []
    ensures OutOk(conns, Shut(r, f), ls - {f})
  {
    ShutOk(r, ls, f);
    var ls' := ls - {f};
    forall g, c ensures OutListOk(conns, ls', g, c) {
      assert OutListOk(conns, ls, g, c);
    }
  }

  lemma OpenOut(conns: Conns, r: Ring, ls: Lists, f: int)
    requires OutOk(conns, r, ls) && f !in ls
    ensures OutOk(conns, Open(r, f), ls[f := []])
  {
    OpenOk(r, ls, f);
    var ls' := ls[f := []];
    forall g, c ensures OutListOk(conns, ls', g, c) {
      assert OutListOk(conns, ls, g, c);
    }
  }

  /** The connections on a backend's list are those bound to it. */
  lemma BoundExactly(conns: Conns, r: Ring, ls: Lists, f: int)
    requires OutOk(conns, r, ls) && f != 0
    ensures f in ls ==> conns - Members(ls[f]) == NotBoundTo(conns, f)
  {
    forall c | c in conns ensures OnList(ls, f, c) <==> conns[c].outFd == f {
      assert OutListOk(conns, ls, f, c);
    }
  }

  ghost function Members(l: seq<nat>): set<nat> {
    set c | c in l
  }

  ghost function NotBoundTo(conns: Conns, f: int): Conns {
    map c | c in conns && conns[c].outFd != f :: conns[c]
  }

  /** No connection of the list stands for an inner one of another proxy; removing such a one aborts. */
  ghost predicate CloseOk(conns: Conns, l: seq<nat>) {
    forall i :: 0 <= i < |l| && l[i] in conns && conns[l[i]].inFd != 0 ==> conns[l[i]].inId == 0
  }

  lemma MembersNone(conns: Conns)
    ensures conns - Members([]) == conns
  {
  }

  lemma CloseNext(conns: Conns, l: seq<nat>, n: nat)
    requires CloseOk(conns, l) && n < |l|
    ensures conns - Members(l[..n + 1]) == conns - Members(l[..n]) - {l[n]}
    ensures l[n] in conns && conns[l[n]].inFd != 0 ==> conns[l[n]].inId == 0
  {
    assert l[..n + 1] == l[..n] + [l[n]];
  }

  /** What a walk along a backend's list reads. */
  lemma OutLinks(conns: Conns, r: Ring, ls: Lists, f: int)
    requires OutOk(conns, r, ls) && f in ls
    ensures Head(f) in r.next && r.next[Head(f)] == NodeAt(f, ls[f], 1)
    ensures ls[f] != [] ==> var c := ls[f][0];
              Member(c) in r.next && r.next[Member(c)] == NodeAt(f, ls[f], 2) && c in conns && conns[c].outFd == f
  {
    HeadLinks(r, ls, f);
    if ls[f] != [] {
      MemberLinks(r, ls, f, 0);
      assert OutListOk(conns, ls, f, ls[f][0]);
    }
  }

  lemma NotListed(conns: Conns, r: Ring, ls: Lists, ls': Lists, c: nat)
    requires LruOk(conns, r, ls) && Detached(ls, ls', c)
    ensures !Listed(ls', c)
  {
    if Listed(ls', c) {
      var f :| f in ls' && c in ls'[f];
      DetachedMembers(ls, ls', c, f, c);
    }
  }

  lemma DropIn(conns: Conns, r: Ring, ls: Lists, r': Ring, ls': Lists, c: nat)
    requires InOk(conns, r, ls) && RingsOk(r', ls') && Detached(ls, ls', c)
    ensures InOk(conns - {c}, r', ls')
  {
    var conns' := conns - {c};
    forall f, x ensures InListOk(conns', ls', f, x) {
      DetachedMembers(ls, ls', c, f, x);
      assert InListOk(conns, ls, f, x);
    }
    forall f | f in ls' ensures |ls'[f]| <= 1 {
      assert |ls[f]| <= 1;
      if c in ls[f] { assert ls[f][0] == c; }
    }
  }

  lemma DropOut(conns: Conns, r: Ring, ls: Lists, r': Ring, ls': Lists, c: nat)
    requires OutOk(conns, r, ls) && RingsOk(r', ls') && Detached(ls, ls', c)
    ensures OutOk(conns - {c}, r', ls')
  {
    var conns' := conns - {c};
    forall f, x ensures OutListOk(conns', ls', f, x) {
      DetachedMembers(ls, ls', c, f, x);
      assert OutListOk(conns, ls, f, x);
    }
  }

  lemma DropLru(conns: Conns, r: Ring, ls: Lists, r': Ring, ls': Lists, c: nat)
    requires LruOk(conns, r, ls) && RingsOk(r', ls') && Detached(ls, ls', c)
    ensures LruOk(conns, r', ls') && LruOk(conns - {c}, r', ls')
  {
    forall f, x | OnList(ls', f, x) ensures x in conns - {c} {
      DetachedMembers(ls, ls', c, f, x);
    }
  }

  // ---------------------------------------------------------------- a new connection

  lemma AddHash(conns: Conns, hash: Hash, ch: Chains, bs: Buckets, c: nat, x: Conn)
    requires HashOk(conns, hash, ch, bs) && c !in conns
    ensures var h := hash(x.inFd, x.inId); HashOk(conns[c := x], hash, Push(ch, h, c), bs[h := [c] + Bucket(bs, h)])
  {
    hide ChainsOk;
    var h := hash(x.inFd, x.inId);
    forall g ensures c !in Bucket(bs, g) {
      assert c in Bucket(bs, g) <==> InBucket(conns, hash, g, c);
    }
    PushOk(ch, bs, h, c);
    var bs', conns' := bs[h := [c] + Bucket(bs, h)], conns[c := x];
    forall g, d ensures d in Bucket(bs', g) <==> InBucket(conns', hash, g, d) {
      assert d in Bucket(bs, g) <==> InBucket(conns, hash, g, d);
    }
  }

  /** A new id is of the generation after the last one of its slot, and without an id on the incoming side the
      slot is that of the descriptor if it is free. */
  ghost predicate SlotChosen(slots: seq<Slot>, fd: int, id: int, outId: int) {
    |slots| == TableSize && slots[outId % TableSize].ref.None? &&
    outId / TableSize == slots[outId % TableSize].id / TableSize + 1 &&
    (id == 0 && slots[fd % TableSize].ref.None? ==> outId % TableSize == fd % TableSize)
  }

  /** The id after id in slot h: the next generation. */
  function NextId(id: int, h: int): int {
    id / TableSize * TableSize + TableSize - 1 + 1 + h
  }

  lemma NewSlotChosen(slots: seq<Slot>, fd: int, id: int, k: int)
    requires |slots| == TableSize && 0 <= k < TableSize && slots[k].ref.None? && slots[k].id >= 0
    requires id == 0 && slots[fd % TableSize].ref.None? ==> k == fd % TableSize
    ensures SlotChosen(slots, fd, id, NextId(slots[k].id, k))
  {
    hide NextId;
    NextIdFresh(slots[k].id, k);
  }

  lemma NextIdFresh(id: int, h: int)
    requires id >= 0 && 0 <= h < TableSize
    ensures NextId(id, h) > id && NextId(id, h) % TableSize == h && NextId(id, h) / TableSize == id / TableSize + 1
  {
  }

  lemma AddSlot(conns: Conns, slots: seq<Slot>, c: nat, x: Conn, h: int)
    requires SlotsOk(conns, slots) && c !in conns && 0 <= h < TableSize && slots[h].ref.None?
    requires x.outId == NextId(slots[h].id, h)
    ensures SlotsOk(conns[c := x], slots[h := Slot(Some(c), x.outId)])
  {
    var conns', slots' := conns[c := x], slots[h := Slot(Some(c), x.outId)];
    assert SlotOk(conns, slots, h);
    NextIdFresh(slots[h].id, h);
    forall g | 0 <= g < TableSize ensures SlotOk(conns', slots', g) {
      assert SlotOk(conns, slots, g);
    }
    forall d | d in conns' ensures ConnOk(conns', slots', d) {
      if d != c { assert ConnOk(conns, slots, d); }
    }
  }

  /** The id of a new connection was never handed out before. */
  lemma AddIssued(conns: Conns, slots: seq<Slot>, issued: set<int>, c: nat, x: Conn, h: int)
    requires SlotsOk(conns, slots) && IssuedOk(conns, slots, issued) && 0 <= h < TableSize
    requires x.outId == NextId(slots[h].id, h)
    ensures x.outId !in issued && IssuedOk(conns[c := x], slots[h := Slot(Some(c), x.outId)], issued + {x.outId})
  {
    assert SlotOk(conns, slots, h);
    NextIdFresh(slots[h].id, h);
    assert x.outId in issued ==> IdOk(slots, x.outId);
    var slots' := slots[h := Slot(Some(c), x.outId)];
    forall id | id in issued + {x.outId} ensures IdOk(slots', id) {
      if id in issued { assert IdOk(slots, id); }
    }
  }

  lemma AddIn(conns: Conns, r: Ring, ls: Lists, c: nat, x: Conn)
    requires InOk(conns, r, ls) && c !in conns && x.inFd == 0
    ensures InOk(conns[c := x], r, ls)
  {
    var conns' := conns[c := x];
    forall f, d ensures InListOk(conns', ls, f, d) {
      assert InListOk(conns, ls, f, d);
    }
  }

  /** A descriptor's list that is not open yet is opened first. */
  function Opened(r: Ring, f: int): Ring {
    if Head(f) in r.next then r else Open(r, f)
  }

  function OpenedLists(ls: Lists, f: int): Lists {
    if f in ls then ls else ls[f := []]
  }

  lemma AddInList(conns: Conns, r: Ring, ls: Lists, c: nat, x: Conn)
    requires InOk(conns, r, ls) && c !in conns && x.inFd != 0
    requires forall d :: d in conns ==> conns[d].inFd != x.inFd
    ensures var r1, ls1 := Opened(r, x.inFd), OpenedLists(ls, x.inFd);
            Head(x.inFd) in r1.next && r1.next[Head(x.inFd)] == Head(x.inFd) && Head(x.inFd) in r1.prev &&
            InOk(conns[c := x], Insert(r1, x.inFd, c), ls1[x.inFd := [c]])
  {
    var f, r1, ls1 := x.inFd, Opened(r, x.inFd), OpenedLists(ls, x.inFd);
    HeadLinks(r, ls, f);
    if f !in ls { OpenOk(r, ls, f); }
    forall g, d ensures InListOk(conns, ls1, g, d) { assert InListOk(conns, ls, g, d); }
    assert ls1[f] != [] ==> InListOk(conns, ls1, f, ls1[f][0]);
    HeadLinks(r1, ls1, f);
    assert !Listed(ls1, c) by {
      forall g | g in ls1 ensures c !in ls1[g] { assert InListOk(conns, ls1, g, c); }
    }
    InsertOk(r1, ls1, f, c);
    assert ls1[f] + [c] == [c];
    var conns', ls2 := conns[c := x], ls1[f := [c]];
    forall g, d ensures InListOk(conns', ls2, g, d) {
      assert InListOk(conns, ls1, g, d);
    }
  }

  lemma AddOut(conns: Conns, r: Ring, ls: Lists, c: nat, x: Conn)
    requires OutOk(conns, r, ls) && c !in conns && x.outFd == 0
    ensures OutOk(conns[c := x], r, ls) && !Listed(ls, c)
  {
    var conns' := conns[c := x];
    forall f, d ensures OutListOk(conns', ls, f, d) {
      assert OutListOk(conns, ls, f, d);
    }
    forall f | f in ls ensures c !in ls[f] { assert OutListOk(conns, ls, f, c); }
  }

  lemma LruAdded(conns: Conns, r: Ring, ls: Lists, c: nat)
    requires LruOk(conns, r, ls) && !Listed(ls, c) && c in conns
    ensures 0 in ls && Head(0) in r.prev && LruOk(conns, Insert(r, 0, c), ls[0 := ls[0] + [c]])
  {
    assert 0 in ls.Keys;
    InsertOk(r, ls, 0, c);
    var ls' := ls[0 := ls[0] + [c]];
    forall f, d | OnList(ls', f, d) ensures d in conns {
      assert OnList(ls, f, d) || d == c;
    }
  }

  lemma AddLru(conns: Conns, r: Ring, ls: Lists, c: nat, x: Conn)
    requires LruOk(conns, r, ls)
    ensures LruOk(conns[c := x], r, ls)
  {
  }

  lemma SlotCount(conns: Conns, slots: seq<Slot>)
    requires SlotsOk(conns, slots)
    ensures |slots| == TableSize
  {
  }

  /** Binding a connection that was not bound. */
  lemma Bind(conns: Conns, r: Ring, ls: Lists, c: nat, x: Conn)
    requires OutOk(conns, r, ls) && c in conns && conns[c].outFd == 0 && !Listed(ls, c) && x.outFd in ls
    ensures Head(x.outFd) in r.prev
    ensures OutOk(conns[c := x], Insert(r, x.outFd, c), ls[x.outFd := ls[x.outFd] + [c]])
  {
    InsertOk(r, ls, x.outFd, c);
    var conns', ls' := conns[c := x], ls[x.outFd := ls[x.outFd] + [c]];
    forall f, d ensures OutListOk(conns', ls', f, d) {
      assert OutListOk(conns, ls, f, d);
      assert f in ls ==> (OnList(ls', f, d) <==> OnList(ls, f, d) || (f == x.outFd && d == c));
      assert d == c ==> !OnList(ls, f, c);
    }
  }

  lemma Unbound(conns: Conns, r: Ring, ls: Lists, c: nat, x: Conn)
    requires OutOk(conns, r, ls) && c in conns && conns[c].outFd == x.outFd
    ensures OutOk(conns[c := x], r, ls)
  {
    var conns' := conns[c := x];
    forall f, d ensures OutListOk(conns', ls, f, d) {
      assert OutListOk(conns, ls, f, d);
    }
  }

  /** Both are the same connection, perhaps bound differently. */
  predicate SameIdentity(x: Conn, y: Conn) {
    x.inFd == y.inFd && x.inGen == y.inGen && x.inId == y.inId && x.outId == y.outId
  }

  lemma SameIdentityHash(conns: Conns, hash: Hash, ch: Chains, bs: Buckets, c: nat, x: Conn)
    requires HashOk(conns, hash, ch, bs) && c in conns && SameIdentity(conns[c], x)
    ensures HashOk(conns[c := x], hash, ch, bs)
  {
    hide ChainsOk;
    var conns' := conns[c := x];
    forall h, d ensures d in Bucket(bs, h) <==> InBucket(conns', hash, h, d) {
      assert d in Bucket(bs, h) <==> InBucket(conns, hash, h, d);
    }
  }

  lemma SameIdentityKeys(conns: Conns, c: nat, x: Conn)
    requires KeysOk(conns) && c in conns && SameIdentity(conns[c], x)
    ensures KeysOk(conns[c := x]) && |conns[c := x]| == |conns|
  {
    assert conns[c := x].Keys == conns.Keys;
  }

  lemma SameIdentitySlots(conns: Conns, slots: seq<Slot>, issued: set<int>, c: nat, x: Conn)
    requires SlotsOk(conns, slots) && IssuedOk(conns, slots, issued) && c in conns && SameIdentity(conns[c], x)
    ensures SlotsOk(conns[c := x], slots) && IssuedOk(conns[c := x], slots, issued)
  {
    var conns' := conns[c := x];
    forall h | 0 <= h < TableSize ensures SlotOk(conns', slots, h) { assert SlotOk(conns, slots, h); }
    forall d | d in conns' ensures ConnOk(conns', slots, d) { assert ConnOk(conns, slots, d); }
  }

  lemma SameIdentityIn(conns: Conns, r: Ring, ls: Lists, c: nat, x: Conn)
    requires InOk(conns, r, ls) && c in conns && SameIdentity(conns[c], x)
    ensures InOk(conns[c := x], r, ls)
  {
    var conns' := conns[c := x];
    forall f, d ensures InListOk(conns', ls, f, d) { assert InListOk(conns, ls, f, d); }
  }

  // ---------------------------------------------------------------- there is a free slot

  lemma {:induction false} UsedSlots(conns: Conns, slots: seq<Slot>, h: nat)
    requires SlotsOk(conns, slots) && h <= TableSize && forall g :: 0 <= g < h ==> slots[g].ref.Some?
    ensures |conns| >= h
  {
    var s := UsedBy(conns, slots, h);
    assert s <= conns.Keys;
    assert conns.Keys == s + (conns.Keys - s);
  }

  ghost function UsedBy(conns: Conns, slots: seq<Slot>, h: nat): (s: set<nat>)
    requires SlotsOk(conns, slots) && h <= TableSize && forall g :: 0 <= g < h ==> slots[g].ref.Some?
    ensures |s| == h && forall c :: c in s ==> c in conns && 0 <= conns[c].outId % TableSize < h
  {
    if h == 0 then {}
    else
      assert SlotOk(conns, slots, h - 1);
      UsedBy(conns, slots, h - 1) + {slots[h - 1].ref.value}
  }

  /** While fewer connections are live than the table has slots, the search for a free one can end. */
  lemma FreeSlotExists(conns: Conns, slots: seq<Slot>)
    requires SlotsOk(conns, slots) && |conns| < TableSize
    ensures exists h :: 0 <= h < TableSize && slots[h].ref.None?
  {
    if forall h :: 0 <= h < TableSize ==> slots[h].ref.Some? {
      UsedSlots(conns, slots, TableSize);
    }
  }

  // ---------------------------------------------------------------- ids over time

  /** From one state to a later one: an id handed out by then stands for nothing but the connection it
      stood for. */
  ghost predicate Follows(conns: Conns, issued: set<int>, conns': Conns, issued': set<int>) {
    issued <= issued' &&
    forall c :: c in conns' && conns'[c].outId in issued ==> c in conns && SameIdentity(conns[c], conns'[c])
  }

  lemma FollowsSelf(conns: Conns, issued: set<int>)
    ensures Follows(conns, issued, conns, issued)
  {
  }

  lemma FollowsDrop(conns: Conns, issued: set<int>, gone: set<nat>)
    ensures Follows(conns, issued, conns - gone, issued)
  {
  }

  lemma FollowsAdd(conns: Conns, issued: set<int>, c: nat, x: Conn)
    requires c !in conns && x.outId !in issued
    ensures Follows(conns, issued, conns[c := x], issued + {x.outId})
  {
  }

  lemma FollowsTransitive(c0: Conns, i0: set<int>, c1: Conns, i1: set<int>, c2: Conns, i2: set<int>)
    requires Follows(c0, i0, c1, i1) && Follows(c1, i1, c2, i2)
    ensures Follows(c0, i0, c2, i2)
  {
  }

  ghost predicate Resolves(conns: Conns, id: int) {
    exists c :: c in conns && conns[c].outId == id
  }

  /** An id whose connection is gone never stands for anything again. */
  lemma NeverResolvesAgain(conns: Conns, issued: set<int>, conns': Conns, issued': set<int>, id: int)
    requires Follows(conns, issued, conns', issued') && id in issued && !Resolves(conns, id)
    ensures id in issued' && !Resolves(conns', id)
  {
  }

  // ---------------------------------------------------------------- the tables

  /** Everything the tables hold. */
  datatype State = State(conns: Conns, chains: Chains, slots: seq<Slot>,
                         inRing: Ring, outRing: Ring, lruRing: Ring, live: int)

  /** The lists that the pointers stand for, and all ids ever handed out. */
  datatype Shape = Shape(buckets: Buckets, inLists: Lists, outLists: Lists, lruLists: Lists, issued: set<int>)

  /** All ways to the connections agree on one set of them. */
  ghost predicate Consistent(hash: Hash, s: State, v: Shape) {
    HashOk(s.conns, hash, s.chains, v.buckets) && KeysOk(s.conns) &&
    SlotsOk(s.conns, s.slots) && IssuedOk(s.conns, s.slots, v.issued) &&
    InOk(s.conns, s.inRing, v.inLists) && OutOk(s.conns, s.outRing, v.outLists) &&
    LruOk(s.conns, s.lruRing, v.lruLists) && s.live == |s.conns|
  }

  /** The state without connection c, when `without` has the rings without it. */
  function Dropped(hash: Hash, s: State, c: nat, before: Option<nat>, without: State): State
    requires c in s.conns && |s.slots| == TableSize
  {
    var x := s.conns[c];
    var k := x.outId % TableSize;
    State(s.conns - {c}, Cut(s.chains, hash(x.inFd, x.inId), before, c), s.slots[k := s.slots[k].(ref := None)],
          without.inRing, without.outRing, without.lruRing, s.live - 1)
  }

  lemma DropAll(hash: Hash, s: State, v: Shape, c: nat, before: Option<nat>, i: nat, s': State, v': Shape)
    requires Consistent(hash, s, v) && c in s.conns
    requires var l := Bucket(v.buckets, hash(s.conns[c].inFd, s.conns[c].inId));
             i < |l| && l[i] == c && before == Previous(l, i)
    requires RingsOk(s'.inRing, v'.inLists) && RingsOk(s'.outRing, v'.outLists) && RingsOk(s'.lruRing, v'.lruLists)
    requires Detached(v.inLists, v'.inLists, c) && Detached(v.outLists, v'.outLists, c)
    requires Detached(v.lruLists, v'.lruLists, c)
    ensures var h := hash(s.conns[c].inFd, s.conns[c].inId);
            |s.slots| == TableSize &&
            Consistent(hash, Dropped(hash, s, c, before, s'),
                       v'.(buckets := v.buckets[h := Without(Bucket(v.buckets, h), i)], issued := v.issued))
  {
    hide HashOk, KeysOk, SlotsOk, IssuedOk, InOk, OutOk, LruOk, RingsOk, Detached, Cut;
    var h := hash(s.conns[c].inFd, s.conns[c].inId);
    SlotCount(s.conns, s.slots);
    DropIn(s.conns, s.inRing, v.inLists, s'.inRing, v'.inLists, c);
    DropOut(s.conns, s.outRing, v.outLists, s'.outRing, v'.outLists, c);
    DropLru(s.conns, s.lruRing, v.lruLists, s'.lruRing, v'.lruLists, c);
    DropHash(s.conns, hash, s.chains, v.buckets, h, i);
    DropSlot(s.conns, s.slots, c);
    DropIssued(s.conns, s.slots, v.issued, c);
    DropKeys(s.conns, c);
  }

  /** The state with the new connection x at c, in slot k, when `with` has its list on the incoming side. */
  function Added(hash: Hash, s: State, c: nat, x: Conn, k: int, with: Ring): State
    requires 0 <= k < |s.slots|
  {
    State(s.conns[c := x], Push(s.chains, hash(x.inFd, x.inId), c), s.slots[k := Slot(Some(c), x.outId)],
          with, s.outRing, s.lruRing, s.live + 1)
  }

  lemma AddAll(hash: Hash, s: State, v: Shape, c: nat, x: Conn, k: int, with: Ring, lists: Lists)
    requires Consistent(hash, s, v) && c !in s.conns && x.outFd == 0
    requires forall d :: d in s.conns ==> !HasKey(s.conns[d], x.inFd, x.inId)
    requires 0 <= k < |s.slots| && s.slots[k].ref.None? && x.outId == NextId(s.slots[k].id, k)
    requires InOk(s.conns[c := x], with, lists)
    ensures var h := hash(x.inFd, x.inId);
            Consistent(hash, Added(hash, s, c, x, k, with),
                       v.(buckets := v.buckets[h := [c] + Bucket(v.buckets, h)], inLists := lists,
                          issued := v.issued + {x.outId}))
    ensures x.outId !in v.issued && !Listed(v.outLists, c)
  {
    hide HashOk, KeysOk, SlotsOk, IssuedOk, InOk, OutOk, LruOk, RingsOk, Push;
    SlotCount(s.conns, s.slots);
    AddHash(s.conns, hash, s.chains, v.buckets, c, x);
    AddOut(s.conns, s.outRing, v.outLists, c, x);
    AddLru(s.conns, s.lruRing, v.lruLists, c, x);
    AddSlot(s.conns, s.slots, c, x, k);
    AddIssued(s.conns, s.slots, v.issued, c, x, k);
    AddKeys(s.conns, c, x);
  }

  lemma BindAll(hash: Hash, s: State, v: Shape, c: nat, x: Conn, with: Ring, lists: Lists)
    requires Consistent(hash, s, v) && c in s.conns && SameIdentity(s.conns[c], x)
    requires OutOk(s.conns[c := x], with, lists)
    ensures Consistent(hash, s.(conns := s.conns[c := x], outRing := with), v.(outLists := lists))
  {
    hide HashOk, KeysOk, SlotsOk, IssuedOk, InOk, OutOk, LruOk, RingsOk;
    SameIdentityHash(s.conns, hash, s.chains, v.buckets, c, x);
    SameIdentitySlots(s.conns, s.slots, v.issued, c, x);
    SameIdentityIn(s.conns, s.inRing, v.inLists, c, x);
    SameIdentityKeys(s.conns, c, x);
    AddLru(s.conns, s.lruRing, v.lruLists, c, x);
  }

  lemma RingsIn(hash: Hash, s: State, v: Shape)
    requires Consistent(hash, s, v)
    ensures RingsOk(s.inRing, v.inLists) && RingsOk(s.outRing, v.outLists) && RingsOk(s.lruRing, v.lruLists)
    ensures LruOk(s.conns, s.lruRing, v.lruLists) && |s.slots| == TableSize
  {
  }

  lemma SlotIds(hash: Hash, s: State, v: Shape)
    requires Consistent(hash, s, v)
    ensures forall h :: 0 <= h < |s.slots| ==> s.slots[h].id >= 0
  {
    forall h | 0 <= h < |s.slots| ensures s.slots[h].id >= 0 { assert SlotOk(s.conns, s.slots, h); }
  }

  lemma InAndOut(hash: Hash, s: State, v: Shape)
    requires Consistent(hash, s, v)
    ensures InOk(s.conns, s.inRing, v.inLists) && OutOk(s.conns, s.outRing, v.outLists) && |s.slots| == TableSize
  {
  }

  lemma NewOut(hash: Hash, s: State, v: Shape, with: Ring, lists: Lists)
    requires Consistent(hash, s, v) && OutOk(s.conns, with, lists)
    ensures Consistent(hash, s.(outRing := with), v.(outLists := lists))
  {
  }

  lemma NewLru(hash: Hash, s: State, v: Shape, with: Ring, lists: Lists)
    requires Consistent(hash, s, v) && LruOk(s.conns, with, lists)
    ensures Consistent(hash, s.(lruRing := with), v.(lruLists := lists))
  {
  }

  lemma OnlyKey(hash: Hash, s: State, v: Shape, c: nat)
    requires Consistent(hash, s, v) && c in s.conns
    ensures forall d :: d in s.conns && HasKey(s.conns[d], s.conns[c].inFd, s.conns[c].inId) ==> d == c
  {
  }

  /** A key belongs to one connection. */
  lemma OneKey(hash: Hash, s: State, v: Shape, c: nat, d: Option<nat>)
    requires Consistent(hash, s, v) && c in s.conns
    requires d.Some? ==> d.value in s.conns && HasKey(s.conns[d.value], s.conns[c].inFd, s.conns[c].inId)
    requires d.None? ==> forall e :: e in s.conns ==> !HasKey(s.conns[e], s.conns[c].inFd, s.conns[c].inId)
    ensures d == Some(c)
  {
  }

  lemma EmptyOk(hash: Hash, s: State, v: Shape)
    requires s.conns == map[] && s.chains == Chains(map[], map[]) && s.live == 0
    requires s.slots == seq(TableSize, _ => Slot(None, 0)) && v == Shape(map[], map[], map[], map[0 := []], {})
    requires s.inRing == Ring(map[], map[]) && s.outRing == s.inRing && s.lruRing == Open(s.inRing, 0)
    ensures Consistent(hash, s, v)
  {
    forall h ensures ChainOk(s.chains, h, Bucket(v.buckets, h)) {
      assert PointerOk(s.chains, h, [], 0);
    }
    forall h, c ensures c in Bucket(v.buckets, h) <==> InBucket(s.conns, hash, h, c) { }
    var none: Lists := map[];
    OpenOk(s.inRing, none, 0);
    forall h | 0 <= h < TableSize ensures SlotOk(s.conns, s.slots, h) { }
    forall f, c ensures InListOk(s.conns, v.inLists, f, c) && OutListOk(s.conns, v.outLists, f, c) { }
  }

  datatype Answer = Null | Found(conn: nat) | Deleted

  class Tables {
    const hash: Hash
    var conns: Conns
    var chains: Chains
    var slots: seq<Slot>
    var inRing: Ring
    var outRing: Ring
    var lruRing: Ring
    /** ext_connections */
    var live: int
    ghost var v: Shape

    ghost function S(): State
      reads this
    {
      State(conns, chains, slots, inRing, outRing, lruRing, live)
    }

    ghost predicate Valid()
      reads this
    {
      Consistent(hash, S(), v)
    }

    /** Empty tables, as at the start of the program. */
    constructor (hash: Hash)
      ensures Valid() && conns == map[] && this.hash == hash
      ensures v == Shape(map[], map[], map[], map[0 := []], {})
    {
      this.hash := hash;
      conns, chains, slots := map[], Chains(map[], map[]), seq(TableSize, _ => Slot(None, 0));
      inRing, outRing, lruRing := Ring(map[], map[]), Ring(map[], map[]), Open(Ring(map[], map[]), 0);
      live, v := 0, Shape(map[], map[], map[], map[0 := []], {});
      new;
      EmptyOk(hash, S(), v);
    }

    /** The search loop of get_ext_connection_by_in_conn_id. */
    method Search(fd: int, id: int) returns (cur: Option<nat>, before: Option<nat>, ghost i: nat)
      requires Valid()
      ensures cur.None? ==> forall c :: c in conns ==> !HasKey(conns[c], fd, id)
      ensures var l := Bucket(v.buckets, hash(fd, id));
              cur.Some? ==> cur.value in conns && HasKey(conns[cur.value], fd, id) &&
                            i < |l| && l[i] == cur.value && before == Previous(l, i)
    {
      hide SlotsOk, IssuedOk, InOk, OutOk, LruOk;
      var h := hash(fd, id);
      ghost var l := Bucket(v.buckets, h);
      assert ChainOk(chains, h, l) && PointerOk(chains, h, l, 0);
      before, cur, i := None, Lookup(chains.head, h), 0;
      while cur.Some?
        invariant i <= |l| && cur == (if i < |l| then Some(l[i]) else None) && before == Previous(l, i)
        invariant forall j :: 0 <= j < i ==> l[j] in conns && !HasKey(conns[l[j]], fd, id)
        decreases |l| - i
      {
        assert l[i] in Bucket(v.buckets, h);
        assert InBucket(conns, hash, h, l[i]);
        if HasKey(conns[cur.value], fd, id) { return; }
        assert PointerOk(chains, h, l, i + 1);
        before, cur, i := cur, Lookup(chains.next, cur.value), i + 1;
      }
      forall c | c in conns ensures !HasKey(conns[c], fd, id) {
        assert InBucket(conns, hash, hash(conns[c].inFd, conns[c].inId), c);
        assert HasKey(conns[c], fd, id) ==> c in Bucket(v.buckets, h);
      }
    }

    /** find_ext_connection_by_out_conn_id: finds exactly the live connection with that id. */
    method FindByOutId(id: int) returns (cur: Option<nat>)
      requires Valid()
      ensures cur.Some? ==> cur.value in conns && conns[cur.value].outId == id
      ensures cur.None? ==> !Resolves(conns, id)
    {
      var h := id % TableSize;
      assert SlotOk(conns, slots, h);
      forall c | c in conns && conns[c].outId == id ensures slots[h] == Slot(Some(c), id) {
        assert ConnOk(conns, slots, c);
      }
      if slots[h].ref.None? || slots[h].id != id { return None; }
      return slots[h].ref;
    }

    /** get_ext_connection_by_in_fd: the only connection of the descriptor. */
    method FindByInFd(fd: int) returns (cur: Option<nat>)
      requires Valid()
      ensures cur.Some? ==> cur.value in conns && conns[cur.value].inFd == fd
      ensures fd != 0 ==> forall c :: c in conns && conns[c].inFd == fd ==> cur == Some(c)
    {
      hide HashOk, SlotsOk, IssuedOk, OutOk, LruOk;
      HeadLinks(inRing, v.inLists, fd);
      forall c | c in conns && conns[c].inFd == fd && fd != 0 ensures OnList(v.inLists, fd, c) {
        assert InListOk(conns, v.inLists, fd, c);
      }
      if Head(fd) !in inRing.next || inRing.next[Head(fd)] == Head(fd) { return None; }
      var x := inRing.next[Head(fd)];
      assert inRing.prev[Head(fd)] == x;
      assert InListOk(conns, v.inLists, fd, v.inLists[fd][0]);
      return Some(x.conn);
    }

    /** The deletion in get_ext_connection_by_in_conn_id, of the entry the search has found. */
    method Delete(c: nat, before: Option<nat>, ghost i: nat)
      requires Valid() && c in conns
      requires var l := Bucket(v.buckets, hash(conns[c].inFd, conns[c].inId));
               i < |l| && l[i] == c && before == Previous(l, i)
      modifies this
      ensures Valid() && conns == old(conns) - {c} && v.issued == old(v.issued)
      ensures Detached(old(v.inLists), v.inLists, c) && Detached(old(v.outLists), v.outLists, c)
      ensures Detached(old(v.lruLists), v.lruLists, c)
    {
      hide Consistent, RingsOk, Detached, Cut;
      RingsIn(hash, S(), v);
      var x := conns[c];
      var h, k := hash(x.inFd, x.inId), x.outId % TableSize;
      var inR, inL := Detach(inRing, v.inLists, c);
      var outR, outL := Detach(outRing, v.outLists, c);
      var lruR, lruL := Detach(lruRing, v.lruLists, c);
      ghost var v' := Shape(v.buckets, inL, outL, lruL, v.issued);
      DropAll(hash, S(), v, c, before, i, S().(inRing := inR, outRing := outR, lruRing := lruR), v');
      inRing, outRing, lruRing := inR, outR, lruR;
      chains := Cut(chains, h, before, c);
      slots := slots[k := slots[k].(ref := None)];
      conns := conns - {c};
      live := live - 1;
      v := v'.(buckets := v.buckets[h := Without(Bucket(v.buckets, h), i)]);
    }

    /** The search for a free slot: random numbers until one hits. */
    method FreeSlot(start: int, random: nat -> int) returns (h: int)
      requires |slots| == TableSize && exists n: nat :: slots[random(n) % TableSize].ref.None?
      ensures 0 <= h < TableSize && slots[h].ref.None?
      ensures slots[start % TableSize].ref.None? ==> h == start % TableSize
    {
      h := start % TableSize;
      var n: nat := 0;
      ghost var end: nat :| slots[random(end) % TableSize].ref.None?;
      while slots[h].ref.Some?
        invariant 0 <= h < TableSize && n <= end + 1 && (n == end + 1 ==> slots[h].ref.None?)
        invariant slots[start % TableSize].ref.None? ==> h == start % TableSize
        decreases end + 1 - n
      {
        h := random(n) % TableSize;
        n := n + 1;
      }
    }

    /** The creation in get_ext_connection_by_in_conn_id, when the search has found nothing. The number
        of connections and the emptiness of the descriptor's list are asserted there. */
    method Add(fd: int, gen: int, id: int, c: nat, random: nat -> int)
      requires Valid() && c !in conns && (forall d :: d in conns ==> !HasKey(conns[d], fd, id))
      requires live < TableSize / 2 && (fd != 0 ==> forall d :: d in conns ==> conns[d].inFd != fd)
      requires exists n: nat :: slots[random(n) % TableSize].ref.None?
      modifies this
      ensures Valid() && c in conns && conns == old(conns)[c := Conn(fd, gen, id, conns[c].outId, 0, 0, 0)]
      ensures conns[c].outId !in old(v.issued) && v.issued == old(v.issued) + {conns[c].outId}
      ensures SlotChosen(old(slots), fd, id, conns[c].outId)
      ensures v.outLists == old(v.outLists) && v.lruLists == old(v.lruLists) && !Listed(v.outLists, c)
    {
      hide Consistent, InOk, Push, Insert, SlotChosen, NextId;
      InAndOut(hash, S(), v);
      SlotIds(hash, S(), v);
      var k := FreeSlot(if id != 0 then random(0) else fd, random);
      var x := Conn(fd, gen, id, NextId(slots[k].id, k), 0, 0, 0);
      NewSlotChosen(slots, fd, id, k);
      var h := hash(fd, id);
      var with, lists := inRing, v.inLists;
      if fd != 0 {
        AddInList(conns, inRing, v.inLists, c, x);
        with, lists := Insert(Opened(inRing, fd), fd, c), OpenedLists(v.inLists, fd)[fd := [c]];
      } else {
        AddIn(conns, inRing, v.inLists, c, x);
      }
      AddAll(hash, S(), v, c, x, k, with, lists);
      v := v.(buckets := v.buckets[h := [c] + Bucket(v.buckets, h)], inLists := lists, issued := v.issued + {x.outId});
      inRing := with;
      chains := Push(chains, h, c);
      slots := slots[k := Slot(Some(c), x.outId)];
      conns := conns[c := x];
      live := live + 1;
    }

    /** get_ext_connection_by_in_conn_id; mode 0 = find, 1 = delete, 2 = create unless found, 3 = find or
        create. `c` is the address that calloc returns. */
    method ByInConnId(fd: int, gen: int, id: int, mode: int, c: nat, random: nat -> int) returns (r: Answer)
      requires Valid()
      requires (mode == 2 || mode == 3) && (forall d :: d in conns ==> !HasKey(conns[d], fd, id)) ==>
                 MayAdd(fd, c, random)
      modifies this
      ensures Valid() && Follows(old(conns), old(v.issued), conns, v.issued)
      ensures forall d :: d in old(conns) && HasKey(old(conns)[d], fd, id) ==>
                r == (if mode == 0 || mode == 3 then Found(d) else if mode == 1 then Deleted else Null) &&
                conns == if mode == 1 then old(conns) - {d} else old(conns)
      ensures (forall d :: d in old(conns) ==> !HasKey(old(conns)[d], fd, id)) ==>
                if mode == 2 || mode == 3
                then r == Found(c) && c in conns && conns[c].outId !in old(v.issued) &&
                     SlotChosen(old(slots), fd, id, conns[c].outId) &&
                     conns == old(conns)[c := Conn(fd, gen, id, conns[c].outId, 0, 0, 0)]
                else r == Null && conns == old(conns)
    {
      hide Consistent, Follows, Detached, Listed, SlotChosen;
      FollowsSelf(conns, v.issued);
      var cur, before, i := Search(fd, id);
      if cur.Some? {
        OnlyKey(hash, S(), v, cur.value);
        if mode == 0 || mode == 3 { return Found(cur.value); }
        if mode != 1 { return Null; }
        FollowsDrop(conns, v.issued, {cur.value});
        Delete(cur.value, before, i);
        return Deleted;
      }
      if mode != 2 && mode != 3 { return Null; }
      Add(fd, gen, id, c, random);
      FollowsAdd(old(conns), old(v.issued), c, conns[c]);
      return Found(c);
    }

    /** What the creation asserts, and that its random numbers come across a free slot. */
    ghost predicate MayAdd(fd: int, c: nat, random: nat -> int)
      reads this
    {
      c !in conns && live < TableSize / 2 && (fd != 0 ==> forall d :: d in conns ==> conns[d].inFd != fd) &&
      |slots| == TableSize && exists n: nat :: slots[random(n) % TableSize].ref.None?
    }

    /** create_ext_connection: a new connection, bound to the backend if there is one. */
    method CreateConn(fd: int, gen: int, id: int, co: Option<(int, int)>, key: int, c: nat, random: nat -> int)
      requires Valid() && (forall d :: d in conns ==> !HasKey(conns[d], fd, id)) && MayAdd(fd, c, random)
      requires co.Some? ==> co.value.0 in v.outLists
      modifies this
      ensures Valid() && Follows(old(conns), old(v.issued), conns, v.issued)
      ensures c in conns && conns[c].outId !in old(v.issued) && SlotChosen(old(slots), fd, id, conns[c].outId)
      ensures var bound := if co.Some? then co.value else (0, 0);
              conns == old(conns)[c := Conn(fd, gen, id, conns[c].outId, bound.0, bound.1, key)]
      ensures co.Some? ==> v.outLists == old(v.outLists)[co.value.0 := old(v.outLists)[co.value.0] + [c]]
      ensures co.None? ==> v.outLists == old(v.outLists)
    {
      hide Consistent, OutOk, Insert, Follows, SlotChosen;
      Add(fd, gen, id, c, random);
      InAndOut(hash, S(), v);
      var bound := if co.Some? then co.value else (0, 0);
      var x := conns[c].(outFd := bound.0, outGen := bound.1, key := key);
      if co.Some? {
        Bind(conns, outRing, v.outLists, c, x);
        BindAll(hash, S(), v, c, x, Insert(outRing, x.outFd, c), v.outLists[x.outFd := v.outLists[x.outFd] + [c]]);
        outRing := Insert(outRing, x.outFd, c);
        v := v.(outLists := v.outLists[x.outFd := v.outLists[x.outFd] + [c]]);
      } else {
        Unbound(conns, outRing, v.outLists, c, x);
        BindAll(hash, S(), v, c, x, outRing, v.outLists);
      }
      conns := conns[c := x];
      FollowsAdd(old(conns), old(v.issued), c, x);
      assert conns == old(conns)[c := x];
    }

    /** remove_ext_connection, but for the notifications it sends. */
    method Remove(c: nat, notify: int)
      requires Valid() && c in conns
      requires notify / 2 % 2 == 1 && conns[c].inFd != 0 ==> conns[c].inId == 0
      modifies this
      ensures Valid() && conns == old(conns) - {c} && v.issued == old(v.issued)
      ensures Follows(old(conns), old(v.issued), conns, v.issued)
      ensures Detached(old(v.inLists), v.inLists, c) && Detached(old(v.outLists), v.outLists, c)
      ensures Detached(old(v.lruLists), v.lruLists, c)
    {
      hide Consistent, Detached, Follows;
      FollowsDrop(conns, v.issued, {c});
      var x := conns[c];
      var cur, before, i := Search(x.inFd, x.inId);
      OneKey(hash, S(), v, c, cur);
      Delete(c, before, i);
    }

    /** mtfront_client_ready: the backend's list is opened. */
    method ClientReady(fd: int)
      requires Valid() && fd !in v.outLists
      modifies this`outRing, this`v
      ensures Valid() && v == old(v).(outLists := old(v.outLists)[fd := []])
    {
      hide Consistent, OutOk;
      InAndOut(hash, S(), v);
      OpenOut(conns, outRing, v.outLists, fd);
      NewOut(hash, S(), v, Open(outRing, fd), v.outLists[fd := []]);
      outRing := Open(outRing, fd);
      v := v.(outLists := v.outLists[fd := []]);
    }

    /** mtfront_client_close: removes exactly the connections bound to the backend, then its list. */
    method ClientClose(fd: int, ready: bool)
      requires Valid() && (ready ==> fd in v.outLists && CloseOk(conns, v.outLists[fd]))
      modifies this
      ensures Valid() && v.issued == old(v.issued) && Follows(old(conns), old(v.issued), conns, v.issued)
      ensures !ready ==> S() == old(S()) && v == old(v)
      ensures ready ==> v.outLists.Keys == old(v.outLists).Keys - {fd}
      ensures ready ==> conns == old(conns) - Members(old(v.outLists[fd]))
      ensures ready && fd != 0 ==> conns == NotBoundTo(old(conns), fd)
    {
      hide Consistent, OutOk, Detached, RingsOk, CloseOk, Members, NotBoundTo, Follows;
      FollowsSelf(conns, v.issued);
      if !ready { return; }
      FollowsDrop(conns, v.issued, Members(v.outLists[fd]));
      InAndOut(hash, S(), v);
      OutLinks(conns, outRing, v.outLists, fd);
      if fd != 0 { BoundExactly(conns, outRing, v.outLists, fd); }
      CloseAll(fd);
      InAndOut(hash, S(), v);
      CloseOut(conns, outRing, v.outLists, fd);
      NewOut(hash, S(), v, Shut(outRing, fd), v.outLists - {fd});
      outRing := Shut(outRing, fd);
      v := v.(outLists := v.outLists - {fd});
    }

    /** The loop of mtfront_client_close: the next pointer is read before the connection is removed. */
    method CloseAll(fd: int)
      requires Valid() && fd in v.outLists && CloseOk(conns, v.outLists[fd])
      modifies this
      ensures Valid() && v.issued == old(v.issued) && v.outLists.Keys == old(v.outLists).Keys
      ensures v.outLists[fd] == [] && conns == old(conns) - Members(old(v.outLists[fd]))
    {
      hide Consistent, OutOk, Detached, RingsOk, CloseOk, Members;
      ghost var l, conns0 := v.outLists[fd], conns;
      ghost var n: nat := 0;
      InAndOut(hash, S(), v);
      OutLinks(conns, outRing, v.outLists, fd);
      var x := outRing.next[Head(fd)];
      MembersNone(conns);
      assert l[0..] == l;
      while x != Head(fd)
        invariant Valid() && v.issued == old(v.issued) && n <= |l| && v.outLists.Keys == old(v.outLists).Keys
        invariant v.outLists[fd] == l[n..] && x == NodeAt(fd, l[n..], 1) && conns == conns0 - Members(l[..n])
        decreases |l| - n
      {
        var c := x.conn;
        InAndOut(hash, S(), v);
        OutLinks(conns, outRing, v.outLists, fd);
        var following := outRing.next[Member(c)];
        CloseNext(conns0, l, n);
        ghost var ls := v.outLists;
        Remove(c, 2);
        FirstDetached(ls, v.outLists, fd, c);
        assert l[n..][1..] == l[n + 1..];
        x, n := following, n + 1;
      }
      assert l[n..] == [] && l[..n] == l;
    }

    /** lru_delete_ext_conn */
    method LruDelete(c: nat)
      requires Valid()
      modifies this`lruRing, this`v
      ensures Valid() && v == old(v).(lruLists := v.lruLists) && Detached(old(v.lruLists), v.lruLists, c)
    {
      hide Consistent, LruOk, RingsOk, Detached;
      RingsIn(hash, S(), v);
      var r, ls := Detach(lruRing, v.lruLists, c);
      DropLru(conns, lruRing, v.lruLists, r, ls, c);
      NewLru(hash, S(), v, r, ls);
      lruRing := r;
      v := v.(lruLists := ls);
    }

    /** lru_insert_ext_conn: the connection becomes the most recently used. */
    method LruInsert(c: nat)
      requires Valid() && c in conns
      modifies this`lruRing, this`v
      ensures Valid() && v == old(v).(lruLists := v.lruLists)
      ensures 0 in v.lruLists && v.lruLists[0] != [] && v.lruLists[0][|v.lruLists[0]| - 1] == c
      ensures Detached(old(v.lruLists), v.lruLists[0 := v.lruLists[0][..|v.lruLists[0]| - 1]], c)
    {
      hide Consistent, LruOk, RingsOk, Detached, Listed, Insert;
      RingsIn(hash, S(), v);
      LruDelete(c);
      ghost var ls := v.lruLists;
      NotListed(conns, old(lruRing), old(v.lruLists), ls, c);
      RingsIn(hash, S(), v);
      LruAdded(conns, lruRing, ls, c);
      NewLru(hash, S(), v, Insert(lruRing, 0, c), ls[0 := ls[0] + [c]]);
      lruRing := Insert(lruRing, 0, c);
      v := v.(lruLists := ls[0 := ls[0] + [c]]);
      assert v.lruLists[0 := v.lruLists[0][..|v.lruLists[0]| - 1]] == ls;
    }
  }
}
