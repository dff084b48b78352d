/** Positions inside a message: where a byte offset falls, and what lies before and behind it. */
module RopeWalk {
  import opened Options
  import opened RopeModel
  import opened RopeSteps
  import opened RopeChains
  import opened RopeFork
  import opened RopeOps
  import opened RopeAppend
  import opened RopeUnion
  import opened RopeFront

  // ---------------------------------------------------------------- cutting a chain at a position

  /** Position x inside part n of the chain. */
  ghost predicate Inside(h: Heap, ps: seq<nat>, fo: int, lo: int, n: nat, x: int) {
    n < |ps| && ps[n] in h.parts && Start(h, ps, fo, n) <= x <= Stop(h, ps, lo, n)
  }

  /** The bytes of the parts before part n. */
  ghost function Passed(h: Heap, ps: seq<nat>, fo: int, n: nat): int
    requires n < |ps| && forall i :: 0 <= i < n ==> ps[i] in h.parts
    decreases n
  {
    if n == 0 then 0 else Passed(h, ps, fo, n - 1) + (End(h, ps[n - 1]) - Start(h, ps, fo, n - 1))
  }

  lemma {:induction false} PassedTail(h: Heap, ps: seq<nat>, fo: int, n: nat)
    requires 0 < n < |ps| && forall i :: 0 <= i < |ps| ==> ps[i] in h.parts
    ensures Passed(h, ps, fo, n) == End(h, ps[0]) - fo + Passed(h, ps[1..], Offset(h, ps[1]), n - 1)
    decreases n
  {
    if n > 1 { PassedTail(h, ps, fo, n - 1); }
  }

  /** A chain cut inside part n: the front ends there, the back starts there. */
  lemma {:induction false} CutPoint(h: Heap, ps: seq<nat>, fo: int, lo: int, n: nat, x: int)
    requires View(h, ps, fo, lo) && Inside(h, ps, fo, lo, n, x)
    ensures View(h, ps[..n + 1], fo, x) && View(h, ps[n..], x, lo)
    ensures Content(h, ps, fo, lo) == Content(h, ps[..n + 1], fo, x) + Content(h, ps[n..], x, lo)
    decreases n
  {
    if n == 0 {
      assert ps[..1] == [ps[0]] && ps[0..] == ps;
    } else {
      var qs := ps[1..];
      assert qs[n - 1] == ps[n];
      CutPoint(h, qs, Offset(h, ps[1]), lo, n - 1, x);
      assert ps[..n + 1][1..] == qs[..n];
      assert qs[n - 1..] == ps[n..];
    }
  }

  /** The bytes in front of the cut. */
  lemma {:induction false} CutLength(h: Heap, ps: seq<nat>, fo: int, n: nat, x: int)
    requires n < |ps| && View(h, ps[..n + 1], fo, x) && forall i :: 0 <= i < |ps| ==> ps[i] in h.parts
    ensures |Content(h, ps[..n + 1], fo, x)| == Passed(h, ps, fo, n) + x - Start(h, ps, fo, n)
    decreases n
  {
    if n == 0 {
      assert ps[..1] == [ps[0]];
    } else {
      assert ps[..n + 1][1..] == ps[1..][..n];
      CutLength(h, ps[1..], Offset(h, ps[1]), n - 1, x);
      PassedTail(h, ps, fo, n);
    }
  }

  /** How many bytes lie before position x of part n. */
  ghost function At(h: Heap, ps: seq<nat>, fo: int, n: nat, x: int): int
    requires n < |ps| && forall i :: 0 <= i < |ps| ==> ps[i] in h.parts
  {
    Passed(h, ps, fo, n) + x - Start(h, ps, fo, n)
  }

  /** The cut, in terms of the bytes of the message. */
  lemma CutBytes(h: Heap, ps: seq<nat>, fo: int, lo: int, n: nat, x: int)
    requires View(h, ps, fo, lo) && Inside(h, ps, fo, lo, n, x)
    ensures forall i :: 0 <= i < |ps| ==> ps[i] in h.parts
    ensures View(h, ps[..n + 1], fo, x) && View(h, ps[n..], x, lo)
    ensures var c, k := Content(h, ps, fo, lo), At(h, ps, fo, n, x);
            0 <= k <= |c| && Content(h, ps[..n + 1], fo, x) == c[..k] && Content(h, ps[n..], x, lo) == c[k..]
  {
    hide View, Content, Passed, Start, Stop;
    AllIn(h, ps, fo, lo);
    CutPoint(h, ps, fo, lo, n, x);
    CutLength(h, ps, fo, n, x);
  }

  /** The bytes between two positions of one part. */
  lemma Between(h: Heap, ps: seq<nat>, fo: int, lo: int, n: nat, x: int, y: int)
    requires View(h, ps, fo, lo) && Inside(h, ps, fo, lo, n, x) && Inside(h, ps, fo, lo, n, y) && x <= y
    ensures forall i :: 0 <= i < |ps| ==> ps[i] in h.parts
    ensures Window(h, ps[n]) && 0 <= x <= y <= |Data(h, ps[n])|
    ensures var c, k := Content(h, ps, fo, lo), At(h, ps, fo, n, x);
            0 <= k && k + (y - x) <= |c| && Data(h, ps[n])[x..y] == c[k..k + (y - x)]
  {
    hide Content, Passed, Stop;
    CutBytes(h, ps, fo, lo, n, x);
    CutBytes(h, ps, fo, lo, n, y);
    StartStop(h, ps, fo, lo, n);
    FrontOf(h, ps[n..], x, lo, y);
    var c, k := Content(h, ps, fo, lo), At(h, ps, fo, n, x);
    assert At(h, ps, fo, n, y) == k + (y - x);
    assert c[k..][..y - x] == c[k..k + (y - x)];
  }

  lemma FrontOf(h: Heap, qs: seq<nat>, x: int, lo: int, y: int)
    requires View(h, qs, x, lo) && x <= y && (if |qs| == 1 then y <= lo else y <= End(h, qs[0]))
    ensures 0 <= x <= y <= |Data(h, qs[0])| && y - x <= |Content(h, qs, x, lo)|
    ensures Data(h, qs[0])[x..y] == Content(h, qs, x, lo)[..y - x]
  {
  }

  /** Walking on to the next part. */
  lemma NextPart(h: Heap, ps: seq<nat>, fo: int, lo: int, n: nat)
    requires View(h, ps, fo, lo) && n < |ps|
    ensures forall i :: 0 <= i < |ps| ==> ps[i] in h.parts
    ensures Inside(h, ps, fo, lo, n, Start(h, ps, fo, n)) && Inside(h, ps, fo, lo, n, Stop(h, ps, lo, n)) &&
            Window(h, ps[n])
    ensures n + 1 < |ps| ==>
              h.parts[ps[n]].next == Some(ps[n + 1]) &&
              At(h, ps, fo, n + 1, Start(h, ps, fo, n + 1)) == At(h, ps, fo, n, Stop(h, ps, lo, n))
    ensures n + 1 == |ps| ==> At(h, ps, fo, n, Stop(h, ps, lo, n)) == |Content(h, ps, fo, lo)|
  {
    hide Content, View;
    AllIn(h, ps, fo, lo);
    StartStop(h, ps, fo, lo, n);
    ViewLinks(h, ps, fo, lo, n);
    if n + 1 == |ps| {
      assert ps[..n + 1] == ps;
      CutLength(h, ps, fo, n, lo);
    }
  }

  // ---------------------------------------------------------------- splitting a message

  function SplitHeap(h: Heap, r: nat, t: nat, q: nat, x: int, k: int): Heap
    requires r in h.raws && q in h.parts
  {
    var m := h.raws[r];
    Attach(Renew(Acquire(h, q), r, m.(last := Some(q), lastOffset := x, total := k)),
           t, Raw(Some(q), m.last, m.total - k, x, m.lastOffset))
  }

  ghost function SplitAux(a: Aux, r: nat, t: nat, n: nat): Aux
    requires r in a.paths && n < |a.paths[r]|
  {
    a.(paths := a.paths[r := a.paths[r][..n + 1]][t := a.paths[r][n..]])
  }

  /** r keeps the first k bytes, t has the rest, the others are as they were. */
  ghost predicate SplitDone(h0: Heap, a0: Aux, h: Heap, a: Aux, r: nat, t: nat, k: int) {
    Good(h0, a0) && Good(h, a) && r in h0.raws && r in h.raws && t in h.raws && r != t && a.temp == a0.temp &&
    0 <= k <= |Text(h0, a0, r)| && Text(h, a, r) == Text(h0, a0, r)[..k] && Text(h, a, t) == Text(h0, a0, r)[k..] &&
    h.raws.Keys == h0.raws.Keys + {t} && (OnlyLock(h0, None) ==> OnlyLock(h, None)) &&
    forall j :: j in h0.raws && j != r ==> j in h.raws && Text(h, a, j) == Text(h0, a0, j)
  }

  /** Position x of part n of message r is k bytes into it. */
  ghost predicate Located(h: Heap, a: Aux, r: nat, n: nat, x: int, k: int) {
    r in h.raws && RawOk(h, a, r) && n < |a.paths[r]| &&
    (forall i :: 0 <= i < |a.paths[r]| ==> a.paths[r][i] in h.parts) &&
    Inside(h, a.paths[r], h.raws[r].firstOffset, h.raws[r].lastOffset, n, x) &&
    k == At(h, a.paths[r], h.raws[r].firstOffset, n, x)
  }

  /** The bytes on both sides of a position, seen after the counts have changed. */
  lemma LocatedCut(h: Heap, a: Aux, r: nat, n: nat, x: int, k: int, h1: Heap)
    requires Located(h, a, r, n, x, k) && KeepParts(h, h1)
    ensures var m, ps := h.raws[r], a.paths[r];
            View(h1, ps[..n + 1], m.firstOffset, x) && View(h1, ps[n..], x, m.lastOffset) &&
            0 <= k <= |Text(h, a, r)| &&
            Content(h1, ps[..n + 1], m.firstOffset, x) == Text(h, a, r)[..k] &&
            Content(h1, ps[n..], x, m.lastOffset) == Text(h, a, r)[k..]
  {
    hide View, Content, Keep, KeepParts, Inside, At;
    var m, ps := h.raws[r], a.paths[r];
    CutBytes(h, ps, m.firstOffset, m.lastOffset, n, x);
    KeptView(h, h1, ps[..n + 1], m.firstOffset, x);
    KeptView(h, h1, ps[n..], x, m.lastOffset);
  }

  /** The front half: r ends at the position, and the reference for the other half is held. */
  ghost predicate HalfSplit(h: Heap, a: Aux, h2: Heap, a2: Aux, r: nat, n: nat, x: int, k: int)
    requires Located(h, a, r, n, x, k)
  {
    var m, ps := h.raws[r], a.paths[r];
    Became(h, a, h2, a2, r, if 0 <= k <= |Text(h, a, r)| then Text(h, a, r)[..k] else []) &&
      0 <= k <= |Text(h, a, r)| &&
    Fits(h2, Raw(Some(ps[n]), m.last, m.total - k, x, m.lastOffset), ps[n..]) &&
    Bytes(h2, Raw(Some(ps[n]), m.last, m.total - k, x, m.lastOffset), ps[n..]) == Text(h, a, r)[k..] && ps[n] in a2.temp
  }

  lemma SplitHalf(h: Heap, a: Aux, r: nat, n: nat, x: int, k: int)
    requires Good(h, a) && Located(h, a, r, n, x, k)
    ensures var m, ps := h.raws[r], a.paths[r];
            HalfSplit(h, a, Renew(Acquire(h, ps[n]), r, m.(last := Some(ps[n]), lastOffset := x, total := k)),
                      Held(a, ps[n]).(paths := a.paths[r := ps[..n + 1]]), r, n, x, k)
  {
    hide PartsOk, CountsOk, BufsOk, RawsOk, Keep, Keeps, KeepParts, View, Content, Others, Inside, At;
    var m, ps := h.raws[r], a.paths[r];
    var q := ps[n];
    AcquireGood(h, a, q);
    var h1, a1 := Acquire(h, q), Held(a, q);
    KeepPartsOf(h, h1);
    LocatedCut(h, a, r, n, x, k, h1);
    KeptFields(h, a, h1, a1, r);
    var m1, m2 := m.(last := Some(q), lastOffset := x, total := k), Raw(Some(q), m.last, m.total - k, x, m.lastOffset);
    assert ps[..n + 1][0] == ps[0] && ps[..n + 1][n] == q;
    SameAux(h1, a1, r, ps[..n + 1]);
    RenewGood(h1, a1, r, m1, ps[..n + 1]);
    var h2 := Renew(h1, r, m1);
    assert ps[n..][0] == q && ps[n..][|ps[n..]| - 1] == ps[|ps| - 1];
    AttachView(h1, a1, h2, m2, ps[n..]);
    KeepsOthersOf(h, a, h1, a1, r);
    OthersTrans(h, a, h1, a1, h2, a1.(paths := a1.paths[r := ps[..n + 1]]), r);
  }

  lemma SplitGood(h: Heap, a: Aux, r: nat, t: nat, n: nat, x: int, k: int)
    requires Good(h, a) && t !in h.raws && Located(h, a, r, n, x, k)
    ensures SplitDone(h, a, SplitHeap(h, r, t, a.paths[r][n], x, k), SplitAux(a, r, t, n), r, t, k)
  {
    hide PartsOk, CountsOk, BufsOk, RawsOk, Keep, View, Content, Inside, At, Fits, Bytes, Others;
    var m, ps := h.raws[r], a.paths[r];
    var q := ps[n];
    SplitHalf(h, a, r, n, x, k);
    var h2, a2 := Renew(Acquire(h, q), r, m.(last := Some(q), lastOffset := x, total := k)),
      Held(a, q).(paths := a.paths[r := ps[..n + 1]]);
    var m2 := Raw(Some(q), m.last, m.total - k, x, m.lastOffset);
    assert ps[n..][0] == q;
    AttachGood(h2, a2, t, m2, ps[n..]);
    assert Held(a, q).temp - multiset{q} == a.temp;
    assert Attached(a2, t, ps[n..]) == SplitAux(a, r, t, n);
    SplitRest(h, a, h2, a2, r, t, m2, ps[n..]);
  }

  lemma KeepPartsOf(h: Heap, h1: Heap)
    requires forall q :: q in h.parts ==> Keep(h, h1, q)
    ensures KeepParts(h, h1)
  {
  }

  lemma SplitRest(h: Heap, a: Aux, h2: Heap, a2: Aux, r: nat, t: nat, m: Raw, qs: seq<nat>)
    requires RawsOk(h, a) && RawsOk(h2, a2) && Others(h, a, h2, a2, r)
    requires r in h.raws && r in h2.raws && t !in h.raws && RawsOk(Attach(h2, t, m), Attached(a2, t, qs))
    requires forall j :: j in h2.raws ==>
               j in Attach(h2, t, m).raws && RawOk(Attach(h2, t, m), Attached(a2, t, qs), j) &&
               Text(Attach(h2, t, m), Attached(a2, t, qs), j) == Text(h2, a2, j)
    ensures Attach(h2, t, m).raws.Keys == h.raws.Keys + {t}
    ensures forall j :: j in h.raws && j != r ==>
              j in Attach(h2, t, m).raws && Text(Attach(h2, t, m), Attached(a2, t, qs), j) == Text(h, a, j)
  {
    hide RawOk, Text;
    assert Attach(h2, t, m).raws.Keys == h.raws.Keys + {t};
  }

  // ---------------------------------------------------------------- dropping the front, cutting the end

  /** Message r without its first k bytes; the reference to its old first part is still to be dropped. */
  function DropHeap(h: Heap, r: nat, q: nat, x: int, k: int): Heap
    requires r in h.raws && q in h.parts
  {
    var m := h.raws[r];
    Renew(Acquire(h, q), r, m.(first := Some(q), firstOffset := x, total := m.total - k))
  }

  ghost function DropAux(a: Aux, r: nat, n: nat): Aux
    requires r in a.paths && n < |a.paths[r]|
  {
    Aux(a.rank, a.paths[r := a.paths[r][n..]], a.temp + multiset{a.paths[r][0]})
  }

  lemma DropFront(h: Heap, a: Aux, r: nat, n: nat, x: int, k: int)
    requires Good(h, a) && Located(h, a, r, n, x, k)
    ensures 0 <= k <= |Text(h, a, r)|
    ensures Became(h, a, DropHeap(h, r, a.paths[r][n], x, k), DropAux(a, r, n), r, Text(h, a, r)[k..])
  {
    hide PartsOk, CountsOk, BufsOk, RawsOk, Keep, Keeps, KeepParts, View, Content, Others, Inside, At;
    var m, ps := h.raws[r], a.paths[r];
    var q := ps[n];
    AcquireGood(h, a, q);
    var h1, a1 := Acquire(h, q), Held(a, q);
    KeepPartsOf(h, h1);
    LocatedCut(h, a, r, n, x, k, h1);
    KeptFields(h, a, h1, a1, r);
    var m1 := m.(first := Some(q), firstOffset := x, total := m.total - k);
    assert ps[n..][0] == q && ps[n..][|ps[n..]| - 1] == ps[|ps| - 1];
    DropTemp(h1, a1, a, r, n);
    RenewGood(h1, a1, r, m1, ps[n..]);
    KeepsOthersOf(h, a, h1, a1, r);
    OthersTrans(h, a, h1, a1, Renew(h1, r, m1), DropAux(a, r, n), r);
  }

  lemma DropTemp(h: Heap, a: Aux, a0: Aux, r: nat, n: nat)
    requires r in h.raws && RawOk(h, a, r) && n < |a.paths[r]| && a == Held(a0, a.paths[r][n])
    ensures a.paths[r][n] in Detached(h, a, r).temp && Renewed(h, a, r, a.paths[r][n..]) == DropAux(a0, r, n)
  {
    hide View, Content;
    var ps := a.paths[r];
    assert ps[n..][0] == ps[n];
    assert (a.paths - {r})[r := ps[n..]] == a.paths[r := ps[n..]];
    assert a0.temp + multiset{ps[n]} + multiset{ps[0]} - multiset{ps[n]} == a0.temp + multiset{ps[0]};
  }

  /** Message r up to position x of part n. */
  function CutHeap(h: Heap, r: nat, q: nat, x: int, k: int): Heap
    requires r in h.raws
  {
    Renew(h, r, h.raws[r].(last := Some(q), lastOffset := x, total := k))
  }

  ghost function CutEndAux(a: Aux, r: nat, n: nat): Aux
    requires r in a.paths && n < |a.paths[r]|
  {
    a.(paths := a.paths[r := a.paths[r][..n + 1]])
  }

  lemma CutEnd(h: Heap, a: Aux, r: nat, n: nat, x: int, k: int)
    requires Good(h, a) && Located(h, a, r, n, x, k)
    ensures 0 <= k <= |Text(h, a, r)|
    ensures Became(h, a, CutHeap(h, r, a.paths[r][n], x, k), CutEndAux(a, r, n), r, Text(h, a, r)[..k])
  {
    hide PartsOk, CountsOk, BufsOk, RawsOk, Keep, View, Content, Others, Inside, At, KeepParts;
    var m, ps := h.raws[r], a.paths[r];
    assert KeepParts(h, h) by { KeepAllSelf(h, a); }
    LocatedCut(h, a, r, n, x, k, h);
    assert ps[..n + 1][0] == ps[0] && ps[..n + 1][n] == ps[n];
    SameAux(h, a, r, ps[..n + 1]);
    RenewGood(h, a, r, m.(last := Some(ps[n]), lastOffset := x, total := k), ps[..n + 1]);
  }

  lemma KeepAllSelf(h: Heap, a: Aux)
    requires PartsOk(h, a)
    ensures KeepParts(h, h)
  {
    forall p | p in h.parts ensures Keep(h, h, p) { assert PartOk(h, a, p); }
  }

  /** The same chain seen from its first byte in the same part: no reference changes hands. */
  function SkipHeap(h: Heap, r: nat, x: int, k: int): Heap
    requires r in h.raws
  {
    Renew(h, r, h.raws[r].(firstOffset := x, total := h.raws[r].total - k))
  }

  lemma SkipFront(h: Heap, a: Aux, r: nat, x: int, k: int)
    requires Good(h, a) && Located(h, a, r, 0, x, k)
    ensures 0 <= k <= |Text(h, a, r)|
    ensures Became(h, a, SkipHeap(h, r, x, k), a, r, Text(h, a, r)[k..])
  {
    hide PartsOk, CountsOk, BufsOk, RawsOk, Keep, View, Content, Others, Inside, At, KeepParts;
    var m, ps := h.raws[r], a.paths[r];
    assert KeepParts(h, h) by { KeepAllSelf(h, a); }
    LocatedCut(h, a, r, 0, x, k, h);
    assert ps[0..] == ps;
    SameAux(h, a, r, ps);
    assert a.(paths := a.paths[r := ps]) == a;
    RenewGood(h, a, r, m.(firstOffset := x, total := m.total - k), ps);
  }

  // ---------------------------------------------------------------- the walk along the parts

  function FirstByte(h: Heap, m: Raw, mp: nat): int
    requires mp in h.parts
  {
    if m.first == Some(mp) then m.firstOffset else h.parts[mp].offset
  }

  function EndByte(h: Heap, m: Raw, mp: nat): int
    requires mp in h.parts
  {
    if m.last == Some(mp) then m.lastOffset else h.parts[mp].end
  }

  /** Part n of message r, as the walk sees it. */
  ghost predicate Reading(h: Heap, a: Aux, r: nat, n: nat, mp: nat) {
    r in h.raws && RawOk(h, a, r) && n < |a.paths[r]| && mp == a.paths[r][n] && Window(h, mp) &&
    (forall i :: 0 <= i < |a.paths[r]| ==> a.paths[r][i] in h.parts)
  }

  lemma WalkFrom(h: Heap, a: Aux, r: nat)
    requires Good(h, a) && r in h.raws && h.raws[r].first.Some?
    ensures Reading(h, a, r, 0, h.raws[r].first.value)
    ensures At(h, a.paths[r], h.raws[r].firstOffset, 0, h.raws[r].firstOffset) == 0
    ensures h.raws[r].total == |Text(h, a, r)|
  {
    hide PartsOk, CountsOk, BufsOk, View, Content;
    assert RawOk(h, a, r);
    NextPart(h, a.paths[r], h.raws[r].firstOffset, h.raws[r].lastOffset, 0);
  }

  /** The range of part n, its position, and what comes after it. */
  lemma WalkRange(h: Heap, a: Aux, r: nat, n: nat, mp: nat)
    requires Good(h, a) && Reading(h, a, r, n, mp)
    ensures var m, ps := h.raws[r], a.paths[r];
            FirstByte(h, m, mp) == Start(h, ps, m.firstOffset, n) &&
              EndByte(h, m, mp) == Stop(h, ps, m.lastOffset, n) &&
            0 <= FirstByte(h, m, mp) <= EndByte(h, m, mp) <= |Data(h, mp)| &&
            Inside(h, ps, m.firstOffset, m.lastOffset, n, FirstByte(h, m, mp)) &&
            Inside(h, ps, m.firstOffset, m.lastOffset, n, EndByte(h, m, mp)) &&
            (if n + 1 < |ps| then
               h.parts[mp].next == Some(ps[n + 1]) && Reading(h, a, r, n + 1, ps[n + 1]) &&
               At(h, ps, m.firstOffset, n + 1, FirstByte(h, m, ps[n + 1]))
               == At(h, ps, m.firstOffset, n, EndByte(h, m, mp))
             else At(h, ps, m.firstOffset, n, EndByte(h, m, mp)) == |Text(h, a, r)|)
  {
    hide CountsOk, BufsOk, RawsOk, View, Content, Passed;
    var m, ps := h.raws[r], a.paths[r];
    NextPart(h, ps, m.firstOffset, m.lastOffset, n);
    NotInRest(h, a, ps, m.firstOffset, m.lastOffset, n);
    StartStop(h, ps, m.firstOffset, m.lastOffset, n);
    if n + 1 < |ps| {
      NextPart(h, ps, m.firstOffset, m.lastOffset, n + 1);
      NotInRest(h, a, ps, m.firstOffset, m.lastOffset, n + 1);
    }
  }

  lemma WalkPlace(h: Heap, a: Aux, r: nat, n: nat, mp: nat, x: int)
    requires Good(h, a) && Reading(h, a, r, n, mp) && FirstByte(h, h.raws[r], mp) <= x <= EndByte(h, h.raws[r], mp)
    ensures var m, ps := h.raws[r], a.paths[r];
            Located(h, a, r, n, x, At(h, ps, m.firstOffset, n, FirstByte(h, m, mp)) + x - FirstByte(h, m, mp))
  {
    hide Good, RawOk, Passed;
    WalkRange(h, a, r, n, mp);
  }

  /** Reading on from position x of part n to position y of the same part. */
  lemma ReadOn(h: Heap, a: Aux, r: nat, n: nat, mp: nat, x: int, k: int, y: int)
    requires Good(h, a) && Reading(h, a, r, n, mp) && Located(h, a, r, n, x, k) && x <= y <= EndByte(h, h.raws[r], mp)
    ensures Located(h, a, r, n, y, k + (y - x)) && 0 <= k && k + (y - x) <= |Text(h, a, r)|
    ensures 0 <= x <= y <= |Data(h, mp)| && Data(h, mp)[x..y] == Text(h, a, r)[k..k + (y - x)]
  {
    hide PartsOk, CountsOk, BufsOk, RawsOk, View, Content, Passed;
    var m, ps := h.raws[r], a.paths[r];
    WalkRange(h, a, r, n, mp);
    Between(h, ps, m.firstOffset, m.lastOffset, n, x, y);
  }

  // ---------------------------------------------------------------- parts that go with their last reference

  lemma SubsetOf(s: set<nat>, q: nat)
    requires s <= {q} && q !in s
    ensures |s| == 0
  {
    assert s == {};
  }

  /** A chain of parts with one reference each is freed as a whole: nobody is left to refer to part i. */
  lemma {:induction false} SoleFreed(h: Heap, a: Aux, r: nat, n: nat, h': Heap, a': Aux, i: nat)
    requires Good(h, a) && Good(h', a') && r in h.raws && r in a.paths && 0 < n < |a.paths[r]| && i < n &&
             RawOk(h, a, r)
    requires SoleUpTo(h, a.paths[r], n + 1) && a.temp == multiset{} && a'.temp == multiset{}
    requires Afterwards(h, h', r, a.paths[r][n])
    ensures a.paths[r][i] !in h'.parts
    decreases i
  {
    hide PartsOk, BufsOk, RawsOk, View, Content;
    var ps := a.paths[r];
    var p := ps[i];
    OnlyReference(h, a, r, i);
    RanksDiffer(h, a, r, i, n);
    if i > 0 { SoleFreed(h, a, r, n, h', a', i - 1); }
    if p in h'.parts { Unreferenced(h, h', r, ps, i, n); }
    assert p in h'.parts ==> CountOk(h', a', p);
  }

  lemma Unreferenced(h: Heap, h': Heap, r: nat, ps: seq<nat>, i: nat, n: nat)
    requires i < n < |ps| && ps[i] != ps[n] && Afterwards(h, h', r, ps[n]) && (i > 0 ==> ps[i - 1] !in h'.parts)
    requires if i == 0 then RawRefs(h, ps[0]) == {r} && PartRefs(h, ps[0]) == {}
             else RawRefs(h, ps[i]) == {} && PartRefs(h, ps[i]) == {ps[i - 1]}
    ensures |RawRefs(h', ps[i])| == 0 && |PartRefs(h', ps[i])| == 0
  {
    var p := ps[i];
    assert forall k :: k in RawRefs(h', p) ==> k != r && k in RawRefs(h, p);
    assert RawRefs(h', p) == {};
    assert forall k :: k in PartRefs(h', p) ==> k in PartRefs(h, p) && k in h'.parts;
    assert PartRefs(h', p) == {};
  }

  /** h' after dropping references: the parts keep their links, and r now starts at q. */
  ghost predicate Afterwards(h: Heap, h': Heap, r: nat, q: nat) {
    (forall p :: p in h'.parts ==> p in h.parts && h'.parts[p].next == h.parts[p].next) &&
    h'.raws.Keys == h.raws.Keys && (forall k :: k in h.raws && k != r ==> h'.raws[k] == h.raws[k]) &&
    r in h'.raws && h'.raws[r].first == Some(q)
  }

  /** The one reference to part i of a chain with single references. */
  lemma OnlyReference(h: Heap, a: Aux, r: nat, i: nat)
    requires Good(h, a) && r in h.raws && RawOk(h, a, r) && i < |a.paths[r]| && a.temp == multiset{}
    requires a.paths[r][i] in h.parts && h.parts[a.paths[r][i]].refcnt == 1
    ensures var ps := a.paths[r];
            if i == 0 then RawRefs(h, ps[0]) == {r} && PartRefs(h, ps[0]) == {}
            else RawRefs(h, ps[i]) == {} && PartRefs(h, ps[i]) == {ps[i - 1]}
  {
    hide PartsOk, BufsOk, RawsOk, View, Content;
    var ps, m := a.paths[r], h.raws[r];
    assert CountOk(h, a, ps[i]);
    if i == 0 {
      assert r in RawRefs(h, ps[0]);
      assert |PartRefs(h, ps[0])| == 0;
      OnlyOne(RawRefs(h, ps[0]), r);
    } else {
      ViewLinks(h, ps, m.firstOffset, m.lastOffset, i - 1);
      assert ps[i - 1] in PartRefs(h, ps[i]);
      assert |RawRefs(h, ps[i])| == 0;
      OnlyOne(PartRefs(h, ps[i]), ps[i - 1]);
    }
  }

  lemma RanksDiffer(h: Heap, a: Aux, r: nat, i: nat, n: nat)
    requires PartsOk(h, a) && r in h.raws && RawOk(h, a, r) && i < n < |a.paths[r]|
    ensures a.paths[r][i] != a.paths[r][n]
  {
    hide View, Content, PartsOk;
    RanksFall(h, a, a.paths[r], h.raws[r].firstOffset, h.raws[r].lastOffset, i, n);
  }

  /** So the part where the message now starts has a single reference again. */
  lemma SoleAgain(h: Heap, a: Aux, r: nat, n: nat, h': Heap, a': Aux)
    requires Good(h, a) && Good(h', a') && r in h.raws && r in a.paths && 0 < n < |a.paths[r]| && RawOk(h, a, r)
    requires SoleUpTo(h, a.paths[r], n + 1) && a.temp == multiset{} && a'.temp == multiset{}
    requires Afterwards(h, h', r, a.paths[r][n]) && a.paths[r][n] in h'.parts
    ensures h'.parts[a.paths[r][n]].refcnt == 1
  {
    hide PartsOk, BufsOk, RawsOk, View, Content, RawOk;
    var ps := a.paths[r];
    var q := ps[n];
    OnlyReference(h, a, r, n);
    SoleFreed(h, a, r, n, h', a', n - 1);
    assert CountOk(h', a', q);
    assert PartRefs(h', q) <= PartRefs(h, q) && ps[n - 1] !in PartRefs(h', q);
    SubsetOf(PartRefs(h', q), ps[n - 1]);
    assert RawRefs(h', q) == {r};
  }

  // ---------------------------------------------------------------- small facts for the operations

  lemma LocatedText(h: Heap, a: Aux, r: nat, n: nat, x: int, k: int)
    requires Good(h, a) && Located(h, a, r, n, x, k)
    ensures 0 <= k <= |Text(h, a, r)|
  {
    hide PartsOk, CountsOk, BufsOk, RawsOk, View, Content, Inside, At;
    CutBytes(h, a.paths[r], h.raws[r].firstOffset, h.raws[r].lastOffset, n, x);
  }

  /** The fast path: the position lies in the last part. */
  lemma InLastPart(h: Heap, a: Aux, r: nat, left: int)
    requires Good(h, a) && r in h.raws && h.raws[r].first.Some? && 0 <= left <= h.raws[r].total
    requires h.raws[r].last.Some? && h.raws[r].last.value in h.parts &&
             left <= h.raws[r].lastOffset - h.parts[h.raws[r].last.value].offset
    ensures RawOk(h, a, r) && r in a.paths && a.paths[r] != []
    ensures var n := |a.paths[r]| - 1;
            Located(h, a, r, n, h.raws[r].lastOffset - left, h.raws[r].total - left) &&
              Reading(h, a, r, n, h.raws[r].last.value)
  {
    hide PartsOk, CountsOk, BufsOk, View, Content, Passed;
    assert RawOk(h, a, r);
    var m, ps := h.raws[r], a.paths[r];
    NextPart(h, ps, m.firstOffset, m.lastOffset, |ps| - 1);
    if |ps| == 1 { OnePart(h, ps, m.firstOffset, m.lastOffset); }
  }

  lemma OnePart(h: Heap, ps: seq<nat>, fo: int, lo: int)
    requires View(h, ps, fo, lo) && |ps| == 1
    ensures |Content(h, ps, fo, lo)| == lo - fo
  {
  }

  /** Message r is still the same after the position has been found. */
  lemma PlainDone(h0: Heap, a0: Aux, h: Heap, a: Aux, r: nat, t: nat, k: int)
    requires SplitDone(h0, a0, h, a, r, t, k)
    ensures Good(h0, a0) && Good(h, a) && RawsOk(h0, a0) && RawsOk(h, a) && RawOk(h0, a0, r) && RawOk(h, a, r) &&
            RawOk(h, a, t)
    ensures 0 <= k <= |Text(h0, a0, r)| && Text(h, a, r) == Text(h0, a0, r)[..k] &&
            Text(h, a, t) == Text(h0, a0, r)[k..]
    ensures h.raws.Keys == h0.raws.Keys + {t} && a.temp == a0.temp && (OnlyLock(h0, None) ==> OnlyLock(h, None))
    ensures forall j :: j in h0.raws && j != r ==>
              j in h.raws && RawOk(h0, a0, j) && RawOk(h, a, j) && Text(h, a, j) == Text(h0, a0, j)
  {
    hide PartsOk, CountsOk, BufsOk, View, Content, OnlyLock;
  }

  /** Dropping the old first part after the front went. */
  lemma DropDone(h0: Heap, a0: Aux, h1: Heap, a1: Aux, h: Heap, a: Aux, r: nat, p: nat, text: seq<byte>)
    requires Became(h0, a0, h1, a1, r, text) && a1.temp == multiset{p} && OnlyLock(h1, None)
    requires Good(h, a) && a == Dropped(a1, p) && Keeps(h1, a1, h, a) && Shrunk(h1, h)
    ensures Became(h0, a0, h, a, r, text) && a.temp == multiset{} && OnlyLock(h, None)
  {
    hide PartsOk, CountsOk, BufsOk, RawsOk, View, Content, Others, Keeps;
    SameText(h1, a1, h, a, r);
    KeptFields(h1, a1, h, a, r);
    KeepsOthersOf(h1, a1, h, a, r);
    OthersTrans(h0, a0, h1, a1, h, a, r);
  }

  lemma SoleNone(h: Heap, ps: seq<nat>)
    ensures SoleUpTo(h, ps, 0)
  {
  }

  lemma SoleMore(h: Heap, a: Aux, r: nat, n: nat, mp: nat)
    requires Reading(h, a, r, n, mp)
    ensures r in a.paths && mp in h.parts && h.parts[mp].buf in h.bufs && h.bufs[h.parts[mp].buf].data == Data(h, mp)
    ensures SoleUpTo(h, a.paths[r], n) && h.parts[mp].refcnt == 1 ==> SoleUpTo(h, a.paths[r], n + 1)
  {
    hide View, Content;
  }

  /** The position of the end of part n. */
  lemma AtStep(h: Heap, a: Aux, r: nat, n: nat, mp: nat)
    requires Good(h, a) && Reading(h, a, r, n, mp)
    ensures var m, ps := h.raws[r], a.paths[r];
            At(h, ps, m.firstOffset, n, EndByte(h, m, mp)) == At(h, ps, m.firstOffset, n, FirstByte(h, m, mp))
              + EndByte(h, m, mp) - FirstByte(h, m, mp) &&
            h.raws[r].total == |Text(h, a, r)|
  {
    hide Good, View, Content, Passed;
  }

  lemma TotalIs(h: Heap, a: Aux, r: nat)
    requires Good(h, a) && r in h.raws
    ensures RawOk(h, a, r) && h.raws[r].total == |Text(h, a, r)|
  {
    hide PartsOk, CountsOk, BufsOk, View, Content;
    assert RawOk(h, a, r);
  }

  lemma LastOfNonEmpty(h: Heap, a: Aux, r: nat)
    requires Good(h, a) && r in h.raws && h.raws[r].total > 0
    ensures h.raws[r].first.Some? && h.raws[r].last.Some? && h.raws[r].last.value in h.parts
    ensures h.parts[h.raws[r].last.value].buf in h.bufs
  {
    hide PartsOk, CountsOk, BufsOk, View, Content;
    assert RawOk(h, a, r);
    LastPart(h, a.paths[r], h.raws[r].firstOffset, h.raws[r].lastOffset);
  }

  lemma ReadingPart(h: Heap, a: Aux, r: nat, n: nat, mp: nat)
    requires Reading(h, a, r, n, mp)
    ensures r in h.raws && r in a.paths && n < |a.paths[r]| && mp == a.paths[r][n] && mp in h.parts && RawOk(h, a, r)
    ensures forall i :: 0 <= i < |a.paths[r]| ==> a.paths[r][i] in h.parts
  {
    hide View, Content;
  }

  lemma NewBeside(h0: Heap, a0: Aux, h: Heap, a: Aux, r: nat, t: nat)
    requires Good(h0, a0) && Good(h, a) && Others(h0, a0, h, a, t) && r in h0.raws && t !in h0.raws && t in h.raws
    ensures h.raws.Keys == h0.raws.Keys + {t}
    ensures forall k :: k in h0.raws ==>
              k in h.raws && RawOk(h0, a0, k) && RawOk(h, a, k) && Text(h, a, k) == Text(h0, a0, k)
  {
    hide PartsOk, CountsOk, BufsOk, View, Content;
    assert h.raws.Keys == h0.raws.Keys + {t};
  }

  // ---------------------------------------------------------------- the steps of rwm_process_ex

  /** What a processed message becomes. */
  datatype Mode = Lookup | Advance | Truncate

  ghost function Processed(text: seq<byte>, offset: int, bytes: int, mode: Mode): seq<byte>
    requires 0 <= offset && 0 <= bytes && offset + bytes <= |text|
  {
    match mode
    case Lookup => text
    case Advance => text[offset + bytes..]
    case Truncate => text[..offset]
  }

  lemma NotDropped(h: Heap, a: Aux, r: nat, n: nat, x: int, k: int)
    requires Good(h, a) && a.temp == multiset{} && OnlyLock(h, None) && Located(h, a, r, n, x, k) && n > 0
    requires 0 <= k <= |Text(h, a, r)| && Became(h, a, DropHeap(h, r, a.paths[r][n], x, k), DropAux(a, r, n), r,
             Text(h, a, r)[k..])
    ensures var h1, a1 := DropHeap(h, r, a.paths[r][n], x, k), DropAux(a, r, n);
            Good(h1, a1) && a1.temp == multiset{a.paths[r][0]} && OnlyLock(h1, None) && LocksHeld(h1, a1)
  {
    hide Good, RawOk, Inside, At, Others;
  }

  /** After the front has gone, the part where the message starts is the message's own again if all
      the parts up to it were. */
  lemma OwnAgain(h: Heap, a: Aux, r: nat, n: nat, x: int, k: int, h': Heap, a': Aux)
    requires Good(h, a) && a.temp == multiset{} && Located(h, a, r, n, x, k) && n > 0 && SoleUpTo(h, a.paths[r], n + 1)
    requires Good(DropHeap(h, r, a.paths[r][n], x, k), DropAux(a, r, n))
    requires Good(h', a') && a'.temp == multiset{} &&
             Keeps(DropHeap(h, r, a.paths[r][n], x, k), DropAux(a, r, n), h', a')
    requires Shrunk(DropHeap(h, r, a.paths[r][n], x, k), h')
    ensures r in h'.raws && h'.raws[r].first == Some(a.paths[r][n]) && a.paths[r][n] in h'.parts &&
            h'.parts[a.paths[r][n]].refcnt == 1
  {
    hide PartsOk, CountsOk, BufsOk, RawsOk, View, Content, Inside, At, Keeps, SoleUpTo;
    var h1, a1, q := DropHeap(h, r, a.paths[r][n], x, k), DropAux(a, r, n), a.paths[r][n];
    KeepsFields(h1, a1, h', a');
    FirstIn(h', a', r);
    SoleAgain(h, a, r, n, h', a');
  }

  /** A message taken out, trimmed at its end and put back reads the same. */
  lemma TrimmedBack(h0: Heap, a0: Aux, h: Heap, a: Aux, r: nat)
    requires SameMessage(h0, a0, h, a, r) && SameLocks(h0, h) && OnlyLock(h0, None) && a0.temp == multiset{}
    ensures Good(h0, a0) && Good(h, a) && r in h0.raws && r in h.raws && RawOk(h0, a0, r) && RawOk(h, a, r)
    ensures Became(h0, a0, h, a, r, Text(h0, a0, r)) && a.temp == multiset{} && OnlyLock(h, None)
  {
    hide PartsOk, CountsOk, BufsOk, View, Content, Others, StillBut;
  }

  lemma ClearedText(h0: Heap, a0: Aux, h: Heap, a: Aux, r: nat)
    requires Gone(h0, a0, h, a, r) && a0.temp == multiset{} && OnlyLock(h0, None)
    ensures Became(h0, a0, Attach(h, r, Raw(None, None, 0, 0, 0)), Attached(a, r, []), r, [])
    ensures Attached(a, r, []).temp == multiset{} && OnlyLock(Attach(h, r, Raw(None, None, 0, 0, 0)), None)
  {
    hide PartsOk, CountsOk, BufsOk, RawsOk, Keep, Keeps, View, Content, Others;
    var m := Raw(None, None, 0, 0, 0);
    AttachGood(h, a, r, m, []);
    KeepsSelf(h, a);
    AttachOthers(h, a, h, a, r, m, []);
    OthersTrans(h0, a0, h, a, Attach(h, r, m), Attached(a, r, []), r);
  }

  lemma LocatedIn(h: Heap, a: Aux, r: nat, n: nat, mp: nat, x: int, k: int)
    requires Good(h, a) && Reading(h, a, r, n, mp) && Located(h, a, r, n, x, k)
    ensures FirstByte(h, h.raws[r], mp) <= x <= EndByte(h, h.raws[r], mp)
  {
    hide Good, RawOk, At;
    WalkRange(h, a, r, n, mp);
  }

  /** At the end of a part with bytes still to come, there is a next part, and its start is the same place. */
  lemma EndOfPart(h: Heap, a: Aux, r: nat, n: nat, mp: nat, x: int, k: int)
    requires Good(h, a) && Reading(h, a, r, n, mp) && Located(h, a, r, n, x, k) && x == EndByte(h, h.raws[r], mp) &&
             k < |Text(h, a, r)|
    ensures n + 1 < |a.paths[r]| && h.parts[mp].next == Some(a.paths[r][n + 1]) &&
            Reading(h, a, r, n + 1, a.paths[r][n + 1])
    ensures Located(h, a, r, n + 1, FirstByte(h, h.raws[r], a.paths[r][n + 1]), k)
  {
    hide Good, View, Content, Passed;
    WalkRange(h, a, r, n, mp);
    WalkRange(h, a, r, n + 1, a.paths[r][n + 1]);
  }

  lemma FirstOrNot(h: Heap, a: Aux, r: nat, n: nat, mp: nat)
    requires Good(h, a) && Reading(h, a, r, n, mp)
    ensures h.raws[r].first.Some? && h.raws[r].first.value == a.paths[r][0] && (h.raws[r].first == Some(mp) <==> n == 0)
  {
    hide CountsOk, BufsOk, RawsOk, View, Content;
    if n > 0 { RanksDiffer(h, a, r, 0, n); }
  }

  lemma ZeroPart(h: Heap, a: Aux, r: nat, n: nat, mp: nat, x: int, k: int)
    requires Reading(h, a, r, n, mp) && Located(h, a, r, n, x, k) && n == 0
    ensures Located(h, a, r, 0, x, k)
  {
  }

  lemma SkipLocks(h: Heap, r: nat, x: int, k: int)
    requires r in h.raws && OnlyLock(h, None)
    ensures OnlyLock(SkipHeap(h, r, x, k), None)
  {
  }

  lemma SoleFirst(h: Heap, a: Aux, r: nat, x: int, k: int)
    requires Located(h, a, r, 0, x, k) && SoleUpTo(h, a.paths[r], 1)
    ensures r in h.raws && h.raws[r].first.Some? && h.raws[r].first.value in h.parts &&
            h.parts[h.raws[r].first.value].refcnt == 1
  {
    hide View, Content, Inside, At;
  }

  lemma CutFacts(h: Heap, a: Aux, r: nat, n: nat, mp: nat, x: int, k: int)
    requires Located(h, a, r, n, x, k) && Reading(h, a, r, n, mp) && OnlyLock(h, None) && a.temp == multiset{}
    ensures OnlyLock(CutHeap(h, r, mp, x, k), None) && CutEndAux(a, r, n).temp == multiset{}
  {
    hide RawOk, Inside, At;
  }

  /** The shortened message is a chain of parts with single references. */
  lemma CutSole(h: Heap, a: Aux, r: nat, n: nat, mp: nat, x: int, k: int)
    requires Located(h, a, r, n, x, k) && Reading(h, a, r, n, mp) && SoleUpTo(h, a.paths[r], n + 1)
    ensures var h1, a1 := CutHeap(h, r, mp, x, k), CutEndAux(a, r, n);
            r in h1.raws && h1.raws[r].first.Some? && r in a1.paths && a1.paths[r] != [] &&
              SoleUpTo(h1, a1.paths[r], |a1.paths[r]|) &&
            mp == a1.paths[r][|a1.paths[r]| - 1] && mp in h1.parts && h1.raws[r].lastOffset == x
  {
    hide View, Content, Inside, At;
    var ps := a.paths[r];
    var front := ps[..n + 1];
    forall j | 0 <= j < |front| ensures front[j] in h.parts && h.parts[front[j]].refcnt == 1 {
      assert front[j] == ps[j];
    }
  }

  lemma DetachKeepsSole(h: Heap, r: nat, ps: seq<nat>)
    ensures Detach(h, r).parts == h.parts && (SoleUpTo(h, ps, |ps|) ==> SoleUpTo(Detach(h, r), ps, |ps|))
  {
  }

  lemma PutBackAt(h0: Heap, a0: Aux, h1: Heap, a1: Aux, h: Heap, a: Aux, r: nat, m: Raw, ps: seq<nat>)
    requires Good(h0, a0) && r in h0.raws && LocksElsewhere(h0, a0, r) && m == h0.raws[r] && m.first.Some? &&
             r in a0.paths && ps == a0.paths[r]
    requires h1 == Detach(h0, r) && a1 == Detached(h0, a0, r) && RawOk(h0, a0, r)
    requires Loose(h1, a1, m, ps) && Bytes(h1, m, ps) == Text(h0, a0, r)
    requires Back(h1, a1, h, a, r, m, ps, multiset{})
    ensures SameMessage(h0, a0, h, a, r) && SameLocks(h0, h)
  {
    hide PartsOk, CountsOk, BufsOk, RawsOk, Keeps, View, Content, Back, Still, Others, LocksElsewhere, RawOk;
    KeepsSelf(h1, a1);
    StillSelf(h1, a1);
    PutBack(h0, a0, h1, a1, h1, h, a, r, m, ps);
  }

  lemma FastRead(h: Heap, a: Aux, r: nat, left: int, bytes: int)
    requires Good(h, a) && r in h.raws && RawOk(h, a, r) && a.paths[r] != [] && 0 <= bytes <= left <= h.raws[r].total
    requires h.raws[r].last.Some? && h.raws[r].total == |Text(h, a, r)|
    requires var n := |a.paths[r]| - 1;
             Located(h, a, r, n, h.raws[r].lastOffset - left, h.raws[r].total - left) &&
               Reading(h, a, r, n, h.raws[r].last.value)
    ensures var n, x, k, mp := |a.paths[r]| - 1, h.raws[r].lastOffset - left, h.raws[r].total - left,
            h.raws[r].last.value;
            mp in h.parts && h.parts[mp].buf in h.bufs && 0 <= x && x + bytes <= |h.bufs[h.parts[mp].buf].data| &&
            h.bufs[h.parts[mp].buf].data[x..x + bytes] == Text(h, a, r)[k..k + bytes] &&
              Located(h, a, r, n, x + bytes, k + bytes)
  {
    hide Good, View, Content, Passed;
    var n, x, k, mp := |a.paths[r]| - 1, h.raws[r].lastOffset - left, h.raws[r].total - left, h.raws[r].last.value;
    WalkRange(h, a, r, n, mp);
    ReadOn(h, a, r, n, mp, x, k, x + bytes);
  }

  /** What rwm_process_ex promises for a positive number of bytes that are there. */
  ghost predicate ProcessDone(h0: Heap, a0: Aux, h: Heap, a: Aux, r: nat, offset: int, bytes: int, mode: Mode,
                              data: seq<byte>) {
    Good(h0, a0) && r in h0.raws && 0 <= offset && 0 <= bytes && offset + bytes <= |Text(h0, a0, r)| &&
    data == Text(h0, a0, r)[offset..offset + bytes] &&
      Became(h0, a0, h, a, r, Processed(Text(h0, a0, r), offset, bytes, mode)) &&
    a.temp == multiset{} && OnlyLock(h, None)
  }

  lemma ProcessMeans(h0: Heap, a0: Aux, h: Heap, a: Aux, r: nat, offset: int, bytes: int, mode: Mode, data: seq<byte>)
    requires ProcessDone(h0, a0, h, a, r, offset, bytes, mode, data)
    ensures Good(h0, a0) && Good(h, a) && a.temp == multiset{} && OnlyLock(h, None) && r in h0.raws && r in h.raws &&
            RawOk(h0, a0, r) && RawOk(h, a, r)
    ensures 0 <= offset && 0 <= bytes && offset + bytes <= |Text(h0, a0, r)| &&
            data == Text(h0, a0, r)[offset..offset + bytes]
    ensures Text(h, a, r) == Processed(Text(h0, a0, r), offset, bytes, mode) && Others(h0, a0, h, a, r)
  {
    hide PartsOk, CountsOk, BufsOk, View, Content, Others, OnlyLock;
  }

  /** A way to conclude it from what the single steps promise. */
  lemma ProcessBy(h0: Heap, a0: Aux, h: Heap, a: Aux, r: nat, offset: int, bytes: int, mode: Mode, data: seq<byte>)
    requires Good(h0, a0) && r in h0.raws && RawOk(h0, a0, r) && 0 <= offset && 0 <= bytes &&
             offset + bytes <= |Text(h0, a0, r)|
    requires data == Text(h0, a0, r)[offset..offset + bytes] && Good(h, a) && a.temp == multiset{} && OnlyLock(h, None)
    requires r in h.raws && RawOk(h, a, r) && Text(h, a, r) == Processed(Text(h0, a0, r), offset, bytes, mode) &&
             Others(h0, a0, h, a, r)
    ensures ProcessDone(h0, a0, h, a, r, offset, bytes, mode, data)
  {
    hide PartsOk, CountsOk, BufsOk, View, Content, Others, OnlyLock, RawOk;
  }
}
