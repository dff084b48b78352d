/** fork_message_chain: giving a message a chain of its own. */
module RopeFork {
  import opened Options
  import opened RopeModel
  import opened RopeSteps
  import opened RopeChains

  // ---------------------------------------------------------------- keeping parts over several changes

  /** Every part of h is kept in h'. */
  ghost predicate KeepParts(h: Heap, h': Heap) {
    forall p :: p in h.parts ==> Keep(h, h', p)
  }

  lemma KeepTrans(h: Heap, h1: Heap, h2: Heap, p: nat)
    requires Keep(h, h1, p) && Keep(h1, h2, p)
    ensures Keep(h, h2, p)
  {
    var x := h.parts[p];
    SliceSame(Data(h1, p), Data(h2, p), h1.parts[p].offset, h1.parts[p].end, x.offset, x.end);
  }

  lemma KeepPartsTrans(h: Heap, h1: Heap, h2: Heap)
    requires KeepParts(h, h1) && KeepParts(h1, h2)
    ensures KeepParts(h, h2)
  {
    forall p | p in h.parts ensures Keep(h, h2, p) {
      assert Keep(h, h1, p);
      KeepTrans(h, h1, h2, p);
    }
  }

  lemma KeptView(h: Heap, h': Heap, ps: seq<nat>, fo: int, lo: int)
    requires View(h, ps, fo, lo) && KeepParts(h, h')
    ensures View(h', ps, fo, lo) && Content(h', ps, fo, lo) == Content(h, ps, fo, lo)
  {
    hide View, Content, Keep;
    AllIn(h, ps, fo, lo);
    ContentFrame(h, h', ps, fo, lo);
  }

  // ---------------------------------------------------------------- the part of the chain that is the message's own

  /** The first n parts have a single reference each. */
  ghost predicate SoleUpTo(h: Heap, ps: seq<nat>, n: nat) {
    n <= |ps| && forall j :: 0 <= j < n ==> ps[j] in h.parts && h.parts[ps[j]].refcnt == 1
  }

  lemma {:induction false} SolePrivate(h: Heap, a: Aux, ps: seq<nat>, fo: int, lo: int, n: nat, j: nat)
    requires CountsOk(h, a) && RawsOk(h, a) && View(h, ps, fo, lo) && ps[0] in a.temp && SoleUpTo(h, ps, n) && j < n
    ensures Private(h, a, ps[j])
    decreases j
  {
    hide CountsOk, RawsOk, View, Private;
    if j == 0 {
      OnlyLocal(h, a, ps[0]);
    } else {
      SolePrivate(h, a, ps, fo, lo, n, j - 1);
      ViewLinks(h, ps, fo, lo, j - 1);
      OnlyLink(h, a, ps[j - 1], ps[j]);
    }
  }

  // ---------------------------------------------------------------- copying the rest of the chain

  /** Where the bytes of part i start. */
  ghost function Start(h: Heap, ps: seq<nat>, fo: int, i: nat): int
    requires i < |ps| && ps[i] in h.parts
  {
    if i == 0 then fo else Offset(h, ps[i])
  }

  ghost function Stop(h: Heap, ps: seq<nat>, lo: int, i: nat): int
    requires i < |ps| && ps[i] in h.parts
  {
    if i == |ps| - 1 then lo else End(h, ps[i])
  }

  lemma {:induction false} StartStop(h: Heap, ps: seq<nat>, fo: int, lo: int, i: nat)
    requires View(h, ps, fo, lo) && i < |ps|
    ensures Window(h, ps[i]) && Offset(h, ps[i]) <= Start(h, ps, fo, i) <= Stop(h, ps, lo, i) <= End(h, ps[i])
    decreases i
  {
    if i > 0 {
      StartStop(h, ps[1..], Offset(h, ps[1]), lo, i - 1);
    }
  }

  /** Parts [i, n) of a chain, as a chain. */
  lemma Middle(h: Heap, ps: seq<nat>, fo: int, lo: int, i: nat, n: nat)
    requires View(h, ps, fo, lo) && i < n <= |ps|
    ensures ps[i] in h.parts && ps[n - 1] in h.parts
    ensures View(h, ps[i..n], Start(h, ps, fo, i), Stop(h, ps, lo, n - 1))
    ensures n < |ps| ==> ps[n] in h.parts && View(h, ps[n..], Offset(h, ps[n]), lo)
  {
    hide View, Content;
    AllIn(h, ps, fo, lo);
    if n < |ps| {
      Split(h, ps, fo, lo, n);
    } else {
      assert ps[..n] == ps;
    }
    if i > 0 {
      var qs := ps[..n];
      Split(h, qs, fo, Stop(h, ps, lo, n - 1), i);
      assert qs[i..] == ps[i..n];
    } else {
      assert ps[i..n] == ps[..n];
    }
  }

  ghost function Segment(h: Heap, ps: seq<nat>, fo: int, lo: int, i: nat, n: nat): seq<byte>
    requires View(h, ps, fo, lo) && i < n <= |ps|
  {
    Middle(h, ps, fo, lo, i, n);
    Content(h, ps[i..n], Start(h, ps, fo, i), Stop(h, ps, lo, n - 1))
  }

  /** One more part of the middle. */
  lemma MiddleMore(h: Heap, ps: seq<nat>, fo: int, lo: int, i: nat, n: nat)
    requires View(h, ps, fo, lo) && i < n < |ps|
    ensures Window(h, ps[n]) && 0 <= Offset(h, ps[n]) <= Stop(h, ps, lo, n) <= |Data(h, ps[n])|
    ensures Segment(h, ps, fo, lo, i, n + 1)
            == Segment(h, ps, fo, lo, i, n) + Data(h, ps[n])[Offset(h, ps[n])..Stop(h, ps, lo, n)]
  {
    hide View, Content;
    StartStop(h, ps, fo, lo, n);
    Middle(h, ps, fo, lo, i, n + 1);
    Middle(h, ps, fo, lo, i, n);
    var qs := ps[i..n + 1];
    Split(h, qs, Start(h, ps, fo, i), Stop(h, ps, lo, n), n - i);
    assert qs[..n - i] == ps[i..n];
    assert qs[n - i..] == [ps[n]];
    Single(h, ps[n], Offset(h, ps[n]), Stop(h, ps, lo, n));
  }

  lemma MiddleOne(h: Heap, ps: seq<nat>, fo: int, lo: int, i: nat)
    requires View(h, ps, fo, lo) && i < |ps|
    ensures Window(h, ps[i]) && 0 <= Start(h, ps, fo, i) <= Stop(h, ps, lo, i) <= |Data(h, ps[i])|
    ensures Segment(h, ps, fo, lo, i, i + 1) == Data(h, ps[i])[Start(h, ps, fo, i)..Stop(h, ps, lo, i)]
  {
    hide View, Content;
    StartStop(h, ps, fo, lo, i);
    Middle(h, ps, fo, lo, i, i + 1);
    assert ps[i..i + 1] == [ps[i]];
    Single(h, ps[i], Start(h, ps, fo, i), Stop(h, ps, lo, i));
  }

  /** The part that the next copy is chained behind: the part before the copied ones, if any, or the
      previous copy. */
  ghost function Target(prev: Option<nat>, cs: seq<nat>): Option<nat> {
    if cs == [] then prev else Some(cs[|cs| - 1])
  }

  /** What the copies look like: single references, not yet followed by anything, and new. */
  ghost predicate Copies(hd: Heap, h: Heap, cs: seq<nat>) {
    (forall j :: 0 <= j < |cs| ==>
      cs[j] in h.parts && h.parts[cs[j]].refcnt == 1 && cs[j] !in hd.parts && !h.parts[cs[j]].locked) &&
    (forall p :: p in h.parts ==> p in hd.parts || p in cs)
  }

  /** The old parts are as they were, except that `prev` is now followed by the first copy. */
  ghost predicate OldParts(hd: Heap, h: Heap, prev: Option<nat>, cs: seq<nat>) {
    forall p :: p in hd.parts ==>
      p in h.parts &&
      h.parts[p] == (if prev == Some(p) && cs != [] then hd.parts[p].(next := Some(cs[0])) else hd.parts[p])
  }

  /** The chain cs reads like the first parts of qs. */
  ghost predicate CopyReads(hd: Heap, h: Heap, qs: seq<nat>, s: int, lo: int, cs: seq<nat>)
    requires View(hd, qs, s, lo) && |cs| <= |qs|
  {
    cs != [] ==>
      (forall j :: 0 <= j < |cs| ==> cs[j] in h.parts) && qs[|cs| - 1] in hd.parts &&
      h.parts[cs[|cs| - 1]].next == None && Offset(h, cs[0]) == s &&
      End(h, cs[|cs| - 1]) == Stop(hd, qs, lo, |cs| - 1) &&
      View(h, cs, s, End(h, cs[|cs| - 1])) &&
      Content(h, cs, s, End(h, cs[|cs| - 1])) == Segment(hd, qs, s, lo, 0, |cs|)
  }

  ghost predicate CopyRanks(ad: Aux, a: Aux, qs: seq<nat>, cs: seq<nat>)
    requires |cs| <= |qs|
  {
    (forall p :: p in ad.rank && p !in cs ==> p in a.rank && a.rank[p] == ad.rank[p]) &&
    (cs != [] ==> cs[|cs| - 1] in a.rank && qs[|cs| - 1] in ad.rank && a.rank[cs[|cs| - 1]] == ad.rank[qs[|cs| - 1]])
  }

  /** After copying |cs| parts of qs, starting from the heap hd. */
  ghost predicate CopyInv(hd: Heap, ad: Aux, h: Heap, a: Aux, qs: seq<nat>, s: int, lo: int, prev: Option<nat>,
                          cs: seq<nat>) {
    Good(hd, ad) && View(hd, qs, s, lo) && |cs| <= |qs| &&
    Good(h, a) && Keeps(hd, ad, h, a) && KeepParts(hd, h) && a.paths == ad.paths && hd.unused <= h.unused &&
    Copies(hd, h, cs) && OldParts(hd, h, prev, cs) && CopyReads(hd, h, qs, s, lo, cs) && CopyRanks(ad, a, qs, cs) &&
    a.temp == ad.temp + (if prev == None && cs != [] then multiset{cs[0]} else multiset{})
  }

  /** `prev` is a part with nothing behind it, ranked above the chain. */
  ghost predicate PrevOk(hd: Heap, ad: Aux, qs: seq<nat>, prev: Option<nat>) {
    prev.Some? ==>
      prev.value in hd.parts && hd.parts[prev.value].next == None &&
      qs != [] && qs[0] in ad.rank && prev.value in ad.rank && ad.rank[qs[0]] < ad.rank[prev.value]
  }

  /** The next copy, with its window. */
  function CopyOne(h: Heap, q: nat, offset: int, end: int): Heap
    requires q in h.parts && h.parts[q].buf in h.bufs
  {
    AddPart(h, h.parts[q].buf, offset, end)
  }

  function Chained(h: Heap, target: Option<nat>, c: nat): Heap
    requires target.Some? ==> target.value in h.parts
  {
    if target.Some? then SetNext(h, target.value, Some(c)) else h
  }

  ghost function ChainedAux(a: Aux, target: Option<nat>, c: nat): Aux {
    if target.Some? then Dropped(a, c) else a
  }

  /** The window of the part to copy, seen in the current heap. */
  lemma CopySource(hd: Heap, ad: Aux, h: Heap, a: Aux, qs: seq<nat>, s: int, lo: int, prev: Option<nat>, cs: seq<nat>)
    requires CopyInv(hd, ad, h, a, qs, s, lo, prev, cs) && |cs| < |qs|
    ensures var q := qs[|cs|];
            Window(hd, q) && Window(h, q) && q in ad.rank && q in hd.parts &&
            0 <= Start(hd, qs, s, |cs|) <= Stop(hd, qs, lo, |cs|) <= End(hd, q) <= |Data(hd, q)| &&
              End(hd, q) <= |Data(h, q)| &&
            h.parts[q].buf == hd.parts[q].buf &&
            Data(h, q)[Start(hd, qs, s, |cs|)..Stop(hd, qs, lo, |cs|)]
            == Data(hd, q)[Start(hd, qs, s, |cs|)..Stop(hd, qs, lo, |cs|)] &&
            h.parts[q].offset == hd.parts[q].offset && h.parts[q].end == hd.parts[q].end &&
            (hd.parts[q].next.Some? ==> h.parts[q].next == hd.parts[q].next)
  {
    hide View, Content, PartsOk, CountsOk, BufsOk, RawsOk, Keeps, CopyReads, CopyRanks, Copies;
    var q := qs[|cs|];
    StartStop(hd, qs, s, lo, |cs|);
    NextIn(hd, ad, q);
    assert Keep(hd, h, q);
    SliceSame(Data(hd, q), Data(h, q), hd.parts[q].offset, hd.parts[q].end, Start(hd, qs, s, |cs|),
      Stop(hd, qs, lo, |cs|));
  }

  /** One round of the copying loop: from (h, a) to (h2, a2) with the new part c. */
  ghost predicate CopyRound(hd: Heap, ad: Aux, h: Heap, a: Aux, qs: seq<nat>, s: int, lo: int, prev: Option<nat>,
                            cs: seq<nat>, h2: Heap, a2: Aux) {
    CopyInv(hd, ad, h, a, qs, s, lo, prev, cs) && |cs| < |qs| && PrevOk(hd, ad, qs, prev) &&
    var q, t := qs[|cs|], Target(prev, cs);
    q in hd.parts && q in h.parts && h.parts[q].buf in h.bufs && q in ad.rank &&
    (t.Some? ==> t.value in h.parts && t.value != h.unused) && h.unused !in h.parts &&
    h2 == Chained(CopyOne(h, q, Start(hd, qs, s, |cs|), Stop(hd, qs, lo, |cs|)), t, h.unused) &&
    a2 == ChainedAux(Added(h, a, ad.rank[q]), t, h.unused)
  }

  /** The rank of the part that the copy is chained behind is higher than the rank of the copy. */
  lemma TargetOk(hd: Heap, ad: Aux, h: Heap, a: Aux, qs: seq<nat>, s: int, lo: int, prev: Option<nat>, cs: seq<nat>)
    requires CopyInv(hd, ad, h, a, qs, s, lo, prev, cs) && |cs| < |qs| && PrevOk(hd, ad, qs, prev)
    ensures var t := Target(prev, cs);
            qs[|cs|] in ad.rank &&
            (t.Some? ==> t.value in h.parts && h.parts[t.value].next == None && t.value in a.rank &&
                         ad.rank[qs[|cs|]] < a.rank[t.value])
  {
    hide View, Content, PartsOk, CountsOk, BufsOk, RawsOk, Keeps, Keep, KeepParts, Segment;
    StartStop(hd, qs, s, lo, |cs|);
    NextIn(hd, ad, qs[|cs|]);
    if cs != [] {
      RanksFall(hd, ad, qs, s, lo, |cs| - 1, |cs|);
    } else if prev.Some? {
      assert prev.value !in cs;
    }
  }

  lemma CopyRoundHeap(hd: Heap, ad: Aux, h: Heap, a: Aux, qs: seq<nat>, s: int, lo: int, prev: Option<nat>,
                      cs: seq<nat>, h2: Heap, a2: Aux)
    requires CopyRound(hd, ad, h, a, qs, s, lo, prev, cs, h2, a2)
    ensures Good(h2, a2) && Keeps(hd, ad, h2, a2) && KeepParts(h, h2) && KeepParts(hd, h2)
    ensures a2.paths == ad.paths && hd.unused <= h2.unused
  {
    hide View, Content, PartsOk, CountsOk, BufsOk, RawsOk, Keeps, Keep, Copies, OldParts, CopyReads, CopyRanks,
         PrevOk, Target, Start, Stop, Window;
    var q, t, c := qs[|cs|], Target(prev, cs), h.unused;
    CopySource(hd, ad, h, a, qs, s, lo, prev, cs);
    TargetOk(hd, ad, h, a, qs, s, lo, prev, cs);
    var h1, a1 := CopyOne(h, q, Start(hd, qs, s, |cs|), Stop(hd, qs, lo, |cs|)), Added(h, a, ad.rank[q]);
    AddGood(h, a, h.parts[q].buf, Start(hd, qs, s, |cs|), Stop(hd, qs, lo, |cs|), ad.rank[q]);
    KeepsTrans(hd, ad, h, a, h1, a1);
    if t.Some? {
      LinkGood(h1, a1, t.value, c);
      KeepsTrans(hd, ad, h1, a1, h2, a2);
      KeepPartsTrans(h, h1, h2);
    }
    KeepPartsTrans(hd, h, h2);
  }

  /** What one round does to the parts: a new part c, chained behind t. */
  ghost predicate OneMore(h: Heap, h2: Heap, t: Option<nat>, c: nat) {
    c !in h.parts && h2.parts.Keys == h.parts.Keys + {c} && h2.parts[c].refcnt == 1 && !h2.parts[c].locked &&
    forall p :: p in h.parts ==> h2.parts[p] == if t == Some(p) then h.parts[p].(next := Some(c)) else h.parts[p]
  }

  lemma MoreCopies(hd: Heap, h: Heap, h2: Heap, t: Option<nat>, cs: seq<nat>, c: nat)
    requires Copies(hd, h, cs) && OneMore(h, h2, t, c) && c !in hd.parts
    ensures Copies(hd, h2, cs + [c])
  {
    var cs' := cs + [c];
    forall j | 0 <= j < |cs'|
      ensures cs'[j] in h2.parts && h2.parts[cs'[j]].refcnt == 1 && cs'[j] !in hd.parts && !h2.parts[cs'[j]].locked
    {
      if j < |cs| { assert cs'[j] == cs[j]; }
    }
    forall p | p in h2.parts ensures p in hd.parts || p in cs' {
      assert cs'[|cs|] == c;
      if p in cs { var j :| 0 <= j < |cs| && cs[j] == p; assert cs'[j] == p; }
    }
  }

  lemma MoreOld(hd: Heap, h: Heap, h2: Heap, prev: Option<nat>, cs: seq<nat>, c: nat)
    requires OldParts(hd, h, prev, cs) && OneMore(h, h2, Target(prev, cs), c) && c !in hd.parts
    requires cs != [] ==> cs[|cs| - 1] !in hd.parts
    ensures OldParts(hd, h2, prev, cs + [c])
  {
    var cs' := cs + [c];
    assert cs'[0] == if cs == [] then c else cs[0];
  }

  lemma RoundAddsOne(h: Heap, q: nat, offset: int, end: int, t: Option<nat>)
    requires q in h.parts && h.parts[q].buf in h.bufs && h.unused !in h.parts && (t.Some? ==> t.value in h.parts)
    ensures OneMore(h, Chained(CopyOne(h, q, offset, end), t, h.unused), t, h.unused)
  {
  }

  lemma CopyRoundParts(hd: Heap, ad: Aux, h: Heap, a: Aux, qs: seq<nat>, s: int, lo: int, prev: Option<nat>,
                       cs: seq<nat>, h2: Heap, a2: Aux)
    requires CopyRound(hd, ad, h, a, qs, s, lo, prev, cs, h2, a2)
    ensures Copies(hd, h2, cs + [h.unused]) && OldParts(hd, h2, prev, cs + [h.unused])
  {
    hide View, Good, Keeps, KeepParts, CopyReads, CopyRanks, PrevOk, Start, Stop, Chained, CopyOne, OneMore;
    var t, c := Target(prev, cs), h.unused;
    RoundAddsOne(h, qs[|cs|], Start(hd, qs, s, |cs|), Stop(hd, qs, lo, |cs|), t);
    assert c !in hd.parts;
    MoreCopies(hd, h, h2, t, cs, c);
    MoreOld(hd, h, h2, prev, cs, c);
  }

  lemma MoreRanks(ad: Aux, a: Aux, a2: Aux, qs: seq<nat>, cs: seq<nat>, c: nat)
    requires |cs| < |qs| && CopyRanks(ad, a, qs, cs) && qs[|cs|] in ad.rank && a2.rank == a.rank[c := ad.rank[qs[|cs|]]]
    ensures CopyRanks(ad, a2, qs, cs + [c])
  {
    var cs' := cs + [c];
    assert cs'[|cs|] == c;
  }

  lemma MoreTemp(h: Heap, ad: Aux, a: Aux, rank: int, prev: Option<nat>, cs: seq<nat>)
    requires a.temp == ad.temp + (if prev == None && cs != [] then multiset{cs[0]} else multiset{})
    ensures var a2, cs' := ChainedAux(Added(h, a, rank), Target(prev, cs), h.unused), cs + [h.unused];
            a2.temp == ad.temp + (if prev == None then multiset{cs'[0]} else multiset{}) &&
            a2.rank == a.rank[h.unused := rank]
  {
    var c := h.unused;
    assert a.temp + multiset{c} - multiset{c} == a.temp;
    assert (cs + [c])[0] == if cs == [] then c else cs[0];
  }

  lemma CopyRoundRanks(hd: Heap, ad: Aux, h: Heap, a: Aux, qs: seq<nat>, s: int, lo: int, prev: Option<nat>,
                       cs: seq<nat>, h2: Heap, a2: Aux)
    requires CopyRound(hd, ad, h, a, qs, s, lo, prev, cs, h2, a2)
    ensures CopyRanks(ad, a2, qs, cs + [h.unused])
    ensures a2.temp == ad.temp + (if prev == None then multiset{(cs + [h.unused])[0]} else multiset{})
  {
    hide View, Good, Keeps, KeepParts, Copies, OldParts, CopyReads, CopyRanks, PrevOk, Start, Stop, Chained, CopyOne,
         ChainedAux, Added, Target;
    MoreTemp(h, ad, a, ad.rank[qs[|cs|]], prev, cs);
    MoreRanks(ad, a, a2, qs, cs, h.unused);
  }

  lemma CopyRoundReads(hd: Heap, ad: Aux, h: Heap, a: Aux, qs: seq<nat>, s: int, lo: int, prev: Option<nat>,
                       cs: seq<nat>, h2: Heap, a2: Aux)
    requires CopyRound(hd, ad, h, a, qs, s, lo, prev, cs, h2, a2) && KeepParts(h, h2)
    ensures CopyReads(hd, h2, qs, s, lo, cs + [h.unused])
  {
    hide View, Content, Good, Keeps, Keep, KeepParts, OldParts, CopyRanks, PrevOk, Segment;
    var q, t, c, n := qs[|cs|], Target(prev, cs), h.unused, |cs|;
    var cs' := cs + [c];
    CopySource(hd, ad, h, a, qs, s, lo, prev, cs);
    var from, to := Start(hd, qs, s, n), Stop(hd, qs, lo, n);
    assert h2.parts[c] == Part(None, h.parts[q].buf, from, to, 1, false);
    assert h2.bufs[h.parts[q].buf].data == h.bufs[h.parts[q].buf].data;
    assert Window(h2, c);
    Single(h2, c, from, to);
    assert Data(h2, c)[from..to] == Data(hd, q)[from..to];
    if cs == [] {
      MiddleOne(hd, qs, s, lo, 0);
      assert cs' == [c];
    } else {
      MiddleMore(hd, qs, s, lo, 0, n);
      var l := cs[n - 1];
      KeptView(h, h2, cs, s, End(h, l));
      assert h2.parts[l] == h.parts[l].(next := Some(c));
      Join(h2, cs, [c], s, to);
      forall j | 0 <= j < |cs'| ensures cs'[j] in h2.parts { }
    }
  }

  /** The copying loop keeps its invariant. */
  lemma CopyStep(hd: Heap, ad: Aux, h: Heap, a: Aux, qs: seq<nat>, s: int, lo: int, prev: Option<nat>, cs: seq<nat>,
                 h2: Heap, a2: Aux)
    requires CopyRound(hd, ad, h, a, qs, s, lo, prev, cs, h2, a2)
    ensures CopyInv(hd, ad, h2, a2, qs, s, lo, prev, cs + [h.unused])
  {
    hide View, Content, Keeps, Keep, KeepParts, Copies, OldParts, CopyReads, CopyRanks, PrevOk, Segment, PartsOk,
         CountsOk, BufsOk, RawsOk, Chained, CopyOne, ChainedAux, Added;
    CopyRoundHeap(hd, ad, h, a, qs, s, lo, prev, cs, h2, a2);
    CopyRoundParts(hd, ad, h, a, qs, s, lo, prev, cs, h2, a2);
    CopyRoundRanks(hd, ad, h, a, qs, s, lo, prev, cs, h2, a2);
    CopyRoundReads(hd, ad, h, a, qs, s, lo, prev, cs, h2, a2);
  }

  // ---------------------------------------------------------------- the message after copying

  /** The heap in which the rest of the chain is copied: the chain is cut before part i. */
  ghost function CutAt(h0: Heap, ps: seq<nat>, i: nat): Heap
    requires i < |ps| && (i > 0 ==> ps[i - 1] in h0.parts)
  {
    if i == 0 then h0 else SetNext(h0, ps[i - 1], None)
  }

  ghost function CutAux(a0: Aux, ps: seq<nat>, i: nat): Aux
    requires i < |ps|
  {
    if i == 0 then a0 else Held(a0, ps[i])
  }

  function Before(ps: seq<nat>, i: nat): Option<nat>
    requires i < |ps|
  {
    if i == 0 then None else Some(ps[i - 1])
  }

  /** Cutting before part i, whose predecessors are the message's own. */
  lemma CutBefore(h0: Heap, a0: Aux, ps: seq<nat>, fo: int, lo: int, i: nat)
    requires Good(h0, a0) && View(h0, ps, fo, lo) && i < |ps| && ps[0] in a0.temp && SoleUpTo(h0, ps, i)
    ensures i > 0 ==> ps[i - 1] in h0.parts
    ensures ps[i] in h0.parts
    ensures var hd, ad := CutAt(h0, ps, i), CutAux(a0, ps, i);
            Good(hd, ad) && Keeps(h0, a0, hd, ad) && ad.paths == a0.paths &&
            View(hd, ps[i..], Start(h0, ps, fo, i), lo) && PrevOk(hd, ad, ps[i..], Before(ps, i)) &&
            ps[i] in ad.temp && ps[0] in ad.temp
    ensures i > 0 ==>
              View(CutAt(h0, ps, i), ps[..i], fo, End(h0, ps[i - 1])) &&
              Content(h0, ps, fo, lo)
              == Content(CutAt(h0, ps, i), ps[..i], fo, End(h0, ps[i - 1]))
              + Content(CutAt(h0, ps, i), ps[i..], Start(h0, ps, fo, i), lo)
  {
    hide View, Content, PartsOk, CountsOk, BufsOk, RawsOk, Keeps, Keep, Private;
    AllIn(h0, ps, fo, lo);
    if i == 0 {
      assert ps[0..] == ps;
      KeepsSelf(h0, a0);
    } else {
      var p, hd := ps[i - 1], CutAt(h0, ps, i);
      Split(h0, ps, fo, lo, i);
      SolePrivate(h0, a0, ps, fo, lo, i, i - 1);
      CutGood(h0, a0, p, ps[i]);
      NextIn(h0, a0, p);
      NotInRest(h0, a0, ps, fo, lo, i - 1);
      KeepsWithout(h0, hd, ps[i..], p);
      ContentFrame(h0, hd, ps[i..], Offset(h0, ps[i]), lo);
      var front := ps[..i];
      assert front[..|front| - 1] == ps[..i - 1];
      KeepsWithout(h0, hd, ps[..i - 1], p);
      LastChanged(h0, hd, front, fo, End(h0, p));
    }
  }

  /** The chain that replaces ps: its own first i parts and the copies. */
  lemma CopyDone(h0: Heap, a0: Aux, h: Heap, a: Aux, ps: seq<nat>, fo: int, lo: int, i: nat, cs: seq<nat>)
    requires Good(h0, a0) && View(h0, ps, fo, lo) && i < |ps| && ps[0] in a0.temp && SoleUpTo(h0, ps, i)
    requires i > 0 ==> ps[i - 1] in h0.parts
    requires ps[i] in h0.parts && |cs| == |ps| - i
    requires CopyInv(CutAt(h0, ps, i), CutAux(a0, ps, i), h, a, ps[i..], Start(h0, ps, fo, i), lo, Before(ps, i), cs)
    ensures View(h, ps[..i] + cs, fo, lo) && Content(h, ps[..i] + cs, fo, lo) == Content(h0, ps, fo, lo)
    ensures SoleUpTo(h, ps[..i] + cs, |ps|) && (ps[..i] + cs)[0] in a.temp && ps[i] in a.temp
    ensures var l := (ps[..i] + cs)[|ps| - 1]; l in h.parts && h.parts[l].next == None && h.parts[l].end == lo
    ensures i == 0 ==> cs[0] in h.parts && h.parts[cs[0]].offset == fo
    ensures i > 0 ==> ps[0] in h.parts && h.parts[ps[0]].offset == h0.parts[ps[0]].offset
  {
    hide View, Content, PartsOk, CountsOk, BufsOk, RawsOk, Keeps, Keep, Private, CopyRanks;
    var hd, qs, s := CutAt(h0, ps, i), ps[i..], Start(h0, ps, fo, i);
    CutBefore(h0, a0, ps, fo, lo, i);
    assert qs[0..|qs|] == qs;
    Middle(hd, qs, s, lo, 0, |qs|);
    assert Content(h, cs, s, lo) == Content(hd, qs, s, lo);
    if i == 0 {
      assert ps[..0] + cs == cs;
    } else {
      var front := ps[..i];
      KeptView(hd, h, front, fo, End(h0, ps[i - 1]));
      Join(h, front, cs, fo, lo);
    }
    SoleParts(h0, h, ps, i, cs);
  }

  lemma SoleParts(h0: Heap, h: Heap, ps: seq<nat>, i: nat, cs: seq<nat>)
    requires i < |ps| && SoleUpTo(h0, ps, i) && (i > 0 ==> ps[i - 1] in h0.parts)
    requires OldParts(CutAt(h0, ps, i), h, Before(ps, i), cs) && Copies(CutAt(h0, ps, i), h, cs) && |cs| == |ps| - i
    ensures SoleUpTo(h, ps[..i] + cs, |ps|)
  {
    var ns := ps[..i] + cs;
    forall j | 0 <= j < |ps| ensures ns[j] in h.parts && h.parts[ns[j]].refcnt == 1 {
      if j < i {
        assert ns[j] == ps[j];
      } else {
        assert ns[j] == cs[j - i];
      }
    }
  }
}
