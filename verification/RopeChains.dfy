/** Chains of parts: joining, splitting, copying and changing them at their ends. */
module RopeChains {
  import opened Options
  import opened RopeModel

  ghost function End(h: Heap, p: nat): int
    requires p in h.parts
  {
    h.parts[p].end
  }

  ghost function Offset(h: Heap, p: nat): int
    requires p in h.parts
  {
    h.parts[p].offset
  }

  // ---------------------------------------------------------------- joining and splitting

  /** Two chains, the second behind the first. */
  lemma {:induction false} Join(h: Heap, ps: seq<nat>, qs: seq<nat>, fo: int, lo: int)
    requires qs != [] && qs[0] in h.parts && ps != [] && ps[|ps| - 1] in h.parts
    requires View(h, ps, fo, End(h, ps[|ps| - 1])) && View(h, qs, Offset(h, qs[0]), lo)
    requires h.parts[ps[|ps| - 1]].next == Some(qs[0])
    ensures View(h, ps + qs, fo, lo)
    ensures Content(h, ps + qs, fo, lo)
            == Content(h, ps, fo, End(h, ps[|ps| - 1])) + Content(h, qs, Offset(h, qs[0]), lo)
    decreases |ps|
  {
    if |ps| == 1 {
      assert (ps + qs)[1..] == qs;
    } else {
      assert (ps + qs)[1..] == ps[1..] + qs;
      Join(h, ps[1..], qs, Offset(h, ps[1]), lo);
    }
  }

  /** A chain of more than n parts is its first n parts and the rest. */
  lemma {:induction false} Split(h: Heap, ps: seq<nat>, fo: int, lo: int, n: nat)
    requires View(h, ps, fo, lo) && 0 < n < |ps|
    ensures ps[n - 1] in h.parts && ps[n] in h.parts
    ensures View(h, ps[..n], fo, End(h, ps[n - 1])) && View(h, ps[n..], Offset(h, ps[n]), lo)
    ensures h.parts[ps[n - 1]].next == Some(ps[n])
    ensures Content(h, ps, fo, lo)
            == Content(h, ps[..n], fo, End(h, ps[n - 1])) + Content(h, ps[n..], Offset(h, ps[n]), lo)
    decreases n
  {
    if n == 1 {
      assert ps[..1] == [ps[0]];
    } else {
      Split(h, ps[1..], Offset(h, ps[1]), lo, n - 1);
      assert ps[..n][1..] == ps[1..][..n - 1];
      assert ps[1..][n - 1..] == ps[n..];
    }
  }

  /** A chain of one part. */
  lemma Single(h: Heap, p: nat, fo: int, lo: int)
    requires Window(h, p) && Offset(h, p) <= fo <= lo <= End(h, p)
    ensures View(h, [p], fo, lo) && Content(h, [p], fo, lo) == Data(h, p)[fo..lo]
  {
  }

  /** The last part of a chain and where its bytes start. */
  lemma LastPart(h: Heap, ps: seq<nat>, fo: int, lo: int)
    requires View(h, ps, fo, lo)
    ensures Window(h, ps[|ps| - 1]) && lo <= End(h, ps[|ps| - 1]) && Offset(h, ps[|ps| - 1]) <= lo
  {
    if |ps| > 1 { Split(h, ps, fo, lo, |ps| - 1); } 
  }

  /** The same chain, seen up to an earlier point of its last part. */
  lemma {:induction false} Shorten(h: Heap, ps: seq<nat>, fo: int, lo: int, lo': int)
    requires View(h, ps, fo, lo) && lo' <= lo
    requires var l := ps[|ps| - 1]; l in h.parts && (if |ps| == 1 then fo <= lo' else Offset(h, l) <= lo')
    ensures View(h, ps, fo, lo')
    ensures |Content(h, ps, fo, lo)| - |Content(h, ps, fo, lo')| == lo - lo'
    ensures Content(h, ps, fo, lo') == Content(h, ps, fo, lo)[..|Content(h, ps, fo, lo')|]
    decreases |ps|
  {
    if |ps| > 1 {
      Shorten(h, ps[1..], Offset(h, ps[1]), lo, lo');
    }
  }

  /** The same chain, seen up to a later point of its last part. */
  lemma {:induction false} Extend(h: Heap, ps: seq<nat>, fo: int, lo: int, lo': int)
    requires View(h, ps, fo, lo) && Window(h, ps[|ps| - 1]) && 0 <= lo <= lo' <= End(h, ps[|ps| - 1])
    ensures View(h, ps, fo, lo')
    ensures Content(h, ps, fo, lo') == Content(h, ps, fo, lo) + Data(h, ps[|ps| - 1])[lo..lo']
    decreases |ps|
  {
    if |ps| > 1 {
      Extend(h, ps[1..], Offset(h, ps[1]), lo, lo');
    }
  }

  // ---------------------------------------------------------------- changes at the ends of a chain

  /** What the chain reads is the same in h', whatever happened outside. */
  ghost predicate SameRead(h: Heap, h': Heap, ps: seq<nat>, fo: int, lo: int)
    requires View(h, ps, fo, lo)
    decreases |ps|
  {
    Window(h', ps[0]) && Offset(h', ps[0]) <= fo &&
    if |ps| == 1 then lo <= End(h', ps[0]) && Data(h', ps[0])[fo..lo] == Data(h, ps[0])[fo..lo]
    else
      End(h', ps[0]) == End(h, ps[0]) && h'.parts[ps[0]].next == h.parts[ps[0]].next &&
      Data(h', ps[0])[fo..End(h, ps[0])] == Data(h, ps[0])[fo..End(h, ps[0])] &&
      ps[1] in h'.parts && Offset(h', ps[1]) == Offset(h, ps[1]) &&
      SameRead(h, h', ps[1..], Offset(h, ps[1]), lo)
  }

  lemma {:induction false} ReadFrame(h: Heap, h': Heap, ps: seq<nat>, fo: int, lo: int)
    requires View(h, ps, fo, lo) && SameRead(h, h', ps, fo, lo)
    ensures View(h', ps, fo, lo) && Content(h', ps, fo, lo) == Content(h, ps, fo, lo)
    decreases |ps|
  {
    if |ps| > 1 { ReadFrame(h, h', ps[1..], Offset(h, ps[1]), lo); }
  }

  lemma {:induction false} KeptRead(h: Heap, h': Heap, ps: seq<nat>, fo: int, lo: int)
    requires View(h, ps, fo, lo) && KeepAll(h, h', ps)
    ensures SameRead(h, h', ps, fo, lo)
    decreases |ps|
  {
    assert Keep(h, h', ps[0]);
    var x := h.parts[ps[0]];
    if |ps| == 1 {
      SliceSame(Data(h, ps[0]), Data(h', ps[0]), x.offset, x.end, fo, lo);
    } else {
      assert Keep(h, h', ps[1]);
      forall i | 0 <= i < |ps[1..]| ensures Keep(h, h', ps[1..][i]) { assert ps[1..][i] == ps[i + 1]; }
      KeptRead(h, h', ps[1..], Offset(h, ps[1]), lo);
      SliceSame(Data(h, ps[0]), Data(h', ps[0]), x.offset, x.end, fo, x.end);
    }
  }

  /** Only the first part changed, and not what the chain reads of it. */
  lemma FirstChanged(h: Heap, h': Heap, ps: seq<nat>, fo: int, lo: int)
    requires View(h, ps, fo, lo) && KeepAll(h, h', ps[1..])
    requires Window(h', ps[0]) && Offset(h', ps[0]) <= fo && h'.parts[ps[0]].next == h.parts[ps[0]].next
    requires End(h', ps[0]) == End(h, ps[0]) && h'.parts[ps[0]].buf == h.parts[ps[0]].buf &&
             Data(h', ps[0]) == Data(h, ps[0])
    ensures View(h', ps, fo, lo) && Content(h', ps, fo, lo) == Content(h, ps, fo, lo)
  {
    if |ps| > 1 {
      assert Keep(h, h', ps[1..][0]);
      KeptRead(h, h', ps[1..], Offset(h, ps[1]), lo);
    }
    ReadFrame(h, h', ps, fo, lo);
  }

  /** Only the last part changed, and not what the chain reads of it. */
  lemma {:induction false} LastChanged(h: Heap, h': Heap, ps: seq<nat>, fo: int, lo: int)
    requires View(h, ps, fo, lo) && KeepAll(h, h', ps[..|ps| - 1])
    requires Window(h, ps[|ps| - 1]) && Window(h', ps[|ps| - 1])
    requires Offset(h', ps[|ps| - 1]) == Offset(h, ps[|ps| - 1]) && lo <= End(h', ps[|ps| - 1])
    requires Data(h', ps[|ps| - 1]) == Data(h, ps[|ps| - 1])
    ensures View(h', ps, fo, lo) && Content(h', ps, fo, lo) == Content(h, ps, fo, lo)
    decreases |ps|
  {
    if |ps| > 1 {
      var qs := ps[1..];
      assert Keep(h, h', ps[..|ps| - 1][0]);
      var front := qs[..|qs| - 1];
      forall i | 0 <= i < |front| ensures Keep(h, h', front[i]) {
        assert front[i] == ps[..|ps| - 1][i + 1];
      }
      if |ps| > 2 { assert Keep(h, h', ps[..|ps| - 1][1]); }
      LastChanged(h, h', qs, Offset(h, ps[1]), lo);
      var x := h.parts[ps[0]];
      SliceSame(Data(h, ps[0]), Data(h', ps[0]), x.offset, x.end, fo, x.end);
    }
  }

  // ---------------------------------------------------------------- no part occurs twice

  lemma {:induction false} RanksFall(h: Heap, a: Aux, ps: seq<nat>, fo: int, lo: int, i: nat, j: nat)
    requires PartsOk(h, a) && View(h, ps, fo, lo) && i < j < |ps|
    ensures ps[i] in a.rank && ps[j] in a.rank && a.rank[ps[j]] < a.rank[ps[i]]
    decreases j
  {
    ViewLinks(h, ps, fo, lo, j - 1);
    ViewLinks(h, ps, fo, lo, j);
    assert PartOk(h, a, ps[j - 1]);
    if i < j - 1 { RanksFall(h, a, ps, fo, lo, i, j - 1); }
  }

  lemma NotInRest(h: Heap, a: Aux, ps: seq<nat>, fo: int, lo: int, i: nat)
    requires PartsOk(h, a) && View(h, ps, fo, lo) && i < |ps|
    ensures ps[i] !in ps[i + 1..] && ps[i] !in ps[..i]
  {
    forall j | i < j < |ps| ensures ps[i] != ps[j] { RanksFall(h, a, ps, fo, lo, i, j); }
    forall j | 0 <= j < i ensures ps[i] != ps[j] { RanksFall(h, a, ps, fo, lo, j, i); }
  }

  /** Keeping every part but p keeps a chain without p. */
  lemma KeepsWithout(h: Heap, h': Heap, ps: seq<nat>, p: nat)
    requires forall q :: q in h.parts && q != p ==> Keep(h, h', q)
    requires p !in ps && forall i :: 0 <= i < |ps| ==> ps[i] in h.parts
    ensures KeepAll(h, h', ps)
  {
  }

  lemma AllIn(h: Heap, ps: seq<nat>, fo: int, lo: int)
    requires View(h, ps, fo, lo)
    ensures forall i :: 0 <= i < |ps| ==> ps[i] in h.parts
  {
    forall i | 0 <= i < |ps| ensures ps[i] in h.parts { ViewLinks(h, ps, fo, lo, i); }
  }
}
