/**
 A hash table of connections: a pointer to the first connection of each bucket and, in each
 connection, a pointer to the next one. An absent pointer is null.
 */
module HashChains {
  import opened Options
  import opened Sequences

  datatype Chains = Chains(head: map<int, nat>, next: map<nat, nat>)

  /** The connections of each bucket, in order. */
  type Buckets = map<int, seq<nat>>

  function Lookup<K(!new)>(m: map<K, nat>, k: K): Option<nat> {
    if k in m then Some(m[k]) else None
  }

  function Store<K(!new)>(m: map<K, nat>, k: K, v: Option<nat>): map<K, nat> {
    if v.Some? then m[k := v.value] else m - {k}
  }

  function Bucket(bs: Buckets, h: int): seq<nat> {
    if h in bs then bs[h] else []
  }

  /** The pointer that leads to entry i of the bucket: the bucket's own, or that of the entry before. */
  function Pointer(ch: Chains, h: int, l: seq<nat>, i: int): Option<nat>
    requires 0 <= i <= |l|
  {
    if i == 0 then Lookup(ch.head, h) else Lookup(ch.next, l[i - 1])
  }

  predicate PointerOk(ch: Chains, h: int, l: seq<nat>, i: int)
    requires 0 <= i <= |l|
  {
    Pointer(ch, h, l, i) == if i < |l| then Some(l[i]) else None
  }

  ghost predicate ChainOk(ch: Chains, h: int, l: seq<nat>) {
    forall i {:trigger PointerOk(ch, h, l, i)} :: 0 <= i <= |l| ==> PointerOk(ch, h, l, i)
  }

  ghost predicate Apart(bs: Buckets) {
    forall h, g, i, j :: 0 <= i < |Bucket(bs, h)| && 0 <= j < |Bucket(bs, g)| && Bucket(bs, h)[i] == Bucket(bs, g)[j]
      ==> h == g && i == j
  }

  ghost predicate ChainsOk(ch: Chains, bs: Buckets) {
    (forall h {:trigger ChainOk(ch, h, Bucket(bs, h))} :: ChainOk(ch, h, Bucket(bs, h))) && Apart(bs)
  }

  // ---------------------------------------------------------------- a new first entry

  function Push(ch: Chains, h: int, c: nat): Chains {
    Chains(ch.head[h := c], Store(ch.next, c, Lookup(ch.head, h)))
  }

  lemma PushOk(ch: Chains, bs: Buckets, h: int, c: nat)
    requires ChainsOk(ch, bs) && forall g :: c !in Bucket(bs, g)
    ensures ChainsOk(Push(ch, h, c), bs[h := [c] + Bucket(bs, h)])
  {
    var ch', bs' := Push(ch, h, c), bs[h := [c] + Bucket(bs, h)];
    forall g ensures ChainOk(ch', g, Bucket(bs', g)) {
      var l, l' := Bucket(bs, g), Bucket(bs', g);
      assert ChainOk(ch, g, l);
      forall i | 0 <= i <= |l'| ensures PointerOk(ch', g, l', i) {
        if g != h {
          assert PointerOk(ch, g, l, i);
          assert i > 0 ==> l[i - 1] in Bucket(bs, g);
        } else if i > 0 {
          assert PointerOk(ch, g, l, i - 1);
          assert i > 1 ==> l[i - 2] in Bucket(bs, g);
        }
      }
    }
    assert Apart(bs') by {
      forall g, k, i, j | 0 <= i < |Bucket(bs', g)| && 0 <= j < |Bucket(bs', k)| &&
        Bucket(bs', g)[i] == Bucket(bs', k)[j]
        ensures g == k && i == j
      {
        PushedApart(bs, h, c, g, k, i, j);
      }
    }
  }

  lemma PushedApart(bs: Buckets, h: int, c: nat, g: int, k: int, i: int, j: int)
    requires Apart(bs) && (forall x :: c !in Bucket(bs, x))
    requires 0 <= i < |Bucket(bs[h := [c] + Bucket(bs, h)], g)| && 0 <= j < |Bucket(bs[h := [c] + Bucket(bs, h)], k)|
    requires Bucket(bs[h := [c] + Bucket(bs, h)], g)[i] == Bucket(bs[h := [c] + Bucket(bs, h)], k)[j]
    ensures g == k && i == j
  {
    var i0, j0 := if g == h then i - 1 else i, if k == h then j - 1 else j;
    assert i0 >= 0 ==> Bucket(bs, g)[i0] in Bucket(bs, g);
    assert j0 >= 0 ==> Bucket(bs, k)[j0] in Bucket(bs, k);
    if i0 >= 0 && j0 >= 0 {
      assert Bucket(bs, g)[i0] == Bucket(bs, k)[j0];
    }
  }

  // ---------------------------------------------------------------- an entry cut out

  /** The pointer that led to entry i of the bucket now leads past it. */
  function Cut(ch: Chains, h: int, before: Option<nat>, c: nat): Chains {
    var rest := Lookup(ch.next, c);
    if before.None? then Chains(Store(ch.head, h, rest), ch.next - {c})
    else Chains(ch.head, Store(ch.next, before.value, rest) - {c})
  }

  function Previous(l: seq<nat>, i: nat): Option<nat>
    requires i <= |l|
  {
    if i == 0 then None else Some(l[i - 1])
  }

  lemma CutOk(ch: Chains, bs: Buckets, h: int, i: nat)
    requires ChainsOk(ch, bs) && i < |Bucket(bs, h)|
    ensures ChainsOk(Cut(ch, h, Previous(Bucket(bs, h), i), Bucket(bs, h)[i]), bs[h := Without(Bucket(bs, h), i)])
  {
    var l := Bucket(bs, h);
    var ch', bs' := Cut(ch, h, Previous(l, i), l[i]), bs[h := Without(l, i)];
    forall g ensures ChainOk(ch', g, Bucket(bs', g)) {
      forall j | 0 <= j <= |Bucket(bs', g)| ensures PointerOk(ch', g, Bucket(bs', g), j) {
        CutPointer(ch, bs, h, i, g, j);
      }
    }
    assert Apart(bs') by {
      forall g, k, x, y | 0 <= x < |Bucket(bs', g)| && 0 <= y < |Bucket(bs', k)| &&
        Bucket(bs', g)[x] == Bucket(bs', k)[y]
        ensures g == k && x == y
      {
        var x0, y0 := if g == h && x >= i then x + 1 else x, if k == h && y >= i then y + 1 else y;
        assert Bucket(bs, g)[x0] == Bucket(bs, k)[y0];
      }
    }
  }

  lemma CutPointer(ch: Chains, bs: Buckets, h: int, i: nat, g: int, j: int)
    requires ChainsOk(ch, bs) && i < |Bucket(bs, h)| && 0 <= j <= |Bucket(bs[h := Without(Bucket(bs, h), i)], g)|
    ensures PointerOk(Cut(ch, h, Previous(Bucket(bs, h), i), Bucket(bs, h)[i]), g,
                      Bucket(bs[h := Without(Bucket(bs, h), i)], g), j)
  {
    hide ChainOk, Apart, Cut, PointerOk;
    if g == h { CutHere(ch, bs, h, i, j); } else { CutElsewhere(ch, bs, h, i, g, j); }
  }

  lemma CutHere(ch: Chains, bs: Buckets, h: int, i: nat, j: int)
    requires ChainsOk(ch, bs) && i < |Bucket(bs, h)| && 0 <= j < |Bucket(bs, h)|
    ensures var l := Bucket(bs, h); PointerOk(Cut(ch, h, Previous(l, i), l[i]), h, Without(l, i), j)
  {
    hide Bucket, Apart;
    var l := Bucket(bs, h);
    var l', k := Without(l, i), if j > i then j + 1 else j;
    assert ChainOk(ch, h, l) && PointerOk(ch, h, l, k) && PointerOk(ch, h, l, i + 1);
    assert (j < i ==> l'[j] == l[j]) && (i <= j < |l'| ==> l'[j] == l[j + 1]);
    if j > 0 {
      assert l'[j - 1] == l[k - 1] && k - 1 != i;
      EntriesApart(bs, h, k - 1, i);
      if i > 0 && k != i { EntriesApart(bs, h, k - 1, i - 1); }
    }
  }

  lemma EntriesApart(bs: Buckets, h: int, i: nat, j: nat)
    requires Apart(bs) && i < |Bucket(bs, h)| && j < |Bucket(bs, h)| && i != j
    ensures Bucket(bs, h)[i] != Bucket(bs, h)[j]
  {
  }

  lemma CutElsewhere(ch: Chains, bs: Buckets, h: int, i: nat, g: int, j: int)
    requires ChainsOk(ch, bs) && i < |Bucket(bs, h)| && g != h && 0 <= j <= |Bucket(bs, g)|
    ensures var l := Bucket(bs, h); PointerOk(Cut(ch, h, Previous(l, i), l[i]), g, Bucket(bs, g), j)
  {
    var l, m := Bucket(bs, h), Bucket(bs, g);
    assert ChainOk(ch, g, m) && PointerOk(ch, g, m, j);
    if j > 0 {
      assert m[j - 1] != l[i] && (i > 0 ==> m[j - 1] != l[i - 1]);
    }
  }
}
