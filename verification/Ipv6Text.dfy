/**
 IPv6 addresses as text: the printer that shortens a run of zero groups to "::", and the parser.
 */
module Ipv6Text {
  import opened Options

  // ---------------------------------------------------------------- hexadecimal groups

  predicate IsHex(c: char) {
    '0' <= c <= '9' || 'A' <= c <= 'F' || 'a' <= c <= 'f'
  }

  /** The value of a digit, after the parser has folded it to lower case. */
  function DigitValue(c: char): (v: int)
    requires IsHex(c)
    ensures 0 <= v < 16
  {
    if c <= '9' then c as int - '0' as int
    else if c <= 'F' then c as int - 'A' as int + 10
    else c as int - 'a' as int + 10
  }

  function Digit(v: int): (c: char)
    requires 0 <= v < 16
    ensures IsHex(c) && DigitValue(c) == v
  {
    if v < 10 then (v + '0' as int) as char else (v - 10 + 'a' as int) as char
  }

  predicate AllHex(x: string) {
    forall i :: 0 <= i < |x| ==> IsHex(x[i])
  }

  /** One to four hexadecimal digits. */
  predicate IsGroup(x: string) {
    1 <= |x| <= 4 && AllHex(x)
  }

  function Value(x: string): int
    requires AllHex(x)
  {
    if x == [] then 0 else 16 * Value(x[..|x| - 1]) + DigitValue(x[|x| - 1])
  }

  /** The %x conversion: no leading zeros. */
  function Hex(v: nat): (x: string)
    ensures x != [] && AllHex(x) && Value(x) == v
    ensures (v < 16 ==> |x| == 1) && (v < 256 ==> |x| <= 2) && (v < 4096 ==> |x| <= 3) && (v < 65536 ==> |x| <= 4)
  {
    if v < 16 then [Digit(v)]
    else
      var x := Hex(v / 16) + [Digit(v % 16)];
      assert x[..|x| - 1] == Hex(v / 16);
      x
  }

  /** The sixteen digits, in both cases. */
  lemma DigitsSpelled(v: int)
    requires 0 <= v < 16
    ensures Digit(v) == "0123456789abcdef"[v] && DigitValue("0123456789abcdef"[v]) == v
    ensures DigitValue("0123456789ABCDEF"[v]) == v
  {
  }

  function Power16(n: nat): int {
    if n == 0 then 1 else 16 * Power16(n - 1)
  }

  /** The first digit is the most significant. */
  lemma {:induction false} MostSignificantFirst(c: char, x: string)
    requires IsHex(c) && AllHex(x)
    ensures AllHex([c] + x) && Value([c] + x) == DigitValue(c) * Power16(|x|) + Value(x)
    decreases |x|
  {
    hide Value, AllHex, IsHex, DigitValue;
    if x == [] {
      ValueSnoc("", c);
      assert [c] + x == "" + [c];
    } else {
      var y, d := x[..|x| - 1], x[|x| - 1];
      assert x == y + [d] && [c] + x == [c] + y + [d];
      HexParts(y, d);
      MostSignificantFirst(c, y);
      ValueSnoc(y, d);
      ValueSnoc([c] + y, d);
      Scaled(DigitValue(c), Power16(|y|));
    }
  }

  lemma Scaled(v: int, p: int)
    ensures 16 * (v * p) == v * (16 * p)
  {
  }

  lemma HexParts(y: string, d: char)
    requires AllHex(y + [d])
    ensures AllHex(y) && IsHex(d)
  {
    assert (y + [d])[|y|] == d && forall i :: 0 <= i < |y| ==> (y + [d])[i] == y[i];
  }

  lemma ValueSnoc(y: string, d: char)
    requires (y == "" || AllHex(y)) && IsHex(d)
    ensures AllHex(y + [d]) && AllHex(y) && Value(y + [d]) == 16 * Value(y) + DigitValue(d)
    ensures y == "" ==> Value(y) == 0
  {
    assert (y + [d])[..|y|] == y;
  }

  /** No leading zeros are printed. */
  lemma {:induction false} NoLeadingZero(v: nat)
    requires v > 0
    ensures Hex(v)[0] != '0'
  {
    if v >= 16 { NoLeadingZero(v / 16); }
  }

  /** Eight groups of sixteen bits. */
  predicate IsAddress(a: seq<int>) {
    |a| == 8 && forall i :: 0 <= i < 8 ==> 0 <= a[i] < 65536
  }

  predicate AllGroups(ts: seq<string>) {
    forall i :: 0 <= i < |ts| ==> IsGroup(ts[i])
  }

  function Values(ts: seq<string>): (vs: seq<int>)
    requires AllGroups(ts)
    ensures |vs| == |ts|
  {
    if ts == [] then [] else [Value(ts[0])] + Values(ts[1..])
  }

  /** Two bytes a group, the high one first. */
  function Bytes(vs: seq<int>): (bs: seq<int>)
    ensures |bs| == 2 * |vs|
  {
    seq(2 * |vs|, j requires 0 <= j < 2 * |vs| => if j % 2 == 0 then vs[j / 2] / 256 else vs[j / 2] % 256)
  }

  // ---------------------------------------------------------------- the text form

  function Zeros(n: nat): seq<int> {
    seq(n, _ => 0)
  }

  function Joined(ts: seq<string>): string {
    if ts == [] then [] else if |ts| == 1 then ts[0] else ts[0] + ":" + Joined(ts[1..])
  }

  /** The text of the groups ts, with "::" before group number gap if gap is not negative. */
  function Text(ts: seq<string>, gap: int): string
    requires gap <= |ts|
  {
    if gap < 0 then Joined(ts) else Joined(ts[..gap]) + "::" + Joined(ts[gap..])
  }

  /** The groups that a text stands for: all eight, or "::" for those that are missing. */
  predicate IsForm(ts: seq<string>, gap: int) {
    AllGroups(ts) && |ts| <= 8 && gap <= 7 && gap <= |ts| && (gap < 0 ==> |ts| == 8)
  }

  function Meaning(ts: seq<string>, gap: int): (a: seq<int>)
    requires IsForm(ts, gap)
    ensures |a| == 8
  {
    if gap < 0 then Values(ts) else Values(ts)[..gap] + Zeros(8 - |ts|) + Values(ts)[gap..]
  }

  /** The text form of section 2.2 of RFC 4291 without the dotted form, except that "::" may also
      stand for no group at all. */
  ghost predicate Denotes(s: string, a: seq<int>) {
    exists ts: seq<string>, gap: int :: IsForm(ts, gap) && s == Text(ts, gap) && a == Meaning(ts, gap)
  }

  // ---------------------------------------------------------------- the parser as a function

  function At(s: string, p: int): char {
    if 0 <= p < |s| then s[p] else '\0'
  }

  /** The number of hexadecimal digits at p. */
  function HexRun(s: string, p: nat): (n: nat)
    requires p <= |s|
    ensures p + n <= |s| && AllHex(s[p..p + n]) && !IsHex(At(s, p + n))
    decreases |s| - p
  {
    if IsHex(At(s, p)) then 1 + HexRun(s, p + 1) else 0
  }

  /** Where the parser's loop stopped: the position, the group before which "::" stood, the groups. */
  datatype Outcome = Outcome(end: nat, gap: int, groups: seq<int>)

  /** One separator: the position after it and the gap. */
  function Separator(s: string, p: nat, gap: int, i: nat): (r: Option<(nat, int)>)
    requires p < |s|
    ensures r.Some? ==> r.value.0 <= |s|
  {
    if At(s, p + 1) == ':' then (if gap >= 0 then None else Some((p + 2, i))) else Some((p + 1, gap))
  }

  /** The rounds of the parser's loop from position p on, with the groups vs already read. */
  function Groups(s: string, p: nat, gap: int, vs: seq<int>): Option<Outcome>
    requires p <= |s|
    decreases 8 - |vs|, 1
  {
    if |vs| >= 8 then Some(Outcome(p, gap, vs))
    else if |vs| > 0 && At(s, p) != ':' then (if gap >= 0 then Some(Outcome(p, gap, vs)) else None)
    else
      var sep := if |vs| > 0 then Separator(s, p, gap, |vs|) else Some((p, gap));
      if sep.None? then None else Component(s, sep.value.0, sep.value.1, vs)
  }

  function Component(s: string, p: nat, gap: int, vs: seq<int>): Option<Outcome>
    requires p <= |s| && |vs| < 8
    decreases 8 - |vs|, 0
  {
    var n := HexRun(s, p);
    if n > 4 then None
    else if n == 0 then (if gap == |vs| then Some(Outcome(p, gap, vs)) else None)
    else Groups(s, p + n, gap, vs + [Value(s[p..p + n])])
  }

  /** parse_text_ipv6: the address, if the whole text is one. */
  function Parsed(s: string): (r: Option<seq<int>>)
  {
    var o := if At(s, 0) == ':' && At(s, 1) == ':' then Groups(s, 2, 0, []) else Groups(s, 0, -1, []);
    if o.None? || o.value.end != |s| then None else Some(Expanded(o.value.gap, o.value.groups))
  }

  /** The groups left and right of the gap, with zeros in between. */
  function Expanded(gap: int, vs: seq<int>): seq<int> {
    if 0 <= gap <= |vs| < 8 then vs[..gap] + Zeros(8 - |vs|) + vs[gap..] else vs
  }

  // ---------------------------------------------------------------- the parser reads exactly the text form

  /** What is left of a text: the groups us, "::" before group g of them; a separator first unless at
      the beginning. */
  function Rest(us: seq<string>, g: int, first: bool): string {
    if us == [] then (if g == 0 && !first then "::" else "")
    else (if first then "" else if g == 0 then "::" else ":") + us[0] + Rest(us[1..], g - 1, false)
  }

  lemma {:induction false} RestPlain(us: seq<string>, g: int)
    requires g < 0
    ensures Rest(us, g, false) == if us == [] then "" else ":" + Joined(us)
  {
    hide Rest, Joined;
    if us == [] {
      NoneLeft(g);
    } else {
      RestPlain(us[1..], g - 1);
      RestFirst(us, g, false);
      JoinedRest(us);
    }
  }

  lemma NoneLeft(g: int)
    ensures Joined([]) == "" && (g < 0 ==> Rest([], g, false) == "") && Rest([], 0, false) == "::"
    ensures Rest([], g, true) == ""
  {
  }

  lemma JoinedRest(us: seq<string>)
    requires us != []
    ensures Joined(us) == if |us| == 1 then us[0] else us[0] + ":" + Joined(us[1..])
  {
  }

  lemma {:induction false} RestGap(us: seq<string>, g: int)
    requires 0 <= g <= |us|
    ensures Rest(us, g, false) == (if g == 0 then "" else ":" + Joined(us[..g])) + "::" + Joined(us[g..])
  {
    hide Rest, Joined;
    NoneLeft(g);
    if us != [] { RestFirst(us, g, false); }
    if g == 0 {
      assert us[0..] == us;
      if us != [] {
        RestPlain(us[1..], -1);
        JoinedRest(us);
      }
    } else {
      RestGap(us[1..], g - 1);
      JoinedFirst(us, g);
    }
  }

  /** A joined prefix without its first group. */
  lemma JoinedFirst(us: seq<string>, g: int)
    requires 0 < g <= |us|
    ensures Joined(us[..g]) == us[0] + if g == 1 then "" else ":" + Joined(us[1..][..g - 1])
    ensures us[1..][g - 1..] == us[g..]
  {
    assert us[..g][1..] == us[1..][..g - 1];
  }

  lemma TextIsRest(ts: seq<string>, gap: int)
    requires gap <= |ts|
    ensures Text(ts, gap) == (if gap == 0 then "::" else "") + Rest(ts, gap, true)
  {
    hide Joined;
    if gap <= 0 {
      PlainText(ts, gap - 1);
      if gap == 0 { assert ts[..0] == [] && ts[0..] == ts; assert Joined([]) == "" by { NoneLeft(0); } }
    } else {
      RestGap(ts[1..], gap - 1);
      JoinedFirst(ts, gap);
    }
  }

  lemma PlainText(ts: seq<string>, g: int)
    requires g < 0
    ensures Rest(ts, g + 1, true) == Joined(ts)
  {
    if ts != [] { RestPlain(ts[1..], g); }
  }

  lemma {:induction false} HexRunIs(s: string, p: nat, n: nat)
    requires p + n <= |s| && AllHex(s[p..p + n]) && !IsHex(At(s, p + n))
    ensures HexRun(s, p) == n
    decreases n
  {
    hide IsHex;
    if n > 0 {
      assert s[p] == s[p..p + n][0];
      assert s[p + 1..p + n] == s[p..p + n][1..];
      HexRunIs(s, p + 1, n - 1);
    }
  }

  /** The conditions under which the loop can be with the groups vs read and us still to come. */
  predicate Between(vs: seq<int>, gap: int, us: seq<string>, g: int) {
    AllGroups(us) && |vs| + |us| <= 8 && g <= |us| && gap <= |vs| && (|vs| > 0 ==> gap < |vs|) &&
    (g >= 0 ==> gap < 0 && 1 <= |vs| + g <= 7) && (gap < 0 && g < 0 ==> |vs| + |us| == 8)
  }

  function GapOf(vs: seq<int>, gap: int, g: int): int {
    if g >= 0 then |vs| + g else gap
  }

  /** A text cut in three. */
  lemma Slices(s: string, p: nat, x: string, y: string, z: string)
    requires p <= |s| && s[p..] == x + y + z
    ensures var q := p + |x|; q + |y| + |z| == |s| && s[p..q] == x && s[q..q + |y|] == y && s[q + |y|..] == z
  {
    assert s[p..][..|x|] == x && s[p..][|x|..|x| + |y|] == y && s[p..][|x| + |y|..] == z;
  }

  /** After a group comes a colon or the end. */
  lemma AfterGroup(s: string, p: nat, us: seq<string>, g: int)
    requires p <= |s| && s[p..] == Rest(us, g, false)
    ensures !IsHex(At(s, p)) && (p < |s| ==> s[p] == ':')
  {
    assert p < |s| ==> s[p] == s[p..][0];
  }

  function Sep(g: int, first: bool): string {
    if first then "" else if g == 0 then "::" else ":"
  }

  /** The round in which the next group is read. */
  lemma NextGroup(s: string, p: nat, gap: int, vs: seq<int>, us: seq<string>, g: int)
    requires p <= |s| && s[p..] == Rest(us, g, |vs| == 0) && us != [] && AllGroups(us) && |vs| < 8
    requires g == 0 && |vs| > 0 ==> gap < 0
    ensures var q := p + |Sep(g, |vs| == 0)| + |us[0]|;
            q <= |s| && s[q..] == Rest(us[1..], g - 1, false) &&
            Groups(s, p, gap, vs)
              == Groups(s, q, if g == 0 && |vs| > 0 then |vs| else gap, vs + [Value(us[0])])
  {
    hide Groups, Rest, Value, IsHex, HexRun, AllHex, Component;
    var sep, rest := Sep(g, |vs| == 0), Rest(us[1..], g - 1, false);
    RestFirst(us, g, |vs| == 0);
    Slices(s, p, sep, us[0], rest);
    var q := p + |sep|;
    FirstDigit(us[0]);
    assert s[q] == s[q..q + |us[0]|][0];
    SepRead(s, p, q, gap, vs, g);
    GroupRead(s, q, if g == 0 && |vs| > 0 then |vs| else gap, vs, us, g);
    GroupsRound(s, p, gap, vs);
  }

  /** The separator before a group is read. */
  lemma SepRead(s: string, p: nat, q: nat, gap: int, vs: seq<int>, g: int)
    requires p <= q < |s| && s[p..q] == Sep(g, |vs| == 0) && s[q] != ':' && (g == 0 && |vs| > 0 ==> gap < 0)
    ensures |vs| > 0 ==> At(s, p) == ':'
    ensures |vs| > 0 ==> Separator(s, p, gap, |vs|) == Some((q, if g == 0 then |vs| else gap))
    ensures |vs| == 0 ==> q == p
  {
    assert |vs| > 0 ==> s[p] == s[p..q][0] == ':';
    assert q == p + 2 ==> s[p + 1] == s[p..q][1] == ':';
  }

  /** A group is read to its end. */
  lemma GroupRead(s: string, q: nat, gap: int, vs: seq<int>, us: seq<string>, g: int)
    requires us != [] && IsGroup(us[0]) && |vs| < 8 && q + |us[0]| <= |s| && s[q..q + |us[0]|] == us[0]
    requires s[q + |us[0]|..] == Rest(us[1..], g - 1, false)
    ensures Component(s, q, gap, vs) == Groups(s, q + |us[0]|, gap, vs + [Value(us[0])])
  {
    hide Rest, Value, IsHex, Groups;
    AfterGroup(s, q + |us[0]|, us[1..], g - 1);
    HexRunIs(s, q, |us[0]|);
  }

  lemma FirstDigit(x: string)
    requires IsGroup(x)
    ensures IsHex(x[0]) && x[0] != ':' && !IsHex(':')
  {
  }

  lemma RestFirst(us: seq<string>, g: int, first: bool)
    requires us != []
    ensures Rest(us, g, first) == Sep(g, first) + us[0] + Rest(us[1..], g - 1, false)
  {
  }

  /** What one round does. */
  lemma GroupsRound(s: string, p: nat, gap: int, vs: seq<int>)
    requires p <= |s| && |vs| < 8 && (|vs| > 0 ==> At(s, p) == ':')
    ensures var sep := if |vs| > 0 then Separator(s, p, gap, |vs|) else Some((p, gap));
            Groups(s, p, gap, vs) == if sep.None? then None else Component(s, sep.value.0, sep.value.1, vs)
  {
  }

  /** The round that finds no further group. */
  lemma LastRound(s: string, p: nat, gap: int, vs: seq<int>, g: int)
    requires p <= |s| && s[p..] == Rest([], g, |vs| == 0) && Between(vs, gap, [], g)
    ensures Groups(s, p, gap, vs) == Some(Outcome(|s|, GapOf(vs, gap, g), vs))
  {
    assert g == 0 ==> s[p] == s[p..][0] && s[p + 1] == s[p..][1];
  }

  /** A text of the form takes the loop to its end. */
  lemma {:induction false} Complete(s: string, p: nat, gap: int, vs: seq<int>, us: seq<string>, g: int)
    requires p <= |s| && s[p..] == Rest(us, g, |vs| == 0) && Between(vs, gap, us, g)
    ensures Groups(s, p, gap, vs) == Some(Outcome(|s|, GapOf(vs, gap, g), vs + Values(us)))
    decreases |us|
  {
    hide Groups, Rest, Values, Between, IsGroup;
    BetweenBounds(vs, gap, us, g);
    if us == [] {
      LastRound(s, p, gap, vs, g);
      ValuesNone(vs);
    } else {
      NextGroup(s, p, gap, vs, us, g);
      var q, vs' := p + |Sep(g, |vs| == 0)| + |us[0]|, vs + [Value(us[0])];
      var gap' := if g == 0 && |vs| > 0 then |vs| else gap;
      BetweenNext(vs, gap, us, g);
      Complete(s, q, gap', vs', us[1..], g - 1);
      assert us == [us[0]] + us[1..];
      ValuesFirst(us[0], us[1..]);
      assert vs' + Values(us[1..]) == vs + Values(us);
    }
  }

  lemma ValuesNone(vs: seq<int>)
    ensures vs + Values([]) == vs
  {
  }

  lemma BetweenBounds(vs: seq<int>, gap: int, us: seq<string>, g: int)
    requires Between(vs, gap, us, g)
    ensures AllGroups(us) && (us != [] ==> |vs| < 8 && IsGroup(us[0])) && (g == 0 && |vs| > 0 ==> gap < 0)
  {
  }

  lemma BetweenNext(vs: seq<int>, gap: int, us: seq<string>, g: int)
    requires Between(vs, gap, us, g) && us != [] && AllHex(us[0])
    ensures var vs', gap' := vs + [Value(us[0])], if g == 0 && |vs| > 0 then |vs| else gap;
            Between(vs', gap', us[1..], g - 1) && GapOf(vs', gap', g - 1) == GapOf(vs, gap, g)
  {
  }

  /** A loop that comes to the end of the text has read one of the forms. */
  lemma {:induction false} Sound(s: string, p: nat, gap: int, vs: seq<int>) returns (us: seq<string>, g: int)
    requires p <= |s| && gap <= |vs| && (|vs| > 0 ==> gap < |vs|) && |vs| <= 8
    requires Groups(s, p, gap, vs).Some? && Groups(s, p, gap, vs).value.end == |s|
    ensures s[p..] == Rest(us, g, |vs| == 0) && Between(vs, gap, us, g)
    ensures Groups(s, p, gap, vs).value == Outcome(|s|, GapOf(vs, gap, g), vs + Values(us))
    decreases 8 - |vs|
  {
    hide Rest, Groups, Value, Values, IsHex, AllHex;
    us, g := [], -1;
    if |vs| == 8 || (|vs| > 0 && At(s, p) != ':') {
      SoundEnd(s, p, gap, vs);
      ValuesNone(vs);
      return;
    }
    GroupsRound(s, p, gap, vs);
    var sep := if |vs| == 0 then 0 else if At(s, p + 1) == ':' then 2 else 1;
    var q, gap' := p + sep, if sep == 2 then |vs| else gap;
    var n := HexRun(s, q);
    if n == 0 {
      g := if sep == 2 then 0 else -1;
      SoundGap(s, p, vs, sep);
      ValuesNone(vs);
      return;
    }
    var x := s[q..q + n];
    var us', g' := Sound(s, q + n, gap', vs + [Value(x)]);
    us, g := [x] + us', if sep == 2 then 0 else if g' < 0 then -1 else g' + 1;
    SoundNext(s, p, vs, sep, x, us', g', g);
    SoundBetween(vs, gap, sep, x, us', g', g);
  }

  lemma SoundBetween(vs: seq<int>, gap: int, sep: nat, x: string, us: seq<string>, g': int, g: int)
    requires IsGroup(x) && (sep == 2 ==> |vs| > 0 && gap < 0) && |vs| < 8 && gap <= |vs| && (|vs| > 0 ==> gap < |vs|)
    requires Between(vs + [Value(x)], if sep == 2 then |vs| else gap, us, g')
    requires g == if sep == 2 then 0 else if g' < 0 then -1 else g' + 1
    ensures Between(vs, gap, [x] + us, g) && vs + [Value(x)] + Values(us) == vs + Values([x] + us)
    ensures GapOf(vs + [Value(x)], if sep == 2 then |vs| else gap, g') == GapOf(vs, gap, g)
  {
    hide AllHex, Value;
    ValuesFirst(x, us);
    assert vs + [Value(x)] + Values(us) == vs + ([Value(x)] + Values(us));
  }

  lemma SoundEnd(s: string, p: nat, gap: int, vs: seq<int>)
    requires p <= |s| && |vs| <= 8 && (|vs| == 8 || (|vs| > 0 && At(s, p) != ':'))
    requires Groups(s, p, gap, vs).Some? && Groups(s, p, gap, vs).value.end == |s|
    ensures Groups(s, p, gap, vs).value == Outcome(p, gap, vs) && s[p..] == Rest([], -1, |vs| == 0)
    ensures |vs| < 8 ==> gap >= 0
  {
  }

  lemma SoundGap(s: string, p: nat, vs: seq<int>, sep: nat)
    requires p + sep == |s| && sep == (if |vs| == 0 then 0 else if At(s, p + 1) == ':' then 2 else 1)
    requires |vs| > 0 ==> At(s, p) == ':'
    ensures sep != 1 ==> s[p..] == Rest([], if sep == 2 then 0 else -1, |vs| == 0)
  {
    assert sep == 2 ==> s[p..] == [s[p], s[p + 1]];
  }

  lemma SoundNext(s: string, p: nat, vs: seq<int>, sep: nat, x: string, us: seq<string>, g': int, g: int)
    requires sep == (if |vs| == 0 then 0 else if At(s, p + 1) == ':' then 2 else 1) && (|vs| > 0 ==> At(s, p) == ':')
    requires p + sep + |x| <= |s| && s[p + sep..p + sep + |x|] == x
    requires s[p + sep + |x|..] == Rest(us, g', false)
    requires g == if sep == 2 then 0 else if g' < 0 then -1 else g' + 1
    requires sep == 2 ==> g' < 0
    ensures s[p..] == Rest([x] + us, g, |vs| == 0)
  {
    hide Rest;
    RestNegative(us, g', g - 1);
    RestFirst([x] + us, g, |vs| == 0);
    assert ([x] + us)[1..] == us;
    var q := p + sep;
    assert s[p..q] == Sep(g, |vs| == 0);
    assert s[p..] == s[p..q] + s[q..q + |x|] + s[q + |x|..];
  }

  /** All negative gaps are alike. */
  lemma {:induction false} RestNegative(us: seq<string>, g: int, g': int)
    requires g == g' || (g < 0 && g' < 0)
    ensures Rest(us, g, false) == Rest(us, g', false)
  {
    hide Rest;
    if us == [] {
      NoneLeft(g);
      NoneLeft(g');
    } else {
      RestFirst(us, g, false);
      RestFirst(us, g', false);
      RestNegative(us[1..], g - 1, g' - 1);
    }
  }

  lemma ValuesFirst(x: string, us: seq<string>)
    requires IsGroup(x) && AllGroups(us)
    ensures AllGroups([x] + us) && Values([x] + us) == [Value(x)] + Values(us)
  {
    assert ([x] + us)[1..] == us;
  }

  /** parse_text_ipv6 accepts exactly the texts of the form, and returns what they denote. */
  lemma ParsedExactly(s: string, a: seq<int>)
    ensures Parsed(s) == Some(a) <==> Denotes(s, a)
  {
    if Parsed(s) == Some(a) { ParsedDenotes(s); }
    if Denotes(s, a) {
      var ts: seq<string>, gap: int :| IsForm(ts, gap) && s == Text(ts, gap) && a == Meaning(ts, gap);
      FormParsed(ts, gap);
    }
  }

  lemma ParsedDenotes(s: string)
    requires Parsed(s).Some?
    ensures Denotes(s, Parsed(s).value)
  {
    hide Rest, Groups, Text, Values, AllGroups, Denotes;
    var start := if At(s, 0) == ':' && At(s, 1) == ':' then 2 else 0;
    var gap := if start == 2 then 0 else -1;
    var us, g := Sound(s, start, gap, []);
    var k := GapOf([], gap, g);
    TextIsRest(us, k);
    NoGap(us, g, k);
    assert [] + Values(us) == Values(us);
    assert s == s[..start] + s[start..];
    assert start == 2 ==> s[..2] == [s[0], s[1]] == "::";
    MeaningIs(us, k);
    DenotesBy(us, k);
  }

  lemma MeaningIs(ts: seq<string>, gap: int)
    requires IsForm(ts, gap)
    ensures Expanded(gap, Values(ts)) == Meaning(ts, gap)
  {
    hide IsGroup;
    if 0 <= gap && |ts| == 8 { assert Values(ts)[..gap] + Zeros(0) + Values(ts)[gap..] == Values(ts); }
  }

  lemma DenotesBy(ts: seq<string>, gap: int)
    requires IsForm(ts, gap)
    ensures Denotes(Text(ts, gap), Meaning(ts, gap))
  {
  }

  lemma FormParsed(ts: seq<string>, gap: int)
    requires IsForm(ts, gap)
    ensures Parsed(Text(ts, gap)) == Some(Meaning(ts, gap))
  {
    hide Rest, Groups, Text, Values, IsHex, AllHex;
    var s := Text(ts, gap);
    TextIsRest(ts, gap);
    MeaningIs(ts, gap);
    assert [] + Values(ts) == Values(ts);
    if gap == 0 {
      assert s[0] == ':' && s[1] == ':' && s[2..] == Rest(ts, 0, true);
      NoGap(ts, 0, -1);
      Complete(s, 2, 0, [], ts, -1);
    } else {
      assert s[0..] == s == Rest(ts, gap, true);
      StartsWithDigit(ts, gap);
      Complete(s, 0, -1, [], ts, gap);
    }
  }

  lemma NoGap(ts: seq<string>, g: int, g': int)
    requires g == g' || (g <= 0 && g' <= 0)
    ensures Rest(ts, g, true) == Rest(ts, g', true)
  {
    hide Rest;
    if ts == [] {
      NoneLeft(g);
      NoneLeft(g');
    } else {
      RestFirst(ts, g, true);
      RestFirst(ts, g', true);
      RestNegative(ts[1..], g - 1, g' - 1);
    }
  }

  lemma StartsWithDigit(ts: seq<string>, gap: int)
    requires ts != [] && AllGroups(ts)
    ensures Rest(ts, gap, true) != [] && Rest(ts, gap, true)[0] != ':'
  {
    FirstDigit(ts[0]);
    assert Rest(ts, gap, true)[0] == ts[0][0];
  }

  // ---------------------------------------------------------------- the printer

  predicate InRange(vs: seq<int>) {
    forall i :: 0 <= i < |vs| ==> 0 <= vs[i] < 65536
  }

  /** The "%x" texts of groups. */
  function HexAll(vs: seq<int>): (ts: seq<string>)
    requires InRange(vs)
    ensures AllGroups(ts) && |ts| == |vs| && Values(ts) == vs
  {
    if vs == [] then [] else [Hex(vs[0])] + HexAll(vs[1..])
  }

  predicate ZeroRun(a: seq<int>, x: int, y: int) {
    0 <= x <= y <= |a| && forall z :: x <= z < y ==> a[z] == 0
  }

  /** What the first loop of conv_ipv6_internal finds: l zeros end right before group k, and every
      other run of zeros before a group that is not zero is shorter, or as long and later. */
  predicate LongestRun(a: seq<int>, k: int, l: int)
    requires IsAddress(a)
  {
    0 <= l <= k < 8 && (l > 0 ==> a[k] != 0 && ZeroRun(a, k - l, k)) &&
    forall x, y :: 0 <= x < y < 8 && a[y] != 0 && ZeroRun(a, x, y) ==> y - x < l || (y - x == l && k <= y)
  }

  /** The IPv4-mapped addresses. */
  predicate Mapped(a: seq<int>)
    requires IsAddress(a)
  {
    ZeroRun(a, 0, 5) && a[5] == 0xffff
  }

  function Decimal(v: nat): string {
    if v < 10 then [(v + '0' as int) as char] else Decimal(v / 10) + [(v % 10 + '0' as int) as char]
  }

  /** A decimal number without leading zeros, and its value. */
  predicate AllDecimal(x: string) {
    x != [] && (forall i :: 0 <= i < |x| ==> '0' <= x[i] <= '9') && (|x| > 1 ==> x[0] != '0')
  }

  function DecimalValue(x: string): int {
    if x == [] then 0 else 10 * DecimalValue(x[..|x| - 1]) + (x[|x| - 1] as int - '0' as int)
  }

  lemma {:induction false} DecimalRoundTrip(v: nat)
    ensures AllDecimal(Decimal(v)) && DecimalValue(Decimal(v)) == v && (v > 0 ==> Decimal(v)[0] != '0')
  {
    if v >= 10 {
      DecimalRoundTrip(v / 10);
      var x := Decimal(v);
      assert x[..|x| - 1] == Decimal(v / 10);
    }
  }

  /** The text is ::ffff: and then the last four of the bytes, in order, as decimal numbers. */
  ghost predicate IsDottedQuad(s: string, bytes: seq<int>) {
    |bytes| == 16 && exists d: seq<string> :: Quad(s, bytes, d)
  }

  ghost predicate Quad(s: string, bytes: seq<int>, d: seq<string>)
    requires |bytes| == 16
  {
    |d| == 4 && (forall i :: 0 <= i < 4 ==> AllDecimal(d[i])) &&
    DecimalValue(d[0]) == bytes[12] && DecimalValue(d[1]) == bytes[13] &&
    DecimalValue(d[2]) == bytes[14] && DecimalValue(d[3]) == bytes[15] &&
    s == "::ffff:" + d[0] + "." + d[1] + "." + d[2] + "." + d[3]
  }

  lemma DottedIsQuad(a: seq<int>)
    requires IsAddress(a)
    ensures IsDottedQuad(Dotted(a), Bytes(a))
  {
    hide Decimal, DecimalValue, AllDecimal;
    var d := [Decimal(a[6] / 256), Decimal(a[6] % 256), Decimal(a[7] / 256), Decimal(a[7] % 256)];
    DecimalRoundTrip(a[6] / 256);
    DecimalRoundTrip(a[6] % 256);
    DecimalRoundTrip(a[7] / 256);
    DecimalRoundTrip(a[7] % 256);
    assert Quad(Dotted(a), Bytes(a), d);
  }

  function Dotted(a: seq<int>): string
    requires IsAddress(a)
  {
    "::ffff:" + Decimal(a[6] / 256) + "." + Decimal(a[6] % 256) + "." + Decimal(a[7] / 256) + "." + Decimal(a[7] % 256)
  }

  /** What conv_ipv6_internal prints, given the run it found. */
  function Printed(a: seq<int>, k: int, l: int): string
    requires IsAddress(a) && LongestRun(a, k, l)
  {
    if ZeroRun(a, 0, 8) then "::"
    else if Mapped(a) then Dotted(a)
    else if l > 0 then Text(HexAll(a[..k - l]) + HexAll(a[k..]), k - l)
    else Text(HexAll(a), -1)
  }

  lemma {:induction false} ValuesAppend(xs: seq<string>, ys: seq<string>)
    requires AllGroups(xs) && AllGroups(ys)
    ensures Values(xs + ys) == Values(xs) + Values(ys)
  {
    if xs == [] {
      assert xs + ys == ys;
    } else {
      ValuesAppend(xs[1..], ys);
      assert (xs + ys)[1..] == xs[1..] + ys;
    }
  }

  /** An address that is not printed in the dotted form is denoted by its text. */
  lemma PrintedDenotes(a: seq<int>, k: int, l: int)
    requires IsAddress(a) && LongestRun(a, k, l) && !Mapped(a)
    ensures Denotes(Printed(a, k, l), a)
  {
    hide Denotes, LongestRun, Text, IsGroup;
    if ZeroRun(a, 0, 8) {
      AllZeros(a);
    } else if l > 0 {
      RunIsZero(a, k, l);
      WithGap(a, k, l);
    } else {
      DenotesBy(HexAll(a), -1);
    }
  }

  lemma RunIsZero(a: seq<int>, k: int, l: int)
    requires IsAddress(a) && LongestRun(a, k, l) && l > 0
    ensures 0 < l <= k < 8 && ZeroRun(a, k - l, k)
  {
  }

  lemma AllZeros(a: seq<int>)
    requires IsAddress(a) && ZeroRun(a, 0, 8)
    ensures Denotes("::", a)
  {
    assert Text([], 0) == "::" && Meaning([], 0) == a;
    DenotesBy([], 0);
  }

  lemma WithGap(a: seq<int>, k: int, l: int)
    requires IsAddress(a) && 0 < l <= k < 8 && ZeroRun(a, k - l, k)
    ensures Denotes(Text(HexAll(a[..k - l]) + HexAll(a[k..]), k - l), a)
  {
    hide Denotes, Text, IsGroup, Values, HexAll;
    var xs, ys := HexAll(a[..k - l]), HexAll(a[k..]);
    ValuesAppend(xs, ys);
    var ts := xs + ys;
    assert Values(ts)[..k - l] == a[..k - l] && Values(ts)[k - l..] == a[k..];
    assert a[k - l..k] == Zeros(l);
    assert a == a[..k - l] + a[k - l..k] + a[k..];
    DenotesBy(ts, k - l);
  }

  // ---------------------------------------------------------------- the dotted form is not read back

  predicate Plain(s: string) {
    forall i :: 0 <= i < |s| ==> IsHex(s[i]) || s[i] == ':'
  }

  lemma {:induction false} JoinedPlain(ts: seq<string>)
    requires AllGroups(ts)
    ensures Plain(Joined(ts))
  {
    if |ts| > 1 { JoinedPlain(ts[1..]); }
  }

  /** Every text that denotes an address is made of digits and colons. */
  lemma DenotesPlain(s: string, a: seq<int>)
    requires Denotes(s, a)
    ensures Plain(s)
  {
    hide IsHex, Joined, Meaning;
    var ts: seq<string>, gap: int :| IsForm(ts, gap) && s == Text(ts, gap) && a == Meaning(ts, gap);
    if gap < 0 {
      JoinedPlain(ts);
    } else {
      JoinedPlain(ts[..gap]);
      JoinedPlain(ts[gap..]);
    }
  }

  lemma HasDot(a: seq<int>)
    requires IsAddress(a)
    ensures !Plain(Dotted(a))
  {
    var x := "::ffff:" + Decimal(a[6] / 256);
    var y := Decimal(a[6] % 256) + "." + Decimal(a[7] / 256) + "." + Decimal(a[7] % 256);
    assert Dotted(a) == x + "." + y;
    assert Dotted(a)[|x|] == '.';
  }

  lemma DottedNotParsed(a: seq<int>)
    requires IsAddress(a)
    ensures Parsed(Dotted(a)) == None
  {
    hide Dotted, Plain, Denotes, Parsed;
    var s := Dotted(a);
    HasDot(a);
    if Parsed(s).Some? {
      ParsedDenotes(s);
      DenotesPlain(s, Parsed(s).value);
    }
  }

  /** Printing and parsing returns the address, exactly when it is not IPv4-mapped. */
  lemma RoundTrip(a: seq<int>, k: int, l: int)
    requires IsAddress(a) && LongestRun(a, k, l)
    ensures Parsed(Printed(a, k, l)) == if Mapped(a) then None else Some(a)
  {
    if Mapped(a) {
      DottedNotParsed(a);
    } else {
      PrintedDenotes(a, k, l);
      ParsedExactly(Printed(a, k, l), a);
    }
  }

  // ---------------------------------------------------------------- the printer's loops

  /** Groups each followed, or each preceded, by a colon. */
  function Leading(ts: seq<string>): string {
    if ts == [] then "" else Leading(ts[..|ts| - 1]) + ts[|ts| - 1] + ":"
  }

  function Trailing(ts: seq<string>): string {
    if ts == [] then "" else Trailing(ts[..|ts| - 1]) + ":" + ts[|ts| - 1]
  }

  lemma {:induction false} JoinedSnoc(ts: seq<string>, x: string)
    requires ts != []
    ensures Joined(ts + [x]) == Joined(ts) + ":" + x
  {
    if |ts| > 1 {
      JoinedSnoc(ts[1..], x);
      assert (ts + [x])[1..] == ts[1..] + [x];
    } else {
      assert (ts + [x])[1..] == [x];
    }
  }

  lemma {:induction false} ColonsJoined(ts: seq<string>)
    requires ts != []
    ensures Leading(ts) == Joined(ts) + ":" && Trailing(ts) == ":" + Joined(ts)
    decreases |ts|
  {
    var n := |ts| - 1;
    if n > 0 {
      ColonsJoined(ts[..n]);
      JoinedSnoc(ts[..n], ts[n]);
      assert ts[..n] + [ts[n]] == ts;
    }
  }

  lemma {:induction false} HexAllSnoc(vs: seq<int>, v: int)
    requires InRange(vs) && 0 <= v < 65536
    ensures InRange(vs + [v]) && HexAll(vs + [v]) == HexAll(vs) + [Hex(v)]
  {
    hide Hex, AllHex, Values, AllGroups, InRange;
    RangeParts(vs, v);
    if vs == [] {
      HexAllFirst([v]);
      assert vs + [v] == [v] && [v][1..] == [];
    } else {
      HexAllSnoc(vs[1..], v);
      HexAllFirst(vs);
      HexAllFirst(vs + [v]);
      assert (vs + [v])[1..] == vs[1..] + [v];
    }
  }

  lemma RangeParts(vs: seq<int>, v: int)
    requires InRange(vs) && 0 <= v < 65536
    ensures InRange(vs + [v]) && InRange([v]) && (vs != [] ==> InRange(vs[1..]))
  {
  }

  lemma HexAllFirst(vs: seq<int>)
    requires InRange(vs) && vs != []
    ensures InRange(vs[1..]) && 0 <= vs[0] && HexAll(vs) == [Hex(vs[0])] + HexAll(vs[1..]) && HexAll([]) == []
  {
    hide Hex, AllHex, Values, AllGroups;
  }

  /** The first loop of conv_ipv6_internal. */
  method FindRun(a: seq<int>) returns (j: int, k: int, l: int)
    requires IsAddress(a)
    ensures LongestRun(a, k, l) && (j == 8 <==> ZeroRun(a, 0, 8))
  {
    j, k, l := 0, 0, 0;
    for i := 0 to 8
      invariant 0 <= j <= i && ZeroRun(a, i - j, i) && (j < i ==> a[i - j - 1] != 0)
      invariant 0 <= l <= k < 8 && k <= i && (l > 0 ==> k < i && a[k] != 0 && ZeroRun(a, k - l, k))
      invariant forall x, y :: 0 <= x < y < i && a[y] != 0 && ZeroRun(a, x, y) ==> y - x < l || (y - x == l && k <= y)
    {
      if a[i] != 0 {
        if j > l {
          l, k := j, i;
        }
        j := 0;
      } else {
        j := j + 1;
      }
    }
  }

  /** The dotted form is taken exactly for the mapped addresses. */
  lemma MappedRun(a: seq<int>, k: int, l: int)
    requires IsAddress(a) && LongestRun(a, k, l)
    ensures l == 5 && a[5] == 0xffff <==> Mapped(a)
  {
    if Mapped(a) {
      assert a[5] != 0 && ZeroRun(a, 0, 5);
      assert l >= 5;
      assert a[5] != 0 && (forall z :: k - l <= z < k ==> a[z] == 0);
    }
  }

  lemma HexAllNext(a: seq<int>, k: int, i: int)
    requires IsAddress(a) && 0 <= k <= i < 8
    ensures HexAll(a[k..i + 1]) == HexAll(a[k..i]) + [Hex(a[i])]
  {
    HexAllSnoc(a[k..i], a[i]);
    assert a[k..i] + [a[i]] == a[k..i + 1];
  }

  lemma ColonsSnoc(ts: seq<string>, x: string)
    ensures Leading(ts + [x]) == Leading(ts) + x + ":" && Trailing(ts + [x]) == Trailing(ts) + ":" + x
  {
    assert (ts + [x])[..|ts|] == ts;
  }

  /** The loop that prints groups with a colon after each. */
  method PrintLeading(a: seq<int>, n: int) returns (buf: string)
    requires IsAddress(a) && 0 <= n <= 8
    ensures buf == Leading(HexAll(a[0..n]))
  {
    hide HexAll, Hex, AllGroups, Values, AllHex, Leading;
    NoColons();
    buf := "";
    for i := 0 to n
      invariant buf == Leading(HexAll(a[0..i]))
    {
      HexAllNext(a, 0, i);
      ColonsSnoc(HexAll(a[0..i]), Hex(a[i]));
      buf := buf + Hex(a[i]) + ":";
    }
  }

  lemma NoColons()
    ensures Leading([]) == "" && Trailing([]) == "" && HexAll([]) == []
  {
  }

  /** The loop that prints groups with a colon before each. */
  method PrintTrailing(a: seq<int>, k: int, start: string) returns (buf: string)
    requires IsAddress(a) && 0 <= k <= 8
    ensures buf == start + Trailing(HexAll(a[k..8]))
  {
    hide HexAll, Hex, AllGroups, Values, AllHex, Trailing;
    NoColons();
    buf := start;
    for i := k to 8
      invariant buf == start + Trailing(HexAll(a[k..i]))
    {
      HexAllNext(a, k, i);
      ColonsSnoc(HexAll(a[k..i]), Hex(a[i]));
      buf := buf + ":" + Hex(a[i]);
    }
  }

  lemma GapText(a: seq<int>, k: int, l: int)
    requires IsAddress(a) && 0 < l <= k < 8
    ensures Text(HexAll(a[..k - l]) + HexAll(a[k..]), k - l)
         == (if k == l then ":" else Leading(HexAll(a[..k - l]))) + Trailing(HexAll(a[k..]))
  {
    hide HexAll, Hex, AllGroups, Values, AllHex, Trailing, Leading, Joined;
    var xs, ys := HexAll(a[..k - l]), HexAll(a[k..]);
    assert (xs + ys)[..k - l] == xs && (xs + ys)[k - l..] == ys;
    NoneLeft(0);
    ColonsJoined(ys);
    if xs != [] { ColonsJoined(xs); }
  }

  lemma PlainTextOf(a: seq<int>)
    requires IsAddress(a)
    ensures Leading(HexAll(a[0..7])) + Hex(a[7]) == Text(HexAll(a), -1)
  {
    hide HexAll, Hex, AllGroups, Values, AllHex, Trailing, Leading, Joined;
    ColonsJoined(HexAll(a[0..7]));
    JoinedSnoc(HexAll(a[0..7]), Hex(a[7]));
    HexAllNext(a, 0, 7);
    assert a[0..8] == a;
  }

  /** conv_ipv6_internal */
  method Print(a: seq<int>) returns (buf: string)
    requires IsAddress(a)
    ensures exists k, l :: LongestRun(a, k, l) && buf == Printed(a, k, l)
    ensures Parsed(buf) == if Mapped(a) then None else Some(a)
    ensures Mapped(a) ==> IsDottedQuad(buf, Bytes(a))
  {
    hide HexAll, Hex, AllGroups, Values, AllHex, Trailing, Leading, Text, Parsed, LongestRun, ZeroRun, Mapped;
    hide IsDottedQuad;
    var j, k, l := FindRun(a);
    RoundTrip(a, k, l);
    DottedIsQuad(a);
    NotBoth(a);
    if j == 8 { return "::"; }
    MappedRun(a, k, l);
    if l == 5 && a[5] == 0xffff { return Dotted(a); }
    RunBounds(a, k, l);
    if l > 0 {
      buf := PrintLeading(a, k - l);
      if k - l == 0 {
        NoColons();
        assert a[0..0] == [];
        buf := buf + ":";
      }
      buf := PrintTrailing(a, k, buf);
      GapText(a, k, l);
      assert a[0..k - l] == a[..k - l] && a[k..8] == a[k..];
    } else {
      buf := PrintLeading(a, 7);
      buf := buf + Hex(a[7]);
      PlainTextOf(a);
    }
    assert buf == Printed(a, k, l);
  }

  lemma NotBoth(a: seq<int>)
    requires IsAddress(a)
    ensures !(ZeroRun(a, 0, 8) && Mapped(a))
  {
  }

  lemma RunBounds(a: seq<int>, k: int, l: int)
    requires IsAddress(a) && LongestRun(a, k, l)
    ensures 0 <= l <= k < 8
  {
  }

  // ---------------------------------------------------------------- the parser's loops

  function Bound(j: int): int {
    if j <= 0 then 1 else if j == 1 then 16 else if j == 2 then 256 else if j == 3 then 4096 else 65536
  }

  /** The inner loop of parse_text_ipv6: the digits at p and their value; none of it if there are more
      than four. */
  method ReadGroup(str: string, from: nat) returns (ok: bool, p: nat, v: int)
    requires from <= |str|
    ensures ok <==> HexRun(str, from) <= 4
    ensures ok ==> p == from + HexRun(str, from) && p <= |str| && v == Value(str[from..p]) && 0 <= v < 65536
  {
    hide IsHex, Value, AllHex;
    NoDigits();
    p, v := from, 0;
    assert str[from..from] == "";
    var j := 0;
    while IsHex(At(str, p))
      invariant from <= p <= |str| && j == p - from <= 4 && AllHex(str[from..p])
      invariant HexRun(str, from) == j + HexRun(str, p) && v == Value(str[from..p]) && 0 <= v < Bound(j)
      decreases |str| - p
    {
      OneDigit(str, from, p);
      v := 16 * v + DigitValue(str[p]);
      j := j + 1;
      if j > 4 { return false, p, v; }
      p := p + 1;
    }
    ok := true;
  }

  lemma NoDigits()
    ensures AllHex("") && Value("") == 0 && !IsHex('\0')
  {
  }

  lemma OneDigit(s: string, from: nat, p: nat)
    requires from <= p <= |s| && IsHex(At(s, p)) && AllHex(s[from..p])
    ensures p < |s| && AllHex(s[from..p + 1]) && Value(s[from..p + 1]) == 16 * Value(s[from..p]) + DigitValue(s[p])
  {
    assert s[from..p + 1][..p - from] == s[from..p];
  }

  /** The memmove and memset that open the gap. */
  method OpenGap(ip: array<int>, from: int, to: int)
    requires 0 <= from <= to <= ip.Length
    modifies ip
    ensures ip[..] == old(ip[..from]) + Zeros(ip.Length - to) + old(ip[from..to])
  {
    var gap := ip.Length - to;
    forall x | from <= x < to {
      ip[x + gap] := ip[x];
    }
    forall x | from <= x < from + gap {
      ip[x] := 0;
    }
  }

  lemma ExpandedBytes(k: nat, vs: seq<int>)
    requires k <= |vs| < 8
    ensures Bytes(vs)[..2 * k] + Zeros(16 - 2 * |vs|) + Bytes(vs)[2 * k..] == Bytes(Expanded(k, vs))
  {
    hide Bytes;
    var x, y, n := vs[..k], vs[k..], 8 - |vs|;
    assert x + y == vs && Expanded(k, vs) == x + Zeros(n) + y;
    BytesJoin(x, y);
    BytesJoin(x, Zeros(n));
    BytesJoin(x + Zeros(n), y);
    BytesOfZeros(n);
  }

  lemma BytesJoin(x: seq<int>, y: seq<int>)
    ensures Bytes(x + y) == Bytes(x) + Bytes(y)
  {
  }

  lemma BytesOfZeros(n: nat)
    ensures Bytes(Zeros(n)) == Zeros(2 * n)
  {
  }

  lemma BytesNext(vs: seq<int>, v: int)
    ensures Bytes(vs + [v]) == Bytes(vs) + [v / 256, v % 256]
  {
  }

  /** The round in which the loop leaves or fails because no colon follows. */
  lemma GroupsStop(s: string, p: nat, gap: int, vs: seq<int>)
    requires p <= |s| && 0 < |vs| < 8 && At(s, p) != ':'
    ensures Groups(s, p, gap, vs) == if gap >= 0 then Some(Outcome(p, gap, vs)) else None
  {
  }

  lemma GroupsFull(s: string, p: nat, gap: int, vs: seq<int>)
    requires p <= |s| && |vs| == 8
    ensures Groups(s, p, gap, vs) == Some(Outcome(p, gap, vs))
  {
  }

  /** The loop of parse_text_ipv6: fails, or fills the first bytes. */
  method ReadGroups(ip: array<int>, str: string, start: nat, gap: int) returns (ok: bool, p: nat, k: int, i: nat)
    requires ip.Length == 16 && start <= |str| && gap <= 0
    modifies ip
    ensures ok <==> Groups(str, start, gap, []).Some?
    ensures ok ==> var o := Groups(str, start, gap, []).value;
              p == o.end <= |str| && k == o.gap && i == |o.groups| <= 8 && ip[..2 * i] == Bytes(o.groups) &&
              (i < 8 ==> 0 <= k <= i)
  {
    hide Groups, Bytes, Value, HexRun, AllHex;
    ghost var goal := Groups(str, start, gap, []);
    ghost var vs: seq<int> := [];
    p, k, i := start, gap, 0;
    NoBytes();
    while i < 8
      invariant i <= 8 && |vs| == i && p <= |str| && k <= i
      invariant Groups(str, p, k, vs) == goal && ip[..2 * i] == Bytes(vs)
    {
      if i > 0 && At(str, p) != ':' {
        GroupsStop(str, p, k, vs);
        return k >= 0, p, k, i;
      }
      GroupsRound(str, p, k, vs);
      if i > 0 {
        p := p + 1;
        if At(str, p) == ':' {
          if k >= 0 { return false, p, k, i; }
          p, k := p + 1, i;
        }
      }
      var fits, q, v := ReadGroup(str, p);
      if !fits { return false, p, k, i; }
      if q == p { return k == i, p, k, i; }
      BytesNext(vs, v);
      ghost var was := ip[..2 * i];
      ip[2 * i], ip[2 * i + 1] := v / 256, v % 256;
      assert ip[..2 * (i + 1)] == was + [v / 256, v % 256];
      p, i, vs := q, i + 1, vs + [v];
    }
    GroupsFull(str, p, k, vs);
    ok := true;
  }

  lemma NoBytes()
    ensures Bytes([]) == []
  {
  }

  /** parse_text_ipv6 */
  method Parse(ip: array<int>, str: string) returns (r: int)
    requires ip.Length == 16 && '\0' !in str
    modifies ip
    ensures Parsed(str).None? ==> r == -1
    ensures Parsed(str).Some? ==> r == |str| && |Parsed(str).value| == 8
    ensures Parsed(str).Some? ==> forall j :: 0 <= j < 8 ==>
              ip[2 * j] == Parsed(str).value[j] / 256 && ip[2 * j + 1] == Parsed(str).value[j] % 256
  {
    hide Groups, Bytes;
    if Parsed(str).Some? { ParsedLength(str); }
    var start: nat, gap := 0, -1;
    if At(str, 0) == ':' && At(str, 1) == ':' { start, gap := 2, 0; }
    var ok, p, k, i := ReadGroups(ip, str, start, gap);
    if !ok { return -1; }
    if At(str, p) != '\0' { return -1; }
    ghost var vs := Groups(str, start, gap, []).value.groups;
    if i < 8 {
      ExpandedBytes(k, vs);
      OpenGap(ip, 2 * k, 2 * i);
    } else {
      assert ip[..16] == ip[..];
    }
    r := p;
    HighByteFirst(Parsed(str).value, ip[..]);
  }

  lemma ParsedLength(s: string)
    requires Parsed(s).Some?
    ensures |Parsed(s).value| == 8
  {
    hide Parsed;
    ParsedDenotes(s);
  }

  lemma HighByteFirst(vs: seq<int>, bs: seq<int>)
    requires bs == Bytes(vs)
    ensures forall j :: 0 <= j < |vs| ==> bs[2 * j] == vs[j] / 256 && bs[2 * j + 1] == vs[j] % 256
  {
    forall j | 0 <= j < |vs| ensures bs[2 * j] == vs[j] / 256 && bs[2 * j + 1] == vs[j] % 256 {
      assert (2 * j) % 2 == 0 && (2 * j + 1) % 2 == 1 && (2 * j) / 2 == j && (2 * j + 1) / 2 == j;
    }
  }
}
