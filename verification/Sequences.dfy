/** Sequences of addresses. */
module Sequences {
  /** The sequence with entry i left out. */
  function Without(l: seq<nat>, i: nat): seq<nat>
    requires i < |l|
  {
    l[..i] + l[i + 1..]
  }

  /** Leaving out an entry that occurs once leaves out its value and nothing else. */
  lemma WithoutMembers(l: seq<nat>, i: nat, x: nat)
    requires i < |l| && forall j :: 0 <= j < |l| && l[j] == l[i] ==> j == i
    ensures x in Without(l, i) <==> x in l && x != l[i]
  {
    if x in l && x != l[i] {
      var j :| 0 <= j < |l| && l[j] == x;
      assert Without(l, i)[if j < i then j else j - 1] == x;
    }
    if x in Without(l, i) {
      var j :| 0 <= j < |Without(l, i)| && Without(l, i)[j] == x;
      assert l[if j < i then j else j + 1] == x;
    }
  }
}
