/** Lists from which an element is taken out. */
module Queues {
  /** The list without the first occurrence of `a`. */
  function Without(q: seq<nat>, a: nat): seq<nat> {
    if q == [] then [] else if q[0] == a then q[1..] else [q[0]] + Without(q[1..], a)
  }

  lemma {:induction false} WithoutIsShorter(q: seq<nat>, a: nat)
    ensures |Without(q, a)| <= |q|
    ensures forall i :: 0 <= i < |Without(q, a)| ==> Without(q, a)[i] in q
  {
    if q != [] && q[0] != a {
      WithoutIsShorter(q[1..], a);
      forall i | 0 <= i < |Without(q, a)| ensures Without(q, a)[i] in q {
        if i > 0 { assert Without(q[1..], a)[i - 1] in q[1..]; }
      }
    }
  }

  lemma {:induction false} WithoutAt(q: seq<nat>, a: nat, i: nat)
    requires i < |q| && q[i] == a && a !in q[..i]
    ensures Without(q, a) == q[..i] + q[i + 1..]
  {
    if i > 0 {
      assert q[..i][0] == q[0];
      assert q[1..][..i - 1] == q[..i][1..];
      WithoutAt(q[1..], a, i - 1);
      assert q[..i] + q[i + 1..] == [q[0]] + (q[1..][..i - 1] + q[1..][i..]);
    }
  }
}
