/** Part numbers run from 1. */
module Numbering {

  /** The part numbers 1..n. */
  ghost function Parts(n: nat): (parts: set<nat>)
    ensures forall p :: p in parts <==> 1 <= p <= n
    ensures |parts| == n
  {
    if n == 0 then {} else Parts(n - 1) + {n}
  }

  lemma SubsetCardinality(a: set<nat>, b: set<nat>)
    requires a <= b
    ensures |a| <= |b|
    ensures |a| == |b| ==> a == b
  {
    assert b == a + (b - a);
  }
}
