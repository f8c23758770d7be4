/** The responsiveness quorum of `run_consensus` (integrity/agent.py). */
module Quorum {

  /** `active / total >= 0.67`. */
  predicate Reached(active: nat, total: nat) {
    100 * active >= 67 * total
  }

  /** The test tolerates f silent nodes exactly when 100f <= 33N. In particular all three of three
      nodes are needed, although the README speaks of 2-of-3; four nodes tolerate one. */
  lemma ToleratedSilence(total: nat, silent: nat)
    requires silent <= total
    ensures Reached(total - silent, total) <==> 100 * silent <= 33 * total
    ensures total == 3 ==> (Reached(total - silent, total) <==> silent == 0)
    ensures total == 4 ==> (Reached(total - silent, total) <==> silent <= 1)
  {
  }

  /** Two active sets that both pass the test share at least 34% of all nodes, so more than a third. */
  lemma Intersection<T>(nodes: set<T>, a: set<T>, b: set<T>)
    requires a <= nodes && b <= nodes
    requires Reached(|a|, |nodes|) && Reached(|b|, |nodes|)
    ensures 100 * |a * b| >= 34 * |nodes|
    ensures nodes != {} ==> 3 * |a * b| > |nodes|
  {
    assert |a + b| == |a| + |b| - |a * b|;
    SubsetSize(a + b, nodes);
  }

  lemma SubsetSize<T>(a: set<T>, b: set<T>)
    requires a <= b
    ensures |a| <= |b|
  {
    assert b == a + (b - a);
    assert |b| == |a| + |b - a|;
  }
}
