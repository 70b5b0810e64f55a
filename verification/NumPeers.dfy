/** Quorum arithmetic. */
module NumPeers {

  /** Most peers out of `n` that may be faulty. */
  function MaxFaulty(n: nat): (f: nat)
    ensures n == 0 ==> f == 0
    ensures 0 < n ==> 3 * f < n <= 3 * f + 3
  {
    if n == 0 then 0 else (n - 1) / 3
  }

  /** Peers needed for a quorum: more than `MaxFaulty` of any two quorums are
      shared, and a quorum is there even when all faulty peers are silent. */
  function Threshold(n: nat): (t: nat)
    ensures t <= n && t + MaxFaulty(n) == n
    ensures 0 < n ==> 0 < t && MaxFaulty(n) + n < 2 * t
  {
    n - MaxFaulty(n)
  }

  lemma SubsetSize(a: set<nat>, b: set<nat>)
    requires a <= b
    ensures |a| <= |b|
  {
    assert b == a + (b - a);
  }

  lemma {:induction false} IndexesFit(n: nat, a: set<nat>)
    requires forall i | i in a :: i < n
    ensures |a| <= n
  {
    if n > 0 {
      IndexesFit(n - 1, a - {n - 1});
      SubsetSize(a, (a - {n - 1}) + {n - 1});
    } else {
      assert a == {};
    }
  }

  /** Quorum intersection: two quorums among `n` peers share a correct one. */
  lemma QuorumsShareCorrectPeer(n: nat, a: set<nat>, b: set<nat>, faulty: set<nat>) returns (i: nat)
    requires 0 < n
    requires forall i | i in a + b :: i < n
    requires Threshold(n) <= |a| && Threshold(n) <= |b|
    requires |faulty| <= MaxFaulty(n)
    ensures i in a && i in b && i !in faulty
  {
    IndexesFit(n, a + b);
    assert |a + b| + |a * b| == |a| + |b|;
    var shared := a * b - faulty;
    if shared == {} {
      assert forall k | k in a * b :: k in faulty || k in shared;
      SubsetSize(a * b, faulty);
    }
    i :| i in shared;
  }

  /** At most `MaxFaulty` members of a quorum are faulty, so more than `MaxFaulty` are correct. */
  lemma QuorumHasCorrectMajority(n: nat, a: set<nat>, faulty: set<nat>)
    requires 0 < n && Threshold(n) <= |a| && |faulty| <= MaxFaulty(n)
    ensures MaxFaulty(n) + 1 <= |a - faulty|
  {
    SubsetSize(a * faulty, faulty);
    assert |a - faulty| + |a * faulty| == |a| by {
      assert a == (a - faulty) + (a * faulty);
    }
  }
}
