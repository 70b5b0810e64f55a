/** The finality rule: the highest round that a quorum of peers reports to have reached. */
module Finality {
  import opened NumPeers
  import opened Sorting

  /** The peers, by index, that report at least `round`. */
  function Supporters(votes: seq<nat>, round: nat): set<nat> {
    set i | 0 <= i < |votes| && round <= votes[i]
  }

  ghost predicate IsFinalityRound(votes: seq<nat>, round: nat) {
    && Threshold(|votes|) <= |Supporters(votes, round)|
    && forall q: nat | round < q :: |Supporters(votes, q)| < Threshold(|votes|)
  }

  lemma OneFinalityRound(votes: seq<nat>, a: nat, b: nat)
    requires IsFinalityRound(votes, a) && IsFinalityRound(votes, b)
    ensures a == b
  {
    assert !(a < b) && !(b < a);
  }

  ghost function FinalityRound(votes: seq<nat>): (round: nat)
    requires votes != []
    ensures IsFinalityRound(votes, round)
  {
    SortedPickIsFinalityRound(votes);
    var r :| IsFinalityRound(votes, r);
    r
  }

  /** Peers that report at least `round`, counted one by one. */
  function Count(votes: seq<nat>, round: nat): nat {
    if votes == [] then 0 else (if round <= votes[0] then 1 else 0) + Count(votes[1..], round)
  }

  lemma {:induction false} CountIsSupport(votes: seq<nat>, round: nat)
    ensures Count(votes, round) == |Supporters(votes, round)|
  {
    if votes == [] {
      assert Supporters(votes, round) == {};
    } else {
      var n := |votes| - 1;
      CountLast(votes, round);
      CountIsSupport(votes[..n], round);
      var rest := Supporters(votes[..n], round);
      assert Supporters(votes, round) == if round <= votes[n] then rest + {n} else rest;
    }
  }

  lemma {:induction false} CountLast(votes: seq<nat>, round: nat)
    requires votes != []
    ensures var n := |votes| - 1;
            Count(votes, round) == Count(votes[..n], round) + if round <= votes[n] then 1 else 0
  {
    if |votes| > 1 {
      CountLast(votes[1..], round);
      assert votes[..|votes| - 1][1..] == votes[1..][..|votes| - 2];
    }
  }

  lemma {:induction false} CountInsert(x: nat, s: seq<nat>, round: nat)
    requires Sorted(s)
    ensures Count(InsertSorted(x, s), round) == Count(s, round) + if round <= x then 1 else 0
  {
    if s != [] && s[0] < x {
      CountInsert(x, s[1..], round);
      assert InsertSorted(x, s)[1..] == InsertSorted(x, s[1..]);
    } else {
      assert ([x] + s)[1..] == s;
    }
  }

  lemma {:induction false} CountSort(s: seq<nat>, round: nat)
    ensures Count(Sort(s), round) == Count(s, round)
  {
    if s != [] {
      CountSort(s[1..], round);
      CountInsert(s[0], Sort(s[1..]), round);
    }
  }

  lemma {:induction false} CountSorted(s: seq<nat>, k: nat, round: nat)
    requires Sorted(s) && k < |s|
    ensures round <= s[k] ==> |s| - k <= Count(s, round)
    ensures s[k] < round ==> Count(s, round) < |s| - k
  {
    CountAtMost(s[1..], round);
    if k > 0 {
      assert s[0] <= s[k];
      CountSorted(s[1..], k - 1, round);
    } else if |s| > 1 {
      assert s[0] <= s[1];
      CountSorted(s[1..], 0, round);
    }
  }

  lemma {:induction false} CountAtMost(s: seq<nat>, round: nat)
    ensures Count(s, round) <= |s|
  {
    if s != [] {
      CountAtMost(s[1..], round);
    }
  }

  /** Sorting the votes and skipping the `MaxFaulty` lowest finds the finality round. */
  lemma SortedPickIsFinalityRound(votes: seq<nat>)
    requires votes != []
    ensures IsFinalityRound(votes, Sort(votes)[MaxFaulty(|votes|)])
  {
    hide MaxFaulty, Threshold, Sort, Count, Supporters;
    var f := MaxFaulty(|votes|);
    var pick := Sort(votes)[f];
    forall q: nat
      ensures q <= pick ==> Threshold(|votes|) <= |Supporters(votes, q)|
      ensures pick < q ==> |Supporters(votes, q)| < Threshold(|votes|)
    {
      CountIsSupport(votes, q);
      CountSort(votes, q);
      CountSorted(Sort(votes), f, q);
    }
  }

  /** Raising votes never lowers the finality round. */
  lemma RisingVotesNeverLowerFinality(before: seq<nat>, after: seq<nat>)
    requires before != [] && |before| == |after|
    requires forall i | 0 <= i < |before| :: before[i] <= after[i]
    ensures FinalityRound(before) <= FinalityRound(after)
  {
    var r := FinalityRound(before);
    SubsetSize(Supporters(before, r), Supporters(after, r));
  }

  /** With at most `MaxFaulty` false reports, more than `MaxFaulty` truthful peers reached the finality round. */
  lemma FinalityHasCorrectSupport(votes: seq<nat>, liars: set<nat>)
    requires votes != [] && |liars| <= MaxFaulty(|votes|)
    ensures MaxFaulty(|votes|) + 1 <= |Supporters(votes, FinalityRound(votes)) - liars|
  {
    QuorumHasCorrectMajority(|votes|, Supporters(votes, FinalityRound(votes)), liars);
  }
}
