/** The stored finality value, the node's own finality vote, and what is pruned. */
module FinalityRules {
  import opened Wrappers
  import opened OrderedTables
  import opened Blocks
  import opened Chains
  import opened State
  import opened Finality
  import opened Invariants
  import opened Steps
  import opened Progress

  lemma Recalculated(s: State)
    ensures var t := RecalculateFinality(s);
            var reports := ReportedVotes(s.finalityVotes, ParamsAt(s.schedule, s.round).peers);
            && t.finalityVotes == s.finalityVotes
            && t.finality.Some? && IsFinalityRound(reports, t.finality.value)
  {
    hide ParamsAt, ReportedVotes, IsFinalityRound, PruneBelow, FinalityRound;
  }

  /** A vote that rises makes the stored finality the greatest round that a quorum of the current peers
      reports, with missing reports as 0; any other vote leaves it alone. Only the vote of the peer changes. */
  lemma RisingVoteDecidesFinality(s: State, peer: PeerPubkey, vote: nat)
    ensures var t := UpdateFinalityVote(s, peer, vote);
            var reports := ReportedVotes(t.finalityVotes, ParamsAt(s.schedule, s.round).peers);
            && t.finalityVotes == s.finalityVotes[peer := vote]
            && if peer in s.finalityVotes && vote <= s.finalityVotes[peer] then t.finality == s.finality
               else t.finality.Some? && IsFinalityRound(reports, t.finality.value)
  {
    hide ParamsAt, ReportedVotes, IsFinalityRound, RecalculateFinality;
    Recalculated(s.(finalityVotes := s.finalityVotes[peer := vote]));
  }

  /** Dummy votes are dropped only below a finality value that has just risen, and there all of them. */
  lemma PrunedOnlyBelowFinality(s: State, peer: PeerPubkey, vote: nat, r: nat)
    ensures var t := UpdateFinalityVote(s, peer, vote);
            var before := if s.finality.Some? then s.finality.value else 0;
            var after := if t.finality.Some? then t.finality.value else 0;
            At(t.dummyVotes, r) == if before < after && r < after then map[] else At(s.dummyVotes, r)
  {
    hide ParamsAt, ReportedVotes, FinalityRound;
  }

  /** Where the loop leaves a round with a notarized block at it or above, the node votes for exactly
      one past its last notarized block. */
  lemma OwnVoteFollowsBlocks(cfg: Config, u: State, t: State)
    requires Base(u) && FinishRound(cfg, u) == Some(t) && cfg.ourPeer.Some?
    ensures u.round < Reach(t.notarized) ==> OwnVote(cfg, t) == Reach(t.notarized)
    ensures Reach(t.notarized) <= u.round ==> OwnVote(cfg, t) == OwnVote(cfg, u)
  {
    hide Base, FinishRound, EndRound, AfterRounds;
    FinishRoundTables(cfg, u, t);
  }

  /** After opening, the own vote is one past the last notarized block, whatever was stored. */
  lemma OpeningRestoresOwnVote(cfg: Config, s: State)
    requires Inv(s) && Reopen(cfg, s).Some? && cfg.ourPeer.Some?
    ensures OwnVote(cfg, Reopen(cfg, s).value) == Reach(Reopen(cfg, s).value.notarized)
  {
    hide Base, FinishRound, Reopen, Opened, EndRound, FreshBlocks, AfterRounds;
    var u, t := Opened(cfg, s), Reopen(cfg, s).value;
    OpenedTables(cfg, s);
    OwnVoteFollowsBlocks(cfg, u, t);
    FinishRoundNotarizes(cfg, u, t);
    if t.notarized != u.notarized {
      assert u.round in t.notarized;
      assert u.round <= Highest(t.notarized).value;
    }
  }

  // Membership changes

  /** A change is scheduled exactly when the round that it applies from is ahead of the current one; otherwise the
      process stops, and nothing is written. */
  lemma ChangeIsScheduledIff(s: State, round: nat, timestamp: nat, peers: seq<PeerPubkey>)
    requires GoodPeers(peers)
    ensures var step := ChangeParams(s, round, timestamp, peers);
            if s.round < round + |ParamsAt(s.schedule, round).peers| + 32
            then step.outcome == Done && step.state == s.(schedule := step.state.schedule)
            else step == Step(Panicked, s)
  {}

  /** A change is for the rounds from its apply round to the next entry: a delay of 32 rounds and one for
      each peer after the round it was decided in. It commits to the last notarized block before half
      that round. */
  lemma ChangeTakesEffect(s: State, round: nat, timestamp: nat, peers: seq<PeerPubkey>, r: nat)
    requires GoodPeers(peers) && ChangeParams(s, round, timestamp, peers).outcome == Done
    ensures var t := ChangeParams(s, round, timestamp, peers).state;
            var apply := round + |ParamsAt(s.schedule, round).peers| + 32;
            var mid := PrevBlock(s.notarized, round / 2);
            && s.round < apply
            && t == s.(schedule := t.schedule)
            && (r < apply ==> ParamsAt(t.schedule, r) == ParamsAt(s.schedule, r))
            && (apply <= r && (forall k | k in s.schedule :: k <= apply || r < k) ==>
                  ParamsAt(t.schedule, r) == ParamsAt(s.schedule, round).(
                    peers := peers, timestamp := timestamp, scheduleRound := round, applyRound := apply,
                    prevMidBlock := if mid.Some? then Some((mid.value.round, Digest(mid.value))) else None))
  {
    var params := ChangedParams(s, round, timestamp, peers);
    var t := ChangeParams(s, round, timestamp, peers).state;
    if r < params.applyRound {
      LookupBeforeChange(s.schedule, params.applyRound, params, r);
    } else if forall k | k in s.schedule :: k <= params.applyRound || r < k {
      PrevIs(t.schedule, r + 1, params.applyRound);
    }
  }
}
