/** What a finality vote that arrives does to the tables, and what a node's own vote does when a round ends. */
module FinalityTables {
  import opened Wrappers
  import opened OrderedTables
  import opened NumPeers
  import opened Blocks
  import opened State
  import opened Finality
  import opened Invariants
  import opened Steps
  import opened Progress
  import opened FinalityRules
  import opened Runs

  /** A quorum of the peers has voted for the round or a later one. */
  ghost predicate QuorumReached(votes: FinalityVoteTable, peers: seq<PeerPubkey>, round: nat) {
    Threshold(|peers|) <= |set i: nat | i < |peers| && peers[i] in votes && round <= votes[peers[i]]|
  }

  /** The finality value is the greatest round that a quorum of the peers has voted for, and 0 without one. */
  ghost predicate IsFinal(votes: FinalityVoteTable, peers: seq<PeerPubkey>, finality: Option<nat>) {
    finality.Some? && forall q: nat | 0 < q :: QuorumReached(votes, peers, q) <==> q <= finality.value
  }

  lemma ReportsReach(votes: FinalityVoteTable, peers: seq<PeerPubkey>, q: nat)
    requires 0 < q
    ensures Supporters(ReportedVotes(votes, peers), q)
         == (set i: nat | i < |peers| && peers[i] in votes && q <= votes[peers[i]])
  {
    var reports := ReportedVotes(votes, peers);
    forall i: nat | i < |peers|
      ensures reports[i] == if peers[i] in votes then votes[peers[i]] else 0
    {}
  }

  lemma FinalityRoundIsFinal(votes: FinalityVoteTable, peers: seq<PeerPubkey>, finality: nat)
    requires IsFinalityRound(ReportedVotes(votes, peers), finality)
    ensures IsFinal(votes, peers, Some(finality))
  {
    hide ReportedVotes;
    var reports := ReportedVotes(votes, peers);
    forall q: nat | 0 < q
      ensures QuorumReached(votes, peers, q) <==> q <= finality
    {
      ReportsReach(votes, peers, q);
      if q <= finality {
        SubsetSize(Supporters(reports, finality), Supporters(reports, q));
      }
    }
  }

  /** A vote is stored, and decides finality if it rises: then the finality value is the greatest round that a
      quorum of the current peers has voted for, and where it rose the dummy votes below it are dropped. */
  lemma VoteDecidesFinality(s: State, peer: PeerPubkey, vote: nat)
    ensures var t := UpdateFinalityVote(s, peer, vote);
            && t == s.(finalityVotes := s.finalityVotes[peer := vote], finality := t.finality,
                       dummyVotes := t.dummyVotes)
            && if peer in s.finalityVotes && vote <= s.finalityVotes[peer]
               then t.finality == s.finality && t.dummyVotes == s.dummyVotes
               else IsFinal(t.finalityVotes, ParamsAt(s.schedule, s.round).peers, t.finality)
  {
    hide ParamsAt, ReportedVotes, IsFinalityRound, FinalityRound;
    RisingVoteDecidesFinality(s, peer, vote);
    UpdateFinalityVoteTables(s, peer, vote);
    hide UpdateFinalityVote;
    var t := UpdateFinalityVote(s, peer, vote);
    if !(peer in s.finalityVotes && vote <= s.finalityVotes[peer]) {
      FinalityRoundIsFinal(t.finalityVotes, ParamsAt(s.schedule, s.round).peers, t.finality.value);
    } else {
      OldVoteIsStored(s, peer, vote);
    }
  }

  lemma OldVoteIsStored(s: State, peer: PeerPubkey, vote: nat)
    requires peer in s.finalityVotes && vote <= s.finalityVotes[peer]
    ensures UpdateFinalityVote(s, peer, vote) == s.(finalityVotes := s.finalityVotes[peer := vote])
  {
    hide RecalculateFinality;
  }

  /** A finality vote that arrives is stored exactly when its peer signed it, and then decides finality if it
      rises: it is the greatest round `q` for which a quorum of the current peers has votes of `q` or more.
      Without that signature nothing changes. */
  lemma FinalityVoteArrivesCounts(s: State, peer: PeerPubkey, vote: nat, sig: Signature)
    ensures var step := ProcessFinalityVote(s, peer, vote, sig);
            var t := step.state;
            var peers := ParamsAt(s.schedule, s.round).peers;
            if sig.Signature? && sig.signer == peer && sig.message == FinalityMessage(vote) then
              && step.outcome == Done
              && t == s.(finalityVotes := s.finalityVotes[peer := vote], finality := t.finality,
                         dummyVotes := t.dummyVotes)
              && if peer in s.finalityVotes && vote <= s.finalityVotes[peer]
                 then t.finality == s.finality && t.dummyVotes == s.dummyVotes
                 else t.finality.Some? && forall q: nat | 0 < q ::
                        QuorumReached(t.finalityVotes, peers, q) <==> q <= t.finality.value
            else step == Step(Failed(InvalidFinalitySignature), s)
  {
    hide UpdateFinalityVote, ParamsAt, QuorumReached;
    VoteDecidesFinality(s, peer, vote);
  }

  /** The same for the event, with what is dropped: the dummy votes of the rounds below a finality value that
      has just risen, and no others. */
  lemma FinalityEventCounts(cfg: Config, s: State, peer: PeerPubkey, vote: nat, sig: Signature, r: nat)
    requires cfg.ourPeer != Some(peer) && sig.Signature? && sig.signer == peer && sig.message == FinalityMessage(vote)
    ensures var t := After(cfg, s, FinalityVoteArrives(peer, vote, sig));
            var before := if s.finality.Some? then s.finality.value else 0;
            var after := if t.finality.Some? then t.finality.value else 0;
            && t == s.(finalityVotes := s.finalityVotes[peer := vote], finality := t.finality,
                       dummyVotes := t.dummyVotes)
            && (!(peer in s.finalityVotes && vote <= s.finalityVotes[peer]) ==>
                  IsFinal(t.finalityVotes, ParamsAt(s.schedule, s.round).peers, t.finality))
            && At(t.dummyVotes, r) == if before < after && r < after then map[] else At(s.dummyVotes, r)
  {
    hide UpdateFinalityVote, ParamsAt, IsFinal;
    VoteDecidesFinality(s, peer, vote);
    PrunedOnlyBelowFinality(s, peer, vote, r);
  }

  /** What the own vote does where the node has left `start` and its blocks reach past it. */
  ghost predicate OwnVoteCounted(own: PeerPubkey, start: nat, u: State, t: State) {
    var rose := !(own in u.finalityVotes && Reach(t.notarized) <= u.finalityVotes[own]);
    if start < Reach(t.notarized) then
      && t.finalityVotes == u.finalityVotes[own := Reach(t.notarized)]
      && if rose then IsFinal(t.finalityVotes, ParamsAt(t.schedule, t.round).peers, t.finality)
         else t.finality == u.finality && t.dummyVotes == u.dummyVotes
    else t.finalityVotes == u.finalityVotes && t.finality == u.finality && t.dummyVotes == u.dummyVotes
  }

  lemma OwnVoteIsCounted(own: PeerPubkey, start: nat, a: State, t: State)
    requires t == if start < Reach(a.notarized) then UpdateFinalityVote(a, own, Reach(a.notarized)) else a
    ensures OwnVoteCounted(own, start, a, t)
  {
    hide UpdateFinalityVote, ParamsAt, IsFinal, Reach;
    VoteDecidesFinality(a, own, Reach(a.notarized));
  }

  lemma LoopCountsOwnVote(cfg: Config, u: State, t: State, own: PeerPubkey)
    requires Base(u) && FinishRound(cfg, u) == Some(t) && cfg.ourPeer == Some(own)
    ensures var a := AfterRounds(u, EndRound(u));
            && t == (if u.round < Reach(a.notarized) then UpdateFinalityVote(a, own, Reach(a.notarized)) else a)
            && a.finalityVotes == u.finalityVotes && a.finality == u.finality && a.dummyVotes == u.dummyVotes
  {
    hide Base, FinishRound, EndRound, UpdateFinalityVote, FreshBlocks, KeepVotesForAll;
    FinishRoundRounds(cfg, u, t);
  }

  /** Where a round ends with a notarized block at it or above, the own vote is stored, and if it rose it decides
      finality among the peers of the round that the node has moved on to; otherwise nothing of this changes. */
  lemma OwnVoteDecidesFinality(cfg: Config, u: State, t: State, own: PeerPubkey)
    requires Base(u) && FinishRound(cfg, u) == Some(t) && cfg.ourPeer == Some(own)
    ensures var rose := !(own in u.finalityVotes && Reach(t.notarized) <= u.finalityVotes[own]);
            if u.round < Reach(t.notarized) then
              && t.finalityVotes == u.finalityVotes[own := Reach(t.notarized)]
              && if rose then IsFinal(t.finalityVotes, ParamsAt(t.schedule, t.round).peers, t.finality)
                 else t.finality == u.finality && t.dummyVotes == u.dummyVotes
            else t.finalityVotes == u.finalityVotes && t.finality == u.finality && t.dummyVotes == u.dummyVotes
  {
    hide Base, FinishRound, EndRound, AfterRounds, UpdateFinalityVote, ParamsAt, IsFinal, Reach;
    LoopCountsOwnVote(cfg, u, t, own);
    OwnVoteIsCounted(own, u.round, AfterRounds(u, EndRound(u)), t);
  }
}
