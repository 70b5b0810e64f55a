/** What never goes backwards, when a committed state is at rest, and the chain. */
module Progress {
  import opened Wrappers
  import opened OrderedTables
  import opened NumPeers
  import opened Blocks
  import opened Chains
  import opened State
  import opened Finality
  import opened Invariants
  import opened Steps

  function OwnVote(cfg: Config, s: State): nat {
    if cfg.ourPeer.Some? && cfg.ourPeer.value in s.finalityVotes then s.finalityVotes[cfg.ourPeer.value] else 0
  }

  /** What a step may do to the round, the last notarized round, the proposals and the own finality vote. */
  ghost predicate Forward(cfg: Config, s: State, t: State) {
    && s.round <= t.round
    && Reach(s.notarized) <= Reach(t.notarized)
    && (forall r | r in s.proposals :: r in t.proposals && t.proposals[r] == s.proposals[r])
    && OwnVote(cfg, s) <= OwnVote(cfg, t)
    && OwnVote(cfg, t) <= Reach(t.notarized)
  }

  // Resting states

  /** A state the round loop would leave alone. */
  ghost predicate Settled(s: State) {
    Unfinished(s, s.round)
  }

  lemma SettledEndsHere(s: State)
    requires Settled(s)
    ensures EndRound(s) == s.round
  {}

  // The round loop

  lemma UpdateFinalityVoteTables(s: State, peer: PeerPubkey, vote: nat)
    ensures var t := UpdateFinalityVote(s, peer, vote);
            && t == s.(dummyVotes := t.dummyVotes, finality := t.finality,
                      finalityVotes := s.finalityVotes[peer := vote])
            && forall r | r in t.dummyVotes :: r in s.dummyVotes && t.dummyVotes[r] == s.dummyVotes[r]
  {
    hide FinalityRound, ReportedVotes, ParamsAt;
  }

  /** What the round loop leaves before the node's own finality vote is raised. */
  lemma FinishRoundRounds(cfg: Config, u: State, t: State)
    requires FinishRound(cfg, u) == Some(t)
    ensures var a := AfterRounds(u, EndRound(u));
            var last := Highest(a.notarized);
            t == if cfg.ourPeer.Some? && last.Some? && u.round <= last.value
                 then UpdateFinalityVote(a, cfg.ourPeer.value, last.value + 1) else a
  {
    hide EndRound, AfterRounds, UpdateFinalityVote, PinHolds, Highest;
  }

  lemma AfterRoundsTables(u: State, end: nat)
    requires Base(u)
    ensures AfterRounds(u, end) == u.(round := end, notarized := u.notarized + FreshBlocks(u, end))
  {
    hide Base, FreshBlocks, KeepVotesForAll, ProposalQuorum, Above;
    FreshBlocksAreCurrent(u, end);
  }

  lemma FinishRoundTables(cfg: Config, u: State, t: State)
    requires Base(u) && FinishRound(cfg, u) == Some(t)
    ensures t.round == EndRound(u) && t.notarized == AfterRounds(u, t.round).notarized
    ensures t.proposals == u.proposals && t.blockVotes == u.blockVotes && t.schedule == u.schedule && t.pins == u.pins
    ensures forall r | r in t.dummyVotes :: r in u.dummyVotes && t.dummyVotes[r] == u.dummyVotes[r]
    ensures var last := Highest(t.notarized);
            t.finalityVotes == if cfg.ourPeer.Some? && last.Some? && u.round <= last.value
                               then u.finalityVotes[cfg.ourPeer.value := last.value + 1] else u.finalityVotes
  {
    hide EndRound, FreshBlocks, AfterRounds, FinishRound, Base, UpdateFinalityVote, Highest;
    FinishRoundRounds(cfg, u, t);
    AfterRoundsTables(u, EndRound(u));
    var a := AfterRounds(u, EndRound(u));
    var last := Highest(a.notarized);
    if cfg.ourPeer.Some? && last.Some? {
      UpdateFinalityVoteTables(a, cfg.ourPeer.value, last.value + 1);
    }
  }

  /** The loop notarizes at most the proposal of the round it starts in. */
  lemma FinishRoundNotarizes(cfg: Config, u: State, t: State)
    requires Base(u) && FinishRound(cfg, u) == Some(t)
    ensures || (t.notarized == u.notarized)
            || (&& u.round < t.round && Above(u.notarized, u.round) && ProposalQuorum(u, u.round)
                && u.round in u.proposals && u.proposals[u.round].round == u.round
                && t.notarized == u.notarized[u.round := u.proposals[u.round]])
  {
    hide Base, FinishRound, FreshBlocks, AfterRounds, Unfinished, ProposalQuorum, EndRound, Above;
    FinishRoundTables(cfg, u, t);
    AfterRoundsTables(u, t.round);
    FreshBlocksAreCurrent(u, t.round);
    if FreshBlocks(u, t.round) == map[] {
      MergeNothing(u.notarized);
    } else {
      RoundOfProposal(u);
      MergeOne(u.notarized, u.round, u.proposals[u.round]);
    }
  }

  lemma MergeNothing(table: BlockTable)
    ensures table + map[] == table
  {}

  lemma MergeOne(table: BlockTable, r: nat, block: BlockHeader)
    ensures table + map[r := block] == table[r := block]
  {}

  lemma RoundOfProposal(u: State)
    requires Base(u) && ProposalQuorum(u, u.round)
    ensures u.round in u.proposals && u.proposals[u.round].round == u.round
  {
    assert RowOk(RowAt(u, u.round));
    assert RowAt(u, u.round).proposal == Some(u.proposals[u.round]);
  }

  lemma BiggerTableReachesFurther(a: BlockTable, b: BlockTable)
    requires forall r | r in a :: r in b
    ensures Reach(a) <= Reach(b)
  {
    var h := Highest(a);
    if h.Some? {
      assert h.value in b;
    }
  }

  lemma FinishRoundGoesForward(cfg: Config, s: State, u: State, t: State)
    requires OwnVote(cfg, s) <= Reach(s.notarized)
    requires Enters(s, u) && FinishRound(cfg, u) == Some(t)
    ensures Forward(cfg, s, t)
  {
    hide Base, FinishRound, EndRound, FreshBlocks, AfterRounds, Unfinished;
    FinishRoundTables(cfg, u, t);
    AfterRoundsTables(u, t.round);
    assert FirstUnfinished(u, u.round, EndRound(u));
    BiggerTableReachesFurther(u.notarized, t.notarized);
  }

  lemma FinishRoundSettles(cfg: Config, u: State, t: State)
    requires Base(u) && FinishRound(cfg, u) == Some(t)
    ensures Settled(t)
  {
    hide Base, FinishRound, FreshBlocks, KeepVotesForAll, RowOk, ParamsAt;
    FinishRoundKeepsInv(cfg, u);
    FinishRoundTables(cfg, u, t);
    FewerDummyVotes(u, t);
    assert Unfinished(u, t.round);
  }

  lemma FewerDummyVotes(u: State, t: State)
    requires t.schedule == u.schedule
    requires forall r | r in t.dummyVotes :: r in u.dummyVotes && t.dummyVotes[r] == u.dummyVotes[r]
    ensures forall r: nat | DummyQuorum(t, r) :: DummyQuorum(u, r)
  {
    forall r: nat | DummyQuorum(t, r)
      ensures DummyQuorum(u, r)
    {
      NoVoters(At(t.dummyVotes, r));
    }
  }

  // Votes

  /** Accepting a vote or proposal moves nothing backwards. */
  lemma ProcessVoteGoesForward(cfg: Config, s: State, peerIdx: nat, resp: VoteResponse)
    requires Inv(s) && OwnVote(cfg, s) <= Reach(s.notarized)
    ensures Forward(cfg, s, ProcessVote(cfg, s, peerIdx, resp).state)
  {
    hide Inv, ProcessVote, FinishRound, WithVote, Enters, KeepVotesFor;
    ProcessVoteShape(cfg, s, peerIdx, resp);
    var t := ProcessVote(cfg, s, peerIdx, resp).state;
    if Enters(s, WithVote(s, peerIdx, resp)) && FinishRound(cfg, WithVote(s, peerIdx, resp)) == Some(t) {
      FinishRoundGoesForward(cfg, s, WithVote(s, peerIdx, resp), t);
    }
  }

  /** The votes that the table already holds for a block. */
  function VotersFor(s: State, block: BlockHeader): set<nat> {
    set i | i in At(s.blockVotes, s.round) && At(s.blockVotes, s.round)[i].inner == block
  }

  /** The one way to commit a state that is not at rest: the leader's vote and a quorum of votes for its
      block were all counted before the proposal itself arrived. */
  ghost predicate StallsRound(cfg: Config, s: State, peerIdx: nat, resp: VoteResponse) {
    && CommitsBeforeLoop(cfg, s, peerIdx, resp)
    && ThresholdAt(s, s.round) <= |VotersFor(s, resp.block.inner)|
  }

  /** A vote or proposal leaves a state at rest if and only if it is not the one that stalls the round. */
  lemma ProcessVoteSettlesIff(cfg: Config, s: State, peerIdx: nat, resp: VoteResponse)
    requires Inv(s) && Settled(s)
    ensures Settled(ProcessVote(cfg, s, peerIdx, resp).state) <==> !StallsRound(cfg, s, peerIdx, resp)
  {
    hide Base, ProcessVote, FinishRound, WithVote, WithOwnProposal, Settled, ProposalError;
    var t := ProcessVote(cfg, s, peerIdx, resp).state;
    ProcessVoteShape(cfg, s, peerIdx, resp);
    if CommitsBeforeLoop(cfg, s, peerIdx, resp) {
      CommitBeforeLoopOutcome(cfg, s, peerIdx, resp);
      ProposalOverVotes(s, resp);
    } else if t != s {
      FinishRoundSettles(cfg, WithVote(s, peerIdx, resp), t);
    }
  }

  lemma CommitBeforeLoopOutcome(cfg: Config, s: State, peerIdx: nat, resp: VoteResponse)
    requires Inv(s) && CommitsBeforeLoop(cfg, s, peerIdx, resp)
    ensures ProcessVote(cfg, s, peerIdx, resp) == Step(Done, WithOwnProposal(s, resp))
  {
    hide FinishRound, KeepVotesFor, Put, ProposalError;
    var row := RowAt(s, s.round);
    assert RowOk(row);
    assert VoteOk(row, peerIdx, row.votes[peerIdx]);
    var p := WithOwnProposal(s, resp);
    LeaderVoteIsKept(s.blockVotes, resp.block, peerIdx);
    RepeatedVotes(p, peerIdx);
  }

  lemma LeaderVoteIsKept(votes: VoteTable, vote: SignedBlock, i: nat)
    requires i in At(votes, vote.inner.round) && At(votes, vote.inner.round)[i] == vote
    ensures i in At(KeepVotesFor(votes, vote.inner), vote.inner.round)
    ensures At(KeepVotesFor(votes, vote.inner), vote.inner.round)[i] == vote
  {}

  lemma ProposalOverVotes(s: State, resp: VoteResponse)
    requires Inv(s) && Settled(s) && resp.Proposal? && resp.block.inner.round == s.round && s.round !in s.proposals
    ensures Settled(WithOwnProposal(s, resp)) <==> |VotersFor(s, resp.block.inner)| < ThresholdAt(s, s.round)
  {
    hide RowOk, ParamsAt;
    var block := resp.block.inner;
    var p := WithOwnProposal(s, resp);
    VotersAreInRange(s);
    assert Voters(At(p.blockVotes, s.round)) == VotersFor(s, block);
    assert DummyQuorum(p, s.round) == DummyQuorum(s, s.round);
  }

  lemma VotersAreInRange(s: State)
    requires Base(s)
    ensures forall i | i in At(s.blockVotes, s.round) :: i < 255
  {
    var row := RowAt(s, s.round);
    assert RowOk(row);
    forall i | i in row.votes
      ensures i < 255
    {
      assert VoteOk(row, i, row.votes[i]);
    }
  }

  // Certificates

  lemma ProcessNotarizedGoesForward(cfg: Config, s: State, cert: Notarized, payload: Payload)
    requires Inv(s) && OwnVote(cfg, s) <= Reach(s.notarized)
    ensures Forward(cfg, s, ProcessNotarized(cfg, s, cert, payload).state)
  {
    hide Inv, ProcessNotarized, FinishRound, WithCert, Enters, Extends;
    ProcessNotarizedShape(cfg, s, cert, payload);
    var t := ProcessNotarized(cfg, s, cert, payload).state;
    if t != s {
      FinishRoundGoesForward(cfg, s, WithCert(s, cert, payload), t);
    }
  }

  lemma ProcessNotarizedSettles(cfg: Config, s: State, cert: Notarized, payload: Payload)
    requires Inv(s) && Settled(s)
    ensures Settled(ProcessNotarized(cfg, s, cert, payload).state)
  {
    hide Base, ProcessNotarized, FinishRound, WithCert, Extends, Settled;
    ProcessNotarizedShape(cfg, s, cert, payload);
    var t := ProcessNotarized(cfg, s, cert, payload).state;
    if t != s {
      FinishRoundSettles(cfg, WithCert(s, cert, payload), t);
    }
  }

  /** An accepted dummy certificate always ends the current round. */
  lemma DummyCertificateEndsRound(cfg: Config, s: State, cert: Notarized, payload: Payload)
    requires Inv(s) && IsDummy(cert.inner) && ProcessNotarized(cfg, s, cert, payload).outcome == Done
    ensures s.round < ProcessNotarized(cfg, s, cert, payload).state.round
  {
    hide Base, FinishRound, EndRound, ParamsAt, WithDummyVotes, DummyQuorum;
    var u := WithDummyVotes(s, cert.sigs);
    WithDummyVotesKeepsInv(s, cert.sigs);
    QuorumOfDummies(s, cert.sigs);
    FinishRoundTables(cfg, u, ProcessNotarized(cfg, s, cert, payload).state);
    assert !Unfinished(u, s.round);
  }

  lemma QuorumOfDummies(s: State, sigs: map<nat, Signature>)
    requires ThresholdAt(s, s.round) <= |Voters(sigs)|
    ensures DummyQuorum(WithDummyVotes(s, sigs), s.round)
    ensures WithDummyVotes(s, sigs).round == s.round
  {
    hide ParamsAt;
    NoVoters(sigs);
    SubsetSize(Voters(sigs), Voters(At(WithDummyVotes(s, sigs).dummyVotes, s.round)));
  }

  /** A certified block at or above the current round takes the node past its round. */
  lemma CertificateEndsItsRound(cfg: Config, s: State, cert: Notarized, payload: Payload)
    requires Inv(s) && !IsDummy(cert.inner) && ProcessNotarized(cfg, s, cert, payload).state != s
    ensures cert.inner.round < ProcessNotarized(cfg, s, cert, payload).state.round
  {
    hide Base, FinishRound, EndRound, ProcessNotarized, IsDummy, KeepVotesFor, Extends, FreshBlocks;
    var t := ProcessNotarized(cfg, s, cert, payload).state;
    ProcessNotarizedShape(cfg, s, cert, payload);
    var u := WithCert(s, cert, payload);
    FinishRoundTables(cfg, u, t);
    assert cert.inner.round in u.notarized;
    assert Unfinished(u, t.round);
  }

  // Finality votes, membership changes, opening

  lemma ProcessFinalityVoteGoesForward(cfg: Config, s: State, peer: PeerPubkey, round: nat, sig: Signature)
    requires Inv(s) && OwnVote(cfg, s) <= Reach(s.notarized) && cfg.ourPeer != Some(peer)
    ensures Forward(cfg, s, ProcessFinalityVote(s, peer, round, sig).state)
    ensures Settled(s) ==> Settled(ProcessFinalityVote(s, peer, round, sig).state)
  {
    hide UpdateFinalityVote, Inv, ParamsAt;
    UpdateFinalityVoteTables(s, peer, round);
    FewerDummyVotes(s, UpdateFinalityVote(s, peer, round));
  }

  lemma ChangeParamsGoesForward(cfg: Config, s: State, round: nat, timestamp: nat, peers: seq<PeerPubkey>)
    requires Inv(s) && OwnVote(cfg, s) <= Reach(s.notarized) && GoodPeers(peers)
    ensures Forward(cfg, s, ChangeParams(s, round, timestamp, peers).state)
    ensures Settled(s) <==> Settled(ChangeParams(s, round, timestamp, peers).state)
  {
    hide Inv, ParamsAt, ChangedParams, At, IsSchedule, Reach, MakeChange;
    ChangeParamsKeepsInv(s, round, timestamp, peers);
  }

  /** The tables that opening starts the round loop from. */
  ghost function Opened(cfg: Config, s: State): State {
    if cfg.ourPeer.Some? then UpdateFinalityVote(s, cfg.ourPeer.value, Reach(s.notarized)) else s
  }

  lemma OpenedTables(cfg: Config, s: State)
    requires Inv(s)
    ensures Reopen(cfg, s) == FinishRound(cfg, Opened(cfg, s))
    ensures Inv(Opened(cfg, s)) && Opened(cfg, s).round == s.round && Opened(cfg, s).schedule == s.schedule
    ensures Opened(cfg, s).notarized == s.notarized && Opened(cfg, s).proposals == s.proposals
    ensures Opened(cfg, s).blockVotes == s.blockVotes && Opened(cfg, s).pins == s.pins
    ensures Opened(cfg, s).finalityVotes ==
            if cfg.ourPeer.Some? then s.finalityVotes[cfg.ourPeer.value := Reach(s.notarized)] else s.finalityVotes
    ensures forall r: nat | DummyQuorum(Opened(cfg, s), r) :: DummyQuorum(s, r)
  {
    hide UpdateFinalityVote, FinishRound, Base, ParamsAt;
    LatestIsHighest(s);
    if cfg.ourPeer.Some? {
      UpdateFinalityVoteTables(s, cfg.ourPeer.value, Reach(s.notarized));
      UpdateFinalityVoteKeepsInv(s, cfg.ourPeer.value, Reach(s.notarized));
      FewerDummyVotes(s, UpdateFinalityVote(s, cfg.ourPeer.value, Reach(s.notarized)));
    }
  }

  lemma ReopenGoesForward(cfg: Config, s: State)
    requires Inv(s) && OwnVote(cfg, s) <= Reach(s.notarized) && Reopen(cfg, s).Some?
    ensures Forward(cfg, s, Reopen(cfg, s).value) && Settled(Reopen(cfg, s).value)
  {
    hide Opened, FinishRound, Base, Reopen, Settled;
    OpenedTables(cfg, s);
    var u := Opened(cfg, s);
    FinishRoundGoesForward(cfg, u, u, Reopen(cfg, s).value);
    FinishRoundSettles(cfg, u, Reopen(cfg, s).value);
  }
}
