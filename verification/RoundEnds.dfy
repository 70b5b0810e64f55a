/** When a vote, a proposal or a certificate ends a round, and with what, said on the stored votes. */
module RoundEnds {
  import opened Wrappers
  import opened OrderedTables
  import opened NumPeers
  import opened Blocks
  import opened Chains
  import opened State
  import opened Invariants
  import opened Steps
  import opened Progress
  import opened VoteRules
  import opened ChainSteps
  import opened ChainRuns
  import opened CatchUp
  import opened StoredSignatures
  import opened FinalityTables

  /** A node that was about to be at rest moves on by one round if what ends it was just completed. */
  lemma LoopMovesOnIff(cfg: Config, u: State, t: State)
    requires Inv(u) && FinishRound(cfg, u) == Some(t)
    ensures var n := |ParamsAt(u.schedule, u.round).peers|;
            var decided := u.round in u.proposals && Threshold(n) <= |At(u.blockVotes, u.round).Keys|;
            && t.round == (if decided || Threshold(n) <= |At(u.dummyVotes, u.round).Keys| then u.round + 1 else u.round)
            && t.notarized == if decided then u.notarized[u.round := u.proposals[u.round]] else u.notarized
  {
    hide RowsOk, FinishRound, EndRound, AfterRounds, ParamsAt;
    LoopEndsOneRound(u);
    FinishRoundTables(cfg, u, t);
    FinishRoundNotarizes(cfg, u, t);
    assert Voters(At(u.blockVotes, u.round)) == At(u.blockVotes, u.round).Keys;
    assert Voters(At(u.dummyVotes, u.round)) == At(u.dummyVotes, u.round).Keys;
    if ProposalQuorum(u, u.round) {
      QuorumIsNotarized(cfg, u, t);
    }
  }

  lemma LoopKeepsPayloads(cfg: Config, u: State, t: State)
    requires Base(u) && FinishRound(cfg, u) == Some(t)
    ensures t.payloads == u.payloads
  {
    hide Base, FinishRound, EndRound, UpdateFinalityVote, FreshBlocks, KeepVotesForAll, Reach;
    FinishRoundRounds(cfg, u, t);
    var a := AfterRounds(u, EndRound(u));
    if cfg.ourPeer.Some? && Highest(a.notarized).Some? {
      UpdateFinalityVoteTables(a, cfg.ourPeer.value, Highest(a.notarized).value + 1);
    }
  }

  lemma LoopKeepsVotes(cfg: Config, u: State, t: State)
    requires Base(u) && FinishRound(cfg, u) == Some(t)
    ensures t.proposals == u.proposals && t.blockVotes == u.blockVotes && t.schedule == u.schedule && t.pins == u.pins
    ensures t.payloads == u.payloads
    ensures u.round in t.dummyVotes ==> u.round in u.dummyVotes && t.dummyVotes[u.round] == u.dummyVotes[u.round]
  {
    hide Base, FinishRound;
    FinishRoundTables(cfg, u, t);
    LoopKeepsPayloads(cfg, u, t);
  }

  /** Dummy votes and finality change in the loop only where a notarized block ends a round. */
  lemma LoopKeepsDummies(cfg: Config, u: State, t: State)
    requires Base(u) && FinishRound(cfg, u) == Some(t) && Reach(t.notarized) <= u.round
    ensures t.dummyVotes == u.dummyVotes && t.finality == u.finality && t.finalityVotes == u.finalityVotes
  {
    hide Base, FinishRound, EndRound, UpdateFinalityVote, FreshBlocks, KeepVotesForAll;
    FinishRoundRounds(cfg, u, t);
    FinishRoundTables(cfg, u, t);
  }

  // Votes

  lemma DummyVotesKeep(s: State, sigs: map<nat, Signature>)
    ensures var u := WithDummyVotes(s, sigs);
            && u.round == s.round && u.proposals == s.proposals && u.schedule == s.schedule && u.pins == s.pins
            && u.payloads == s.payloads && u.notarized == s.notarized && u.blockVotes == s.blockVotes
            && u.dummyVotes == Put(s.dummyVotes, s.round, sigs)
            && u.finality == s.finality && u.finalityVotes == s.finalityVotes
  {
    hide Put;
  }

  lemma BlockVoteKeeps(s: State, peerIdx: nat, vote: SignedBlock)
    ensures var u := WithBlockVote(s, peerIdx, vote);
            && u.round == s.round && u.proposals == s.proposals && u.schedule == s.schedule && u.pins == s.pins
            && u.payloads == s.payloads && u.notarized == s.notarized && u.dummyVotes == s.dummyVotes
            && u.blockVotes == Put(s.blockVotes, s.round, map[peerIdx := vote])
  {
    hide Put;
  }

  lemma CountedKeeps(s: State, peerIdx: nat, vote: SignedBlock)
    ensures var u := Counted(s, peerIdx, vote);
            && u.round == s.round && u.proposals == s.proposals && u.schedule == s.schedule && u.pins == s.pins
            && u.payloads == s.payloads && u.notarized == s.notarized
  {
    hide IsDummy, WithDummyVotes, WithBlockVote;
    DummyVotesKeep(s, map[peerIdx := vote.sig]);
    BlockVoteKeeps(s, peerIdx, vote);
  }

  lemma PutOne<V>(table: map<nat, map<nat, V>>, r: nat, i: nat, vote: V)
    ensures Put(table, r, map[i := vote]) == table[r := At(table, r)[i := vote]]
    ensures At(Put(table, r, map[i := vote]), r).Keys == At(table, r).Keys + {i}
  {
    assert i in map[i := vote];
    assert At(table, r) + map[i := vote] == At(table, r)[i := vote];
  }

  lemma DummyVotesAfter(s: State, peerIdx: nat, vote: SignedBlock)
    requires IsDummy(vote.inner)
    ensures var u := Counted(s, peerIdx, vote);
            && u.blockVotes == s.blockVotes
            && u.dummyVotes == s.dummyVotes[s.round := At(s.dummyVotes, s.round)[peerIdx := vote.sig]]
            && u.finality == s.finality && u.finalityVotes == s.finalityVotes
            && At(u.dummyVotes, s.round).Keys == At(s.dummyVotes, s.round).Keys + {peerIdx}
  {
    hide IsDummy, Put, WithDummyVotes;
    DummyVotesKeep(s, map[peerIdx := vote.sig]);
    PutOne(s.dummyVotes, s.round, peerIdx, vote.sig);
  }

  lemma BlockVotesAfter(s: State, peerIdx: nat, vote: SignedBlock)
    requires !IsDummy(vote.inner)
    ensures var u := Counted(s, peerIdx, vote);
            && u.dummyVotes == s.dummyVotes
            && u.blockVotes == s.blockVotes[s.round := At(s.blockVotes, s.round)[peerIdx := vote]]
  {
    hide IsDummy, Put, WithBlockVote;
    BlockVoteKeeps(s, peerIdx, vote);
    PutOne(s.blockVotes, s.round, peerIdx, vote);
  }

  /** The peer has no vote of the kind in the current round yet. */
  predicate IsNewVote(s: State, peerIdx: nat, block: BlockHeader) {
    if IsDummy(block) then peerIdx !in At(s.dummyVotes, s.round) else peerIdx !in At(s.blockVotes, s.round)
  }

  lemma NewVoteCommits(cfg: Config, s: State, peerIdx: nat, vote: SignedBlock)
    requires Inv(s) && IsNewVote(s, peerIdx, vote.inner) && ProcessVote(cfg, s, peerIdx, Vote(vote)).outcome == Done
    ensures ProcessVote(cfg, s, peerIdx, Vote(vote))
            == CommitRound(cfg, s, Counted(s, peerIdx, vote), VotePinnedMismatch)
    ensures vote.inner.round == s.round
  {
    hide FinishRound, ParamsAt, Inv, IsDummy, VerifyWithContent, WithDummyVotes, WithBlockVote, CommitRound, At;
  }

  /** A new vote that is accepted went through the round loop. */
  lemma VoteWasCounted(cfg: Config, s: State, peerIdx: nat, vote: SignedBlock)
    requires Inv(s) && IsNewVote(s, peerIdx, vote.inner) && ProcessVote(cfg, s, peerIdx, Vote(vote)).outcome == Done
    ensures var u, t := Counted(s, peerIdx, vote), ProcessVote(cfg, s, peerIdx, Vote(vote)).state;
            && Inv(u) && FinishRound(cfg, u) == Some(t)
            && t.proposals == s.proposals && t.schedule == s.schedule && t.pins == s.pins && t.payloads == s.payloads
            && t.blockVotes == u.blockVotes
  {
    hide Base, ProcessVote, FinishRound, IsDummy, Counted, IsNewVote, EndRound, AfterRounds;
    var u := Counted(s, peerIdx, vote);
    NewVoteCommits(cfg, s, peerIdx, vote);
    CountedKeeps(s, peerIdx, vote);
    CountedIsGood(cfg, s, peerIdx, vote);
    LoopKeepsVotes(cfg, u, FinishRound(cfg, u).value);
  }

  lemma CountedIsGood(cfg: Config, s: State, peerIdx: nat, vote: SignedBlock)
    requires Inv(s) && IsNewVote(s, peerIdx, vote.inner) && ProcessVote(cfg, s, peerIdx, Vote(vote)).outcome == Done
    ensures Inv(Counted(s, peerIdx, vote))
  {
    hide Base, FinishRound, WithDummyVotes, WithBlockVote, IsDummy, VerifyWithContent, ParamsAt;
    if IsDummy(vote.inner) {
      WithDummyVotesKeepsInv(s, map[peerIdx := vote.sig]);
    } else {
      assert VoteOk(RowAt(s, s.round), peerIdx, vote);
      WithBlockVoteKeepsInv(s, peerIdx, vote);
    }
  }

  /** A new dummy vote that is accepted in a state at rest is stored, and ends the round exactly when it makes a
      quorum of dummy votes; nothing else changes. */
  lemma DummyVoteEndsRoundIff(cfg: Config, s: State, peerIdx: nat, block: BlockHeader, sig: Signature)
    requires Inv(s) && Settled(s) && IsDummy(block) && peerIdx !in At(s.dummyVotes, s.round)
    requires ProcessVote(cfg, s, peerIdx, Vote(SignedBlock(block, sig))).outcome == Done
    ensures var t := ProcessVote(cfg, s, peerIdx, Vote(SignedBlock(block, sig))).state;
            var n := |ParamsAt(s.schedule, s.round).peers|;
            && t.proposals == s.proposals && t.schedule == s.schedule && t.pins == s.pins && t.payloads == s.payloads
            && t.blockVotes == s.blockVotes && t.notarized == s.notarized
            && t.finality == s.finality && t.finalityVotes == s.finalityVotes
            && t.dummyVotes == s.dummyVotes[s.round := At(s.dummyVotes, s.round)[peerIdx := sig]]
            && t.round == if Threshold(n) <= |At(s.dummyVotes, s.round).Keys + {peerIdx}| then s.round + 1 else s.round
  {
    hide Base, ProcessVote, FinishRound, ParamsAt, IsDummy, Counted;
    var vote := SignedBlock(block, sig);
    VoteWasCounted(cfg, s, peerIdx, vote);
    CountedKeeps(s, peerIdx, vote);
    DummyVotesAfter(s, peerIdx, vote);
    LoopMovesOnIff(cfg, Counted(s, peerIdx, vote), ProcessVote(cfg, s, peerIdx, Vote(vote)).state);
    NoQuorumsAtRest(s);
    ReachIsBelow(s);
    LoopKeepsDummies(cfg, Counted(s, peerIdx, vote), ProcessVote(cfg, s, peerIdx, Vote(vote)).state);
  }

  lemma ReachIsBelow(s: State)
    requires Inv(s)
    ensures Reach(s.notarized) <= s.round
  {}

  /** A new vote for a block that is accepted in a state at rest is stored, and ends the round exactly when the
      proposal is there and has a quorum with it; then the proposal is notarized. */
  lemma BlockVoteEndsRoundIff(cfg: Config, s: State, peerIdx: nat, block: BlockHeader, sig: Signature)
    requires Inv(s) && Settled(s) && !IsDummy(block) && peerIdx !in At(s.blockVotes, s.round)
    requires ProcessVote(cfg, s, peerIdx, Vote(SignedBlock(block, sig))).outcome == Done
    ensures var t := ProcessVote(cfg, s, peerIdx, Vote(SignedBlock(block, sig))).state;
            var n := |ParamsAt(s.schedule, s.round).peers|;
            && t.proposals == s.proposals && t.schedule == s.schedule && t.pins == s.pins && t.payloads == s.payloads
            && t.blockVotes == s.blockVotes[s.round := At(s.blockVotes, s.round)[peerIdx := SignedBlock(block, sig)]]
            && if s.round in s.proposals && Threshold(n) <= |At(s.blockVotes, s.round).Keys + {peerIdx}|
               then t.round == s.round + 1 && t.notarized == s.notarized[s.round := s.proposals[s.round]]
               else t.round == s.round && t.notarized == s.notarized
  {
    hide Base, ProcessVote, FinishRound, ParamsAt, IsDummy, Counted;
    var vote := SignedBlock(block, sig);
    VoteWasCounted(cfg, s, peerIdx, vote);
    CountedKeeps(s, peerIdx, vote);
    BlockVotesAfter(s, peerIdx, vote);
    LoopMovesOnIff(cfg, Counted(s, peerIdx, vote), ProcessVote(cfg, s, peerIdx, Vote(vote)).state);
    NoQuorumsAtRest(s);
  }

  lemma NoQuorumsAtRest(s: State)
    requires Settled(s)
    ensures var n := |ParamsAt(s.schedule, s.round).peers|;
            && (s.round in s.proposals && Above(s.notarized, s.round) ==>
                  |At(s.blockVotes, s.round).Keys| < Threshold(n))
            && |At(s.dummyVotes, s.round).Keys| < Threshold(n)
  {
    hide ParamsAt;
    assert Voters(At(s.blockVotes, s.round)) == At(s.blockVotes, s.round).Keys;
    assert Voters(At(s.dummyVotes, s.round)) == At(s.dummyVotes, s.round).Keys;
  }

  // Proposals

  /** The peers that have voted for the block in the current round. */
  function VotersOf(s: State, block: BlockHeader): set<nat> {
    set i: nat | i in At(s.blockVotes, s.round) && At(s.blockVotes, s.round)[i].inner == block
  }

  lemma ProposalTables(s: State, block: BlockHeader, payload: Payload)
    ensures var u := WithProposal(s, block, payload);
            && u.round == s.round && u.schedule == s.schedule && u.pins == s.pins && u.notarized == s.notarized
            && u.dummyVotes == s.dummyVotes && u.proposals == s.proposals[block.round := block]
            && u.payloads == s.payloads[block.payloadHash := payload]
            && u.blockVotes == KeepVotesFor(s.blockVotes, block)
  {
    hide KeepVotesFor;
  }

  lemma KeptVotes(s: State, block: BlockHeader)
    requires Base(s) && block.round == s.round
    ensures var votes := At(s.blockVotes, s.round);
            At(KeepVotesFor(s.blockVotes, block), s.round) == map i: nat | i in VotersOf(s, block) :: votes[i]
    ensures forall r | r != s.round :: At(KeepVotesFor(s.blockVotes, block), r) == At(s.blockVotes, r)
  {
    hide Base;
    VotersAreInRange(s);
  }

  lemma ProposedTables(s: State, peerIdx: nat, vote: SignedBlock, payload: Payload)
    requires Base(s) && vote.inner.round == s.round
    ensures var u, votes := WithFirstProposal(s, peerIdx, vote, payload), At(s.blockVotes, s.round);
            && u.round == s.round && u.schedule == s.schedule && u.pins == s.pins && u.notarized == s.notarized
            && u.dummyVotes == s.dummyVotes && u.proposals == s.proposals[s.round := vote.inner]
            && u.payloads == s.payloads[vote.inner.payloadHash := payload]
            && At(u.blockVotes, s.round) == (map i: nat | i in VotersOf(s, vote.inner) :: votes[i])[peerIdx := vote]
            && forall r | r != s.round :: At(u.blockVotes, r) == At(s.blockVotes, r)
  {
    hide Base, Put, KeepVotesFor, WithBlockVote, WithProposal, VotersOf;
    var p := WithProposal(s, vote.inner, payload);
    ProposalTables(s, vote.inner, payload);
    KeptVotes(s, vote.inner);
    BlockVoteKeeps(p, peerIdx, vote);
    PutOne(p.blockVotes, s.round, peerIdx, vote);
  }

  lemma ProposalWasCounted(cfg: Config, s: State, peerIdx: nat, vote: SignedBlock, payload: Payload)
    requires Inv(s) && ProcessVote(cfg, s, peerIdx, Proposal(vote, payload)).state != s
    ensures var t := ProcessVote(cfg, s, peerIdx, Proposal(vote, payload)).state;
            var u := WithFirstProposal(s, peerIdx, vote, payload);
            && vote.inner.round == s.round && s.round !in s.proposals
            && if peerIdx in At(s.blockVotes, s.round) && At(s.blockVotes, s.round)[peerIdx] == vote
               then t == WithProposal(s, vote.inner, payload)
               else Base(u) && FinishRound(cfg, u) == Some(t)
  {
    hide Base, ProcessVote, FinishRound, IsDummy, WithBlockVote, WithProposal, ProposalError;
    var resp := Proposal(vote, payload);
    ProcessVoteShape(cfg, s, peerIdx, resp);
    if CommitsBeforeLoop(cfg, s, peerIdx, resp) {
      CommitBeforeLoopOutcome(cfg, s, peerIdx, resp);
    } else {
      ProposedIsNoDummy(cfg, s, peerIdx, vote.inner, payload);
    }
  }

  lemma ProposedIsNoDummy(cfg: Config, s: State, peerIdx: nat, block: BlockHeader, payload: Payload)
    requires ProposalError(cfg, s, peerIdx, block, payload).None?
    ensures !IsDummy(block)
  {
    hide IsDummy, ParamsAt;
  }

  lemma LeadersVoteWasThere(s: State, peerIdx: nat, vote: SignedBlock)
    requires peerIdx in At(s.blockVotes, s.round) && At(s.blockVotes, s.round)[peerIdx] == vote
    ensures var votes, voters := At(s.blockVotes, s.round), VotersOf(s, vote.inner);
            (map i: nat | i in voters :: votes[i])[peerIdx := vote] == map i: nat | i in voters :: votes[i]
  {}

  /** What a first proposal leaves. */
  ghost predicate Proposed(s: State, t: State, peerIdx: nat, vote: SignedBlock, payload: Payload) {
    var votes, voters := At(s.blockVotes, s.round), VotersOf(s, vote.inner);
    && t.proposals == s.proposals[s.round := vote.inner] && t.payloads == s.payloads[vote.inner.payloadHash := payload]
    && t.schedule == s.schedule && t.pins == s.pins
    && At(t.blockVotes, s.round) == (map i: nat | i in voters :: votes[i])[peerIdx := vote]
    && if Threshold(|ParamsAt(s.schedule, s.round).peers|) <= |voters + {peerIdx}|
          && !(peerIdx in votes && votes[peerIdx] == vote)
       then t.round == s.round + 1 && t.notarized == s.notarized[s.round := vote.inner]
       else t.round == s.round && t.notarized == s.notarized
  }

  lemma ProposalIsProposed(cfg: Config, s: State, peerIdx: nat, vote: SignedBlock, payload: Payload)
    requires Inv(s) && Settled(s) && ProcessVote(cfg, s, peerIdx, Proposal(vote, payload)).state != s
    ensures Proposed(s, ProcessVote(cfg, s, peerIdx, Proposal(vote, payload)).state, peerIdx, vote, payload)
  {
    hide Base, ProcessVote, FinishRound, ParamsAt, WithFirstProposal, WithProposal, KeepVotesFor, VotersOf;
    var t := ProcessVote(cfg, s, peerIdx, Proposal(vote, payload)).state;
    var u := WithFirstProposal(s, peerIdx, vote, payload);
    ProposalWasCounted(cfg, s, peerIdx, vote, payload);
    if peerIdx in At(s.blockVotes, s.round) && At(s.blockVotes, s.round)[peerIdx] == vote {
      ProposalTables(s, vote.inner, payload);
      KeptVotes(s, vote.inner);
      LeadersVoteWasThere(s, peerIdx, vote);
    } else {
      ProposedTables(s, peerIdx, vote, payload);
      LoopMovesOnIff(cfg, u, t);
      FinishRoundTables(cfg, u, t);
      LoopKeepsPayloads(cfg, u, t);
      NoQuorumsAtRest(s);
      ProposedVoters(s, u, peerIdx, vote);
    }
  }

  lemma ProposedVoters(s: State, u: State, peerIdx: nat, vote: SignedBlock)
    requires var votes, voters := At(s.blockVotes, s.round), VotersOf(s, vote.inner);
             At(u.blockVotes, s.round) == (map i: nat | i in voters :: votes[i])[peerIdx := vote]
    ensures At(u.blockVotes, s.round).Keys == VotersOf(s, vote.inner) + {peerIdx}
  {
    hide VotersOf;
  }

  /** A first proposal is stored with its payload, of the votes collected before it only those for its block
      stay, and the leader's is among them. It ends the round exactly when these are a quorum, unless the
      leader's vote was there already: then it stays open. */
  lemma ProposalEndsRoundIff(cfg: Config, s: State, peerIdx: nat, block: BlockHeader, sig: Signature, payload: Payload)
    requires Inv(s) && Settled(s) && s.round !in s.proposals
    requires ProcessVote(cfg, s, peerIdx, Proposal(SignedBlock(block, sig), payload)).outcome == Done
    ensures var t := ProcessVote(cfg, s, peerIdx, Proposal(SignedBlock(block, sig), payload)).state;
            var votes, vote := At(s.blockVotes, s.round), SignedBlock(block, sig);
            var voters := set i: nat | i in votes && votes[i].inner == block;
            && t.proposals == s.proposals[s.round := block] && t.payloads == s.payloads[block.payloadHash := payload]
            && t.schedule == s.schedule && t.pins == s.pins
            && At(t.blockVotes, s.round) == (map i: nat | i in voters :: votes[i])[peerIdx := vote]
            && if Threshold(|ParamsAt(s.schedule, s.round).peers|) <= |voters + {peerIdx}|
                  && !(peerIdx in votes && votes[peerIdx] == vote)
               then t.round == s.round + 1 && t.notarized == s.notarized[s.round := block]
               else t.round == s.round && t.notarized == s.notarized
  {
    hide Inv, ProcessVote, ParamsAt, Settled;
    ProposalIsStored(cfg, s, peerIdx, Proposal(SignedBlock(block, sig), payload));
    ProposalIsProposed(cfg, s, peerIdx, SignedBlock(block, sig), payload);
  }

  // Certificates

  lemma RewoundKeeps(s: State, block: BlockHeader)
    ensures var u := Rewound(s, block);
            && u.round == s.round && u.proposals == s.proposals && u.schedule == s.schedule && u.pins == s.pins
            && u.payloads == s.payloads && u.blockVotes == s.blockVotes && u.dummyVotes == s.dummyVotes
  {
    hide DirectlyExtends;
  }

  lemma CertifiedTables(s: State, cert: Notarized, payload: Payload)
    requires Inv(s) && !IsDummy(cert.inner) && Extends(s, cert.inner)
    ensures var u, k := WithCert(s, cert, payload), cert.inner.round;
            && u.round == s.round && u.proposals == s.proposals && u.schedule == s.schedule && u.pins == s.pins
            && u.dummyVotes == s.dummyVotes && u.payloads == s.payloads[cert.inner.payloadHash := payload]
            && u.notarized == Rewound(s, cert.inner).notarized[k := cert.inner]
            && u.blockVotes == Put(KeepVotesFor(s.blockVotes, cert.inner), k, SignedBy(cert.inner, cert.sigs))
  {
    hide Base, IsDummy, DirectlyExtends, SignedBy, Put, KeepVotesFor, Rewound;
    RewoundKeeps(s, cert.inner);
    CertificateTables(Rewound(s, cert.inner), cert, payload);
  }

  lemma CertifiedVotesAre(s: State, cert: Notarized)
    requires Base(s)
    ensures var k := cert.inner.round;
            var votes := Put(KeepVotesFor(s.blockVotes, cert.inner), k, SignedBy(cert.inner, cert.sigs));
            && (forall r | r != k :: At(votes, r) == At(s.blockVotes, r))
            && (forall i :: i in At(votes, k) <==>
                  i in cert.sigs || (i in At(s.blockVotes, k) && At(s.blockVotes, k)[i].inner == cert.inner))
            && (forall i | i in At(votes, k) ::
                  At(votes, k)[i] == if i in cert.sigs then SignedBlock(cert.inner, cert.sigs[i])
                                     else At(s.blockVotes, k)[i])
  {
    var row := RowAt(s, cert.inner.round);
    assert RowOk(row);
    forall i | i in row.votes
      ensures i < 255
    {
      assert VoteOk(row, i, row.votes[i]);
    }
    assert SignedBy(cert.inner, cert.sigs).Keys == cert.sigs.Keys;
    assert cert.sigs == map[] ==> SignedBy(cert.inner, cert.sigs) == map[];
  }

  /** Where a certified block takes the node. */
  lemma CertifiedRound(cfg: Config, s: State, cert: Notarized, payload: Payload)
    requires Inv(s) && Settled(s) && !IsDummy(cert.inner) && ProcessNotarized(cfg, s, cert, payload).state != s
    ensures var t, u, k := ProcessNotarized(cfg, s, cert, payload).state, WithCert(s, cert, payload), cert.inner.round;
            && Base(u) && Extends(s, cert.inner) && FinishRound(cfg, u) == Some(t)
            && t.notarized == u.notarized && t.round == if s.round <= k then k + 1 else s.round
  {
    hide Base, Settled, IsDummy, DirectlyExtends, ProcessNotarized, WithCert, Extends, FinishRound, ParamsAt, Rewound,
         EndRound, AfterRounds;
    var t, u, k := ProcessNotarized(cfg, s, cert, payload).state, WithCert(s, cert, payload), cert.inner.round;
    ProcessNotarizedShape(cfg, s, cert, payload);
    if k < s.round {
      FinishLate(cfg, s, cert, payload);
    } else {
      CertifiedTables(s, cert, payload);
      LastIsCertified(s, cert);
      OnlyBlockEndsRounds(u, k);
      FinishRoundTables(cfg, u, t);
      FinishRoundNotarizes(cfg, u, t);
    }
  }

  lemma RewoundTable(s: State, block: BlockHeader)
    requires Inv(s)
    ensures var last := Highest(s.notarized);
            Rewound(s, block).notarized == if last.Some? && !DirectlyExtends(block, Some(s.notarized[last.value]))
                                           then s.notarized - {last.value} else s.notarized
  {
    hide Base, DirectlyExtends;
    LatestIsHighest(s);
  }

  /** A block that a certificate brings is stored with its payload and the votes of the certificate, on top of the
      last block or, where it does not extend that, in its place; of the votes collected before only those for
      it stay. A node that was not past its round goes to the next one, any other stays where it is. */
  lemma CertifiedBlockIsStored(cfg: Config, s: State, cert: Notarized, payload: Payload)
    requires Inv(s) && Settled(s) && !IsDummy(cert.inner) && ProcessNotarized(cfg, s, cert, payload).state != s
    ensures var t, k, last := ProcessNotarized(cfg, s, cert, payload).state, cert.inner.round, Highest(s.notarized);
            var kept := if last.Some? && !DirectlyExtends(cert.inner, Some(s.notarized[last.value]))
                        then s.notarized - {last.value} else s.notarized;
            && t.notarized == kept[k := cert.inner]
            && t.round == (if s.round <= k then k + 1 else s.round)
            && t.proposals == s.proposals && t.schedule == s.schedule && t.pins == s.pins
            && t.payloads == s.payloads[cert.inner.payloadHash := payload]
            && (forall r | r != k :: At(t.blockVotes, r) == At(s.blockVotes, r))
            && (forall i :: i in At(t.blockVotes, k) <==>
                  i in cert.sigs || (i in At(s.blockVotes, k) && At(s.blockVotes, k)[i].inner == cert.inner))
            && (forall i | i in At(t.blockVotes, k) ::
                  At(t.blockVotes, k)[i] == if i in cert.sigs then SignedBlock(cert.inner, cert.sigs[i])
                                            else At(s.blockVotes, k)[i])
  {
    hide Base, Settled, IsDummy, DirectlyExtends, ProcessNotarized, WithCert, Extends, Put, SignedBy, KeepVotesFor,
         FinishRound, Rewound, At;
    CertifiedRound(cfg, s, cert, payload);
    CertifiedTables(s, cert, payload);
    CertifiedVotesAre(s, cert);
    RewoundTable(s, cert.inner);
    LoopKeepsVotes(cfg, WithCert(s, cert, payload), ProcessNotarized(cfg, s, cert, payload).state);
  }

  lemma LastIsCertified(s: State, cert: Notarized)
    requires Extends(s, cert.inner)
    ensures Above(Rewound(s, cert.inner).notarized[cert.inner.round := cert.inner], cert.inner.round + 1)
  {
    hide DirectlyExtends, Rewound;
  }

  /** A dummy certificate that is taken takes a node at rest to the next round, and all it stores are its
      signatures. */
  lemma DummyCertificateIsStored(cfg: Config, s: State, cert: Notarized, payload: Payload)
    requires Inv(s) && Settled(s) && IsDummy(cert.inner) && ProcessNotarized(cfg, s, cert, payload).state != s
    ensures var t := ProcessNotarized(cfg, s, cert, payload).state;
            && t.round == s.round + 1 && t.notarized == s.notarized && t.blockVotes == s.blockVotes
            && t.proposals == s.proposals && t.schedule == s.schedule && t.pins == s.pins && t.payloads == s.payloads
            && (s.round in t.dummyVotes ==> t.dummyVotes[s.round] == At(s.dummyVotes, s.round) + cert.sigs)
  {
    hide Base, Settled, IsDummy, ProcessNotarized, FinishRound, ParamsAt, WithDummyVotes, Extends, Put;
    var t, u := ProcessNotarized(cfg, s, cert, payload).state, WithDummyVotes(s, cert.sigs);
    ProcessNotarizedShape(cfg, s, cert, payload);
    DummyVotesKeep(s, cert.sigs);
    DummyCertificateEndsRound(cfg, s, cert, payload);
    WithDummyVotesKeepsInv(s, cert.sigs);
    DummyLoop(cfg, s, u, t);
    DummiesPut(s.dummyVotes, s.round, cert.sigs);
  }

  lemma DummiesPut(table: DummyVoteTable, r: nat, sigs: map<nat, Signature>)
    ensures At(Put(table, r, sigs), r) == At(table, r) + sigs
  {
    assert At(table, r) + map[] == At(table, r);
  }

  lemma DummyLoop(cfg: Config, s: State, u: State, t: State)
    requires Settled(s) && Inv(s) && Inv(u) && FinishRound(cfg, u) == Some(t)
    requires u.round == s.round && u.schedule == s.schedule && u.proposals == s.proposals && u.notarized == s.notarized
             && u.blockVotes == s.blockVotes
    ensures t.notarized == s.notarized && t.round <= s.round + 1
    ensures t.proposals == u.proposals && t.blockVotes == u.blockVotes && t.schedule == u.schedule && t.pins == u.pins
    ensures t.payloads == u.payloads
    ensures u.round in t.dummyVotes ==> u.round in u.dummyVotes && t.dummyVotes[u.round] == u.dummyVotes[u.round]
  {
    hide Base, Settled, FinishRound, ParamsAt;
    NoQuorumsAtRest(s);
    LoopMovesOnIff(cfg, u, t);
    LoopKeepsVotes(cfg, u, t);
  }

  // Which certificates are taken

  /** The signatures are a quorum, each of the peer it stands for. */
  ghost predicate SignedByQuorum(cert: Notarized, peers: seq<PeerPubkey>) {
    && Threshold(|peers|) <= |cert.sigs.Keys|
    && forall i | i in cert.sigs ::
         && i < |peers| && cert.sigs[i].Signature? && cert.sigs[i].signer == peers[i]
         && cert.sigs[i].message == BlockMessage(cert.inner)
  }

  /** No pin of the rounds that the block ends is for anything but the block. */
  ghost predicate PinsAllowBlock(s: State, block: BlockHeader) {
    forall r | s.round <= r <= block.round && r in s.pins :: r == block.round && s.pins[r] == Digest(block)
  }

  lemma QuorumSignedIs(cert: Notarized, params: ConsensusParams)
    ensures QuorumSigned(cert, params) <==> SignedByQuorum(cert, params.peers)
  {
    assert Voters(cert.sigs) == cert.sigs.Keys;
    if SignedByQuorum(cert, params.peers) {
      forall i | i in cert.sigs
        ensures SigOk(cert, params, i)
      {}
    }
    if QuorumSigned(cert, params) {
      forall i | i in cert.sigs
        ensures i < |params.peers| && cert.sigs[i].Signature? && cert.sigs[i].signer == params.peers[i]
        ensures cert.sigs[i].message == BlockMessage(cert.inner)
      {
        assert SigOk(cert, params, i);
      }
    }
  }

  /** Where the block of a certificate can be inserted, the loop runs through unless a pin is in the way. */
  lemma InsertedLoopIff(cfg: Config, s: State, cert: Notarized, payload: Payload)
    requires Inv(s) && Settled(s) && !IsDummy(cert.inner) && Extends(s, cert.inner)
    requires Base(WithCert(s, cert, payload))
    ensures FinishRound(cfg, WithCert(s, cert, payload)).Some? <==> PinsAllowBlock(s, cert.inner)
  {
    hide Base, Settled, IsDummy, DirectlyExtends, WithCert, Extends, FinishRound, ParamsAt, Rewound, EndRound,
         AfterRounds, FreshBlocks;
    var u, k := WithCert(s, cert, payload), cert.inner.round;
    if k < s.round {
      FinishLate(cfg, s, cert, payload);
    } else {
      CertifiedTables(s, cert, payload);
      LastIsCertified(s, cert);
      OnlyBlockEndsRounds(u, k);
      assert FirstUnfinished(u, u.round, EndRound(u));
      LoopStopsAtFirstUnfinished(cfg, u, k + 1);
      AfterRoundsTables(u, k + 1);
      MergeNothing(u.notarized);
      PinsOfInserted(s, u, cert.inner);
    }
  }

  lemma PinsOfInserted(s: State, u: State, block: BlockHeader)
    requires Inv(s) && s.round <= block.round && u.pins == s.pins && u.round == s.round
    requires u.notarized == Rewound(s, block).notarized[block.round := block]
    ensures (forall r: nat | u.round <= r < block.round + 1 :: PinHolds(u.pins, u.notarized, r))
            <==> PinsAllowBlock(s, block)
  {
    hide Base, DirectlyExtends;
    assert forall r | r in u.notarized && s.round <= r :: r == block.round;
    if forall r: nat | u.round <= r < block.round + 1 :: PinHolds(u.pins, u.notarized, r) {
      forall r | s.round <= r <= block.round && r in s.pins
        ensures r == block.round && s.pins[r] == Digest(block)
      {
        assert PinHolds(u.pins, u.notarized, r);
      }
    }
  }

  /** A certificate with a block changes a node at rest exactly when a quorum signed it, the content of the block
      fits, the block is above the last one and extends it or the one before it, and no pin is in the way. */
  lemma BlockCertificateTakenIff(cfg: Config, s: State, cert: Notarized, payload: Payload)
    requires Inv(s) && Settled(s) && !IsDummy(cert.inner)
    ensures var block, last := cert.inner, Highest(s.notarized);
            var params := ParamsAt(s.schedule, block.round);
            ProcessNotarized(cfg, s, cert, payload).state != s <==>
            && SignedByQuorum(cert, params.peers)
            && block.headerVersion == 0 && block.paramsHash == Digest(params)
            && block.paramsLen == EncodedLen(params)
            && block.payloadHash == Digest(payload) && block.payloadLen == |payload|
            && (last.Some? ==> last.value < block.round)
            && (DirectlyExtends(block, if last.Some? then Some(s.notarized[last.value]) else None)
                || (last.Some? && DirectlyExtends(block, PrevBlock(s.notarized, last.value))))
            && PinsAllowBlock(s, block)
  {
    hide Base, Settled, DirectlyExtends, ProcessNotarized, WithCert, Extends, FinishRound, ParamsAt, Rewound,
         QuorumSigned, SignedByQuorum, PinsAllowBlock, VerifyWithContent;
    var params := ParamsAt(s.schedule, cert.inner.round);
    var u, t := WithCert(s, cert, payload), ProcessNotarized(cfg, s, cert, payload).state;
    QuorumSignedIs(cert, params);
    ContentFitsIff(cert.inner, params, payload);
    LatestIsHighest(s);
    if Insertable(s, cert, payload) {
      InsertableIsProcessed(cfg, s, cert, payload);
      InsertedLoopIff(cfg, s, cert, payload);
      if FinishRound(cfg, u).Some? {
        InsertedChanges(cfg, s, cert, payload);
      }
    } else if t != s {
      TakenIsInsertable(cfg, s, cert, payload);
    }
  }

  lemma InsertedChanges(cfg: Config, s: State, cert: Notarized, payload: Payload)
    requires Inv(s) && !IsDummy(cert.inner) && Extends(s, cert.inner) && Base(WithCert(s, cert, payload))
    requires FinishRound(cfg, WithCert(s, cert, payload)).Some?
    ensures FinishRound(cfg, WithCert(s, cert, payload)).value != s
  {
    hide Base, IsDummy, DirectlyExtends, WithCert, FinishRound, Rewound;
    CertifiedTables(s, cert, payload);
    ReachOfExtended(s, cert.inner);
    NewBlockChangesTables(cfg, s, WithCert(s, cert, payload), FinishRound(cfg, WithCert(s, cert, payload)).value,
      cert.inner.round);
  }

  lemma ReachOfExtended(s: State, block: BlockHeader)
    requires Extends(s, block)
    ensures Reach(s.notarized) <= block.round
  {
    hide DirectlyExtends, Rewound;
  }

  /** A dummy certificate changes a node at rest exactly when it is for the current round, a quorum signed it, its
      content fits and the round is not pinned. */
  lemma DummyCertificateTakenIff(cfg: Config, s: State, cert: Notarized, payload: Payload)
    requires Inv(s) && Settled(s) && IsDummy(cert.inner)
    ensures var block, params := cert.inner, ParamsAt(s.schedule, cert.inner.round);
            ProcessNotarized(cfg, s, cert, payload).state != s <==>
            && block.round == s.round && SignedByQuorum(cert, params.peers)
            && block.headerVersion == 0 && block.paramsHash == Digest(params)
            && block.paramsLen == EncodedLen(params) && payload == []
            && s.round !in s.pins
  {
    hide Base, Settled, FinishRound, ParamsAt, QuorumSigned, SignedByQuorum, VerifyWithContent, WithDummyVotes,
         PinAllows, DummyQuorum, ProcessNotarized;
    var params := ParamsAt(s.schedule, cert.inner.round);
    var u, t := WithDummyVotes(s, cert.sigs), ProcessNotarized(cfg, s, cert, payload).state;
    QuorumSignedIs(cert, params);
    ContentFitsIff(cert.inner, params, payload);
    DummyCertificateForm(cfg, s, cert, payload);
    if cert.inner.round == s.round && QuorumSigned(cert, params) {
      WithDummyVotesKeepsInv(s, cert.sigs);
      DummyVotesKeep(s, cert.sigs);
      RejectedOnlyByPin(cfg, u);
      CertifiedDummyQuorum(s, cert);
      DummyPins(s, u);
      if FinishRound(cfg, u).Some? {
        LoopMovesOnIff(cfg, u, FinishRound(cfg, u).value);
        DummyQuorumIs(u);
      }
    }
  }

  lemma DummyCertificateForm(cfg: Config, s: State, cert: Notarized, payload: Payload)
    requires IsDummy(cert.inner)
    ensures var params := ParamsAt(s.schedule, cert.inner.round);
            if QuorumSigned(cert, params) && VerifyWithContent(cert.inner, params, payload).None?
               && cert.inner.round == s.round
            then ProcessNotarized(cfg, s, cert, payload)
                 == CommitRound(cfg, s, WithDummyVotes(s, cert.sigs), CertPinnedMismatch)
            else ProcessNotarized(cfg, s, cert, payload).state == s
  {
    hide ParamsAt, VerifyWithContent, WithDummyVotes, FinishRound, CommitRound, IsDummy;
  }

  lemma CertifiedDummyQuorum(s: State, cert: Notarized)
    requires QuorumSigned(cert, ParamsAt(s.schedule, s.round))
    ensures DummyQuorum(WithDummyVotes(s, cert.sigs), s.round)
  {
    hide ParamsAt, WithDummyVotes, DummyQuorum;
    QuorumOfDummies(s, cert.sigs);
  }

  lemma DummyQuorumIs(u: State)
    ensures DummyQuorum(u, u.round) <==>
            Threshold(|ParamsAt(u.schedule, u.round).peers|) <= |At(u.dummyVotes, u.round).Keys|
  {
    hide ParamsAt;
    assert Voters(At(u.dummyVotes, u.round)) == At(u.dummyVotes, u.round).Keys;
  }

  lemma DummyPins(s: State, u: State)
    requires Inv(s) && Settled(s) && DummyQuorum(u, s.round)
    requires u.round == s.round && u.pins == s.pins && u.proposals == s.proposals && u.blockVotes == s.blockVotes
             && u.schedule == s.schedule
    ensures PinAllows(u) <==> s.round !in s.pins
  {
    hide Base, ParamsAt;
  }

  // Opening

  /** Opening the database of a node at rest sets its own finality vote to one past its last block, which decides
      finality among the current peers where it rose, and moves nothing. */
  lemma OpeningCountsOwnVote(cfg: Config, s: State, own: PeerPubkey)
    requires Inv(s) && Settled(s) && cfg.ourPeer == Some(own)
    ensures Reopen(cfg, s).Some?
    ensures var t, vote := Reopen(cfg, s).value, if s.notarized == map[] then 0 else Highest(s.notarized).value + 1;
            && t.round == s.round && t.notarized == s.notarized && t.proposals == s.proposals
            && t.blockVotes == s.blockVotes && t.schedule == s.schedule && t.pins == s.pins && t.payloads == s.payloads
            && t.finalityVotes == s.finalityVotes[own := vote]
            && if own in s.finalityVotes && vote <= s.finalityVotes[own]
               then t.finality == s.finality && t.dummyVotes == s.dummyVotes
               else IsFinal(t.finalityVotes, ParamsAt(s.schedule, s.round).peers, t.finality)
  {
    hide Base, ParamsAt, UpdateFinalityVote, FinishRound, Reopen, IsFinal, PinAllows;
    var u := Opened(cfg, s);
    OpenedTables(cfg, s);
    VoteDecidesFinality(s, own, Reach(s.notarized));
    NoQuorumsAtRest(s);
    OpenedAtRest(cfg, s);
    RejectedOnlyByPin(cfg, u);
    LoopMovesOnIff(cfg, u, FinishRound(cfg, u).value);
    LoopKeepsVotes(cfg, u, FinishRound(cfg, u).value);
    ReachIsBelow(s);
    LoopKeepsDummies(cfg, u, FinishRound(cfg, u).value);
  }

  lemma OpenedAtRest(cfg: Config, s: State)
    requires Inv(s) && Settled(s)
    ensures var u := Opened(cfg, s);
            PinAllows(u) && |At(u.dummyVotes, u.round).Keys| < Threshold(|ParamsAt(s.schedule, s.round).peers|)
  {
    hide Base, ParamsAt, UpdateFinalityVote, Opened;
    OpenedTables(cfg, s);
    DummyQuorumIs(Opened(cfg, s));
  }
}
