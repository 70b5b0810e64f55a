/** Why a vote, a proposal or a certificate is refused: each error has one reason. */
module Refusals {
  import opened Wrappers
  import opened OrderedTables
  import opened NumPeers
  import opened Blocks
  import opened State
  import opened Chains
  import opened Invariants
  import opened Steps
  import opened Progress
  import opened VoteRules
  import opened RoundEnds

  /** The signature is the peer's, on the block. */
  predicate SignedByPeer(peers: seq<PeerPubkey>, peerIdx: nat, block: BlockHeader, sig: Signature) {
    peerIdx < |peers| && sig.Signature? && sig.signer == peers[peerIdx] && sig.message == BlockMessage(block)
  }

  /** A vote is refused as forked exactly when its peer has validly signed two different votes in the round; the
      other refusals name what is wrong with the vote itself. */
  lemma VoteErrorsIff(cfg: Config, s: State, peerIdx: nat, block: BlockHeader, sig: Signature)
    requires Inv(s)
    ensures var step := ProcessVote(cfg, s, peerIdx, Vote(SignedBlock(block, sig)));
            var outcome, params := step.outcome, ParamsAt(s.schedule, s.round);
            var current := block.round == s.round;
            var signed := SignedByPeer(params.peers, peerIdx, block, sig);
            var fits := VerifyWithContent(block, params, []).None?;
            var dummies, votes := At(s.dummyVotes, s.round), At(s.blockVotes, s.round);
            var other := s.round in s.proposals && s.proposals[s.round] != block;
            && (outcome == Failed(InvalidRound) <==> !current)
            && (outcome == Panicked <==> current && |params.peers| <= peerIdx)
            && (outcome == Failed(InvalidSignature) <==> current && peerIdx < |params.peers| && !signed)
            && (outcome.Failed? && outcome.error.InvalidContent? <==> current && signed && IsDummy(block) && !fits)
            && (outcome == Failed(VoteForADifferentProposal) <==> current && signed && !IsDummy(block) && other)
            && (outcome == Failed(ForkedSignature) <==>
                  && current && signed
                  && if IsDummy(block) then fits && peerIdx in dummies && dummies[peerIdx] != sig
                     else !other && peerIdx in votes && votes[peerIdx] != SignedBlock(block, sig))
            && !(outcome.Failed? && (outcome.error.NotALeader? || outcome.error.ProposedDummy?
                                     || outcome.error.DoesNotExtend? || outcome.error.ForkedProposal?))
            && (outcome != Done || peerIdx in (if IsDummy(block) then dummies.Keys else votes.Keys) ==> step.state == s)
  {
    hide Base, FinishRound, IsDummy, VerifyWithContent, ParamsAt, At, WithBlockVote, WithDummyVotes;
    var params := ParamsAt(s.schedule, s.round);
    if SignedByPeer(params.peers, peerIdx, block, sig) && peerIdx in At(s.blockVotes, s.round)
       && At(s.blockVotes, s.round)[peerIdx].sig == sig {
      SameSignatureSameVote(s, peerIdx, SignedBlock(block, sig));
      RepeatedVotes(s, peerIdx);
    }
    if peerIdx in At(s.dummyVotes, s.round) {
      RepeatedDummies(s, peerIdx);
    }
  }

  /** A pin refuses a dummy vote exactly when it is a new one that would end a pinned round. */
  lemma PinRefusesDummyVoteIff(cfg: Config, s: State, peerIdx: nat, block: BlockHeader, sig: Signature)
    requires Inv(s) && Settled(s) && IsDummy(block)
    ensures var params := ParamsAt(s.schedule, s.round);
            ProcessVote(cfg, s, peerIdx, Vote(SignedBlock(block, sig))).outcome == Failed(VotePinnedMismatch) <==>
            && block.round == s.round && SignedByPeer(params.peers, peerIdx, block, sig)
            && VerifyWithContent(block, params, []).None? && peerIdx !in At(s.dummyVotes, s.round)
            && Threshold(|params.peers|) <= |At(s.dummyVotes, s.round).Keys + {peerIdx}| && s.round in s.pins
  {
    hide Base, FinishRound, IsDummy, VerifyWithContent, ParamsAt, At, WithDummyVotes, Settled, PinAllows;
    var vote := SignedBlock(block, sig);
    var u := WithDummyVotes(s, map[peerIdx := sig]);
    WithDummyVotesKeepsInv(s, map[peerIdx := sig]);
    RejectedOnlyByPin(cfg, u);
    DummyPinsIff(s, peerIdx, vote);
  }

  lemma DummyPinsIff(s: State, peerIdx: nat, vote: SignedBlock)
    requires Inv(s) && Settled(s)
    ensures PinAllows(WithDummyVotes(s, map[peerIdx := vote.sig])) <==>
            !(Threshold(|ParamsAt(s.schedule, s.round).peers|) <= |At(s.dummyVotes, s.round).Keys + {peerIdx}|
              && s.round in s.pins)
  {
    hide Base, ParamsAt, WithDummyVotes, Put;
    var u := WithDummyVotes(s, map[peerIdx := vote.sig]);
    DummyVotesKeep(s, map[peerIdx := vote.sig]);
    PutOne(s.dummyVotes, s.round, peerIdx, vote.sig);
    DummyQuorumIs(u);
    NoQuorumsAtRest(s);
  }

  /** A pin refuses a vote for a block exactly when it is a new one that would end the round with a proposal other
      than the pinned block. */
  lemma PinRefusesBlockVoteIff(cfg: Config, s: State, peerIdx: nat, block: BlockHeader, sig: Signature)
    requires Inv(s) && Settled(s) && !IsDummy(block)
    ensures var params := ParamsAt(s.schedule, s.round);
            ProcessVote(cfg, s, peerIdx, Vote(SignedBlock(block, sig))).outcome == Failed(VotePinnedMismatch) <==>
            && block.round == s.round && SignedByPeer(params.peers, peerIdx, block, sig)
            && peerIdx !in At(s.blockVotes, s.round)
            && s.round in s.proposals && s.proposals[s.round] == block
            && Threshold(|params.peers|) <= |At(s.blockVotes, s.round).Keys + {peerIdx}|
            && s.round in s.pins && s.pins[s.round] != Digest(block)
  {
    hide Base, FinishRound, IsDummy, ParamsAt, At, WithBlockVote, Settled, PinAllows;
    var params := ParamsAt(s.schedule, s.round);
    var vote := SignedBlock(block, sig);
    if block.round == s.round && SignedByPeer(params.peers, peerIdx, block, sig)
       && peerIdx !in At(s.blockVotes, s.round) && (s.round in s.proposals ==> s.proposals[s.round] == block) {
      NewVoteIsGood(s, peerIdx, vote);
      RejectedOnlyByPin(cfg, WithBlockVote(s, peerIdx, vote));
      BlockPinsIff(s, peerIdx, vote);
    }
  }

  lemma NewVoteIsGood(s: State, peerIdx: nat, vote: SignedBlock)
    requires Inv(s) && vote.inner.round == s.round && !IsDummy(vote.inner)
    requires SignedByPeer(ParamsAt(s.schedule, s.round).peers, peerIdx, vote.inner, vote.sig)
    requires s.round in s.proposals ==> s.proposals[s.round] == vote.inner
    ensures Inv(WithBlockVote(s, peerIdx, vote))
  {
    hide Base, IsDummy, ParamsAt, WithBlockVote;
    assert VoteOk(RowAt(s, s.round), peerIdx, vote);
    WithBlockVoteKeepsInv(s, peerIdx, vote);
  }

  lemma BlockPinsIff(s: State, peerIdx: nat, vote: SignedBlock)
    requires Inv(s) && Settled(s)
    ensures PinAllows(WithBlockVote(s, peerIdx, vote)) <==>
            !(s.round in s.proposals
              && Threshold(|ParamsAt(s.schedule, s.round).peers|) <= |At(s.blockVotes, s.round).Keys + {peerIdx}|
              && s.round in s.pins && s.pins[s.round] != Digest(s.proposals[s.round]))
  {
    hide Base, ParamsAt, WithBlockVote, Put;
    var u := WithBlockVote(s, peerIdx, vote);
    BlockVoteKeeps(s, peerIdx, vote);
    PutOne(s.blockVotes, s.round, peerIdx, vote);
    assert Voters(At(u.blockVotes, s.round)) == At(u.blockVotes, s.round).Keys;
    NoQuorumsAtRest(s);
  }

  lemma RefusedProposalChangesNothing(cfg: Config, s: State, peerIdx: nat, resp: VoteResponse)
    requires Inv(s) && resp.Proposal?
    ensures var step := ProcessVote(cfg, s, peerIdx, resp);
            step.outcome != Done || s.round in s.proposals ==> step.state == s
  {
    hide Base, ProcessVote, FinishRound, WithVote, ProposalError;
    ProcessVoteShape(cfg, s, peerIdx, resp);
  }

  /** Why a proposal for the current round is refused: it is not the leader's, a dummy, of a content that does not
      fit, not on top of the last block, a second one, not signed by the leader, or signed by it a second time. */
  lemma ProposalErrorsIff(cfg: Config, s: State, peerIdx: nat, block: BlockHeader, sig: Signature, payload: Payload)
    requires Inv(s) && s.round in cfg.roundHash
    ensures var step := ProcessVote(cfg, s, peerIdx, Proposal(SignedBlock(block, sig), payload));
            var outcome, params, last := step.outcome, ParamsAt(s.schedule, s.round), Highest(s.notarized);
            var current := block.round == s.round;
            var leads := cfg.roundHash[s.round] % |params.peers| == peerIdx;
            var fits := VerifyWithContent(block, params, payload).None?;
            var onTop := DirectlyExtends(block, if last.Some? then Some(s.notarized[last.value]) else None);
            var checked := current && leads && !IsDummy(block) && fits && onTop;
            var signed := SignedByPeer(params.peers, peerIdx, block, sig);
            var votes := At(s.blockVotes, s.round);
            && (outcome == Failed(InvalidRound) <==> !current)
            && (outcome == Failed(NotALeader) <==> current && !leads)
            && (outcome == Failed(ProposedDummy) <==> current && leads && IsDummy(block))
            && (outcome.Failed? && outcome.error.InvalidContent? <==> current && leads && !IsDummy(block) && !fits)
            && (outcome == Failed(DoesNotExtend) <==> current && leads && !IsDummy(block) && fits && !onTop)
            && (outcome == Failed(ForkedProposal) <==>
                  checked && s.round in s.proposals && s.proposals[s.round] != block)
            && (outcome == Failed(InvalidSignature) <==> checked && s.round !in s.proposals && !signed)
            && (outcome == Failed(ForkedSignature) <==>
                  && checked && s.round !in s.proposals && signed
                  && peerIdx in votes && votes[peerIdx].inner == block && votes[peerIdx].sig != sig)
            && outcome != Failed(VoteForADifferentProposal) && outcome != Panicked
            && (outcome != Done || s.round in s.proposals ==> step.state == s)
  {
    hide Inv, ParamsAt, IsDummy, VerifyWithContent, DirectlyExtends, ProposalError, CountVote, At, SignedByPeer,
         WithProposal;
    RefusedProposalChangesNothing(cfg, s, peerIdx, Proposal(SignedBlock(block, sig), payload));
    ProposalChecks(cfg, s, peerIdx, block, payload);
    if block.round == s.round && s.round !in s.proposals && ProposalError(cfg, s, peerIdx, block, payload).None? {
      FirstProposalErrors(cfg, s, peerIdx, SignedBlock(block, sig), payload);
    }
  }

  lemma ProposalChecks(cfg: Config, s: State, peerIdx: nat, block: BlockHeader, payload: Payload)
    requires Inv(s) && s.round in cfg.roundHash
    ensures var params, last := ParamsAt(s.schedule, s.round), Highest(s.notarized);
            var leads := cfg.roundHash[s.round] % |params.peers| == peerIdx;
            var fits := VerifyWithContent(block, params, payload).None?;
            var onTop := DirectlyExtends(block, if last.Some? then Some(s.notarized[last.value]) else None);
            var error := ProposalError(cfg, s, peerIdx, block, payload);
            && (error == Some(NotALeader) <==> !leads)
            && (error == Some(ProposedDummy) <==> leads && IsDummy(block))
            && (error.Some? && error.value.InvalidContent? <==> leads && !IsDummy(block) && !fits)
            && (error == Some(DoesNotExtend) <==> leads && !IsDummy(block) && fits && !onTop)
            && (error.None? <==> leads && !IsDummy(block) && fits && onTop)
            && (error.Some? ==> error.value.NotALeader? || error.value.ProposedDummy? || error.value.InvalidContent?
                                || error.value.DoesNotExtend?)
            && (leads ==> peerIdx < |params.peers|)
  {
    hide Base, IsDummy, VerifyWithContent, ParamsAt, DirectlyExtends;
    LatestIsHighest(s);
  }

  lemma FirstProposalErrors(cfg: Config, s: State, peerIdx: nat, vote: SignedBlock, payload: Payload)
    requires Inv(s) && vote.inner.round == s.round && !IsDummy(vote.inner) && s.round !in s.proposals
    requires peerIdx < |ParamsAt(s.schedule, s.round).peers|
    ensures var outcome := CountVote(cfg, s, WithProposal(s, vote.inner, payload), peerIdx, vote).outcome;
            var signed := SignedByPeer(ParamsAt(s.schedule, s.round).peers, peerIdx, vote.inner, vote.sig);
            var votes := At(s.blockVotes, s.round);
            && (outcome == Failed(InvalidSignature) <==> !signed)
            && (outcome == Failed(ForkedSignature) <==>
                  signed && peerIdx in votes && votes[peerIdx].inner == vote.inner && votes[peerIdx].sig != vote.sig)
            && (outcome == Done
                || (outcome.Failed? && (outcome.error.InvalidSignature? || outcome.error.ForkedSignature?
                                        || outcome.error.VotePinnedMismatch?)))
  {
    hide Base, FinishRound, IsDummy, ParamsAt, WithBlockVote;
    if peerIdx in At(s.blockVotes, s.round) {
      VotersAreInRange(s);
    }
  }

  lemma SignatureRefusedIs(cert: Notarized, params: ConsensusParams)
    ensures SignatureRefused(cert, params) <==>
            || |cert.sigs.Keys| < Threshold(|params.peers|)
            || exists i :: i in cert.sigs && i < |params.peers|
                           && !SignedByPeer(params.peers, i, cert.inner, cert.sigs[i])
  {
    assert Voters(cert.sigs) == cert.sigs.Keys;
    forall i | i in cert.sigs && i < |params.peers|
      ensures SigOk(cert, params, i) <==> SignedByPeer(params.peers, i, cert.inner, cert.sigs[i])
    {}
  }

  /** Why a certificate is refused: a signature, its content, a dummy of another round, a block below the last one,
      or a block above it that extends neither it nor the one before. A certificate for the last block itself is
      taken and changes nothing. */
  lemma CertificateErrorsIff(cfg: Config, s: State, cert: Notarized, payload: Payload)
    requires Inv(s)
    ensures var step := ProcessNotarized(cfg, s, cert, payload);
            var outcome := step.outcome;
            var block, params, last := cert.inner, ParamsAt(s.schedule, cert.inner.round), Highest(s.notarized);
            var fits := VerifyWithContent(block, params, payload).None?;
            var checked := SignedByQuorum(cert, params.peers) && fits;
            && (outcome == Failed(InvalidSignatures) <==>
                  || |cert.sigs.Keys| < Threshold(|params.peers|)
                  || exists i :: i in cert.sigs && i < |params.peers|
                                 && !SignedByPeer(params.peers, i, block, cert.sigs[i]))
            && (outcome.Failed? && outcome.error.InvalidNotarizedContent? <==>
                  SignedByQuorum(cert, params.peers) && !fits)
            && (outcome == Failed(WrongRoundDummy) <==> checked && IsDummy(block) && block.round != s.round)
            && (outcome == Failed(WrongRoundBlock) <==>
                  checked && !IsDummy(block) && last.Some? && block.round < last.value)
            && (outcome == Failed(WrongParent) <==>
                  && checked && !IsDummy(block) && last.Some? && last.value < block.round
                  && !DirectlyExtends(block, Some(s.notarized[last.value]))
                  && !DirectlyExtends(block, PrevBlock(s.notarized, last.value)))
            && (checked && !IsDummy(block) && last.Some? && block == s.notarized[last.value] ==> step == Step(Done, s))
            && (outcome != Done ==> step.state == s)
  {
    hide Base, FinishRound, IsDummy, VerifyWithContent, ParamsAt, WithCertificate, WithDummyVotes, DirectlyExtends,
         QuorumSigned, SignatureRefused, SignedByQuorum, SignedByPeer;
    var params := ParamsAt(s.schedule, cert.inner.round);
    QuorumSignedIs(cert, params);
    SignatureRefusedIs(cert, params);
    QuorumIsNotRefused(cert, params);
    LatestIsHighest(s);
  }

  lemma QuorumIsNotRefused(cert: Notarized, params: ConsensusParams)
    ensures QuorumSigned(cert, params) ==> !SignatureRefused(cert, params)
  {}
}
