/** What votes and proposals can and cannot change in the tables, and where the round loop stops. */
module VoteRules {
  import opened Wrappers
  import opened OrderedTables
  import opened Blocks
  import opened Chains
  import opened State
  import opened Invariants
  import opened Steps
  import opened Progress

  /** The loop stops at the first unfinished round, if the pins of the rounds before it match the blocks
      they end with; otherwise the step is rejected. */
  lemma LoopStopsAtFirstUnfinished(cfg: Config, s: State, end: nat)
    requires Base(s) && FirstUnfinished(s, s.round, end)
    ensures FinishRound(cfg, s).Some? <==>
            forall r: nat | s.round <= r < end :: PinHolds(s.pins, AfterRounds(s, end).notarized, r)
    ensures FinishRound(cfg, s).Some? ==>
            FinishRound(cfg, s).value.round == end
              && FinishRound(cfg, s).value.notarized == s.notarized + FreshBlocks(s, end)
  {
    hide Base, UpdateFinalityVote, PinHolds, AfterRounds, Unfinished;
    assert FirstUnfinished(s, s.round, EndRound(s));
    assert EndRound(s) == end;
    AfterRoundsTables(s, end);
    if FinishRound(cfg, s).Some? {
      FinishRoundTables(cfg, s, FinishRound(cfg, s).value);
    }
  }

  /** The pin of the current round, if there is one, allows what ends the round, if anything does. */
  predicate PinAllows(s: State) {
    s.round in s.pins ==>
      if ProposalQuorum(s, s.round) then s.pins[s.round] == Digest(s.proposals[s.round]) else !DummyQuorum(s, s.round)
  }

  /** Between steps nothing waits above the current round, so the loop ends one round at most. */
  lemma LoopEndsOneRound(s: State)
    requires Inv(s)
    ensures EndRound(s) == if Unfinished(s, s.round) then s.round else s.round + 1
  {
    hide RowsOk, ParamsAt;
    assert FirstUnfinished(s, s.round, EndRound(s));
    NoVoters(At(s.dummyVotes, s.round + 1));
    assert Unfinished(s, s.round + 1);
  }

  /** The step is rejected exactly when the pin of the current round does not allow its end. */
  lemma RejectedOnlyByPin(cfg: Config, s: State)
    requires Inv(s)
    ensures FinishRound(cfg, s).Some? <==> PinAllows(s)
  {
    hide RowsOk, ProposalQuorum, DummyQuorum, AfterRounds, EndRound;
    var end := EndRound(s);
    assert FirstUnfinished(s, s.round, end);
    LoopEndsOneRound(s);
    LoopStopsAtFirstUnfinished(cfg, s, end);
    AfterRoundsTables(s, end);
    FreshBlocksAreCurrent(s, end);
    var ended := AfterRounds(s, end).notarized;
    if end != s.round {
      assert (forall r: nat | s.round <= r < end :: PinHolds(s.pins, ended, r)) <==> PinHolds(s.pins, ended, s.round);
      if ProposalQuorum(s, s.round) {
        RoundOfProposal(s);
        assert s.round in FreshBlocks(s, end);
      }
      assert s.round in ended <==> ProposalQuorum(s, s.round);
    }
  }

  lemma CountedVoteIsStored(s: State, peerIdx: nat, resp: VoteResponse)
    requires resp.block.inner.round == s.round && !IsDummy(resp.block.inner)
    ensures var u := WithVote(s, peerIdx, resp);
            peerIdx in At(u.blockVotes, s.round) && At(u.blockVotes, s.round)[peerIdx] == resp.block
  {
    hide KeepVotesFor, IsDummy;
    assert map[peerIdx := resp.block] != map[] by {
      assert peerIdx in map[peerIdx := resp.block];
    }
  }

  lemma StoredVoteVerifies(u: State, r: nat, i: nat)
    requires Base(u) && i in At(u.blockVotes, r)
    ensures i < |ParamsAt(u.schedule, r).peers|
    ensures Verifies(At(u.blockVotes, r)[i].sig, ParamsAt(u.schedule, r).peers[i],
            BlockMessage(At(u.blockVotes, r)[i].inner))
  {
    var row := RowAt(u, r);
    assert RowOk(row);
    assert VoteOk(row, i, row.votes[i]);
  }

  /** A proposal is stored only once a round, and only from the leader of the round, signed by it, with
      its content checked and on top of the last notarized block. */
  lemma NewProposalIsLeaders(cfg: Config, s: State, peerIdx: nat, resp: VoteResponse)
    requires Inv(s) && ProcessVote(cfg, s, peerIdx, resp).state.proposals != s.proposals
    ensures var t := ProcessVote(cfg, s, peerIdx, resp).state;
            var block := resp.block.inner;
            var params := ParamsAt(s.schedule, s.round);
            && resp.Proposal? && block.round == s.round && s.round !in s.proposals
            && t.proposals == s.proposals[s.round := block]
            && peerIdx == LeaderIdx(cfg, s.round, |params.peers|)
            && peerIdx < |params.peers| && Verifies(resp.block.sig, params.peers[peerIdx], BlockMessage(block))
            && !IsDummy(block) && VerifyWithContent(block, params, resp.payload).None?
            && DirectlyExtends(block, PrevBlock(s.notarized, s.round))
  {
    hide Base, ProcessVote, FinishRound, KeepVotesFor, Put, IsDummy, VerifyWithContent, DirectlyExtends, ParamsAt,
         WithBlockVote;
    var t := ProcessVote(cfg, s, peerIdx, resp).state;
    var u := WithVote(s, peerIdx, resp);
    ProcessVoteShape(cfg, s, peerIdx, resp);
    if CommitsBeforeLoop(cfg, s, peerIdx, resp) && t == WithOwnProposal(s, resp) {
      StoredVoteVerifies(s, s.round, peerIdx);
    } else {
      FinishRoundTables(cfg, u, t);
      ProposalsOfVote(s, peerIdx, resp);
      CountedVoteIsStored(s, peerIdx, resp);
      StoredVoteVerifies(u, s.round, peerIdx);
    }
  }

  lemma ProposalsOfVote(s: State, peerIdx: nat, resp: VoteResponse)
    requires resp.block.inner.round == s.round
    ensures WithVote(s, peerIdx, resp).proposals == if resp.Proposal? then s.proposals[s.round := resp.block.inner]
            else s.proposals
  {
    hide KeepVotesFor, IsDummy, Put;
  }

  lemma CountedOnlyOnce(cfg: Config, before: State, s: State, peerIdx: nat, vote: SignedBlock)
    requires Inv(s) && vote.inner.round == s.round && !IsDummy(vote.inner)
    requires CountVote(cfg, before, s, peerIdx, vote).outcome == Done
             && CountVote(cfg, before, s, peerIdx, vote).state != s
    ensures peerIdx !in At(s.blockVotes, s.round)
  {
    hide FinishRound, Base, At, WithBlockVote, IsDummy;
    if peerIdx in At(s.blockVotes, s.round) && At(s.blockVotes, s.round)[peerIdx].sig == vote.sig {
      SameSignatureSameVote(s, peerIdx, vote);
      RepeatedVotes(s, peerIdx);
    }
  }

  lemma VotesOfVote(s: State, peerIdx: nat, resp: VoteResponse)
    requires resp.Vote? && peerIdx !in At(s.blockVotes, s.round)
    ensures forall r, i | i in At(s.blockVotes, r) ::
              i in At(WithVote(s, peerIdx, resp).blockVotes, r)
                && At(WithVote(s, peerIdx, resp).blockVotes, r)[i] == At(s.blockVotes, r)[i]
  {
    hide IsDummy;
  }

  /** The first vote of a peer in a round stays: no later vote replaces or removes it. */
  lemma FirstVoteStays(cfg: Config, s: State, peerIdx: nat, resp: VoteResponse, r: nat, i: nat)
    requires Inv(s) && resp.Vote? && i in At(s.blockVotes, r)
    ensures var t := ProcessVote(cfg, s, peerIdx, resp).state;
            i in At(t.blockVotes, r) && At(t.blockVotes, r)[i] == At(s.blockVotes, r)[i]
  {
    hide Base, CountVote, FinishRound, At, IsDummy, WithVote;
    var t := ProcessVote(cfg, s, peerIdx, resp).state;
    var u := WithVote(s, peerIdx, resp);
    ProcessVoteShape(cfg, s, peerIdx, resp);
    if t != s {
      FinishRoundTables(cfg, u, t);
      if IsDummy(resp.block.inner) {
        DummyKeepsVotes(s, peerIdx, resp);
      } else {
        CountedOnlyOnce(cfg, s, s, peerIdx, resp.block);
        VotesOfVote(s, peerIdx, resp);
      }
    }
  }

  lemma DummyKeepsVotes(s: State, peerIdx: nat, resp: VoteResponse)
    requires resp.Vote? && IsDummy(resp.block.inner)
    ensures WithVote(s, peerIdx, resp).blockVotes == s.blockVotes
  {
    hide IsDummy, Put;
  }

  /** The tables that a first proposal is counted in. */
  function WithFirstProposal(s: State, peerIdx: nat, vote: SignedBlock, payload: Payload): State {
    WithBlockVote(WithProposal(s, vote.inner, payload), peerIdx, vote)
  }

  /** A correct leader that has neither a proposal nor an own vote gets its block accepted exactly when
      the pin of the round allows it. */
  lemma LeaderIsAccepted(cfg: Config, s: State, peerIdx: nat, key: PeerPubkey, timestamp: nat, payload: Payload,
                         nonce: nat)
    requires Inv(s) && s.round !in s.proposals && peerIdx !in At(s.blockVotes, s.round)
    requires var params := ParamsAt(s.schedule, s.round);
             peerIdx == LeaderIdx(cfg, s.round, |params.peers|) && params.peers[peerIdx] == key
    ensures var params := ParamsAt(s.schedule, s.round);
            var block := NewHeader(PrevBlock(s.notarized, s.round), timestamp, s.round, params, payload);
            var vote := SignedBlock(block, Signature(key, BlockMessage(block), nonce));
            ProcessVote(cfg, s, peerIdx, Proposal(vote, payload)).outcome
            == if PinAllows(WithFirstProposal(s, peerIdx, vote, payload)) then Done else Failed(VotePinnedMismatch)
  {
    hide Base, FinishRound, NewHeader, IsDummy, VerifyWithContent, DirectlyExtends, KeepVotesFor, WithBlockVote,
         PinAllows;
    var params := ParamsAt(s.schedule, s.round);
    var block := NewHeader(PrevBlock(s.notarized, s.round), timestamp, s.round, params, payload);
    var vote := SignedBlock(block, Signature(key, BlockMessage(block), nonce));
    LatestIsHighest(s);
    NewHeaderIsAcceptable(PrevBlock(s.notarized, s.round), timestamp, s.round, params, payload);
    HeaderRound(PrevBlock(s.notarized, s.round), timestamp, s.round, params, payload);
    if peerIdx in At(KeepVotesFor(s.blockVotes, block), s.round) {
      KeptVotesWereThere(s.blockVotes, block, peerIdx);
    }
    FirstProposalKeepsInv(s, peerIdx, vote, payload);
    RejectedOnlyByPin(cfg, WithFirstProposal(s, peerIdx, vote, payload));
  }

  lemma FirstProposalKeepsInv(s: State, peerIdx: nat, vote: SignedBlock, payload: Payload)
    requires Inv(s) && s.round !in s.proposals && vote.inner.round == s.round && !IsDummy(vote.inner)
    requires VerifyWithContent(vote.inner, ParamsAt(s.schedule, s.round), payload).None?
    requires peerIdx < |ParamsAt(s.schedule, s.round).peers|
    requires Verifies(vote.sig, ParamsAt(s.schedule, s.round).peers[peerIdx], BlockMessage(vote.inner))
    ensures Inv(WithFirstProposal(s, peerIdx, vote, payload))
  {
    hide Base, IsDummy, VerifyWithContent, KeepVotesFor, WithBlockVote, ParamsAt;
    var p := WithProposal(s, vote.inner, payload);
    WithProposalKeepsInv(s, vote.inner, payload);
    assert VoteOk(RowAt(p, s.round), peerIdx, vote);
    WithBlockVoteKeepsInv(p, peerIdx, vote);
  }

  lemma HeaderRound(prev: Option<BlockHeader>, timestamp: nat, round: nat, params: ConsensusParams, payload: Payload)
    ensures NewHeader(prev, timestamp, round, params, payload).round == round
  {}

  // When votes and proposals are accepted

  /** A plain vote is accepted exactly when it is for the current round, of a peer of that round, signed
      by it, neither against the stored proposal nor against the vote that the peer has cast already, and,
      where it is new, the pin of the round allows what it brings about. */
  lemma VoteAcceptedIff(cfg: Config, s: State, peerIdx: nat, block: BlockHeader, sig: Signature)
    requires Inv(s)
    ensures var params := ParamsAt(s.schedule, s.round);
            var vote := SignedBlock(block, sig);
            ProcessVote(cfg, s, peerIdx, Vote(vote)).outcome == Done <==>
            && block.round == s.round
            && peerIdx < |params.peers| && Verifies(sig, params.peers[peerIdx], BlockMessage(block))
            && if IsDummy(block) then
                 && VerifyWithContent(block, params, []).None?
                 && if peerIdx in At(s.dummyVotes, s.round) then At(s.dummyVotes, s.round)[peerIdx] == sig
                    else PinAllows(WithDummyVotes(s, map[peerIdx := sig]))
               else
                 && (s.round in s.proposals ==> s.proposals[s.round] == block)
                 && if peerIdx in At(s.blockVotes, s.round) then At(s.blockVotes, s.round)[peerIdx] == vote
                    else PinAllows(WithBlockVote(s, peerIdx, vote))
  {
    hide Base, FinishRound, IsDummy, VerifyWithContent, ParamsAt, At, WithBlockVote, WithDummyVotes, PinAllows;
    var vote := SignedBlock(block, sig);
    var params := ParamsAt(s.schedule, s.round);
    WithDummyVotesKeepsInv(s, map[peerIdx := sig]);
    RejectedOnlyByPin(cfg, WithDummyVotes(s, map[peerIdx := sig]));
    if peerIdx < |params.peers| && Verifies(sig, params.peers[peerIdx], BlockMessage(block)) {
      if peerIdx in At(s.blockVotes, s.round) {
        if At(s.blockVotes, s.round)[peerIdx].sig == sig {
          SameSignatureSameVote(s, peerIdx, vote);
        }
      } else if VoteOk(RowAt(s, s.round), peerIdx, vote) {
        WithBlockVoteKeepsInv(s, peerIdx, vote);
        RejectedOnlyByPin(cfg, WithBlockVote(s, peerIdx, vote));
      }
    }
  }

  /** A proposal is accepted exactly when it is the leader's, well-formed and on top of the last notarized
      block, and either it is stored already, or it is the first one and signed by the leader, who has not
      signed this block differently before, and the pin of the round allows it. */
  lemma ProposalAcceptedIff(cfg: Config, s: State, peerIdx: nat, block: BlockHeader, sig: Signature, payload: Payload)
    requires Inv(s)
    ensures var params := ParamsAt(s.schedule, s.round);
            var votes := At(s.blockVotes, s.round);
            var vote := SignedBlock(block, sig);
            ProcessVote(cfg, s, peerIdx, Proposal(vote, payload)).outcome == Done <==>
            && block.round == s.round && peerIdx == LeaderIdx(cfg, s.round, |params.peers|)
            && !IsDummy(block) && VerifyWithContent(block, params, payload).None?
            && DirectlyExtends(block, PrevBlock(s.notarized, s.round))
            && if s.round in s.proposals then s.proposals[s.round] == block
               else
                 && Verifies(sig, params.peers[peerIdx], BlockMessage(block))
                 && if peerIdx in votes && votes[peerIdx].inner == block then votes[peerIdx].sig == sig
                    else PinAllows(WithFirstProposal(s, peerIdx, vote, payload))
  {
    hide Base, FinishRound, IsDummy, VerifyWithContent, ParamsAt, WithBlockVote, WithDummyVotes, DirectlyExtends,
         PinAllows, LeaderIdx;
    var vote := SignedBlock(block, sig);
    LeaderIsAPeer(cfg, s);
    if ProposalError(cfg, s, peerIdx, block, payload).None? && block.round == s.round && s.round !in s.proposals
       && Verifies(sig, ParamsAt(s.schedule, s.round).peers[peerIdx], BlockMessage(block)) {
      FirstProposalKeepsInv(s, peerIdx, vote, payload);
      RejectedOnlyByPin(cfg, WithFirstProposal(s, peerIdx, vote, payload));
    }
    if peerIdx in At(s.blockVotes, s.round) {
      VotersAreInRange(s);
    }
  }

  lemma LeaderIsAPeer(cfg: Config, s: State)
    ensures LeaderIdx(cfg, s.round, |ParamsAt(s.schedule, s.round).peers|) < |ParamsAt(s.schedule, s.round).peers|
  {}

  /** The first dummy vote of a peer in a round stays, too: a vote that is processed leaves it or, with
      finality, prunes it. */
  lemma FirstDummyStays(cfg: Config, s: State, peerIdx: nat, resp: VoteResponse, r: nat, i: nat)
    requires Inv(s) && i in At(s.dummyVotes, r)
    ensures var t := ProcessVote(cfg, s, peerIdx, resp).state;
            r in t.dummyVotes ==> i in t.dummyVotes[r] && t.dummyVotes[r][i] == s.dummyVotes[r][i]
  {
    hide Base, ProcessVote, FinishRound, IsDummy, WithVote, CommitsBeforeLoop, ProposalError, Enters;
    var t := ProcessVote(cfg, s, peerIdx, resp).state;
    var u := WithVote(s, peerIdx, resp);
    ProcessVoteShape(cfg, s, peerIdx, resp);
    OwnProposalKeepsDummies(s, resp);
    if t != s && t != WithOwnProposal(s, resp) {
      assert Base(u) by { EntersMeansBase(s, u); }
      FinishRoundTables(cfg, u, t);
      DummyCountedOnce(cfg, s, peerIdx, resp);
      DummiesOfVote(s, peerIdx, resp, r, i);
    }
  }

  lemma EntersMeansBase(s: State, u: State)
    requires Enters(s, u)
    ensures Base(u)
  {}

  lemma OwnProposalKeepsDummies(s: State, resp: VoteResponse)
    ensures WithOwnProposal(s, resp).dummyVotes == s.dummyVotes && WithOwnProposal(s, resp).round == s.round
  {
    hide KeepVotesFor;
  }

  lemma DummiesOfVote(s: State, peerIdx: nat, resp: VoteResponse, r: nat, i: nat)
    requires i in At(s.dummyVotes, r)
    requires IsDummy(resp.block.inner) && peerIdx in At(s.dummyVotes, s.round) ==>
             At(s.dummyVotes, s.round)[peerIdx] == resp.block.sig
    ensures var u := WithVote(s, peerIdx, resp);
            i in At(u.dummyVotes, r) && At(u.dummyVotes, r)[i] == At(s.dummyVotes, r)[i]
  {
    hide IsDummy, WithOwnProposal;
    OwnProposalKeepsDummies(s, resp);
  }

  lemma DummyCountedOnce(cfg: Config, s: State, peerIdx: nat, resp: VoteResponse)
    ensures var t := ProcessVote(cfg, s, peerIdx, resp).state;
            t != s && IsDummy(resp.block.inner) && peerIdx in At(s.dummyVotes, s.round) ==>
              At(s.dummyVotes, s.round)[peerIdx] == resp.block.sig
  {
    hide FinishRound, IsDummy, KeepVotesFor, VerifyWithContent, WithDummyVotes, WithBlockVote;
  }
}
