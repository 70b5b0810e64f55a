/** A round ends when the votes that end it arrive, in whatever order and however often. */
module Liveness {
  import opened Wrappers
  import opened OrderedTables
  import opened NumPeers
  import opened Blocks
  import opened Chains
  import opened State
  import opened Invariants
  import opened Progress
  import opened VoteRules
  import opened RoundEnds
  import opened Refusals

  /** A vote as it arrives, with the index of the peer. */
  type Arrival = (nat, SignedBlock)

  /** The tables after votes have arrived, one after the other. */
  ghost function Delivered(cfg: Config, s: State, votes: seq<Arrival>): State {
    if votes == [] then s
    else
      var (peerIdx, vote) := votes[|votes| - 1];
      ProcessVote(cfg, Delivered(cfg, s, votes[..|votes| - 1]), peerIdx, Vote(vote)).state
  }

  function Indices(votes: seq<Arrival>): set<nat> {
    set k | 0 <= k < |votes| :: votes[k].0
  }

  lemma OneMoreIndex(votes: seq<Arrival>)
    requires votes != []
    ensures Indices(votes) == Indices(votes[..|votes| - 1]) + {votes[|votes| - 1].0}
  {
    var rest := votes[..|votes| - 1];
    forall i | i in Indices(votes)
      ensures i in Indices(rest) + {votes[|votes| - 1].0}
    {
      var k :| 0 <= k < |votes| && votes[k].0 == i;
      assert k < |rest| ==> rest[k].0 == i;
    }
    forall i | i in Indices(rest)
      ensures i in Indices(votes)
    {
      var k :| 0 <= k < |rest| && rest[k].0 == i;
      assert votes[k].0 == i;
    }
  }

  /** The proposal of the round is held, and its pin, if there is one, is for it. */
  ghost predicate Awaits(s: State, block: BlockHeader) {
    && Inv(s) && Settled(s)
    && s.round in s.proposals && s.proposals[s.round] == block
    && (s.round in s.pins ==> s.pins[s.round] == Digest(block))
  }

  /** How far the votes of some peers have taken the node. */
  ghost predicate Counted(s: State, t: State, block: BlockHeader, voters: set<nat>) {
    var all := At(s.blockVotes, s.round).Keys + voters;
    if Threshold(|ParamsAt(s.schedule, s.round).peers|) <= |all|
    then t.round == s.round + 1 && t.notarized == s.notarized[s.round := block]
    else
      && t.round == s.round && t.notarized == s.notarized && t.schedule == s.schedule
      && At(t.blockVotes, s.round).Keys == all && Awaits(t, block)
  }

  lemma NobodyCounted(s: State, block: BlockHeader)
    requires Awaits(s, block)
    ensures Counted(s, s, block, {})
  {
    hide ParamsAt, Inv, Settled;
    NoQuorumsAtRest(s);
    AwaitsAbove(s, block);
    assert At(s.blockVotes, s.round).Keys + {} == At(s.blockVotes, s.round).Keys;
  }

  lemma AwaitsAbove(s: State, block: BlockHeader)
    requires Awaits(s, block)
    ensures Inv(s) && Settled(s) && s.round in s.proposals && Above(s.notarized, s.round)
    ensures block.round == s.round && !IsDummy(block)
  {
    hide IsDummy;
    assert RowOk(RowAt(s, s.round));
    assert RowAt(s, s.round).proposal == Some(block);
  }

  /** Counting on. */
  lemma CountedOn(s: State, u: State, t: State, block: BlockHeader, voters: set<nat>, i: nat)
    requires Counted(s, u, block, voters) && Counted(u, t, block, {i})
    requires |At(s.blockVotes, s.round).Keys + voters| < Threshold(|ParamsAt(s.schedule, s.round).peers|)
    ensures Counted(s, t, block, voters + {i})
  {
    hide Awaits, ParamsAt, At;
    assert At(s.blockVotes, s.round).Keys + (voters + {i}) == At(s.blockVotes, s.round).Keys + voters + {i};
  }

  /** A vote that comes late, or from a peer that is counted already, makes no difference. */
  lemma CountedStill(s: State, u: State, block: BlockHeader, voters: set<nat>, i: nat)
    requires Counted(s, u, block, voters)
    requires || Threshold(|ParamsAt(s.schedule, s.round).peers|) <= |At(s.blockVotes, s.round).Keys + voters|
             || i in At(s.blockVotes, s.round).Keys + voters
    ensures Counted(s, u, block, voters + {i})
  {
    hide Awaits, ParamsAt, At;
    var all := At(s.blockVotes, s.round).Keys + voters;
    assert At(s.blockVotes, s.round).Keys + (voters + {i}) == all + {i};
    assert i in all ==> all + {i} == all;
    SubsetSize(all, all + {i});
  }

  /** One valid vote that arrives is counted, whether it is new or not and whether or not the round is over. */
  lemma OneVoteCounted(cfg: Config, s: State, u: State, block: BlockHeader, voters: set<nat>, i: nat, sig: Signature)
    requires Awaits(s, block) && Counted(s, u, block, voters)
    requires SignedByPeer(ParamsAt(s.schedule, s.round).peers, i, block, sig)
    ensures Counted(s, ProcessVote(cfg, u, i, Vote(SignedBlock(block, sig))).state, block, voters + {i})
  {
    hide Inv, Settled, ParamsAt, ProcessVote, SignedByPeer, At, IsDummy, Awaits;
    AwaitsAbove(s, block);
    var all := At(s.blockVotes, s.round).Keys + voters;
    var t := ProcessVote(cfg, u, i, Vote(SignedBlock(block, sig))).state;
    if Threshold(|ParamsAt(s.schedule, s.round).peers|) <= |all| {
      LateVoteChangesNothing(cfg, u, i, SignedBlock(block, sig));
      CountedStill(s, u, block, voters, i);
    } else if i in all {
      VoteOfKnownPeer(cfg, u, i, block, sig);
      CountedStill(s, u, block, voters, i);
    } else {
      NewVoteIsTaken(cfg, u, i, block, sig);
      CountedOn(s, u, t, block, voters, i);
    }
  }

  lemma LateVoteChangesNothing(cfg: Config, u: State, i: nat, vote: SignedBlock)
    requires vote.inner.round != u.round
    ensures ProcessVote(cfg, u, i, Vote(vote)).state == u
  {}

  lemma VoteOfKnownPeer(cfg: Config, u: State, i: nat, block: BlockHeader, sig: Signature)
    requires Awaits(u, block) && i in At(u.blockVotes, u.round)
    ensures ProcessVote(cfg, u, i, Vote(SignedBlock(block, sig))).state == u
  {
    hide Inv, Settled, ProcessVote, ParamsAt, At, IsDummy, VerifyWithContent;
    AwaitsAbove(u, block);
    VoteErrorsIff(cfg, u, i, block, sig);
  }

  lemma NewVoteIsTaken(cfg: Config, u: State, i: nat, block: BlockHeader, sig: Signature)
    requires Awaits(u, block) && i !in At(u.blockVotes, u.round)
    requires SignedByPeer(ParamsAt(u.schedule, u.round).peers, i, block, sig)
    ensures Counted(u, ProcessVote(cfg, u, i, Vote(SignedBlock(block, sig))).state, block, {i})
  {
    hide Inv, Settled, ProcessVote, ParamsAt, IsDummy;
    AwaitsAbove(u, block);
    var t := ProcessVote(cfg, u, i, Vote(SignedBlock(block, sig))).state;
    NewVoteIsDone(cfg, u, i, block, sig);
    BlockVoteEndsRoundIff(cfg, u, i, block, sig);
    VoteKeepsRest(cfg, u, i, Vote(SignedBlock(block, sig)));
  }

  lemma VoteKeepsRest(cfg: Config, u: State, i: nat, resp: VoteResponse)
    requires Inv(u) && Settled(u) && resp.Vote?
    ensures Inv(ProcessVote(cfg, u, i, resp).state) && Settled(ProcessVote(cfg, u, i, resp).state)
  {
    hide Inv, Settled, ProcessVote;
    ProcessVoteKeepsInv(cfg, u, i, resp);
    ProcessVoteSettlesIff(cfg, u, i, resp);
  }

  lemma NewVoteIsDone(cfg: Config, u: State, i: nat, block: BlockHeader, sig: Signature)
    requires Awaits(u, block) && i !in At(u.blockVotes, u.round)
    requires SignedByPeer(ParamsAt(u.schedule, u.round).peers, i, block, sig)
    ensures ProcessVote(cfg, u, i, Vote(SignedBlock(block, sig))).outcome == Done
  {
    hide Base, Settled, ProcessVote, ParamsAt, IsDummy, WithBlockVote, PinAllows, VerifyWithContent, At;
    AwaitsAbove(u, block);
    VoteAcceptedIff(cfg, u, i, block, sig);
    BlockPinsIff(u, i, SignedBlock(block, sig));
  }

  /** Valid votes for the held proposal that arrive in any order, repeated or not, end the round with the proposal
      notarized if and only if their peers, with those counted before, are a quorum. */
  lemma {:induction false} VotesNotarizeIff(cfg: Config, s: State, block: BlockHeader, votes: seq<Arrival>)
    requires Awaits(s, block)
    requires forall k | 0 <= k < |votes| ::
               && votes[k].1.inner == block
               && SignedByPeer(ParamsAt(s.schedule, s.round).peers, votes[k].0, block, votes[k].1.sig)
    ensures var t := Delivered(cfg, s, votes);
            if Threshold(|ParamsAt(s.schedule, s.round).peers|) <= |At(s.blockVotes, s.round).Keys + Indices(votes)|
            then t.round == s.round + 1 && t.notarized == s.notarized[s.round := block]
            else t.round == s.round && t.notarized == s.notarized
  {
    hide Awaits, ParamsAt, ProcessVote, SignedByPeer;
    VotesAreCounted(cfg, s, block, votes);
  }

  lemma {:induction false} VotesAreCounted(cfg: Config, s: State, block: BlockHeader, votes: seq<Arrival>)
    requires Awaits(s, block)
    requires forall k | 0 <= k < |votes| ::
               && votes[k].1.inner == block
               && SignedByPeer(ParamsAt(s.schedule, s.round).peers, votes[k].0, block, votes[k].1.sig)
    ensures Counted(s, Delivered(cfg, s, votes), block, Indices(votes))
  {
    hide Awaits, ParamsAt, ProcessVote, SignedByPeer, Counted, Indices;
    if votes == [] {
      NoIndices();
      NobodyCounted(s, block);
    } else {
      var rest := votes[..|votes| - 1];
      VotesAreCounted(cfg, s, block, rest);
      OneMoreIndex(votes);
      var (i, vote) := votes[|votes| - 1];
      OneVoteCounted(cfg, s, Delivered(cfg, s, rest), block, Indices(rest), i, vote.sig);
    }
  }

  lemma NoIndices()
    ensures Indices([]) == {}
  {}

  // Dummy votes

  /** The vote is a valid one for a dummy block of the round. */
  predicate IsDummyVote(s: State, i: nat, vote: SignedBlock) {
    && IsDummy(vote.inner) && vote.inner.round == s.round
    && SignedByPeer(ParamsAt(s.schedule, s.round).peers, i, vote.inner, vote.sig)
    && VerifyWithContent(vote.inner, ParamsAt(s.schedule, s.round), []).None?
  }

  /** How far the dummy votes of some peers have taken the node. */
  ghost predicate TimedOut(s: State, t: State, voters: set<nat>) {
    var all := At(s.dummyVotes, s.round).Keys + voters;
    && t.notarized == s.notarized
    && if Threshold(|ParamsAt(s.schedule, s.round).peers|) <= |all| then t.round == s.round + 1
       else && Inv(t) && Settled(t) && t.round == s.round && t.schedule == s.schedule && t.pins == s.pins
            && At(t.dummyVotes, s.round).Keys == all
  }

  lemma NobodyTimedOut(s: State)
    requires Inv(s) && Settled(s)
    ensures TimedOut(s, s, {})
  {
    hide ParamsAt, Inv, Settled;
    NoQuorumsAtRest(s);
    assert At(s.dummyVotes, s.round).Keys + {} == At(s.dummyVotes, s.round).Keys;
  }

  lemma OneDummyCounted(cfg: Config, s: State, u: State, voters: set<nat>, i: nat, vote: SignedBlock)
    requires Inv(s) && Settled(s) && s.round !in s.pins && TimedOut(s, u, voters) && IsDummyVote(s, i, vote)
    ensures TimedOut(s, ProcessVote(cfg, u, i, Vote(vote)).state, voters + {i})
  {
    hide Inv, Settled, ParamsAt, ProcessVote, SignedByPeer, At, IsDummy, VerifyWithContent;
    var all := At(s.dummyVotes, s.round).Keys + voters;
    assert At(s.dummyVotes, s.round).Keys + (voters + {i}) == all + {i};
    SubsetSize(all, all + {i});
    if Threshold(|ParamsAt(s.schedule, s.round).peers|) <= |all| {
      LateVoteChangesNothing(cfg, u, i, vote);
    } else if i in all {
      VoteErrorsIff(cfg, u, i, vote.inner, vote.sig);
      assert all + {i} == all;
    } else {
      NewDummyIsDone(cfg, u, i, vote);
      DummyVoteEndsRoundIff(cfg, u, i, vote.inner, vote.sig);
      VoteKeepsRest(cfg, u, i, Vote(vote));
      NewDummyKeys(u, i, vote.sig);
    }
  }

  lemma NewDummyKeys(u: State, i: nat, sig: Signature)
    ensures At(u.dummyVotes[u.round := At(u.dummyVotes, u.round)[i := sig]], u.round).Keys
            == At(u.dummyVotes, u.round).Keys + {i}
  {}

  lemma NewDummyIsDone(cfg: Config, u: State, i: nat, vote: SignedBlock)
    requires Inv(u) && Settled(u) && u.round !in u.pins && IsDummyVote(u, i, vote) && i !in At(u.dummyVotes, u.round)
    ensures ProcessVote(cfg, u, i, Vote(vote)).outcome == Done
  {
    hide Base, Settled, ProcessVote, ParamsAt, IsDummy, WithDummyVotes, PinAllows, VerifyWithContent, At;
    VoteAcceptedIff(cfg, u, i, vote.inner, vote.sig);
    DummyPinsIff(u, i, vote);
  }

  /** Valid dummy votes that arrive in any order, repeated or not, for one dummy block or for several, end a round
      without a pin if and only if their peers, with those counted before, are a quorum; no block is notarized. */
  lemma {:induction false} DummiesEndRoundIff(cfg: Config, s: State, votes: seq<Arrival>)
    requires Inv(s) && Settled(s) && s.round !in s.pins
    requires forall k | 0 <= k < |votes| :: IsDummyVote(s, votes[k].0, votes[k].1)
    ensures var t := Delivered(cfg, s, votes);
            && t.notarized == s.notarized
            && t.round == if Threshold(|ParamsAt(s.schedule, s.round).peers|)
                             <= |At(s.dummyVotes, s.round).Keys + Indices(votes)| then s.round + 1 else s.round
  {
    hide Inv, Settled, ParamsAt, ProcessVote, IsDummyVote;
    DummiesAreCounted(cfg, s, votes);
  }

  lemma {:induction false} DummiesAreCounted(cfg: Config, s: State, votes: seq<Arrival>)
    requires Inv(s) && Settled(s) && s.round !in s.pins
    requires forall k | 0 <= k < |votes| :: IsDummyVote(s, votes[k].0, votes[k].1)
    ensures TimedOut(s, Delivered(cfg, s, votes), Indices(votes))
  {
    hide Inv, Settled, ParamsAt, ProcessVote, IsDummyVote, TimedOut, Indices;
    if votes == [] {
      NoIndices();
      NobodyTimedOut(s);
    } else {
      var rest := votes[..|votes| - 1];
      DummiesAreCounted(cfg, s, rest);
      OneMoreIndex(votes);
      var (i, vote) := votes[|votes| - 1];
      OneDummyCounted(cfg, s, Delivered(cfg, s, rest), Indices(rest), i, vote);
    }
  }
}
