/** A run that commits a state which the round loop would not leave alone: the leader's block
    arrives as a plain vote before it arrives as a proposal. */
module Stall {
  import opened Wrappers
  import opened OrderedTables
  import opened Blocks
  import opened State
  import opened Invariants
  import opened Steps
  import opened Progress
  import opened Runs

  const CFG := Config(None, imap[])
  const BLOCK := NewHeader(None, 0, 0, SOLO_PARAMS, [])
  const VOTE := SignedBlock(BLOCK, Signature(0, BlockMessage(BLOCK), 0))
  const START := FreshState(SOLO_PARAMS, map[])
  const COUNTED := START.(blockVotes := map[0 := map[0 := VOTE]])
  const STALLED := COUNTED.(proposals := map[0 := BLOCK], payloads := map[Digest([]) := []])

  lemma SoloParams(round: nat)
    ensures ParamsAt(START.schedule, round) == SOLO_PARAMS && LeaderIdx(CFG, round, 1) == 0
  {}

  lemma VoteIsCounted()
    ensures ProcessVote(CFG, START, 0, Vote(VOTE)) == Step(Done, COUNTED)
    ensures Good(CFG, START) && Good(CFG, COUNTED)
  {
    hide FinishRound, Good;
    SoloParams(0);
    FreshIsGood(CFG, SOLO_PARAMS, map[]);
    assert map[0 := VOTE] != map[] by { assert 0 in map[0 := VOTE]; }
    assert map[] + map[0 := VOTE] == map[0 := VOTE];
    assert WithBlockVote(START, 0, VOTE) == COUNTED;
    CountedIsSettled();
    SettledLoopStops(CFG, COUNTED);
    StepKeepsGood(CFG, START, VoteArrives(0, Vote(VOTE)));
  }

  lemma CountedIsSettled()
    ensures Inv(COUNTED) && Settled(COUNTED)
  {
    SoloParams(0);
    FreshIsGood(CFG, SOLO_PARAMS, map[]);
    assert map[0 := VOTE] != map[] by { assert 0 in map[0 := VOTE]; }
    assert map[] + map[0 := VOTE] == map[0 := VOTE];
    assert WithBlockVote(START, 0, VOTE) == COUNTED;
    assert RowAt(START, 0).params == SOLO_PARAMS;
    assert VoteOk(RowAt(START, 0), 0, VOTE);
    WithBlockVoteKeepsInv(START, 0, VOTE);
    NoVoters(At(COUNTED.dummyVotes, 0));
  }

  lemma ProposalStalls()
    ensures ProcessVote(CFG, COUNTED, 0, Proposal(VOTE, [])) == Step(Done, STALLED)
    ensures !Settled(STALLED) && ProposalQuorum(STALLED, 0)
  {
    hide FinishRound, Good;
    SoloParams(0);
    CountedIsSettled();
    assert ProposalError(CFG, COUNTED, 0, BLOCK, []).None?;
    assert CommitsBeforeLoop(CFG, COUNTED, 0, Proposal(VOTE, []));
    CommitBeforeLoopOutcome(CFG, COUNTED, 0, Proposal(VOTE, []));
    var kept := KeepVotesFor(COUNTED.blockVotes, BLOCK);
    assert kept[0] == COUNTED.blockVotes[0];
    assert kept == COUNTED.blockVotes;
    assert Voters(map[0 := VOTE]) == {0};
    assert ProposalQuorum(STALLED, 0);
  }

  lemma StallingSteps()
    ensures IsStep(CFG, START, VoteArrives(0, Vote(VOTE)), COUNTED)
    ensures IsStep(CFG, COUNTED, VoteArrives(0, Proposal(VOTE, [])), STALLED)
    ensures Stalls(CFG, COUNTED, VoteArrives(0, Proposal(VOTE, [])))
  {
    hide ProcessVote, Good, Settled, StallsRound;
    VoteIsCounted();
    CountedIsSettled();
    ProposalStalls();
    StepSettlesIff(CFG, COUNTED, VoteArrives(0, Proposal(VOTE, [])));
  }

  lemma TwoSteps(cfg: Config, params: ConsensusParams, a: State, b: State, c: State, first: Event, second: Event)
    requires GoodPeers(params.peers) && a == FreshState(params, map[])
    requires IsStep(cfg, a, first, b) && IsStep(cfg, b, second, c)
    ensures IsRun(cfg, params, map[], [a, b, c], [first, second])
  {
    hide IsStep, FreshState;
  }

  /** Not every committed state is at rest, and opening the database moves this one on. */
  lemma RunCanStall()
    ensures exists states, events ::
      && IsRun(CFG, SOLO_PARAMS, map[], states, events)
      && !Settled(states[|events|])
  {
    hide IsStep, IsRun, Settled, ProposalQuorum;
    StallingSteps();
    ProposalStalls();
    TwoSteps(CFG, SOLO_PARAMS, START, COUNTED, STALLED, VoteArrives(0, Vote(VOTE)), VoteArrives(0, Proposal(VOTE, [])));
    var states := [START, COUNTED, STALLED];
    assert states[2] == STALLED;
  }
}
