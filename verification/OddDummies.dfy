/** Dummy votes for another dummy block than the one nodes make: how they get in, and what they do to the
    dummy certificates of the node that stores them. */
module OddDummies {
  import opened Wrappers
  import opened OrderedTables
  import opened NumPeers
  import opened Blocks
  import opened State
  import opened Invariants
  import opened Progress
  import opened CatchUp
  import opened VoteRules
  import opened Runs
  import opened Dummies

  /** The dummy block of a round with a time of its own. */
  function OddDummy(round: nat, params: ConsensusParams, timestamp: nat): BlockHeader {
    NewDummy(round, params).(timestamp := timestamp)
  }

  function VoteFor(block: BlockHeader, key: PeerPubkey): SignedBlock {
    SignedBlock(block, Signature(key, BlockMessage(block), 0))
  }

  /** A peer without a dummy vote in the round gets any dummy block counted that its pin allows. As long as the
      votes of the round are there, they are then not all for the one block that a certificate is made for. */
  lemma OddDummyIsCounted(cfg: Config, s: State, peerIdx: nat, timestamp: nat)
    requires Inv(s) && peerIdx < |ParamsAt(s.schedule, s.round).peers| && peerIdx !in At(s.dummyVotes, s.round)
    ensures var params := ParamsAt(s.schedule, s.round);
            var vote := VoteFor(OddDummy(s.round, params, timestamp), params.peers[peerIdx]);
            var step := ProcessVote(cfg, s, peerIdx, Vote(vote));
            && (step.outcome == Done <==> PinAllows(WithDummyVotes(s, map[peerIdx := vote.sig])))
            && (step.outcome == Done && s.round in step.state.dummyVotes ==>
                  (timestamp != 0 ==> !Canonical(step.state, s.round))
                  && (timestamp == 0 && Canonical(s, s.round) ==> Canonical(step.state, s.round)))
  {
    hide ProcessVote, FinishRound, PinAllows, ParamsAt, Base;
    var params := ParamsAt(s.schedule, s.round);
    var vote := VoteFor(OddDummy(s.round, params, timestamp), params.peers[peerIdx]);
    VoteAcceptedIff(cfg, s, peerIdx, vote.inner, vote.sig);
    var step := ProcessVote(cfg, s, peerIdx, Vote(vote));
    if step.outcome == Done {
      NewDummyIsStored(cfg, s, peerIdx, vote);
      if s.round in step.state.dummyVotes {
        assert step.state.dummyVotes[s.round][peerIdx] == vote.sig;
        assert At(step.state.dummyVotes, s.round) == step.state.dummyVotes[s.round];
      }
    }
  }

  lemma NewDummyCommits(cfg: Config, s: State, peerIdx: nat, vote: SignedBlock)
    requires Inv(s) && IsDummy(vote.inner) && peerIdx !in At(s.dummyVotes, s.round)
    requires ProcessVote(cfg, s, peerIdx, Vote(vote)).outcome == Done
    ensures ProcessVote(cfg, s, peerIdx, Vote(vote))
            == CommitRound(cfg, s, WithDummyVotes(s, map[peerIdx := vote.sig]), VotePinnedMismatch)
  {
    hide FinishRound, ParamsAt, Inv, IsDummy, VerifyWithContent, WithDummyVotes, CommitRound, At;
  }

  lemma NewDummyIsStored(cfg: Config, s: State, peerIdx: nat, vote: SignedBlock)
    requires Inv(s) && IsDummy(vote.inner) && peerIdx !in At(s.dummyVotes, s.round)
    requires ProcessVote(cfg, s, peerIdx, Vote(vote)).outcome == Done
    ensures var t := ProcessVote(cfg, s, peerIdx, Vote(vote)).state;
            && t.schedule == s.schedule
            && (s.round in t.dummyVotes ==> t.dummyVotes[s.round] == At(s.dummyVotes, s.round)[peerIdx := vote.sig])
  {
    hide FinishRound, ProcessVote, ParamsAt, Base, IsDummy;
    NewDummyCommits(cfg, s, peerIdx, vote);
    var sigs := map[peerIdx := vote.sig];
    var u := WithDummyVotes(s, sigs);
    WithDummyVotesKeepsInv(s, sigs);
    FinishRoundTables(cfg, u, FinishRound(cfg, u).value);
    OneDummyIsPut(s, peerIdx, vote.sig);
  }

  lemma OneDummyIsPut(s: State, peerIdx: nat, sig: Signature)
    ensures At(WithDummyVotes(s, map[peerIdx := sig]).dummyVotes, s.round) == At(s.dummyVotes, s.round)[peerIdx := sig]
  {
    assert peerIdx in map[peerIdx := sig];
    assert At(s.dummyVotes, s.round) + map[peerIdx := sig] == At(s.dummyVotes, s.round)[peerIdx := sig];
  }

  // A run in which one of four peers spoils a certificate

  const CFG := Config(None, imap[])
  const FOUR := ConsensusParams(0, 0, 0, 0, 0, 0, None, [0, 1, 2, 3])
  const START := FreshState(FOUR, map[])

  /** Peer 0 sets a time, the others vote for the block that nodes make. */
  function VoteOf(peer: nat): SignedBlock {
    VoteFor(OddDummy(0, FOUR, if peer == 0 then 1 else 0), peer)
  }

  function Arrives(peer: nat): Event {
    VoteArrives(peer, Vote(VoteOf(peer)))
  }

  /** The tables with some dummy votes in round 0. */
  function Voted(round: nat, sigs: map<nat, Signature>): State {
    START.(round := round, dummyVotes := Put(map[], 0, sigs))
  }

  const ONE: map<nat, Signature> := map[0 := VoteOf(0).sig]
  const TWO := ONE[1 := VoteOf(1).sig]
  const THREE := TWO[2 := VoteOf(2).sig]

  lemma VotedTables(sigs: map<nat, Signature>)
    ensures At(Voted(0, sigs).dummyVotes, 0) == sigs
  {
    assert map[] + sigs == sigs;
  }

  lemma OneMoreVote(sigs: map<nat, Signature>, peer: nat, sig: Signature)
    ensures WithDummyVotes(Voted(0, sigs), map[peer := sig]) == Voted(0, sigs[peer := sig])
  {
    VotedTables(sigs);
    assert peer in map[peer := sig] && peer in sigs[peer := sig];
    assert sigs + map[peer := sig] == sigs[peer := sig];
    assert map[] + sigs[peer := sig] == sigs[peer := sig];
    var none: DummyVoteTable := map[];
    assert Put(none, 0, sigs)[0 := sigs[peer := sig]] == none[0 := sigs[peer := sig]];
  }

  /** The round loop over tables that hold the dummy votes of one round and nothing else. */
  lemma LoopOverVotes(u: State, sigs: map<nat, Signature>)
    requires u == Voted(0, sigs) && Inv(u)
    ensures FinishRound(CFG, u) == Some(u.(round := if DummyQuorum(u, 0) then 1 else 0))
  {
    hide Base, DummyQuorum, EndRound, AfterRounds, FinishRound, UpdateFinalityVote;
    var end := EndRound(u);
    LoopEndsOneRound(u);
    RejectedOnlyByPin(CFG, u);
    FinishRoundRounds(CFG, u, FinishRound(CFG, u).value);
    AfterRoundsTables(u, end);
    MergeNothing(u.notarized);
    assert FreshBlocks(u, end) == map[];
  }

  lemma FourPeers(round: nat)
    ensures ParamsAt(START.schedule, round) == FOUR && ThresholdAt(START, round) == 3 && MaxFaulty(4) == 1
  {}

  lemma VoteCommits(sigs: map<nat, Signature>, peer: nat)
    requires peer < 4 && peer !in sigs && Inv(Voted(0, sigs))
    ensures var u := Voted(0, sigs[peer := VoteOf(peer).sig]);
            Inv(u) && ProcessVote(CFG, Voted(0, sigs), peer, Vote(VoteOf(peer))) == CommitRound(CFG, Voted(0, sigs), u,
                                                                                               VotePinnedMismatch)
  {
    hide Base, FinishRound, ProcessVote, CommitRound, Put, WithDummyVotes;
    FourPeers(0);
    VotedTables(sigs);
    OneMoreVote(sigs, peer, VoteOf(peer).sig);
    WithDummyVotesKeepsInv(Voted(0, sigs), map[peer := VoteOf(peer).sig]);
    OddDummyIsCounted(CFG, Voted(0, sigs), peer, if peer == 0 then 1 else 0);
    NewDummyCommits(CFG, Voted(0, sigs), peer, VoteOf(peer));
  }

  lemma DummyStep(sigs: map<nat, Signature>, peer: nat)
    requires peer < 4 && peer !in sigs && Inv(Voted(0, sigs))
    ensures var more := sigs[peer := VoteOf(peer).sig];
            && Inv(Voted(0, more))
            && IsStep(CFG, Voted(0, sigs), Arrives(peer), Voted(if 3 <= |Voters(more)| then 1 else 0, more))
  {
    hide Base, FinishRound, ProcessVote, Put, VoteOf;
    var more := sigs[peer := VoteOf(peer).sig];
    VoteCommits(sigs, peer);
    LoopOverVotes(Voted(0, more), more);
    VotedTables(more);
    FourPeers(0);
  }

  lemma ThreeSteps()
    ensures IsStep(CFG, START, Arrives(0), Voted(0, ONE)) && IsStep(CFG, Voted(0, ONE), Arrives(1), Voted(0, TWO))
    ensures IsStep(CFG, Voted(0, TWO), Arrives(2), Voted(1, THREE))
  {
    hide IsStep, Inv, VoteOf, FreshState, Voted;
    FreshIsGood(CFG, FOUR, map[]);
    NoVotes();
    DummyStep(map[], 0);
    DummyStep(ONE, 1);
    DummyStep(TWO, 2);
    assert Voters(ONE) == {0} && Voters(TWO) == {0, 1} && Voters(THREE) == {0, 1, 2};
  }

  lemma NoVotes()
    ensures Voted(0, map[]) == START
  {}

  lemma IsRunOfThree(a: State, b: State, c: State, d: State, first: Event, second: Event, third: Event)
    requires a == START && IsStep(CFG, a, first, b) && IsStep(CFG, b, second, c) && IsStep(CFG, c, third, d)
    ensures IsRun(CFG, FOUR, map[], [a, b, c, d], [first, second, third])
  {
    hide IsStep, FreshState;
  }

  lemma SpoiledQuorum()
    ensures var server := Voted(1, THREE);
            && DummyQuorum(server, 0) && !Canonical(server, 0) && MaxFaulty(|FOUR.peers|) == 1
            && forall i | i in At(server.dummyVotes, 0) && i != 0 ::
                 Verifies(At(server.dummyVotes, 0)[i], i, BlockMessage(NewDummy(0, FOUR)))
  {
    FourPeers(0);
    VotedTables(THREE);
    assert Voted(1, THREE).dummyVotes == Voted(0, THREE).dummyVotes;
    assert Voters(THREE) == {0, 1, 2};
    assert 0 in THREE;
  }

  /** One faulty peer of four can have a quorum of dummy votes end a round for one node, whose certificate of
      that round every other node then refuses. */
  lemma OneOddVoteSpoilsCertificate()
    ensures exists states, events ::
      && IsRun(CFG, FOUR, map[], states, events)
      && var server := states[|events|];
         var answer := NotarizedBlockResp(server, 0, 0);
         && server.round == 1 && DummyQuorum(server, 0) && MaxFaulty(|FOUR.peers|) == 1
         && (forall i | i in At(server.dummyVotes, 0) && i != 0 ::
               Verifies(At(server.dummyVotes, 0)[i], i, BlockMessage(NewDummy(0, FOUR))))
         && answer.Answer?
         && ProcessNotarized(CFG, START, answer.block, answer.payload) == Step(Failed(InvalidSignatures), START)
  {
    hide IsRun, IsStep, ParamsAt, ProcessNotarized, NotarizedBlockResp, DummyQuorum, Put, Canonical, DummiesOk, Inv,
         VoteOf;
    var states := [START, Voted(0, ONE), Voted(0, TWO), Voted(1, THREE)];
    var events := [Arrives(0), Arrives(1), Arrives(2)];
    var server := Voted(1, THREE);
    ThreeSteps();
    IsRunOfThree(START, Voted(0, ONE), Voted(0, TWO), server, Arrives(0), Arrives(1), Arrives(2));
    SpoiledQuorum();
    FreshIsGood(CFG, FOUR, map[]);
    RunsKeepDummies(CFG, FOUR, map[], states, events, 3);
    ServedDummyEndsRound(CFG, server, START);
    RefusedLeavesTables(NotarizedBlockResp(server, 0, 0));
    assert states[|events|] == server;
  }

  lemma RefusedLeavesTables(answer: Answer)
    ensures answer.Answer? && ProcessNotarized(CFG, START, answer.block, answer.payload).outcome != Done ==>
              ProcessNotarized(CFG, START, answer.block, answer.payload).state == START
  {
    hide FinishRound, ParamsAt, WithCertificate, WithDummyVotes, IsDummy, VerifyWithContent;
  }
}
