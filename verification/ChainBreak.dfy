/** A run after which the notarized table is not a chain: round 0 ends with a dummy, the proposal of round 1
    is accepted, then a certificate for a block of round 0 arrives, then the proposal gets its quorum. */
module ChainBreak {
  import opened Wrappers
  import opened OrderedTables
  import opened Blocks
  import opened Chains
  import opened State
  import opened Invariants
  import opened Steps
  import opened Progress
  import opened VoteRules
  import opened RoundLoop
  import opened Runs
  import opened StoredSignatures

  const CFG := Config(None, imap[])
  const PARAMS := SOLO_PARAMS.(peers := [0, 1])
  const DUMMY := NewDummy(0, PARAMS)
  const LATE := NewHeader(None, 0, 0, PARAMS, [])
  const PROPOSED := NewHeader(None, 0, 1, PARAMS, [])

  function Sign(key: PeerPubkey, block: BlockHeader): Signature {
    Signature(key, BlockMessage(block), 0)
  }

  function Certificate(block: BlockHeader): Notarized {
    Notarized(block, map[0 := Sign(0, block), 1 := Sign(1, block)])
  }

  const DUMMY_CERTIFIED := CertificateArrives(Certificate(DUMMY), [])
  const PROPOSAL_ARRIVES := VoteArrives(0, Proposal(SignedBlock(PROPOSED, Sign(0, PROPOSED)), []))
  const LATE_CERTIFIED := CertificateArrives(Certificate(LATE), [])
  const LAST_VOTE := VoteArrives(1, Vote(SignedBlock(PROPOSED, Sign(1, PROPOSED))))

  /** What stays the same: the parameters, and that there are no pins and no dummy votes for round 1. */
  ghost predicate Setting(s: State) {
    && Inv(s) && s.schedule == map[0 := PARAMS] && s.pins == map[] && At(s.dummyVotes, 1) == map[]
  }

  lemma AlwaysTheSame(s: State, r: nat)
    requires Setting(s)
    ensures ParamsAt(s.schedule, r) == PARAMS
  {
    PrevIs(s.schedule, r + 1, 0);
  }

  lemma CertificateIsSigned(block: BlockHeader)
    ensures QuorumSigned(Certificate(block), PARAMS) && !SignatureRefused(Certificate(block), PARAMS)
  {
    var cert := Certificate(block);
    assert Voters(cert.sigs) == {0, 1};
    forall i | i in cert.sigs
      ensures SigOk(cert, PARAMS, i)
    {}
  }

  lemma NoDummyQuorum(s: State)
    requires Setting(s)
    ensures !DummyQuorum(s, 1)
  {
    NoVoters(At(s.dummyVotes, 1));
  }

  // Round 0 ends with a dummy

  ghost predicate InRoundOne(s: State) {
    Setting(s) && s.round == 1 && s.notarized == map[] && s.proposals == map[] && s.blockVotes == map[]
  }

  lemma DummyEndsRound()
    ensures InRoundOne(After(CFG, FreshState(PARAMS, map[]), DUMMY_CERTIFIED))
  {
    hide Base, FinishRound, EndRound, AfterRounds, FreshBlocks, WithDummyVotes, VerifyWithContent, IsDummy, NewDummy,
         SignatureRefused, QuorumSigned, DummyQuorum, ProposalQuorum;
    var s := FreshState(PARAMS, map[]);
    FreshIsGood(CFG, PARAMS, map[]);
    assert At(s.dummyVotes, 1) == map[];
    AlwaysTheSame(s, 0);
    CertificateIsSigned(DUMMY);
    NewDummyIsAcceptable(0, PARAMS);
    DummyRound();
    var sigs := Certificate(DUMMY).sigs;
    var u := WithDummyVotes(s, sigs);
    WithDummyVotesKeepsInv(s, sigs);
    DummyVoteTables(s, sigs);
    RejectedOnlyByPin(CFG, u);
    var t := FinishRound(CFG, u).value;
    assert ProcessNotarized(CFG, s, Certificate(DUMMY), []) == Step(Done, t);
    QuorumOfBoth(s, sigs);
    LoopEndsOneRound(u);
    FinishRoundTables(CFG, u, t);
    FinishRoundNotarizes(CFG, u, t);
    FinishRoundKeepsInv(CFG, u);
    NoProposalQuorum(u);
  }

  lemma NoProposalQuorum(u: State)
    requires u.proposals == map[]
    ensures !ProposalQuorum(u, u.round)
  {}

  lemma DummyRound()
    ensures DUMMY.round == 0
  {}

  lemma DummyVoteTables(s: State, sigs: map<nat, Signature>)
    requires s.round == 0
    ensures var u := WithDummyVotes(s, sigs);
            u == s.(dummyVotes := u.dummyVotes) && At(u.dummyVotes, 1) == At(s.dummyVotes, 1)
  {}

  lemma QuorumOfBoth(s: State, sigs: map<nat, Signature>)
    requires Setting(s) && s.round == 0 && sigs.Keys == {0, 1}
    ensures DummyQuorum(WithDummyVotes(s, sigs), 0)
  {
    AlwaysTheSame(s, 0);
    assert Voters(sigs) == {0, 1};
    QuorumOfDummies(s, sigs);
  }

  // The proposal of round 1 has one vote of two

  ghost predicate Proposed(s: State, notarized: BlockTable) {
    && Setting(s) && s.round == 1 && s.notarized == notarized && s.proposals == map[1 := PROPOSED]
    && At(s.blockVotes, 1) == map[0 := SignedBlock(PROPOSED, Sign(0, PROPOSED))]
  }

  lemma OneVoteIsNoQuorum(s: State, vote: SignedBlock)
    requires Setting(s) && At(s.blockVotes, 1) == map[0 := vote]
    ensures !ProposalQuorum(s, 1)
  {
    AlwaysTheSame(s, 1);
    assert Voters(map[0 := vote]) == {0};
  }

  lemma HeaderIsFine(round: nat)
    ensures var h := NewHeader(None, 0, round, PARAMS, []);
            && h.round == round && !IsDummy(h) && h.prevBlockHash == Zero && DirectlyExtends(h, None)
            && VerifyWithContent(h, PARAMS, []).None?
  {
    NewHeaderIsAcceptable(None, 0, round, PARAMS, []);
  }

  lemma ProposalIsAccepted(s: State)
    requires InRoundOne(s)
    ensures Proposed(After(CFG, s, PROPOSAL_ARRIVES), map[])
  {
    hide Base, FinishRound, EndRound, AfterRounds, FreshBlocks, ProcessVote, VerifyWithContent, IsDummy, NewHeader,
         DirectlyExtends, DummyQuorum, ProposalQuorum, ParamsAt, WithFirstProposal, CommitsBeforeLoop;
    var vote := SignedBlock(PROPOSED, Sign(0, PROPOSED));
    var resp := Proposal(vote, []);
    var u := WithVote(s, 0, resp);
    AlwaysTheSame(s, 1);
    HeaderIsFine(1);
    FirstProposalTables(s, vote);
    FirstProposalKeepsInv(s, 0, vote, []);
    ProposalAcceptedIff(CFG, s, 0, PROPOSED, vote.sig, []);
    ProposalIsStored(CFG, s, 0, resp);
    ProcessVoteShape(CFG, s, 0, resp);
    NothingCounted(s, resp);
    var t := ProcessVote(CFG, s, 0, resp).state;
    NoDummyQuorum(u);
    OneVoteIsNoQuorum(u, vote);
    LoopEndsOneRound(u);
    FinishRoundTables(CFG, u, t);
    FinishRoundNotarizes(CFG, u, t);
    FinishRoundKeepsInv(CFG, u);
    NoneIsStillNone(u, t);
  }

  lemma NothingCounted(s: State, resp: VoteResponse)
    requires InRoundOne(s)
    ensures !CommitsBeforeLoop(CFG, s, 0, resp)
  {
    hide Inv, ProposalError, Setting;
  }

  lemma NoneIsStillNone(u: State, t: State)
    requires At(u.dummyVotes, 1) == map[]
    requires forall r | r in t.dummyVotes :: r in u.dummyVotes && t.dummyVotes[r] == u.dummyVotes[r]
    ensures At(t.dummyVotes, 1) == map[]
  {}

  lemma FirstProposalTables(s: State, vote: SignedBlock)
    requires InRoundOne(s) && vote.inner.round == 1 && !IsDummy(vote.inner)
    ensures var u := WithVote(s, 0, Proposal(vote, []));
            && u == WithFirstProposal(s, 0, vote, [])
            && u.round == 1 && u.notarized == map[] && u.proposals == map[1 := vote.inner]
            && At(u.blockVotes, 1) == map[0 := vote]
            && u.schedule == s.schedule && u.pins == s.pins && u.dummyVotes == s.dummyVotes
  {
    hide Setting, IsDummy;
    assert map[0 := vote] != map[] by {
      assert 0 in map[0 := vote];
    }
    assert map[] + map[0 := vote] == map[0 := vote];
  }

  // The certificate of round 0 is inserted below the proposal

  lemma LateCertificateIsTaken(s: State)
    requires Proposed(s, map[])
    ensures Proposed(After(CFG, s, LATE_CERTIFIED), map[0 := LATE])
  {
    hide Base, FinishRound, EndRound, AfterRounds, FreshBlocks, WithCertificate, VerifyWithContent, IsDummy, NewHeader,
         DirectlyExtends, SignatureRefused, QuorumSigned, DummyQuorum, ProposalQuorum, ParamsAt;
    var cert := Certificate(LATE);
    AlwaysTheSame(s, 0);
    HeaderIsFine(0);
    CertificateIsSigned(LATE);
    var u := WithCertificate(s, cert, []);
    WithCertificateKeepsBase(s, cert, []);
    LateTables(s, cert);
    RejectedOnlyByPin(CFG, u);
    var t := FinishRound(CFG, u).value;
    assert ProcessNotarized(CFG, s, cert, []) == Step(Done, t);
    NoDummyQuorum(u);
    OneVoteIsNoQuorum(u, SignedBlock(PROPOSED, Sign(0, PROPOSED)));
    LoopEndsOneRound(u);
    FinishRoundTables(CFG, u, t);
    FinishRoundNotarizes(CFG, u, t);
    FinishRoundKeepsInv(CFG, u);
    NoneIsStillNone(u, t);
  }

  lemma LateTables(s: State, cert: Notarized)
    requires s.notarized == map[] && cert.inner.round == 0
    ensures var u := WithCertificate(s, cert, []);
            && u.notarized == map[0 := cert.inner] && At(u.blockVotes, 1) == At(s.blockVotes, 1)
            && u.round == s.round && u.proposals == s.proposals
            && u.schedule == s.schedule && u.pins == s.pins && u.dummyVotes == s.dummyVotes
  {
    hide SignedBy;
  }

  // The proposal gets its second vote

  lemma SecondVoteTables(s: State, vote: SignedBlock)
    requires Proposed(s, map[0 := LATE]) && vote.inner == PROPOSED
    ensures var u := WithBlockVote(s, 1, vote);
            && ProposalQuorum(u, 1) && u.round == 1 && u.pins == map[]
            && u.proposals == s.proposals && u.notarized == s.notarized
  {
    hide Inv, NewHeader;
    AlwaysTheSame(s, 1);
    var votes := At(WithBlockVote(s, 1, vote).blockVotes, 1);
    OneVote(At(s.blockVotes, 1), 1, vote);
    assert Voters(votes) == {0, 1};
  }

  lemma LastVoteNotarizes(s: State)
    requires Proposed(s, map[0 := LATE])
    ensures After(CFG, s, LAST_VOTE).notarized == map[0 := LATE, 1 := PROPOSED]
  {
    hide Base, FinishRound, EndRound, AfterRounds, FreshBlocks, IsDummy, NewHeader, DummyQuorum, ParamsAt,
         VerifyWithContent, WithBlockVote, ProposalQuorum;
    var vote := SignedBlock(PROPOSED, Sign(1, PROPOSED));
    var u := WithBlockVote(s, 1, vote);
    AlwaysTheSame(s, 1);
    HeaderIsFine(1);
    SecondVoteTables(s, vote);
    assert VoteOk(RowAt(s, 1), 1, vote);
    WithBlockVoteKeepsInv(s, 1, vote);
    RejectedOnlyByPin(CFG, u);
    var t := FinishRound(CFG, u).value;
    assert ProcessVote(CFG, s, 1, Vote(vote)) == Step(Done, t);
    LoopEndsOneRound(u);
    FinishRoundTables(CFG, u, t);
    AfterRoundsTables(u, 2);
    ProposalIsCurrent(u, 1);
    MergeOne(u.notarized, 1, PROPOSED);
  }

  lemma NotAChain(s: State)
    requires s.notarized == map[0 := LATE, 1 := PROPOSED]
    ensures !Linked(s.notarized)
  {
    PrevIs(s.notarized, 1, 0);
    assert !LinkAt(s.notarized, 1);
  }

  lemma FourSteps(a: State, events: seq<Event>) returns (states: seq<State>)
    requires a == FreshState(PARAMS, map[]) && |events| == 4
    requires forall i | 0 <= i < 4 :: !events[i].FinalityVoteArrives? && !events[i].MembershipChanges?
    ensures |states| == 5 && IsRun(CFG, PARAMS, map[], states, events)
    ensures states[0] == a && forall i | 0 <= i < 4 :: states[i + 1] == After(CFG, states[i], events[i])
  {
    hide After, FreshState;
    states := [a];
    for n := 0 to 4
      invariant |states| == n + 1 && states[0] == a
      invariant forall i | 0 <= i < n :: IsStep(CFG, states[i], events[i], states[i + 1])
    {
      assert Allowed(CFG, states[n], events[n]);
      states := states + [After(CFG, states[n], events[n])];
      assert IsStep(CFG, states[n], events[n], states[n + 1]);
    }
    forall i | 0 <= i < 4
      ensures states[i + 1] == After(CFG, states[i], events[i])
    {
      assert IsStep(CFG, states[i], events[i], states[i + 1]);
    }
  }

  /** The notarized table of a run can stop being a chain. */
  lemma ChainCanBreak()
    ensures exists states: seq<State>, events ::
      IsRun(CFG, PARAMS, map[], states, events) && !Linked(states[|events|].notarized)
  {
    hide After, IsRun, InRoundOne, Proposed, Linked, FreshState, Certificate;
    var events := [DUMMY_CERTIFIED, PROPOSAL_ARRIVES, LATE_CERTIFIED, LAST_VOTE];
    var states := FourSteps(FreshState(PARAMS, map[]), events);
    DummyEndsRound();
    assert states[0 + 1] == After(CFG, states[0], events[0]);
    ProposalIsAccepted(states[1]);
    assert states[1 + 1] == After(CFG, states[1], events[1]);
    LateCertificateIsTaken(states[2]);
    assert states[2 + 1] == After(CFG, states[2], events[2]);
    LastVoteNotarizes(states[3]);
    assert states[3 + 1] == After(CFG, states[3], events[3]);
    NotAChain(states[4]);
  }
}
