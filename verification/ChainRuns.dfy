/** When the notarized table stays a hash-linked chain that the held proposal extends, and when it does not. */
module ChainRuns {
  import opened Wrappers
  import opened OrderedTables
  import opened Blocks
  import opened Chains
  import opened State
  import opened Invariants
  import opened Steps
  import opened Progress
  import opened ChainSteps
  import opened VoteRules
  import opened Runs

  /** A certificate for a round that is over arrives while a proposal is held for the current round. */
  predicate LateUnderProposal(s: State, e: Event) {
    e.CertificateArrives? && e.cert.inner.round < s.round && s.round in s.proposals
  }

  /** The certificate passes every check, and its block goes on top of the last block or takes its place. */
  ghost predicate Insertable(s: State, cert: Notarized, payload: Payload) {
    var params := ParamsAt(s.schedule, cert.inner.round);
    var last := Highest(s.notarized);
    && !IsDummy(cert.inner) && QuorumSigned(cert, params) && VerifyWithContent(cert.inner, params, payload).None?
    && Reach(s.notarized) <= cert.inner.round
    && (DirectlyExtends(cert.inner, PrevBlock(s.notarized, s.round))
        || (last.Some? && DirectlyExtends(cert.inner, PrevBlock(s.notarized, last.value))))
  }

  /** The events after which a held proposal does not extend the last block any more. */
  ghost predicate OrphansProposal(s: State, e: Event) {
    LateUnderProposal(s, e) && Insertable(s, e.cert, e.payload) && PinAllows(s)
  }

  // Certificates for rounds that are over

  /** Nothing that ends the current round changes with a certificate for an earlier one. */
  lemma LateCertificateTables(s: State, cert: Notarized, payload: Payload)
    requires Inv(s) && !IsDummy(cert.inner) && Extends(s, cert.inner) && cert.inner.round < s.round
    requires Base(WithCert(s, cert, payload))
    ensures var u := WithCert(s, cert, payload);
            && Inv(u) && u.round == s.round && u.proposals == s.proposals && u.dummyVotes == s.dummyVotes
            && PinAllows(u) == PinAllows(s)
            && DummyQuorum(u, s.round) == DummyQuorum(s, s.round)
            && u.notarized == Rewound(s, cert.inner).notarized[cert.inner.round := cert.inner]
  {
    hide Base, IsDummy, DirectlyExtends, ParamsAt, Rewound;
    var u := WithCert(s, cert, payload);
    CertTables(s, cert, payload);
    CertOtherTables(s, cert, payload);
    assert At(u.blockVotes, s.round) == At(s.blockVotes, s.round);
  }

  lemma CertOtherTables(s: State, cert: Notarized, payload: Payload)
    requires !IsDummy(cert.inner) && Extends(s, cert.inner)
    ensures var u := WithCert(s, cert, payload);
            && u.dummyVotes == s.dummyVotes && u.pins == s.pins && u.schedule == s.schedule
            && forall r | r != cert.inner.round :: At(u.blockVotes, r) == At(s.blockVotes, r)
  {
    hide IsDummy, DirectlyExtends, SignedBy, Put, KeepVotesFor;
    CertificateTables(Rewound(s, cert.inner), cert, payload);
    hide WithCertificate;
    OtherRoundsKeepVotes(s.blockVotes, cert.inner, SignedBy(cert.inner, cert.sigs));
  }

  lemma OtherRoundsKeepVotes(votes: VoteTable, block: BlockHeader, more: map<nat, SignedBlock>)
    ensures forall r | r != block.round :: At(Put(KeepVotesFor(votes, block), block.round, more), r) == At(votes, r)
  {}

  /** A certificate for a round that is over is taken exactly when it can be inserted and no pin is in the way. */
  lemma LateCertificateTakenIff(cfg: Config, s: State, cert: Notarized, payload: Payload)
    requires Inv(s) && cert.inner.round < s.round
    ensures ProcessNotarized(cfg, s, cert, payload).state != s <==> Insertable(s, cert, payload) && PinAllows(s)
  {
    hide Base, FinishRound, WithCert, PinAllows, IsDummy, DirectlyExtends, QuorumSigned, VerifyWithContent, ParamsAt,
         SignatureRefused, WithCertificate, Rewound, ProcessNotarized, Extends;
    var t := ProcessNotarized(cfg, s, cert, payload).state;
    var u := WithCert(s, cert, payload);
    ProcessNotarizedShape(cfg, s, cert, payload);
    if t != s {
      LateCertificateTables(s, cert, payload);
      RejectedOnlyByPin(cfg, u);
      TakenIsInsertable(cfg, s, cert, payload);
    } else if Insertable(s, cert, payload) {
      InsertableIsProcessed(cfg, s, cert, payload);
      LateCertificateTables(s, cert, payload);
      RejectedOnlyByPin(cfg, u);
      if PinAllows(s) {
        NewBlockChangesTables(cfg, s, u, FinishRound(cfg, u).value, cert.inner.round);
      }
    }
  }

  lemma NewBlockChangesTables(cfg: Config, s: State, u: State, t: State, r: nat)
    requires Base(u) && FinishRound(cfg, u) == Some(t) && r in u.notarized && Reach(s.notarized) <= r
    ensures t != s
  {
    hide Base, FinishRound;
    FinishRoundNotarizes(cfg, u, t);
    assert r in t.notarized;
    assert Highest(s.notarized).None? || Highest(s.notarized).value < r;
  }

  lemma TakenIsInsertable(cfg: Config, s: State, cert: Notarized, payload: Payload)
    requires Inv(s) && !IsDummy(cert.inner) && ProcessNotarized(cfg, s, cert, payload).state != s
    ensures Insertable(s, cert, payload)
  {
    hide Base, FinishRound, IsDummy, DirectlyExtends, VerifyWithContent, ParamsAt, WithCertificate, WithDummyVotes;
    LatestIsHighest(s);
  }

  lemma InsertableIsProcessed(cfg: Config, s: State, cert: Notarized, payload: Payload)
    requires Inv(s) && Insertable(s, cert, payload)
    ensures var u := WithCert(s, cert, payload);
            && Base(u) && Extends(s, cert.inner)
            && ProcessNotarized(cfg, s, cert, payload) == CommitRound(cfg, s, u, CertPinnedMismatch)
  {
    hide Base, FinishRound, IsDummy, DirectlyExtends, VerifyWithContent, ParamsAt, WithCertificate, WithDummyVotes;
    LatestIsHighest(s);
    CertifiedBlockIsNew(s, cert.inner);
    RewoundKeepsBase(s, cert.inner);
    WithCertificateKeepsBase(Rewound(s, cert.inner), cert, payload);
  }

  /** A block below the current round leaves a node at rest in its round. */
  lemma FinishLate(cfg: Config, s: State, cert: Notarized, payload: Payload)
    requires Inv(s) && Settled(s) && !IsDummy(cert.inner) && Extends(s, cert.inner) && cert.inner.round < s.round
    requires Base(WithCert(s, cert, payload))
    ensures var u := WithCert(s, cert, payload);
            && FinishRound(cfg, u).Some? && FinishRound(cfg, u).value.round == s.round
            && FinishRound(cfg, u).value.notarized == u.notarized
  {
    hide Base, IsDummy, Extends, WithCert, FinishRound, ParamsAt, AfterRounds;
    var u := WithCert(s, cert, payload);
    LateCertificateTables(s, cert, payload);
    CertOtherTables(s, cert, payload);
    assert Settled(u);
    RejectedOnlyByPin(cfg, u);
    SettledEndsHere(u);
    FinishRoundTables(cfg, u, FinishRound(cfg, u).value);
    FinishRoundNotarizes(cfg, u, FinishRound(cfg, u).value);
  }

  /** The proposal was accepted on top of a block that is no longer the last one before it. */
  lemma LateCertificateOrphans(cfg: Config, s: State, cert: Notarized, payload: Payload)
    requires Inv(s) && Chained(s) && !DummyQuorum(s, s.round)
    requires cert.inner.round < s.round && s.round in s.proposals
    requires ProcessNotarized(cfg, s, cert, payload).state != s
    ensures !Chained(ProcessNotarized(cfg, s, cert, payload).state)
  {
    hide Base, FinishRound, WithCert, PinAllows, IsDummy, ProcessNotarized, DummyQuorum, ProposalQuorum, Rewound,
         DirectlyExtends;
    var t := ProcessNotarized(cfg, s, cert, payload).state;
    var u := WithCert(s, cert, payload);
    var r, block, proposal := s.round, cert.inner, s.proposals[s.round];
    ProcessNotarizedShape(cfg, s, cert, payload);
    LateCertificateTables(s, cert, payload);
    FinishRoundTables(cfg, u, t);
    FinishRoundNotarizes(cfg, u, t);
    NewParent(s.notarized, u.notarized, r, block, proposal);
    if t.notarized == u.notarized {
      LoopEndsOneRound(u);
      RoundNotLeft(cfg, u, t);
    } else {
      PrevDependsOnKeysBelow(t.notarized, u.notarized, r);
      assert !LinkAt(t.notarized, r);
    }
  }

  /** A block extends one block only. */
  lemma NewParent(before: BlockTable, after: BlockTable, r: nat, block: BlockHeader, proposal: BlockHeader)
    requires block.round < r && Above(after, r) && block.round in after && after[block.round] == block
    requires Reach(before) <= block.round && Above(after, block.round + 1)
    requires Linked(before) && DirectlyExtends(proposal, PrevBlock(before, r))
    ensures !DirectlyExtends(proposal, PrevBlock(after, r))
  {
    PrevIs(after, r, block.round);
    var p := Prev(before, r);
    if p.Some? {
      assert LinkAt(before, p.value);
      assert p.value <= Highest(before).value;
    }
  }

  /** A proposal with a quorum is notarized when the loop has run. */
  lemma QuorumIsNotarized(cfg: Config, u: State, t: State)
    requires Inv(u) && FinishRound(cfg, u) == Some(t) && ProposalQuorum(u, u.round)
    ensures u.round in t.notarized
  {
    hide RowsOk, FinishRound, EndRound, AfterRounds, ParamsAt;
    FinishRoundTables(cfg, u, t);
    AfterRoundsTables(u, t.round);
    LoopEndsOneRound(u);
    assert u.round in FreshBlocks(u, t.round);
  }

  /** Without a dummy quorum the round is left only with its proposal notarized. */
  lemma RoundNotLeft(cfg: Config, u: State, t: State)
    requires Inv(u) && FinishRound(cfg, u) == Some(t) && t.notarized == u.notarized && !DummyQuorum(u, u.round)
    ensures t.round == u.round
  {
    hide RowsOk, FinishRound, EndRound, DummyQuorum, AfterRounds, ProposalQuorum;
    FinishRoundTables(cfg, u, t);
    LoopEndsOneRound(u);
    if ProposalQuorum(u, u.round) {
      QuorumIsNotarized(cfg, u, t);
    }
  }

  // Steps and runs

  lemma OtherwiseChainIsKept(cfg: Config, s: State, e: Event)
    requires Inv(s) && Chained(s) && Allowed(cfg, s, e) && !LateUnderProposal(s, e)
    ensures Chained(After(cfg, s, e))
  {
    hide Inv, Chained, ProcessVote, ProcessNotarized, ProcessFinalityVote, ChangeParams, Reopen;
    OtherStepsKeepChain(cfg, s);
    match e
    case VoteArrives(peerIdx, resp) => ProcessVoteKeepsChain(cfg, s, peerIdx, resp);
    case CertificateArrives(cert, payload) => ProcessNotarizedKeepsChain(cfg, s, cert, payload);
    case FinalityVoteArrives(peer, vote, sig) => assert Chained(ProcessFinalityVote(s, peer, vote, sig).state);
    case MembershipChanges(round, timestamp, peers) => assert Chained(ChangeParams(s, round, timestamp, peers).state);
    case Restarts =>
  }

  /** An event keeps the table a chain that the held proposal extends if and only if it is not a certificate
      for a round that is over which can be inserted while a proposal is held. */
  lemma StepKeepsChainIff(cfg: Config, s: State, e: Event)
    requires Good(cfg, s) && Chained(s) && Allowed(cfg, s, e)
    ensures Chained(After(cfg, s, e)) <==> !OrphansProposal(s, e)
  {
    hide Inv, Chained, DummyQuorum, OwnVote, Reach, After, Insertable, PinAllows, ProcessNotarized;
    if LateUnderProposal(s, e) {
      AfterCertificate(cfg, s, e);
      LateCertificateTakenIff(cfg, s, e.cert, e.payload);
      if ProcessNotarized(cfg, s, e.cert, e.payload).state != s {
        LateCertificateOrphans(cfg, s, e.cert, e.payload);
      }
    } else {
      OtherwiseChainIsKept(cfg, s, e);
    }
  }

  /** The notarized table is a hash-linked chain in every state of a run, and the held proposal extends it,
      if and only if no event of the run orphans a proposal. */
  lemma {:induction false} RunsStayChainedIff(cfg: Config, params: ConsensusParams, pins: PinTable,
                                              states: seq<State>, events: seq<Event>, i: nat)
    requires IsRun(cfg, params, pins, states, events) && i < |states|
    ensures (forall j | 0 <= j <= i :: Chained(states[j])) <==>
            (forall k | 0 <= k < i :: !OrphansProposal(states[k], events[k]))
  {
    hide Good, Chained, After, Allowed, FreshState, OrphansProposal;
    if i == 0 {
      FreshIsGood(cfg, params, pins);
    } else {
      RunsStayChainedIff(cfg, params, pins, states, events, i - 1);
      if Chained(states[i - 1]) {
        EveryStateIsGood(cfg, params, pins, states, events, i - 1);
        assert IsStep(cfg, states[i - 1], events[i - 1], states[i - 1 + 1]);
        StepKeepsChainIff(cfg, states[i - 1], events[i - 1]);
      }
    }
  }
}
