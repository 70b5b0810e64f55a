/** When the notarized table alone stays a hash-linked chain: exactly as long as the round loop notarizes no
    proposal that does not extend the last block. */
module TableLinks {
  import opened Wrappers
  import opened OrderedTables
  import opened Blocks
  import opened Chains
  import opened State
  import opened Invariants
  import opened Steps
  import opened Progress
  import opened ChainSteps
  import opened VoteRules
  import opened Runs
  import opened ChainRuns

  /** The loop would notarize a proposal that does not extend the last block. */
  ghost predicate NotarizesOrphan(u: State) {
    && Above(u.notarized, u.round) && ProposalQuorum(u, u.round) && PinAllows(u)
    && !DirectlyExtends(u.proposals[u.round], PrevBlock(u.notarized, u.round))
  }

  /** A new vote that passes every check. */
  predicate TakesVote(s: State, peerIdx: nat, vote: SignedBlock) {
    var params := ParamsAt(s.schedule, s.round);
    && vote.inner.round == s.round
    && peerIdx < |params.peers| && Verifies(vote.sig, params.peers[peerIdx], BlockMessage(vote.inner))
    && if IsDummy(vote.inner) then
         VerifyWithContent(vote.inner, params, []).None? && peerIdx !in At(s.dummyVotes, s.round)
       else
         (s.round in s.proposals ==> s.proposals[s.round] == vote.inner) && peerIdx !in At(s.blockVotes, s.round)
  }

  /** A certificate that passes every check. */
  ghost predicate TakesCertificate(s: State, cert: Notarized, payload: Payload) {
    var params := ParamsAt(s.schedule, cert.inner.round);
    if IsDummy(cert.inner) then
      cert.inner.round == s.round && QuorumSigned(cert, params) && VerifyWithContent(cert.inner, params, payload).None?
    else Insertable(s, cert, payload)
  }

  /** The events after which the table is not a chain any more. */
  ghost predicate Unlinks(cfg: Config, s: State, e: Event) {
    match e
    case VoteArrives(peerIdx, resp) =>
      resp.Vote? && TakesVote(s, peerIdx, resp.block) && NotarizesOrphan(Counted(s, peerIdx, resp.block))
    case CertificateArrives(cert, payload) =>
      TakesCertificate(s, cert, payload) && NotarizesOrphan(WithCert(s, cert, payload))
    case Restarts => NotarizesOrphan(Opened(cfg, s))
    case _ => false
  }

  // The round loop

  lemma LoopKeepsTableIff(cfg: Config, u: State, t: State)
    requires Inv(u) && Linked(u.notarized) && FinishRound(cfg, u) == Some(t)
    ensures Linked(t.notarized) <==>
            (ProposalQuorum(u, u.round) ==>
               DirectlyExtends(u.proposals[u.round], PrevBlock(u.notarized, u.round)))
  {
    hide Base, FinishRound, Linked, DirectlyExtends;
    FinishRoundNotarizes(cfg, u, t);
    if ProposalQuorum(u, u.round) {
      var proposal := u.proposals[u.round];
      QuorumIsNotarized(cfg, u, t);
      RoundOfProposal(u);
      PrevDependsOnKeysBelow(t.notarized, u.notarized, u.round);
      if DirectlyExtends(proposal, PrevBlock(u.notarized, u.round)) {
        LinkedAppend(u.notarized, proposal);
      } else {
        OrphanIsNoLink(t.notarized, u.round);
      }
    }
  }

  lemma OrphanIsNoLink(table: BlockTable, r: nat)
    requires r in table && !DirectlyExtends(table[r], PrevBlock(table, r))
    ensures !Linked(table)
  {
    assert !LinkAt(table, r);
  }

  /** The loop is run on a linked table, or the step is rejected. */
  lemma EnteredTableIff(cfg: Config, s: State, u: State, t: State)
    requires Linked(s.notarized) && Base(u) && Linked(u.notarized)
    requires t == if FinishRound(cfg, u).Some? then FinishRound(cfg, u).value else s
    ensures Linked(t.notarized) <==> !NotarizesOrphan(u)
  {
    hide Base, FinishRound, Linked, DirectlyExtends, PinAllows, ProposalQuorum;
    if Above(u.notarized, u.round) {
      RejectedOnlyByPin(cfg, u);
      if FinishRound(cfg, u).Some? {
        LoopKeepsTableIff(cfg, u, t);
      }
    } else if FinishRound(cfg, u).Some? {
      FinishRoundNotarizes(cfg, u, t);
    }
  }

  // Votes

  lemma VoteIsCounted(cfg: Config, s: State, peerIdx: nat, vote: SignedBlock)
    requires Inv(s)
    ensures var t := ProcessVote(cfg, s, peerIdx, Vote(vote)).state;
            var u := Counted(s, peerIdx, vote);
            if TakesVote(s, peerIdx, vote)
            then Inv(u) && t == (if FinishRound(cfg, u).Some? then FinishRound(cfg, u).value else s)
            else t == s
  {
    hide Base, FinishRound, IsDummy, VerifyWithContent, ParamsAt, At, WithBlockVote, WithDummyVotes;
    var params := ParamsAt(s.schedule, s.round);
    WithDummyVotesKeepsInv(s, map[peerIdx := vote.sig]);
    if peerIdx in At(s.dummyVotes, s.round) {
      RepeatedDummies(s, peerIdx);
    }
    if peerIdx < |params.peers| && Verifies(vote.sig, params.peers[peerIdx], BlockMessage(vote.inner)) {
      if peerIdx in At(s.blockVotes, s.round) {
        if At(s.blockVotes, s.round)[peerIdx].sig == vote.sig {
          SameSignatureSameVote(s, peerIdx, vote);
          RepeatedVotes(s, peerIdx);
        }
      } else if VoteOk(RowAt(s, s.round), peerIdx, vote) {
        WithBlockVoteKeepsInv(s, peerIdx, vote);
      }
    }
  }

  lemma CountedKeepsTable(s: State, peerIdx: nat, vote: SignedBlock)
    ensures Counted(s, peerIdx, vote).notarized == s.notarized
  {
    hide IsDummy, WithDummyVotes, WithBlockVote;
    DummyVotesKeepTable(s, map[peerIdx := vote.sig]);
    BlockVoteKeepsTable(s, peerIdx, vote);
  }

  lemma DummyVotesKeepTable(s: State, sigs: map<nat, Signature>)
    ensures WithDummyVotes(s, sigs).notarized == s.notarized
  {
    hide Put;
  }

  lemma BlockVoteKeepsTable(s: State, peerIdx: nat, vote: SignedBlock)
    ensures WithBlockVote(s, peerIdx, vote).notarized == s.notarized
  {
    hide Put;
  }

  /** A proposal extends the last block, so it does not become an orphan by arriving. */
  lemma ProposalKeepsTable(cfg: Config, s: State, peerIdx: nat, resp: VoteResponse)
    requires Inv(s) && resp.Proposal? && Linked(s.notarized)
    ensures Linked(ProcessVote(cfg, s, peerIdx, resp).state.notarized)
  {
    hide Base, ProcessVote, FinishRound, WithVote, CommitsBeforeLoop, Linked, DirectlyExtends, IsDummy,
         VerifyWithContent, PinAllows, ProposalQuorum, LeaderIdx;
    var t := ProcessVote(cfg, s, peerIdx, resp).state;
    var u := WithVote(s, peerIdx, resp);
    ProcessVoteShape(cfg, s, peerIdx, resp);
    OwnProposalKeepsTable(s, resp);
    if t != s && t != WithOwnProposal(s, resp) {
      ProposalsOfVote(s, peerIdx, resp);
      EnteredTableIff(cfg, s, u, t);
    }
  }

  lemma OwnProposalKeepsTable(s: State, resp: VoteResponse)
    ensures WithOwnProposal(s, resp).notarized == s.notarized
  {
    hide KeepVotesFor;
  }

  // Certificates

  lemma CertificateIsTaken(cfg: Config, s: State, cert: Notarized, payload: Payload)
    requires Inv(s)
    ensures var t := ProcessNotarized(cfg, s, cert, payload).state;
            var u := WithCert(s, cert, payload);
            if TakesCertificate(s, cert, payload)
            then Base(u) && t == (if FinishRound(cfg, u).Some? then FinishRound(cfg, u).value else s)
                 && (!IsDummy(cert.inner) ==> Extends(s, cert.inner))
            else t == s
  {
    hide Base, FinishRound, IsDummy, VerifyWithContent, ParamsAt, WithDummyVotes, WithCertificate, Insertable, Extends,
         ProcessCertified;
    if IsDummy(cert.inner) {
      WithDummyVotesKeepsInv(s, cert.sigs);
    } else if Insertable(s, cert, payload) {
      hide ProcessNotarized;
      InsertableIsProcessed(cfg, s, cert, payload);
    } else if ProcessNotarized(cfg, s, cert, payload).state != s {
      hide ProcessNotarized;
      TakenIsInsertable(cfg, s, cert, payload);
    }
  }

  lemma CertificateTableIsLinked(s: State, cert: Notarized, payload: Payload)
    requires Inv(s) && Linked(s.notarized) && (!IsDummy(cert.inner) ==> Extends(s, cert.inner))
    ensures Linked(WithCert(s, cert, payload).notarized)
  {
    hide Base, Linked, DirectlyExtends, IsDummy, Put, KeepVotesFor, SignedBy, Rewound;
    if !IsDummy(cert.inner) {
      RewoundIsLinked(s, cert.inner);
      CertTables(s, cert, payload);
      LinkedAppend(Rewound(s, cert.inner).notarized, cert.inner);
    }
  }

  /** In a state at rest a certificate for a round that is over leaves the table a chain, also where it orphans the
      held proposal. */
  lemma LateCertificateKeepsTable(cfg: Config, s: State, cert: Notarized, payload: Payload)
    requires Inv(s) && Linked(s.notarized) && Settled(s) && cert.inner.round < s.round
    ensures Linked(ProcessNotarized(cfg, s, cert, payload).state.notarized)
  {
    hide Base, Linked, ProcessNotarized, FinishRound, WithCert, Extends, Settled, IsDummy;
    var t := ProcessNotarized(cfg, s, cert, payload).state;
    ProcessNotarizedShape(cfg, s, cert, payload);
    if t != s {
      FinishLate(cfg, s, cert, payload);
      CertificateTableIsLinked(s, cert, payload);
    }
  }

  // Steps and runs

  /** An event keeps the notarized table a chain if and only if it does not make the loop notarize an orphan. */
  lemma StepKeepsTableIff(cfg: Config, s: State, e: Event)
    requires Inv(s) && Linked(s.notarized) && Allowed(cfg, s, e)
    ensures Linked(After(cfg, s, e).notarized) <==> !Unlinks(cfg, s, e)
  {
    hide Base, Linked, ProcessVote, ProcessNotarized, FinishRound, NotarizesOrphan, TakesVote, TakesCertificate,
         WithCert, Counted, Reopen, Opened, UpdateFinalityVote, ChangedParams, Extends;
    match e
    case VoteArrives(peerIdx, resp) =>
      if resp.Proposal? {
        ProposalKeepsTable(cfg, s, peerIdx, resp);
      } else {
        VoteIsCounted(cfg, s, peerIdx, resp.block);
        CountedKeepsTable(s, peerIdx, resp.block);
        if TakesVote(s, peerIdx, resp.block) {
          EnteredTableIff(cfg, s, Counted(s, peerIdx, resp.block), After(cfg, s, e));
        }
      }
    case CertificateArrives(cert, payload) =>
      CertificateIsTaken(cfg, s, cert, payload);
      if TakesCertificate(s, cert, payload) {
        CertificateTableIsLinked(s, cert, payload);
        EnteredTableIff(cfg, s, WithCert(s, cert, payload), After(cfg, s, e));
      }
    case Restarts =>
      OpenedTables(cfg, s);
      EnteredTableIff(cfg, s, Opened(cfg, s), After(cfg, s, e));
    case FinalityVoteArrives(peer, vote, sig) => UpdateFinalityVoteTables(s, peer, vote);
    case MembershipChanges(_, _, _) =>
  }

  /** The notarized table is a hash-linked chain in every state of a run if and only if no event of the run
      makes the loop notarize an orphan. */
  lemma {:induction false} RunsStayLinkedIff(cfg: Config, params: ConsensusParams, pins: PinTable,
                                             states: seq<State>, events: seq<Event>, i: nat)
    requires IsRun(cfg, params, pins, states, events) && i < |states|
    ensures (forall j | 0 <= j <= i :: Linked(states[j].notarized)) <==>
            (forall k | 0 <= k < i :: !Unlinks(cfg, states[k], events[k]))
  {
    hide Inv, Linked, After, Allowed, FreshState, Unlinks, DummyQuorum, OwnVote, Reach, ProposalExtends;
    if i == 0 {
      FreshIsGood(cfg, params, pins);
    } else {
      RunsStayLinkedIff(cfg, params, pins, states, events, i - 1);
      if Linked(states[i - 1].notarized) {
        EveryStateIsGood(cfg, params, pins, states, events, i - 1);
        assert IsStep(cfg, states[i - 1], events[i - 1], states[i - 1 + 1]);
        StepKeepsTableIff(cfg, states[i - 1], events[i - 1]);
      }
    }
  }
}
