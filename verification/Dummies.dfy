/** Dummy votes: whose signatures they are, and the dummy certificates that are served from them. */
module Dummies {
  import opened Wrappers
  import opened OrderedTables
  import opened Blocks
  import opened State
  import opened Invariants
  import opened Steps
  import opened Progress
  import opened CatchUp
  import opened VoteRules
  import opened Runs

  /** A stored dummy vote is a signature of its peer on a dummy block of its round. */
  ghost predicate DummyOk(params: ConsensusParams, r: nat, i: nat, sig: Signature) {
    && i < |params.peers|
    && sig.Signature? && sig.signer == params.peers[i] && sig.message.BlockMessage?
    && sig.message.header.round == r && IsDummy(sig.message.header)
    && VerifyWithContent(sig.message.header, params, []).None?
  }

  ghost predicate RoundDummiesOk(params: ConsensusParams, r: nat, sigs: map<nat, Signature>) {
    forall i | i in sigs :: DummyOk(params, r, i, sigs[i])
  }

  ghost predicate DummiesOk(s: State) {
    forall r: nat :: RoundDummiesOk(ParamsAt(s.schedule, r), r, At(s.dummyVotes, r))
  }

  /** Dropping dummy votes keeps the rest in order. */
  lemma FewerDummiesOk(s: State, t: State)
    requires DummiesOk(s) && t.schedule == s.schedule
    requires forall r | r in t.dummyVotes :: r in s.dummyVotes && t.dummyVotes[r] == s.dummyVotes[r]
    ensures DummiesOk(t)
  {
    hide RoundDummiesOk, ParamsAt;
    forall r: nat
      ensures RoundDummiesOk(ParamsAt(t.schedule, r), r, At(t.dummyVotes, r))
    {
      assert RoundDummiesOk(ParamsAt(s.schedule, r), r, At(s.dummyVotes, r));
      NoneIsOk(ParamsAt(t.schedule, r), r);
    }
  }

  lemma NoneIsOk(params: ConsensusParams, r: nat)
    ensures RoundDummiesOk(params, r, map[])
  {}

  lemma MoreDummiesOk(s: State, sigs: map<nat, Signature>)
    requires DummiesOk(s) && RoundDummiesOk(ParamsAt(s.schedule, s.round), s.round, sigs)
    ensures DummiesOk(WithDummyVotes(s, sigs))
  {
    hide DummyOk, ParamsAt;
    var t := WithDummyVotes(s, sigs);
    forall r: nat
      ensures RoundDummiesOk(ParamsAt(t.schedule, r), r, At(t.dummyVotes, r))
    {
      assert RoundDummiesOk(ParamsAt(s.schedule, r), r, At(s.dummyVotes, r));
    }
  }

  lemma CountedDummyIsOk(cfg: Config, before: State, s: State, peerIdx: nat, vote: SignedBlock)
    requires CountVote(cfg, before, s, peerIdx, vote).outcome == Done && IsDummy(vote.inner)
             && vote.inner.round == s.round
    ensures RoundDummiesOk(ParamsAt(s.schedule, s.round), s.round, map[peerIdx := vote.sig])
  {
    hide IsDummy, VerifyWithContent, ParamsAt, FinishRound;
  }

  lemma CertifiedDummiesOk(cfg: Config, s: State, cert: Notarized, payload: Payload)
    requires ProcessNotarized(cfg, s, cert, payload).outcome == Done && IsDummy(cert.inner)
    ensures cert.inner.round == s.round && RoundDummiesOk(ParamsAt(s.schedule, s.round), s.round, cert.sigs)
  {
    hide IsDummy, ParamsAt, FinishRound, WithDummyVotes;
    var params := ParamsAt(s.schedule, s.round);
    DummyHasNoPayload(cert.inner, params, payload);
    hide VerifyWithContent;
    forall i | i in cert.sigs
      ensures DummyOk(params, s.round, i, cert.sigs[i])
    {
      assert SigOk(cert, params, i);
    }
  }

  lemma DummyHasNoPayload(block: BlockHeader, params: ConsensusParams, payload: Payload)
    requires IsDummy(block) && VerifyWithContent(block, params, payload).None?
    ensures VerifyWithContent(block, params, []).None?
  {}

  lemma VoteKeepsDummies(cfg: Config, s: State, peerIdx: nat, resp: VoteResponse)
    requires Inv(s) && DummiesOk(s)
    ensures DummiesOk(ProcessVote(cfg, s, peerIdx, resp).state)
  {
    hide Base, DummiesOk, CountVote, FinishRound, WithVote, RoundDummiesOk, ProposalError, IsDummy, KeepVotesFor;
    var t := ProcessVote(cfg, s, peerIdx, resp).state;
    var u := WithVote(s, peerIdx, resp);
    ProcessVoteShape(cfg, s, peerIdx, resp);
    if Enters(s, u) && FinishRound(cfg, u) == Some(t) && t != s {
      if IsDummy(resp.block.inner) {
        DummyVoteForm(cfg, s, peerIdx, resp);
        CountedDummyIsOk(cfg, s, s, peerIdx, resp.block);
        MoreDummiesOk(s, map[peerIdx := resp.block.sig]);
      } else {
        BlockVoteKeepsDummies(s, peerIdx, resp);
        FewerDummiesOk(s, u);
      }
      FinishRoundTables(cfg, u, t);
      FewerDummiesOk(u, t);
    } else {
      ProposalKeepsDummies(s, resp);
      FewerDummiesOk(s, t);
    }
  }

  lemma DummyVoteForm(cfg: Config, s: State, peerIdx: nat, resp: VoteResponse)
    requires IsDummy(resp.block.inner) && ProcessVote(cfg, s, peerIdx, resp).state != s
    ensures resp.Vote? && resp.block.inner.round == s.round
    ensures CountVote(cfg, s, s, peerIdx, resp.block).outcome == Done
    ensures WithVote(s, peerIdx, resp) == WithDummyVotes(s, map[peerIdx := resp.block.sig])
  {
    hide FinishRound, IsDummy, WithDummyVotes, VerifyWithContent;
  }

  lemma BlockVoteKeepsDummies(s: State, peerIdx: nat, resp: VoteResponse)
    requires !IsDummy(resp.block.inner)
    ensures WithVote(s, peerIdx, resp).dummyVotes == s.dummyVotes && WithVote(s, peerIdx, resp).schedule == s.schedule
  {
    hide IsDummy, Put, KeepVotesFor;
  }

  lemma ProposalKeepsDummies(s: State, resp: VoteResponse)
    ensures WithOwnProposal(s, resp).dummyVotes == s.dummyVotes && WithOwnProposal(s, resp).schedule == s.schedule
  {
    hide KeepVotesFor;
  }

  lemma CertificateKeepsDummies(cfg: Config, s: State, cert: Notarized, payload: Payload)
    requires Inv(s) && DummiesOk(s)
    ensures DummiesOk(ProcessNotarized(cfg, s, cert, payload).state)
  {
    hide Base, DummiesOk, ProcessNotarized, FinishRound, WithCert, RoundDummiesOk, Extends, IsDummy;
    var t := ProcessNotarized(cfg, s, cert, payload).state;
    var u := WithCert(s, cert, payload);
    ProcessNotarizedShape(cfg, s, cert, payload);
    if t != s {
      CertDummies(s, cert, payload);
      if IsDummy(cert.inner) {
        CertifiedDummiesOk(cfg, s, cert, payload);
        MoreDummiesOk(s, cert.sigs);
      } else {
        FewerDummiesOk(s, u);
      }
      FinishRoundTables(cfg, u, t);
      FewerDummiesOk(u, t);
    }
  }

  lemma CertDummies(s: State, cert: Notarized, payload: Payload)
    ensures var u := WithCert(s, cert, payload);
            if IsDummy(cert.inner) then u == WithDummyVotes(s, cert.sigs)
              else u.dummyVotes == s.dummyVotes && u.schedule == s.schedule
  {
    hide IsDummy, WithDummyVotes, Rewound, WithCertificate;
    RewoundDummies(s, cert.inner);
    CertificateDummies(Rewound(s, cert.inner), cert, payload);
  }

  lemma RewoundDummies(s: State, block: BlockHeader)
    ensures Rewound(s, block).dummyVotes == s.dummyVotes && Rewound(s, block).schedule == s.schedule
  {
    hide DirectlyExtends;
  }

  lemma CertificateDummies(s: State, cert: Notarized, payload: Payload)
    ensures WithCertificate(s, cert, payload).dummyVotes == s.dummyVotes
    ensures WithCertificate(s, cert, payload).schedule == s.schedule
  {
    hide KeepVotesFor, Put, SignedBy;
  }

  lemma ChangeKeepsDummies(s: State, round: nat, timestamp: nat, peers: seq<PeerPubkey>)
    requires Inv(s) && DummiesOk(s) && GoodPeers(peers)
    ensures DummiesOk(ChangeParams(s, round, timestamp, peers).state)
  {
    hide RoundDummiesOk, ParamsAt, ChangedParams, RowsOk;
    ChangeParamsKeepsInv(s, round, timestamp, peers);
    var t := ChangeParams(s, round, timestamp, peers).state;
    forall r: nat
      ensures RoundDummiesOk(ParamsAt(t.schedule, r), r, At(t.dummyVotes, r))
    {
      assert RoundDummiesOk(ParamsAt(s.schedule, r), r, At(s.dummyVotes, r));
      NoneIsOk(ParamsAt(t.schedule, r), r);
    }
  }

  lemma StepKeepsDummies(cfg: Config, s: State, e: Event)
    requires Inv(s) && DummiesOk(s) && Allowed(cfg, s, e)
    ensures DummiesOk(After(cfg, s, e))
  {
    hide Base, DummiesOk, ProcessVote, ProcessNotarized, ChangeParams, Reopen, Opened, UpdateFinalityVote, FinishRound;
    match e
    case VoteArrives(peerIdx, resp) => VoteKeepsDummies(cfg, s, peerIdx, resp);
    case CertificateArrives(cert, payload) => CertificateKeepsDummies(cfg, s, cert, payload);
    case FinalityVoteArrives(peer, vote, sig) =>
      UpdateFinalityVoteTables(s, peer, vote);
      FewerDummiesOk(s, UpdateFinalityVote(s, peer, vote));
    case MembershipChanges(round, timestamp, peers) => ChangeKeepsDummies(s, round, timestamp, peers);
    case Restarts =>
      if Reopen(cfg, s).Some? {
        OpenedTables(cfg, s);
        OpenedDummies(cfg, s);
        FinishRoundTables(cfg, Opened(cfg, s), Reopen(cfg, s).value);
        FewerDummiesOk(s, Reopen(cfg, s).value);
      }
  }

  lemma OpenedDummies(cfg: Config, s: State)
    ensures var u := Opened(cfg, s); forall r | r in u.dummyVotes ::
            r in s.dummyVotes && u.dummyVotes[r] == s.dummyVotes[r]
  {
    hide UpdateFinalityVote, Reach;
    if cfg.ourPeer.Some? {
      UpdateFinalityVoteTables(s, cfg.ourPeer.value, Reach(s.notarized));
    }
  }

  /** In every run each stored dummy vote was signed by the peer it is stored for. */
  lemma {:induction false} RunsKeepDummies(cfg: Config, params: ConsensusParams, pins: PinTable,
                                           states: seq<State>, events: seq<Event>, i: nat)
    requires IsRun(cfg, params, pins, states, events) && i < |states|
    ensures DummiesOk(states[i])
  {
    hide Inv, DummiesOk, After, Allowed, FreshState, DummyQuorum, OwnVote, Reach;
    if i == 0 {
      NoDummiesAreOk(params, pins);
    } else {
      RunsKeepDummies(cfg, params, pins, states, events, i - 1);
      EveryStateIsGood(cfg, params, pins, states, events, i - 1);
      assert IsStep(cfg, states[i - 1], events[i - 1], states[i - 1 + 1]);
      StepKeepsDummies(cfg, states[i - 1], events[i - 1]);
    }
  }

  lemma NoDummiesAreOk(params: ConsensusParams, pins: PinTable)
    requires GoodPeers(params.peers)
    ensures DummiesOk(FreshState(params, pins))
  {}

  /** All votes of the round are for the dummy block that nodes make themselves. */
  ghost predicate Canonical(s: State, r: nat) {
    forall i | i in At(s.dummyVotes, r) ::
      At(s.dummyVotes, r)[i].Signature?
        && At(s.dummyVotes, r)[i].message == BlockMessage(NewDummy(r, ParamsAt(s.schedule, r)))
  }

  /** The dummy certificate that a server serves is signed if and only if its votes are for that block. */
  lemma ServedDummyIsSignedIff(server: State, r: nat, min: nat)
    requires DummiesOk(server) && Next(server.notarized, min).None? && DummyQuorum(server, r)
    ensures var params := ParamsAt(server.schedule, r);
            var answer := NotarizedBlockResp(server, r, min);
            && answer == Answer(Notarized(NewDummy(r, params), At(server.dummyVotes, r)), [])
            && (QuorumSigned(answer.block, params) <==> Canonical(server, r))
            && (SignatureRefused(answer.block, params) <==> !Canonical(server, r))
  {
    hide NewDummy, VerifyWithContent, IsDummy, ParamsAt;
    var params := ParamsAt(server.schedule, r);
    assert RoundDummiesOk(params, r, At(server.dummyVotes, r));
    var cert := Notarized(NewDummy(r, params), At(server.dummyVotes, r));
    forall i | i in cert.sigs
      ensures i < |params.peers| && (SigOk(cert, params, i) <==> cert.sigs[i].message == BlockMessage(cert.inner))
    {
      assert DummyOk(params, r, i, cert.sigs[i]);
    }
  }

  lemma DummyHeader(r: nat, params: ConsensusParams)
    ensures NewDummy(r, params).round == r
  {}

  /** A node that waits in a round which a server left by a dummy quorum gets the certificate. It refuses
      the signatures if they are not for the dummy block that nodes make; else the certificate ends the
      round, unless the pin of the round does not allow it. */
  lemma ServedDummyEndsRound(cfg: Config, server: State, client: State)
    requires Inv(client) && DummiesOk(server)
    requires ParamsAt(server.schedule, client.round) == ParamsAt(client.schedule, client.round)
    requires Next(server.notarized, Reach(client.notarized)).None? && DummyQuorum(server, client.round)
    ensures var answer := NotarizedBlockResp(server, client.round, Reach(client.notarized));
            && answer.Answer?
            && var step := ProcessNotarized(cfg, client, answer.block, answer.payload);
               && step.outcome == (if !Canonical(server, client.round) then Failed(InvalidSignatures)
                                   else if PinAllows(WithDummyVotes(client, answer.block.sigs)) then Done
                                   else Failed(CertPinnedMismatch))
               && (step.outcome == Done ==> client.round < step.state.round)
  {
    hide Inv, DummiesOk, Canonical, FinishRound, QuorumSigned, VerifyWithContent, IsDummy, ParamsAt, DummyQuorum,
         NotarizedBlockResp, NewDummy, SignatureRefused, PinAllows, WithDummyVotes;
    var r := client.round;
    var params := ParamsAt(client.schedule, r);
    ServedDummyIsSignedIff(server, r, Reach(client.notarized));
    NewDummyIsAcceptable(r, params);
    DummyHeader(r, params);
    var answer := NotarizedBlockResp(server, r, Reach(client.notarized));
    WithDummyVotesKeepsInv(client, answer.block.sigs);
    RejectedOnlyByPin(cfg, WithDummyVotes(client, answer.block.sigs));
    var step := ProcessNotarized(cfg, client, answer.block, answer.payload);
    if step.outcome == Done {
      DummyCertificateEndsRound(cfg, client, answer.block, answer.payload);
    }
  }
}
