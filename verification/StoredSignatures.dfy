/** Where the signatures in the vote table come from: a step stores only signatures it was given. */
module StoredSignatures {
  import opened Wrappers
  import opened OrderedTables
  import opened Blocks
  import opened State
  import opened Invariants
  import opened Steps
  import opened Progress
  import opened Runs

  ghost predicate AllKnown(votes: map<nat, SignedBlock>, known: iset<Signature>) {
    forall i | i in votes :: votes[i].sig in known
  }

  /** Every stored block vote has a signature from `known`. */
  ghost predicate SigsKnown(votes: VoteTable, known: iset<Signature>) {
    forall r: nat :: AllKnown(At(votes, r), known)
  }

  /** The signatures an event brings are from `known`. */
  ghost predicate Brings(e: Event, known: iset<Signature>) {
    match e
    case VoteArrives(_, resp) => resp.block.sig in known
    case CertificateArrives(cert, _) => forall i | i in cert.sigs :: cert.sigs[i] in known
    case FinalityVoteArrives(_, _, sig) => sig in known
    case _ => true
  }

  lemma KeptVotesAreKnown(votes: VoteTable, block: BlockHeader, known: iset<Signature>)
    requires SigsKnown(votes, known)
    ensures SigsKnown(KeepVotesFor(votes, block), known)
  {
    forall r: nat
      ensures AllKnown(At(KeepVotesFor(votes, block), r), known)
    {
      assert AllKnown(At(votes, r), known);
    }
  }

  lemma PutKnownVotes(votes: VoteTable, r0: nat, more: map<nat, SignedBlock>, known: iset<Signature>)
    requires SigsKnown(votes, known) && AllKnown(more, known)
    ensures SigsKnown(Put(votes, r0, more), known)
  {
    forall r: nat
      ensures AllKnown(At(Put(votes, r0, more), r), known)
    {
      assert AllKnown(At(votes, r), known);
    }
  }

  lemma VoteStoresKnown(cfg: Config, s: State, peerIdx: nat, resp: VoteResponse, known: iset<Signature>)
    requires Inv(s) && SigsKnown(s.blockVotes, known) && resp.block.sig in known
    ensures SigsKnown(ProcessVote(cfg, s, peerIdx, resp).state.blockVotes, known)
  {
    hide Base, ProcessVote, FinishRound, SigsKnown, AllKnown, KeepVotesFor, Put, ProposalError;
    var t := ProcessVote(cfg, s, peerIdx, resp).state;
    ProcessVoteShape(cfg, s, peerIdx, resp);
    KeptVotesAreKnown(s.blockVotes, resp.block.inner, known);
    assert SigsKnown(WithOwnProposal(s, resp).blockVotes, known);
    var u := WithVote(s, peerIdx, resp);
    if Enters(s, u) && FinishRound(cfg, u) == Some(t) {
      OneKnownVote(peerIdx, resp.block, known);
      PutKnownVotes(WithOwnProposal(s, resp).blockVotes, s.round, map[peerIdx := resp.block], known);
      FinishRoundTables(cfg, u, t);
    }
  }

  lemma OneKnownVote(i: nat, vote: SignedBlock, known: iset<Signature>)
    requires vote.sig in known
    ensures AllKnown(map[i := vote], known)
  {}

  lemma CertVotes(s: State, cert: Notarized, payload: Payload)
    requires IsDummy(cert.inner) || Extends(s, cert.inner)
    ensures WithCert(s, cert, payload).blockVotes ==
            if IsDummy(cert.inner) then s.blockVotes
            else Put(KeepVotesFor(s.blockVotes, cert.inner), cert.inner.round, SignedBy(cert.inner, cert.sigs))
  {
    hide KeepVotesFor, Put, SignedBy, IsDummy, DirectlyExtends;
  }

  lemma SignedByKnown(block: BlockHeader, sigs: map<nat, Signature>, known: iset<Signature>)
    requires forall i | i in sigs :: sigs[i] in known
    ensures AllKnown(SignedBy(block, sigs), known)
  {}

  lemma CertificateStoresKnown(cfg: Config, s: State, cert: Notarized, payload: Payload, known: iset<Signature>)
    requires Inv(s) && SigsKnown(s.blockVotes, known) && forall i | i in cert.sigs :: cert.sigs[i] in known
    ensures SigsKnown(ProcessNotarized(cfg, s, cert, payload).state.blockVotes, known)
  {
    hide Base, ProcessNotarized, FinishRound, SigsKnown, AllKnown, KeepVotesFor, Put, Extends, IsDummy, WithCert,
         SignedBy;
    var t := ProcessNotarized(cfg, s, cert, payload).state;
    ProcessNotarizedShape(cfg, s, cert, payload);
    if t != s {
      SignedByKnown(cert.inner, cert.sigs, known);
      KeptVotesAreKnown(s.blockVotes, cert.inner, known);
      PutKnownVotes(KeepVotesFor(s.blockVotes, cert.inner), cert.inner.round, SignedBy(cert.inner, cert.sigs), known);
      CertVotes(s, cert, payload);
      FinishRoundTables(cfg, WithCert(s, cert, payload), t);
    }
  }

  lemma StepStoresKnown(cfg: Config, s: State, e: Event, known: iset<Signature>)
    requires Inv(s) && Allowed(cfg, s, e) && SigsKnown(s.blockVotes, known) && Brings(e, known)
    ensures SigsKnown(After(cfg, s, e).blockVotes, known)
  {
    hide Base, ProcessVote, ProcessNotarized, SigsKnown, FinishRound, Reopen, Opened, UpdateFinalityVote, ChangedParams;
    match e
    case VoteArrives(peerIdx, resp) => VoteStoresKnown(cfg, s, peerIdx, resp, known);
    case CertificateArrives(cert, payload) => CertificateStoresKnown(cfg, s, cert, payload, known);
    case FinalityVoteArrives(peer, vote, sig) => UpdateFinalityVoteTables(s, peer, vote);
    case MembershipChanges(round, timestamp, peers) =>
    case Restarts =>
      if Reopen(cfg, s).Some? {
        OpenedTables(cfg, s);
        FinishRoundTables(cfg, Opened(cfg, s), Reopen(cfg, s).value);
      }
  }

  lemma MoreIsKnown(votes: VoteTable, known: iset<Signature>, more: iset<Signature>)
    requires SigsKnown(votes, known) && known <= more
    ensures SigsKnown(votes, more)
  {
    forall r: nat
      ensures AllKnown(At(votes, r), more)
    {
      assert AllKnown(At(votes, r), known);
    }
  }

  /** A proposal that was processed without an error is the stored one. */
  lemma ProposalIsStored(cfg: Config, s: State, peerIdx: nat, resp: VoteResponse)
    requires Inv(s) && resp.Proposal? && ProcessVote(cfg, s, peerIdx, resp).outcome == Done
    ensures var t := ProcessVote(cfg, s, peerIdx, resp).state; var block := resp.block.inner;
            block.round == s.round && !IsDummy(block) && block.round in t.proposals && t.proposals[block.round] == block
  {
    hide Base, CountVote, FinishRound, KeepVotesFor, VerifyWithContent;
    var block := resp.block.inner;
    if s.round !in s.proposals {
      var p := WithProposal(s, block, resp.payload);
      WithProposalKeepsInv(s, block, resp.payload);
      CountBlockVoteShape(cfg, s, p, peerIdx, resp.block);
      var step := CountVote(cfg, s, p, peerIdx, resp.block);
      if step.state != p {
        FinishRoundTables(cfg, WithBlockVote(p, peerIdx, resp.block), step.state);
      }
    }
  }

  // Finality votes

  /** Where a stored finality vote comes from. */
  ghost predicate VoteExplained(cfg: Config, s: State, e: Event, t: State, p: PeerPubkey)
    requires p in t.finalityVotes
  {
    || (p in s.finalityVotes && t.finalityVotes[p] == s.finalityVotes[p])
    || cfg.ourPeer == Some(p)
    || (e.FinalityVoteArrives? && p == e.peer && t.finalityVotes[p] == e.vote
       && Verifies(e.sig, p, FinalityMessage(e.vote)))
  }

  lemma FinishKeepsFinalityVotes(cfg: Config, u: State, t: State)
    requires Base(u) && FinishRound(cfg, u) == Some(t)
    ensures forall p | p in t.finalityVotes ::
              cfg.ourPeer == Some(p) || (p in u.finalityVotes && t.finalityVotes[p] == u.finalityVotes[p])
  {
    hide Base, FinishRound, EndRound, AfterRounds, Highest;
    FinishRoundTables(cfg, u, t);
  }

  lemma StepExplainsFinalityVotes(cfg: Config, s: State, e: Event)
    requires Inv(s) && Allowed(cfg, s, e)
    ensures forall p | p in After(cfg, s, e).finalityVotes :: VoteExplained(cfg, s, e, After(cfg, s, e), p)
  {
    hide Base, ProcessVote, ProcessNotarized, FinishRound, Reopen, Opened, UpdateFinalityVote, ChangedParams, WithVote,
         WithCert, Extends, CommitsBeforeLoop;
    match e
    case VoteArrives(peerIdx, resp) =>
      ProcessVoteShape(cfg, s, peerIdx, resp);
      OwnProposalFinality(s, resp);
      if Enters(s, WithVote(s, peerIdx, resp))
        && FinishRound(cfg, WithVote(s, peerIdx, resp)) == Some(After(cfg, s, e)) {
        FinishKeepsFinalityVotes(cfg, WithVote(s, peerIdx, resp), After(cfg, s, e));
      }
    case CertificateArrives(cert, payload) =>
      ProcessNotarizedShape(cfg, s, cert, payload);
      if After(cfg, s, e) != s {
        FinishKeepsFinalityVotes(cfg, WithCert(s, cert, payload), After(cfg, s, e));
      }
    case FinalityVoteArrives(peer, vote, sig) => UpdateFinalityVoteTables(s, peer, vote);
    case MembershipChanges(round, timestamp, peers) =>
    case Restarts =>
      if Reopen(cfg, s).Some? {
        OpenedTables(cfg, s);
        FinishKeepsFinalityVotes(cfg, Opened(cfg, s), Reopen(cfg, s).value);
      }
  }

  lemma OwnProposalFinality(s: State, resp: VoteResponse)
    ensures WithOwnProposal(s, resp).finalityVotes == s.finalityVotes
  {
    hide KeepVotesFor;
  }
}
