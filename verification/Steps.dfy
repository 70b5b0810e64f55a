/** The shape of a step: the tables are left alone, or they are written and the round loop runs.
    One path of `ProcessVote` writes them and skips the loop. */
module Steps {
  import opened Wrappers
  import opened OrderedTables
  import opened Blocks
  import opened Chains
  import opened State
  import opened Invariants

  /** One past the highest notarized round. */
  function Reach(table: BlockTable): nat {
    match Highest(table)
    case Some(r) => r + 1
    case None => 0
  }

  /** What a step may write before the round loop runs. */
  ghost predicate Enters(s: State, u: State) {
    && Base(u)
    && u.round == s.round && u.schedule == s.schedule && u.pins == s.pins
    && u.finalityVotes == s.finalityVotes
    && (forall r | r in s.proposals :: r in u.proposals && u.proposals[r] == s.proposals[r])
    && Reach(s.notarized) <= Reach(u.notarized)
  }

  // Votes

  function WithOwnProposal(s: State, resp: VoteResponse): State {
    match resp
    case Proposal(block, payload) => WithProposal(s, block.inner, payload)
    case Vote(_) => s
  }

  /** The tables a vote is counted in. */
  function Counted(s: State, peerIdx: nat, vote: SignedBlock): State {
    if IsDummy(vote.inner) then WithDummyVotes(s, map[peerIdx := vote.sig]) else WithBlockVote(s, peerIdx, vote)
  }

  function WithVote(s: State, peerIdx: nat, resp: VoteResponse): State {
    Counted(WithOwnProposal(s, resp), peerIdx, resp.block)
  }

  /** The leader's proposal arrives, but the leader's vote with the same signature came before it: the
      proposal is stored and the transaction commits before the round loop. */
  ghost predicate CommitsBeforeLoop(cfg: Config, s: State, peerIdx: nat, resp: VoteResponse) {
    && resp.Proposal?
    && resp.block.inner.round == s.round
    && s.round !in s.proposals
    && ProposalError(cfg, s, peerIdx, resp.block.inner, resp.payload).None?
    && peerIdx in At(s.blockVotes, s.round)
    && At(s.blockVotes, s.round)[peerIdx] == resp.block
  }

  lemma RepeatedVote<V>(votes: map<nat, map<nat, V>>, r: nat, i: nat)
    requires i in At(votes, r)
    ensures Put(votes, r, map[i := At(votes, r)[i]]) == votes
  {
    assert i in map[i := At(votes, r)[i]];
    assert At(votes, r) + map[i := At(votes, r)[i]] == At(votes, r);
  }

  /** A signature is for one block only, so a repeated signature is a repeated vote. */
  lemma SameSignatureSameVote(s: State, i: nat, vote: SignedBlock)
    requires Base(s) && i in At(s.blockVotes, s.round) && At(s.blockVotes, s.round)[i].sig == vote.sig
    requires i < |ParamsAt(s.schedule, s.round).peers|
    requires Verifies(vote.sig, ParamsAt(s.schedule, s.round).peers[i], BlockMessage(vote.inner))
    ensures At(s.blockVotes, s.round)[i] == vote
  {
    var row := RowAt(s, s.round);
    assert RowOk(row);
    assert VoteOk(row, i, row.votes[i]);
  }

  lemma CountVoteShape(cfg: Config, before: State, s: State, peerIdx: nat, vote: SignedBlock)
    requires Inv(s) && vote.inner.round == s.round
    ensures var counted := Counted(s, peerIdx, vote);
            var step := CountVote(cfg, before, s, peerIdx, vote);
            || step.state == before
            || (step == Step(Done, s) && (!IsDummy(vote.inner) ==> peerIdx in At(s.blockVotes, s.round)
                                                                   && At(s.blockVotes, s.round)[peerIdx] == vote))
            || (step.outcome == Done && Inv(counted) && FinishRound(cfg, counted) == Some(step.state))
  {
    hide FinishRound, Base, RowOk, At, WithDummyVotes, WithBlockVote;
    var step := CountVote(cfg, before, s, peerIdx, vote);
    if step.outcome == Done {
      if IsDummy(vote.inner) {
        WithDummyVotesKeepsInv(s, map[peerIdx := vote.sig]);
        if peerIdx in At(s.dummyVotes, s.round) {
          RepeatedDummies(s, peerIdx);
        }
      } else {
        CountBlockVoteShape(cfg, before, s, peerIdx, vote);
      }
    }
  }

  lemma RepeatedDummies(s: State, i: nat)
    requires i in At(s.dummyVotes, s.round)
    ensures WithDummyVotes(s, map[i := At(s.dummyVotes, s.round)[i]]) == s
  {
    RepeatedVote(s.dummyVotes, s.round, i);
  }

  lemma RepeatedVotes(s: State, i: nat)
    requires i in At(s.blockVotes, s.round)
    ensures WithBlockVote(s, i, At(s.blockVotes, s.round)[i]) == s
  {
    RepeatedVote(s.blockVotes, s.round, i);
  }

  lemma CountBlockVoteShape(cfg: Config, before: State, s: State, peerIdx: nat, vote: SignedBlock)
    requires Inv(s) && vote.inner.round == s.round && !IsDummy(vote.inner)
    requires CountVote(cfg, before, s, peerIdx, vote).outcome == Done
    ensures var step := CountVote(cfg, before, s, peerIdx, vote);
            || (step.state == s && peerIdx in At(s.blockVotes, s.round) && At(s.blockVotes, s.round)[peerIdx] == vote)
            || (Inv(WithBlockVote(s, peerIdx, vote))
               && FinishRound(cfg, WithBlockVote(s, peerIdx, vote)) == Some(step.state))
  {
    hide FinishRound, Base, RowOk, At, WithBlockVote, WithDummyVotes;
    if peerIdx in At(s.blockVotes, s.round) {
      SameSignatureSameVote(s, peerIdx, vote);
      RepeatedVotes(s, peerIdx);
    } else {
      assert s.round !in s.notarized;
      assert VoteOk(RowAt(s, s.round), peerIdx, vote);
      WithBlockVoteKeepsInv(s, peerIdx, vote);
    }
  }

  lemma KeptVotesWereThere(votes: VoteTable, block: BlockHeader, i: nat)
    requires i in At(KeepVotesFor(votes, block), block.round)
    ensures i in At(votes, block.round)
    ensures At(KeepVotesFor(votes, block), block.round)[i] == At(votes, block.round)[i]
  {}

  lemma ProposedCountShape(cfg: Config, s: State, peerIdx: nat, resp: VoteResponse)
    requires Inv(s) && resp.Proposal? && resp.block.inner.round == s.round && s.round !in s.proposals
    requires ProposalError(cfg, s, peerIdx, resp.block.inner, resp.payload).None?
    ensures var p := WithOwnProposal(s, resp);
            var step := CountVote(cfg, s, p, peerIdx, resp.block);
            || step.state == s
            || (step == Step(Done, p) && CommitsBeforeLoop(cfg, s, peerIdx, resp))
            || (step.outcome == Done && Inv(WithVote(s, peerIdx, resp))
                && FinishRound(cfg, WithVote(s, peerIdx, resp)) == Some(step.state))
  {
    hide FinishRound, Base, KeepVotesFor, CountVote, At, WithBlockVote;
    var p := WithOwnProposal(s, resp);
    WithProposalKeepsInv(s, resp.block.inner, resp.payload);
    CountVoteShape(cfg, s, p, peerIdx, resp.block);
    if peerIdx in At(p.blockVotes, s.round) {
      KeptVotesWereThere(s.blockVotes, resp.block.inner, peerIdx);
    }
  }

  lemma WithVoteEnters(s: State, peerIdx: nat, resp: VoteResponse)
    requires Inv(WithVote(s, peerIdx, resp)) && resp.block.inner.round == s.round
    requires resp.Proposal? ==> s.round !in s.proposals
    ensures Enters(s, WithVote(s, peerIdx, resp)) && WithVote(s, peerIdx, resp).notarized == s.notarized
  {
    hide Base, KeepVotesFor, IsDummy, Put;
  }

  lemma VoteCountedIn(s: State, peerIdx: nat, resp: VoteResponse)
    requires resp.Vote?
    ensures WithVote(s, peerIdx, resp) == Counted(s, peerIdx, resp.block)
  {
    hide WithDummyVotes, WithBlockVote, IsDummy;
  }

  /** Every outcome of `ProcessVote`. */
  lemma ProcessVoteShape(cfg: Config, s: State, peerIdx: nat, resp: VoteResponse)
    requires Inv(s)
    ensures var step := ProcessVote(cfg, s, peerIdx, resp);
            || step.state == s
            || (CommitsBeforeLoop(cfg, s, peerIdx, resp) && step == Step(Done, WithOwnProposal(s, resp)))
            || (step.outcome == Done && Enters(s, WithVote(s, peerIdx, resp))
                && WithVote(s, peerIdx, resp).notarized == s.notarized
                && resp.block.inner.round == s.round
                && (resp.Proposal? ==> s.round !in s.proposals
                                       && ProposalError(cfg, s, peerIdx, resp.block.inner, resp.payload).None?)
                && FinishRound(cfg, WithVote(s, peerIdx, resp)) == Some(step.state))
  {
    hide FinishRound, Base, CountVote, CommitsBeforeLoop, ProposalError, WithVote, Enters;
    if resp.block.inner.round == s.round {
      if resp.Vote? {
        CountVoteShape(cfg, s, s, peerIdx, resp.block);
        VoteCountedIn(s, peerIdx, resp);
      } else if ProposalError(cfg, s, peerIdx, resp.block.inner, resp.payload).None? && s.round !in s.proposals {
        ProposedCountShape(cfg, s, peerIdx, resp);
      }
      if Inv(WithVote(s, peerIdx, resp)) && (resp.Proposal? ==> s.round !in s.proposals) {
        WithVoteEnters(s, peerIdx, resp);
      }
    }
  }

  // Certificates

  /** The tables the certified block is inserted in: all of them, or those without the last block. */
  function Rewound(s: State, block: BlockHeader): State {
    var latest := Prev(s.notarized, s.round);
    if latest.Some? && !DirectlyExtends(block, PrevBlock(s.notarized, s.round))
    then s.(notarized := s.notarized - {latest.value}) else s
  }

  /** The tables a certificate leaves before the round loop. */
  function WithCert(s: State, cert: Notarized, payload: Payload): State {
    if IsDummy(cert.inner) then WithDummyVotes(s, cert.sigs)
    else WithCertificate(Rewound(s, cert.inner), cert, payload)
  }

  /** A certified block extends what it is put on, above everything that is kept. */
  ghost predicate Extends(s: State, block: BlockHeader) {
    var base := Rewound(s, block).notarized;
    && Reach(s.notarized) <= block.round
    && Above(base, block.round)
    && DirectlyExtends(block, PrevBlock(base, block.round))
  }

  ghost predicate CertShape(cfg: Config, s: State, cert: Notarized, payload: Payload, step: Step<CertError>) {
    || step.state == s
    || (&& step.outcome == Done
        && Enters(s, WithCert(s, cert, payload))
        && (IsDummy(cert.inner) ==> cert.inner.round == s.round)
        && (!IsDummy(cert.inner) ==> Extends(s, cert.inner))
        && FinishRound(cfg, WithCert(s, cert, payload)) == Some(step.state))
  }

  lemma LatestIsHighest(s: State)
    requires Inv(s)
    ensures Prev(s.notarized, s.round) == Highest(s.notarized)
    ensures Highest(s.notarized).Some? ==> s.notarized[Highest(s.notarized).value].round == Highest(s.notarized).value
  {
    PrevBlockAboveAll(s.notarized, s.round, s.round);
    var h := Highest(s.notarized);
    if h.Some? {
      assert RowOk(RowAt(s, h.value));
      assert Lookup(s.notarized, h.value).Some?;
    }
  }

  /** Every outcome of `ProcessNotarized`. */
  lemma ProcessNotarizedShape(cfg: Config, s: State, cert: Notarized, payload: Payload)
    requires Inv(s)
    ensures CertShape(cfg, s, cert, payload, ProcessNotarized(cfg, s, cert, payload))
  {
    hide FinishRound, Base, WithCertificate, ProcessCertified, Extends;
    var step := ProcessNotarized(cfg, s, cert, payload);
    if step.state != s {
      if IsDummy(cert.inner) {
        WithDummyVotesKeepsInv(s, cert.sigs);
      } else {
        ProcessCertifiedShape(cfg, s, cert, payload);
      }
    }
  }

  lemma ProcessCertifiedShape(cfg: Config, s: State, cert: Notarized, payload: Payload)
    requires Inv(s) && !IsDummy(cert.inner)
    requires QuorumSigned(cert, ParamsAt(s.schedule, cert.inner.round))
    requires VerifyWithContent(cert.inner, ParamsAt(s.schedule, cert.inner.round), payload).None?
    ensures CertShape(cfg, s, cert, payload, ProcessCertified(cfg, s, cert, payload))
  {
    hide FinishRound, Base, WithCertificate, QuorumSigned, VerifyWithContent, ParamsAt, DirectlyExtends, Enters,
         IsDummy;
    var block := cert.inner;
    var latest := Prev(s.notarized, s.round);
    LatestIsHighest(s);
    if latest.None? || latest.value < block.round {
      CertifiedBlockIsNew(s, block);
      RewoundKeepsBase(s, block);
      WithCertificateKeepsBase(Rewound(s, block), cert, payload);
      CertEnters(s, cert, payload);
    }
  }

  lemma RewoundKeepsBase(s: State, block: BlockHeader)
    requires Inv(s)
    ensures Base(Rewound(s, block)) && Rewound(s, block).schedule == s.schedule
  {
    hide Base, DirectlyExtends;
    if Rewound(s, block) != s {
      RemoveNotarizedKeepsBase(s, Prev(s.notarized, s.round).value);
    }
  }

  /** Above the last block, what a block has to extend does not depend on the round it is for. */
  lemma CertifiedBlockIsNew(s: State, block: BlockHeader)
    requires Inv(s) && Reach(s.notarized) <= block.round
    ensures block.round !in s.notarized && block.round !in Rewound(s, block).notarized
    ensures Above(Rewound(s, block).notarized, block.round)
    ensures PrevBlock(s.notarized, block.round) == PrevBlock(s.notarized, s.round)
    ensures Highest(s.notarized).Some? ==>
            PrevBlock(s.notarized - {Highest(s.notarized).value}, block.round)
            == PrevBlock(s.notarized, Highest(s.notarized).value)
  {
    hide Base, DirectlyExtends;
    var h := Highest(s.notarized);
    LatestIsHighest(s);
    PrevBlockAboveAll(s.notarized, Reach(s.notarized), s.round);
    PrevBlockAboveAll(s.notarized, Reach(s.notarized), block.round);
    if h.Some? {
      var rest := s.notarized - {h.value};
      PrevBlockOfPrefix(s.notarized, h.value, h.value);
      PrevBlockAboveAll(rest, h.value, block.round);
    }
  }

  lemma CertEnters(s: State, cert: Notarized, payload: Payload)
    requires Inv(s) && !IsDummy(cert.inner) && Reach(s.notarized) <= cert.inner.round
    requires Base(WithCert(s, cert, payload)) && cert.inner.round !in Rewound(s, cert.inner).notarized
    ensures Enters(s, WithCert(s, cert, payload))
  {
    hide Base, DirectlyExtends, Put, KeepVotesFor, SignedBy, IsDummy;
    var u := WithCert(s, cert, payload);
    assert cert.inner.round in u.notarized;
    assert Highest(u.notarized).value >= cert.inner.round;
  }
}
