/** The notarized table stays a hash-linked chain. */
module ChainSteps {
  import opened Wrappers
  import opened OrderedTables
  import opened Blocks
  import opened Chains
  import opened State
  import opened Invariants
  import opened Steps
  import opened Progress

  /** The proposal of the current round, if no notarized block has passed it, extends the chain. */
  ghost predicate ProposalExtends(s: State) {
    Above(s.notarized, s.round) && s.round in s.proposals ==>
      DirectlyExtends(s.proposals[s.round], PrevBlock(s.notarized, s.round))
  }

  ghost predicate Chained(s: State) {
    Linked(s.notarized) && ProposalExtends(s)
  }

  lemma FinishRoundKeepsChain(cfg: Config, u: State, t: State)
    requires Base(u) && Chained(u) && FinishRound(cfg, u) == Some(t)
    ensures Chained(t)
  {
    hide RowsOk, FinishRound, Linked, DirectlyExtends, ProposalQuorum, EndRound, AfterRounds;
    FinishRoundTables(cfg, u, t);
    FinishRoundNotarizes(cfg, u, t);
    if t.notarized != u.notarized {
      LinkedAppend(u.notarized, u.proposals[u.round]);
    }
  }

  /** Accepting votes and proposals keeps the chain, in every run. */
  lemma ProcessVoteKeepsChain(cfg: Config, s: State, peerIdx: nat, resp: VoteResponse)
    requires Inv(s) && Chained(s)
    ensures Chained(ProcessVote(cfg, s, peerIdx, resp).state)
  {
    hide ProcessVote, FinishRound, Base, KeepVotesFor, Put, Linked, DirectlyExtends, IsDummy, VerifyWithContent;
    var t := ProcessVote(cfg, s, peerIdx, resp).state;
    var u := WithVote(s, peerIdx, resp);
    ProcessVoteShape(cfg, s, peerIdx, resp);
    if t != s && FinishRound(cfg, u) == Some(t) && Enters(s, u) {
      assert Chained(u);
      FinishRoundKeepsChain(cfg, u, t);
    }
  }

  lemma RewoundIsLinked(s: State, block: BlockHeader)
    requires Inv(s) && Linked(s.notarized)
    ensures Linked(Rewound(s, block).notarized)
  {
    hide Base, DirectlyExtends, Linked;
    LatestIsHighest(s);
    if Rewound(s, block) != s {
      LinkedPrefix(s.notarized, Prev(s.notarized, s.round).value);
    }
  }

  /** A certificate keeps the chain, also where it replaces the last block, unless it is for a round below
      the current one and a proposal is held for the current round. */
  lemma ProcessNotarizedKeepsChain(cfg: Config, s: State, cert: Notarized, payload: Payload)
    requires Inv(s) && Chained(s)
    requires cert.inner.round < s.round ==> s.round !in s.proposals
    ensures Chained(ProcessNotarized(cfg, s, cert, payload).state)
  {
    hide ProcessNotarized, FinishRound, Base, KeepVotesFor, Put, Linked, DirectlyExtends, IsDummy, SignedBy, Rewound;
    var t := ProcessNotarized(cfg, s, cert, payload).state;
    var u := WithCert(s, cert, payload);
    ProcessNotarizedShape(cfg, s, cert, payload);
    if t != s {
      if !IsDummy(cert.inner) {
        RewoundIsLinked(s, cert.inner);
        LinkedAppend(Rewound(s, cert.inner).notarized, cert.inner);
        CertTables(s, cert, payload);
        assert cert.inner.round in u.notarized;
      } else {
        assert u.notarized == s.notarized && u.proposals == s.proposals;
      }
      FinishRoundKeepsChain(cfg, u, t);
    }
  }

  lemma CertTables(s: State, cert: Notarized, payload: Payload)
    requires !IsDummy(cert.inner) && Extends(s, cert.inner)
    ensures var u := WithCert(s, cert, payload);
            && u.notarized == Rewound(s, cert.inner).notarized[cert.inner.round := cert.inner]
            && u.proposals == s.proposals && u.round == s.round
  {
    hide DirectlyExtends, Put, KeepVotesFor, SignedBy, IsDummy;
  }

  lemma OtherStepsKeepChain(cfg: Config, s: State)
    requires Inv(s) && Chained(s)
    ensures forall peer, round, sig :: Chained(ProcessFinalityVote(s, peer, round, sig).state)
    ensures forall round, timestamp, peers | GoodPeers(peers) :: Chained(ChangeParams(s, round, timestamp, peers).state)
    ensures Reopen(cfg, s).Some? ==> Chained(Reopen(cfg, s).value)
  {
    hide UpdateFinalityVote, Base, Linked, DirectlyExtends, FinishRound, Reopen, Opened, ChangedParams;
    forall peer, round, sig
      ensures Chained(ProcessFinalityVote(s, peer, round, sig).state)
    {
      UpdateFinalityVoteTables(s, peer, round);
    }
    if Reopen(cfg, s).Some? {
      OpenedTables(cfg, s);
      FinishRoundKeepsChain(cfg, Opened(cfg, s), Reopen(cfg, s).value);
    }
  }
}
