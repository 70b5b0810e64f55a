/** What the tables of a node promise about each other, and that every step keeps it. */
module Invariants {
  import opened Wrappers
  import opened OrderedTables
  import opened NumPeers
  import opened Blocks
  import opened Chains
  import opened State

  function Lookup<V>(table: map<nat, V>, r: nat): Option<V> {
    if r in table then Some(table[r]) else None
  }

  /** Everything the tables hold for one round. */
  datatype Row = Row(
    round: nat,
    isCurrent: bool,
    params: ConsensusParams,
    proposal: Option<BlockHeader>,
    notarized: Option<BlockHeader>,
    votes: map<nat, SignedBlock>,
    payloads: map<Hash<Payload>, Payload>)

  function RowAt(s: State, r: nat): Row {
    Row(r, r == s.round, ParamsAt(s.schedule, r), Lookup(s.proposals, r), Lookup(s.notarized, r),
        At(s.blockVotes, r), s.payloads)
  }

  /** A stored block was made for its round and the parameters of that round, and its payload is stored. */
  ghost predicate Stored(row: Row, block: BlockHeader) {
    && block.round == row.round
    && !IsDummy(block)
    && block.payloadHash in row.payloads
    && VerifyWithContent(block, row.params, row.payloads[block.payloadHash]).None?
  }

  /** A stored vote is validly signed by the peer it is stored for, and is for the notarized block of
      its round or else, in the current round, for the proposal. */
  ghost predicate VoteOk(row: Row, i: nat, vote: SignedBlock) {
    && i < |row.params.peers|
    && Verifies(vote.sig, row.params.peers[i], BlockMessage(vote.inner))
    && vote.inner.round == row.round
    && !IsDummy(vote.inner)
    && (row.notarized.Some? ==> vote.inner == row.notarized.value)
    && (row.notarized.None? && row.isCurrent && row.proposal.Some? ==> vote.inner == row.proposal.value)
  }

  ghost predicate VotesOk(row: Row) {
    forall i | i in row.votes :: VoteOk(row, i, row.votes[i])
  }

  ghost predicate RowOk(row: Row) {
    && (row.proposal.Some? ==> Stored(row, row.proposal.value))
    && (row.notarized.Some? ==>
          Stored(row, row.notarized.value) && Threshold(|row.params.peers|) <= |Voters(row.votes)|)
    && VotesOk(row)
  }

  ghost predicate RowsOk(s: State) {
    forall r {:trigger RowAt(s, r)} :: RowOk(RowAt(s, r))
  }

  /** Nothing is stored for rounds to come, except votes for a block that was certified there. */
  ghost predicate NoFutureRows(s: State) {
    && (forall r | r in s.proposals :: r <= s.round)
    && (forall r | r in s.dummyVotes :: r <= s.round)
    && (forall r | r in s.blockVotes :: r <= s.round || r in s.notarized)
  }

  ghost predicate PayloadsOk(s: State) {
    forall h | h in s.payloads :: h == Digest(s.payloads[h])
  }

  /** The part that also holds in the middle of a step. */
  ghost predicate Base(s: State) {
    PayloadsOk(s) && NoFutureRows(s) && RowsOk(s)
  }

  ghost predicate Inv(s: State) {
    Base(s) && Above(s.notarized, s.round)
  }

  // Table writes

  /** A payload is stored under its own hash, so it never replaces a different one. */
  lemma MorePayloads(row: Row, payload: Payload)
    requires RowOk(row) && forall h | h in row.payloads :: h == Digest(row.payloads[h])
    ensures RowOk(row.(payloads := row.payloads[Digest(payload) := payload]))
  {
    var more := row.(payloads := row.payloads[Digest(payload) := payload]);
    forall i | i in row.votes
      ensures VoteOk(more, i, row.votes[i])
    {
      assert VoteOk(row, i, row.votes[i]);
    }
  }

  /** The rows that a step does not touch stay good. */
  lemma OtherRowsStay(s: State, t: State, r0: nat)
    requires RowsOk(s) && RowOk(RowAt(t, r0))
    requires forall r: nat | r != r0 :: RowAt(t, r) == RowAt(s, r)
    ensures RowsOk(t)
  {
    forall r
      ensures RowOk(RowAt(t, r))
    {
      assert RowOk(RowAt(s, r));
    }
  }

  lemma OtherRowsStayWithPayload(s: State, t: State, r0: nat, payload: Payload)
    requires RowsOk(s) && PayloadsOk(s) && RowOk(RowAt(t, r0))
    requires forall r: nat | r != r0 ::
      RowAt(t, r) == RowAt(s, r).(payloads := s.payloads[Digest(payload) := payload])
    ensures RowsOk(t)
  {
    forall r
      ensures RowOk(RowAt(t, r))
    {
      assert RowOk(RowAt(s, r));
      MorePayloads(RowAt(s, r), payload);
    }
  }

  lemma ProposedRow(row: Row, block: BlockHeader, payload: Payload, votes: map<nat, SignedBlock>)
    requires RowOk(row) && row.proposal.None? && row.notarized.None?
    requires block.round == row.round && !IsDummy(block) && VerifyWithContent(block, row.params, payload).None?
    requires |row.params.peers| <= 255 && forall h | h in row.payloads :: h == Digest(row.payloads[h])
    requires forall i | i in votes ::
             i in row.votes && votes[i] == row.votes[i] && (255 <= i || votes[i].inner == block)
    ensures RowOk(row.(proposal := Some(block), votes := votes, payloads := row.payloads[block.payloadHash := payload]))
  {
    var after := row.(proposal := Some(block), votes := votes, payloads := row.payloads[block.payloadHash := payload]);
    forall i | i in votes
      ensures VoteOk(after, i, votes[i])
    {
      assert VoteOk(row, i, row.votes[i]);
    }
  }

  lemma WithProposalKeepsInv(s: State, block: BlockHeader, payload: Payload)
    requires Inv(s) && s.round !in s.proposals && block.round == s.round && !IsDummy(block)
    requires VerifyWithContent(block, ParamsAt(s.schedule, s.round), payload).None?
    ensures Inv(WithProposal(s, block, payload))
  {
    hide RowOk, IsDummy;
    var t := WithProposal(s, block, payload);
    var row := RowAt(s, s.round);
    assert RowOk(row);
    assert block.payloadHash == Digest(payload);
    ProposedRow(row, block, payload, At(t.blockVotes, s.round));
    assert RowAt(t, s.round) ==
           row.(proposal := Some(block), votes := At(t.blockVotes, s.round), payloads := t.payloads);
    OtherRowsStayWithPayload(s, t, s.round, payload);
  }

  lemma VotedRow(row: Row, peerIdx: nat, vote: SignedBlock)
    requires RowOk(row) && row.notarized.None? && VoteOk(row, peerIdx, vote)
    ensures RowOk(row.(votes := row.votes[peerIdx := vote]))
  {
    var after := row.(votes := row.votes[peerIdx := vote]);
    forall i | i in after.votes
      ensures VoteOk(after, i, after.votes[i])
    {
      assert VoteOk(row, i, after.votes[i]);
    }
  }

  lemma OneVote(votes: map<nat, SignedBlock>, peerIdx: nat, vote: SignedBlock)
    ensures votes + map[peerIdx := vote] == votes[peerIdx := vote]
    ensures map[peerIdx := vote] != map[]
  {
    assert peerIdx in map[peerIdx := vote];
  }

  lemma WithBlockVoteKeepsInv(s: State, peerIdx: nat, vote: SignedBlock)
    requires Inv(s) && VoteOk(RowAt(s, s.round), peerIdx, vote)
    ensures Inv(WithBlockVote(s, peerIdx, vote))
  {
    hide RowOk, VoteOk;
    var t := WithBlockVote(s, peerIdx, vote);
    var row := RowAt(s, s.round);
    OneVote(row.votes, peerIdx, vote);
    assert RowOk(row);
    VotedRow(row, peerIdx, vote);
    assert RowAt(t, s.round) == row.(votes := row.votes[peerIdx := vote]);
    OtherRowsStay(s, t, s.round);
  }

  /** Dummy votes and finality votes are in no row. */
  lemma RowsStay(s: State, t: State)
    requires RowsOk(s)
    requires forall r: nat :: RowAt(t, r) == RowAt(s, r)
    ensures RowsOk(t)
  {
    assert RowOk(RowAt(s, 0));
    OtherRowsStay(s, t, 0);
  }

  lemma WithDummyVotesKeepsInv(s: State, sigs: map<nat, Signature>)
    requires Inv(s)
    ensures Inv(WithDummyVotes(s, sigs))
  {
    RowsStay(s, WithDummyVotes(s, sigs));
  }

  /** Votes of a round after a block was certified in it. */
  lemma CertifiedVotes(votes: VoteTable, cert: Notarized)
    requires cert.sigs != map[]
    ensures var r := cert.inner.round;
            var all := Put(KeepVotesFor(votes, cert.inner), r, SignedBy(cert.inner, cert.sigs));
            && r in all && |Voters(cert.sigs)| <= |Voters(all[r])|
            && (forall i | i in cert.sigs :: i in all[r] && all[r][i] == SignedBlock(cert.inner, cert.sigs[i]))
            && (forall i | i in all[r] && i !in cert.sigs :: i in At(votes, r) && all[r][i] == At(votes, r)[i]
                                                      && (255 <= i || all[r][i].inner == cert.inner))
            && all == votes[r := all[r]]
  {
    var r := cert.inner.round;
    var kept := KeepVotesFor(votes, cert.inner);
    var signed := SignedBy(cert.inner, cert.sigs);
    assert signed.Keys == cert.sigs.Keys;
    assert signed != map[];
    var all := Put(kept, r, signed);
    assert all[r] == At(kept, r) + signed;
    SubsetSize(Voters(cert.sigs), Voters(all[r]));
  }

  lemma NoVoters<V>(votes: map<nat, V>)
    ensures votes == map[] ==> |Voters(votes)| == 0
  {
    assert votes == map[] ==> Voters(votes) == {};
  }

  lemma QuorumIsNotEmpty(cert: Notarized, params: ConsensusParams)
    requires QuorumSigned(cert, params) && GoodPeers(params.peers)
    ensures cert.sigs != map[]
  {
    NoVoters(cert.sigs);
  }

  lemma CertifiedRow(row: Row, cert: Notarized, payload: Payload, votes: map<nat, SignedBlock>)
    requires RowOk(row) && cert.inner.round == row.round && row.notarized.None? && !IsDummy(cert.inner)
    requires forall h | h in row.payloads :: h == Digest(row.payloads[h])
    requires QuorumSigned(cert, row.params) && |row.params.peers| <= 255
    requires VerifyWithContent(cert.inner, row.params, payload).None?
    requires |Voters(cert.sigs)| <= |Voters(votes)|
    requires forall i | i in cert.sigs :: i in votes && votes[i] == SignedBlock(cert.inner, cert.sigs[i])
    requires forall i | i in votes && i !in cert.sigs ::
      i in row.votes && votes[i] == row.votes[i] && (255 <= i || votes[i].inner == cert.inner)
    ensures RowOk(row.(notarized := Some(cert.inner), votes := votes,
                       payloads := row.payloads[Digest(payload) := payload]))
  {
    var after := row.(notarized := Some(cert.inner), votes := votes,
                      payloads := row.payloads[Digest(payload) := payload]);
    MorePayloads(row, payload);
    forall i | i in votes
      ensures VoteOk(after, i, votes[i])
    {
      if i in cert.sigs {
        assert SigOk(cert, row.params, i);
      } else {
        assert VoteOk(row, i, row.votes[i]);
      }
    }
  }

  /** Accepting a certificate writes the block, its payload and the votes of one round. */
  lemma CertificateTables(s: State, cert: Notarized, payload: Payload)
    requires cert.inner.round !in s.notarized
    ensures var r := cert.inner.round; var t := WithCertificate(s, cert, payload);
            t == s.(notarized := s.notarized[r := cert.inner],
                    payloads := s.payloads[cert.inner.payloadHash := payload],
                    blockVotes := Put(KeepVotesFor(s.blockVotes, cert.inner), r, SignedBy(cert.inner, cert.sigs)))
  {
    hide Put, KeepVotesFor, SignedBy;
  }

  lemma WithCertificateKeepsBase(s: State, cert: Notarized, payload: Payload)
    requires Base(s) && cert.inner.round !in s.notarized && !IsDummy(cert.inner)
    requires QuorumSigned(cert, ParamsAt(s.schedule, cert.inner.round))
    requires VerifyWithContent(cert.inner, ParamsAt(s.schedule, cert.inner.round), payload).None?
    ensures Base(WithCertificate(s, cert, payload))
  {
    hide RowOk, IsDummy, Put, SignedBy, KeepVotesFor, QuorumSigned, Voters, WithCertificate;
    var t := WithCertificate(s, cert, payload);
    var r := cert.inner.round;
    QuorumIsNotEmpty(cert, ParamsAt(s.schedule, r));
    CertificateTables(s, cert, payload);
    CertifiedVotes(s.blockVotes, cert);
    assert cert.inner.payloadHash == Digest(payload);
    CertifiedRow(RowAt(s, r), cert, payload, t.blockVotes[r]);
    assert RowAt(t, r) == RowAt(s, r).(notarized := Some(cert.inner), votes := t.blockVotes[r], payloads := t.payloads);
    OtherRowsStayWithPayload(s, t, r, payload);
  }

  lemma UnnotarizedRow(row: Row)
    requires RowOk(row) && !row.isCurrent
    ensures RowOk(row.(notarized := None))
  {
    forall i | i in row.votes
      ensures VoteOk(row.(notarized := None), i, row.votes[i])
    {
      assert VoteOk(row, i, row.votes[i]);
    }
  }

  lemma RemoveNotarizedKeepsBase(s: State, last: nat)
    requires Inv(s) && last in s.notarized
    ensures Base(s.(notarized := s.notarized - {last}))
  {
    var t := s.(notarized := s.notarized - {last});
    hide RowOk;
    var row := RowAt(s, last);
    assert RowOk(row);
    UnnotarizedRow(row);
    assert RowAt(t, last) == row.(notarized := None);
    OtherRowsStay(s, t, last);
  }

  // Finality

  lemma UpdateFinalityVoteKeepsInv(s: State, peer: PeerPubkey, vote: nat)
    requires Inv(s)
    ensures Inv(UpdateFinalityVote(s, peer, vote))
  {
    RowsStay(s, UpdateFinalityVote(s, peer, vote));
  }

  // Ending rounds

  /** Only the current round can have a proposal that is not behind a notarized block already, and its
      votes are all for that proposal. */
  lemma FreshBlocksAreCurrent(s: State, end: nat)
    requires Base(s)
    ensures var newBlocks := FreshBlocks(s, end);
            && (newBlocks == map[] ||
                (s.round < end && Above(s.notarized, s.round) && ProposalQuorum(s, s.round)
                 && newBlocks == map[s.round := s.proposals[s.round]]))
            && KeepVotesForAll(s.blockVotes, newBlocks) == s.blockVotes
  {
    hide RowOk, ProposalQuorum;
    var newBlocks := FreshBlocks(s, end);
    if newBlocks != map[] {
      var r :| r in newBlocks;
      assert newBlocks == map[s.round := s.proposals[s.round]];
      CurrentVotesMatchProposal(s);
      assert KeepVotesForAll(s.blockVotes, newBlocks) == s.blockVotes;
    }
  }

  lemma CurrentVotesMatchProposal(s: State)
    requires Base(s) && Above(s.notarized, s.round) && s.round in s.proposals
    ensures s.proposals[s.round].round == s.round
    ensures forall i | i in At(s.blockVotes, s.round) :: At(s.blockVotes, s.round)[i].inner == s.proposals[s.round]
    ensures KeepVotesFor(s.blockVotes, s.proposals[s.round]) == s.blockVotes
  {
    var row := RowAt(s, s.round);
    assert RowOk(row);
    assert row.notarized.None?;
    forall i | i in row.votes
      ensures row.votes[i].inner == s.proposals[s.round]
    {
      assert VoteOk(row, i, row.votes[i]);
    }
    if s.round in s.blockVotes {
      var kept := KeepVotesFor(s.blockVotes, s.proposals[s.round]);
      assert kept[s.round] == s.blockVotes[s.round];
    }
  }

  /** A row that is left behind keeps what it had and may gain the proposal as its block. */
  lemma RowLeftBehind(row: Row)
    requires RowOk(row)
    ensures RowOk(row.(isCurrent := false))
    ensures row.proposal.None? ==> RowOk(row.(isCurrent := true))
    ensures row.isCurrent && row.notarized.None? && row.proposal.Some?
            && Threshold(|row.params.peers|) <= |Voters(row.votes)|
            ==> RowOk(row.(isCurrent := false, notarized := row.proposal))
  {
    forall i | i in row.votes
      ensures VoteOk(row, i, row.votes[i])
    {}
  }

  lemma RowAfterRounds(s: State, end: nat, r: nat)
    requires Base(s) && FirstUnfinished(s, s.round, end)
    ensures RowOk(RowAt(AfterRounds(s, end), r))
  {
    hide RowOk, FreshBlocks, KeepVotesForAll, KeepVotesFor, ParamsAt, DummyQuorum;
    var t := AfterRounds(s, end);
    var row := RowAt(s, r);
    FreshBlocksAreCurrent(s, end);
    RowLeftBehind(row);
    assert RowAt(t, r) == row.(isCurrent := r == end, notarized := Lookup(t.notarized, r));
    if r in FreshBlocks(s, end) {
      assert row.notarized.None? && row.proposal == Lookup(t.notarized, r);
    } else {
      assert row.notarized == Lookup(t.notarized, r);
    }
  }

  lemma AfterRoundsKeepsInv(s: State)
    requires Base(s)
    ensures Inv(AfterRounds(s, EndRound(s)))
  {
    hide RowOk, FreshBlocks, KeepVotesForAll, RowAt, ProposalQuorum, DummyQuorum;
    var end := EndRound(s);
    var t := AfterRounds(s, end);
    FreshBlocksAreCurrent(s, end);
    assert Unfinished(s, end);
    forall r
      ensures RowOk(RowAt(t, r))
    {
      RowAfterRounds(s, end, r);
    }
  }

  lemma FinishRoundKeepsInv(cfg: Config, s: State)
    requires Base(s)
    ensures FinishRound(cfg, s).Some? ==> Inv(FinishRound(cfg, s).value)
  {
    hide UpdateFinalityVote, AfterRounds, Base;
    AfterRoundsKeepsInv(s);
    var t := AfterRounds(s, EndRound(s));
    var last := Highest(t.notarized);
    if cfg.ourPeer.Some? && last.Some? {
      UpdateFinalityVoteKeepsInv(t, cfg.ourPeer.value, last.value + 1);
    }
  }

  // Steps

  lemma CountVoteKeepsInv(cfg: Config, before: State, s: State, peerIdx: nat, vote: SignedBlock)
    requires Inv(before) && Inv(s) && vote.inner.round == s.round
    ensures Inv(CountVote(cfg, before, s, peerIdx, vote).state)
  {
    hide FinishRound, RowOk, WithDummyVotes, WithBlockVote;
    if IsDummy(vote.inner) {
      WithDummyVotesKeepsInv(s, map[peerIdx := vote.sig]);
      FinishRoundKeepsInv(cfg, WithDummyVotes(s, map[peerIdx := vote.sig]));
    } else if VoteOk(RowAt(s, s.round), peerIdx, vote) {
      WithBlockVoteKeepsInv(s, peerIdx, vote);
      FinishRoundKeepsInv(cfg, WithBlockVote(s, peerIdx, vote));
    }
  }

  lemma ProcessVoteKeepsInv(cfg: Config, s: State, peerIdx: nat, resp: VoteResponse)
    requires Inv(s)
    ensures Inv(ProcessVote(cfg, s, peerIdx, resp).state)
  {
    hide CountVote, KeepVotesFor, Base;
    var block := resp.block.inner;
    if block.round == s.round {
      if resp.Vote? {
        CountVoteKeepsInv(cfg, s, s, peerIdx, resp.block);
      } else if ProposalError(cfg, s, peerIdx, block, resp.payload).None? && s.round !in s.proposals {
        WithProposalKeepsInv(s, block, resp.payload);
        CountVoteKeepsInv(cfg, s, WithProposal(s, block, resp.payload), peerIdx, resp.block);
      }
    }
  }

  lemma ProcessNotarizedKeepsInv(cfg: Config, s: State, cert: Notarized, payload: Payload)
    requires Inv(s)
    ensures Inv(ProcessNotarized(cfg, s, cert, payload).state)
  {
    hide FinishRound, WithDummyVotes, ProcessCertified, Base;
    var block := cert.inner;
    var params := ParamsAt(s.schedule, block.round);
    if QuorumSigned(cert, params) && VerifyWithContent(block, params, payload).None? {
      if IsDummy(block) {
        WithDummyVotesKeepsInv(s, cert.sigs);
        FinishRoundKeepsInv(cfg, WithDummyVotes(s, cert.sigs));
      } else {
        ProcessCertifiedKeepsInv(cfg, s, cert, payload);
      }
    }
  }

  lemma ProcessCertifiedKeepsInv(cfg: Config, s: State, cert: Notarized, payload: Payload)
    requires Inv(s) && !IsDummy(cert.inner)
    requires QuorumSigned(cert, ParamsAt(s.schedule, cert.inner.round))
    requires VerifyWithContent(cert.inner, ParamsAt(s.schedule, cert.inner.round), payload).None?
    ensures Inv(ProcessCertified(cfg, s, cert, payload).state)
  {
    hide FinishRound, WithCertificate, QuorumSigned, VerifyWithContent, DirectlyExtends;
    var block := cert.inner;
    var latest := Prev(s.notarized, s.round);
    if latest.Some? {
      assert RowOk(RowAt(s, latest.value));
      assert Lookup(s.notarized, latest.value).value.round == latest.value;
    }
    if latest.None? || latest.value < block.round {
      assert block.round !in s.notarized;
      WithCertificateKeepsBase(s, cert, payload);
      FinishRoundKeepsInv(cfg, WithCertificate(s, cert, payload));
      if latest.Some? {
        var rewound := s.(notarized := s.notarized - {latest.value});
        RemoveNotarizedKeepsBase(s, latest.value);
        WithCertificateKeepsBase(rewound, cert, payload);
        FinishRoundKeepsInv(cfg, WithCertificate(rewound, cert, payload));
      }
    }
  }

  /** Parameters of rounds before the change applies stay what they were. */
  lemma LookupBeforeChange(schedule: Schedule, apply: nat, params: ConsensusParams, round: nat)
    requires GoodPeers(params.peers) && round < apply
    ensures IsSchedule(schedule[apply := params])
            && ParamsAt(schedule[apply := params], round) == ParamsAt(schedule, round)
  {
    PrevDependsOnKeysBelow(schedule, schedule[apply := params], round + 1);
  }

  /** A membership change leaves every stored certificate with the quorum it had. */
  lemma ChangeParamsKeepsInv(s: State, round: nat, timestamp: nat, peers: seq<PeerPubkey>)
    requires Inv(s) && GoodPeers(peers)
    ensures var t := ChangeParams(s, round, timestamp, peers).state;
            Inv(t) && forall r: nat | r <= s.round :: ParamsAt(t.schedule, r) == ParamsAt(s.schedule, r)
  {
    var params := ChangedParams(s, round, timestamp, peers);
    var t := ChangeParams(s, round, timestamp, peers).state;
    if s.round < params.applyRound {
      forall r: nat | r <= s.round
        ensures ParamsAt(t.schedule, r) == ParamsAt(s.schedule, r)
      {
        LookupBeforeChange(s.schedule, params.applyRound, params, r);
      }
      forall r: nat
        ensures RowOk(RowAt(t, r))
      {
        assert RowOk(RowAt(s, r));
        assert r <= s.round ==> RowAt(t, r) == RowAt(s, r);
      }
    }
  }

  lemma ReopenKeepsInv(cfg: Config, s: State)
    requires Inv(s)
    ensures Reopen(cfg, s).Some? ==> Inv(Reopen(cfg, s).value)
  {
    hide UpdateFinalityVote, FinishRound, Base, Above;
    var latest := PrevBlock(s.notarized, s.round);
    var own := if latest.Some? then latest.value.round + 1 else 0;
    if cfg.ourPeer.Some? {
      UpdateFinalityVoteKeepsInv(s, cfg.ourPeer.value, own);
      FinishRoundKeepsInv(cfg, UpdateFinalityVote(s, cfg.ourPeer.value, own));
    } else {
      FinishRoundKeepsInv(cfg, s);
    }
  }
}
