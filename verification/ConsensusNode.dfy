/** A node as the program runs it: tables that methods change in place, and transactions that put
    them back when a step fails. Each step is proved to do what its specification on values says. */
module ConsensusNode {
  import opened Wrappers
  import opened OrderedTables
  import opened NumPeers
  import opened Blocks
  import opened Chains
  import opened Sorting
  import opened Finality
  import opened State
  import opened Invariants
  import opened Steps
  import opened Progress
  import opened CatchUp
  import opened ParamTables
  import opened RoundLoop
  import opened VoteSets

  class Consensus {
    const cfg: Config
    var round: nat
    var paramsSchedule: ParamsSchedule
    var paramsByHash: ParamsByHash
    var proposals: BlockTable
    var notarized: BlockTable
    var payloads: PayloadTable
    var blockVotes: VoteTable
    var dummyVotes: DummyVoteTable
    var pins: PinTable
    var finalityVotes: FinalityVoteTable
    var finality: Option<nat>

    /** Every scheduled hash has its parameters. */
    predicate Resolved()
      reads `paramsSchedule, `paramsByHash
    {
      Resolves(paramsSchedule, paramsByHash)
    }

    function Params(): Schedule
      requires Resolved()
      reads `paramsSchedule, `paramsByHash
    {
      Composed(paramsSchedule, paramsByHash)
    }

    function Tables(): State
      requires Resolved()
      reads this
    {
      State(round, Params(), proposals, notarized, payloads, blockVotes, dummyVotes, pins, finalityVotes, finality)
    }

    // Opening

    constructor Init(cfg: Config, params: ConsensusParams, pinned: Option<(nat, Hash<BlockHeader>)>)
      requires GoodPeers(params.peers)
      ensures this.cfg == cfg && Resolved()
      ensures Tables() == FreshState(params, if pinned.Some? then map[pinned.value.0 := pinned.value.1] else map[])
      ensures Inv(Tables())
    {
      this.cfg := cfg;
      round, paramsSchedule, paramsByHash := 0, map[0 := Digest(params)], map[Digest(params) := params];
      proposals, notarized, payloads, blockVotes, dummyVotes := map[], map[], map[], map[], map[];
      pins := if pinned.Some? then map[pinned.value.0 := pinned.value.1] else map[];
      finalityVotes, finality := map[], None;
    }

    /** Initialising a database that is initialised already fails exactly when the first parameters are
        other ones, and changes nothing but the pin. */
    method InitAgain(params: ConsensusParams, pinned: Option<(nat, Hash<BlockHeader>)>) returns (ok: bool)
      requires Resolved()
      modifies `pins
      ensures ok <==> ParamsAt(Params(), 0) == params
      ensures pins == if ok && pinned.Some? then old(pins)[pinned.value.0 := pinned.value.1] else old(pins)
    {
      if paramsSchedule[0] != Digest(params) {
        return false;
      }
      if pinned.Some? {
        pins := pins[pinned.value.0 := pinned.value.1];
      }
      return true;
    }

    /** A transaction that is not committed leaves the tables as they were. */
    method RollBack(to: State)
      requires Resolved() && to.schedule == Params() && to.pins == pins
      modifies `round, `proposals, `notarized, `payloads, `blockVotes, `dummyVotes, `finalityVotes, `finality
      ensures Tables() == to
    {
      hide Params, Resolved, Composed, Resolves;
      round, finality := to.round, to.finality;
      RollBackBlocks(to);
      RollBackVotes(to);
    }

    method RollBackBlocks(to: State)
      modifies `proposals, `notarized, `payloads
      ensures proposals == to.proposals && notarized == to.notarized && payloads == to.payloads
    {
      proposals, notarized, payloads := to.proposals, to.notarized, to.payloads;
    }

    method RollBackVotes(to: State)
      modifies `blockVotes, `dummyVotes, `finalityVotes
      ensures blockVotes == to.blockVotes && dummyVotes == to.dummyVotes && finalityVotes == to.finalityVotes
    {
      blockVotes, dummyVotes, finalityVotes := to.blockVotes, to.dummyVotes, to.finalityVotes;
    }

    /** Opening fails only where a pin does not match the block of a round that ends. */
    method Open() returns (ok: bool)
      requires Resolved() && Inv(Tables())
      modifies `round, `proposals, `notarized, `payloads, `blockVotes, `dummyVotes, `finalityVotes, `finality
      ensures Reopen(cfg, old(Tables())) == if ok then Some(Tables()) else None
      ensures !ok ==> Tables() == old(Tables())
    {
      hide FinishRound, UpdateFinalityVote, Inv, Base;
      var before := Tables();
      var latest := PrevBlock(notarized, round);
      var finalitySelf := if latest.Some? then latest.value.round + 1 else 0;
      if cfg.ourPeer.Some? {
        UpdateFinalityVoteKeepsInv(Tables(), cfg.ourPeer.value, finalitySelf);
        UpdatePeerFinalityVoteRound(cfg.ourPeer.value, finalitySelf);
      }
      InvMeansBase(Tables());
      ok := CheckRoundEnd();
      if !ok {
        RollBack(before);
      }
    }

    // Table writes

    /** `false` when the round already has a block. */
    method InsertNotarizedBlock(block: BlockHeader, payload: Option<Payload>) returns (inserted: bool)
      requires Resolved()
      modifies `notarized, `payloads, `blockVotes
      ensures Tables() == WithNotarized(old(Tables()), block, payload)
      ensures inserted <==> block.round !in old(notarized)
      ensures !inserted ==> Tables() == old(Tables())
    {
      hide KeepVotesFor;
      if block.round in notarized {
        return false;
      }
      notarized := notarized[block.round := block];
      if payload.Some? {
        payloads := payloads[block.payloadHash := payload.value];
      }
      blockVotes := KeepVotesFor(blockVotes, block);
      return true;
    }

    method InsertProposal(block: BlockHeader, payload: Payload) returns (existing: Option<BlockHeader>)
      requires Resolved()
      modifies `proposals, `payloads, `blockVotes
      ensures existing == Lookup(old(proposals), block.round)
      ensures Tables() == if existing.Some? then old(Tables()) else WithProposal(old(Tables()), block, payload)
    {
      hide KeepVotesFor;
      if block.round in proposals {
        return Some(proposals[block.round]);
      }
      proposals := proposals[block.round := block];
      payloads := payloads[block.payloadHash := payload];
      blockVotes := KeepVotesFor(blockVotes, block);
      return None;
    }

    /** The vote is written even where there was one. */
    method InsertBlockVote(r: nat, peerIdx: nat, vote: SignedBlock) returns (existing: Option<SignedBlock>)
      modifies `blockVotes
      ensures existing == Entry(old(blockVotes), r, peerIdx)
      ensures OneEntryWritten(old(blockVotes), blockVotes, r, peerIdx, vote)
    {
      existing := Entry(blockVotes, r, peerIdx);
      PutWritesOneEntry(blockVotes, r, peerIdx, vote);
      blockVotes := Put(blockVotes, r, map[peerIdx := vote]);
    }

    method InsertDummyVote(r: nat, peerIdx: nat, sig: Signature) returns (existing: Option<Signature>)
      modifies `dummyVotes
      ensures existing == Entry(old(dummyVotes), r, peerIdx)
      ensures OneEntryWritten(old(dummyVotes), dummyVotes, r, peerIdx, sig)
    {
      existing := Entry(dummyVotes, r, peerIdx);
      PutWritesOneEntry(dummyVotes, r, peerIdx, sig);
      dummyVotes := Put(dummyVotes, r, map[peerIdx := sig]);
    }

    // Ending rounds

    /** Moves the current round to the first one that has not ended, notarizes the proposals that got a
        quorum on the way, and raises the node's own finality vote; `false` when a round that ended has
        a pin its block does not match. */
    method CheckRoundEnd() returns (ok: bool)
      requires Resolved() && Base(Tables())
      modifies `round, `proposals, `notarized, `payloads, `blockVotes, `dummyVotes, `finalityVotes, `finality
      ensures FinishRound(cfg, old(Tables())) == if ok then Some(Tables()) else None
    {
      hide FinishRound, Base, EndRound, FreshBlocks, UpdateFinalityVote, ParamsAt, WithNotarized, At, Voters, Highest,
           FirstUnfinished, Unfinished, MidLoop, LastNotarized, Inv, PinHolds, PinsChecked;
      ghost var s := Tables();
      var start, cur := round, round;
      var newLast: Option<nat> := None;
      var highest := Highest(notarized);
      LoopStarts(s);
      NoPinsYet(s);
      while true
        invariant start == s.round && highest == Highest(s.notarized)
        invariant start <= cur <= EndRound(s)
        invariant Tables() == MidLoop(s, cur)
        invariant newLast == LastNotarized(s, cur)
        invariant start < cur ==> PinsChecked(s, cur, cur - 1)
        invariant start == cur ==> PinsChecked(s, cur, cur)
        decreases EndRound(s) - cur
      {
        MidLoopKeeps(s, cur);
        if start != cur {
          if !PinHolds(pins, notarized, cur - 1) {
            MismatchIsFinal(cfg, s, cur, cur - 1);
            return false;
          }
          PinPasses(s, cur);
        }
        CheckedPinsStay(s, cur, cur);
        if highest.Some? && cur <= highest.value {
          CoveredRoundEnds(s, cur);
          newLast, cur := Some(cur), cur + 1;
          continue;
        }
        var threshold := ThresholdAt(Tables(), cur);
        if cur in proposals && threshold <= |Voters(At(blockVotes, cur))| {
          ProposalEndsRound(s, cur);
          var inserted := InsertNotarizedBlock(proposals[cur], None);
          assert inserted;
          newLast, cur := Some(cur), cur + 1;
          continue;
        }
        if threshold <= |Voters(At(dummyVotes, cur))| {
          DummiesEndRound(s, cur);
          cur := cur + 1;
          continue;
        }
        break;
      }
      NothingEndsRound(s, cur);
      LoopEnds(cfg, s);
      EnterRound(cur, newLast);
      return true;
    }

    /** Writes the round the loop stopped in and, when a block was notarized on the way, the node's own
        finality vote. */
    method EnterRound(cur: nat, newLast: Option<nat>)
      requires Resolved()
      modifies `round, `finalityVotes, `finality, `dummyVotes
      ensures var t := old(Tables()).(round := cur);
              Tables() == if cfg.ourPeer.Some? && newLast.Some?
                          then UpdateFinalityVote(t, cfg.ourPeer.value, newLast.value + 1) else t
    {
      hide UpdateFinalityVote;
      round := cur;
      if newLast.Some? && cfg.ourPeer.Some? {
        UpdatePeerFinalityVoteRound(cfg.ourPeer.value, newLast.value + 1);
      }
    }

    // Finality votes

    method UpdatePeerFinalityVoteRound(peer: PeerPubkey, vote: nat)
      requires Resolved()
      modifies `finalityVotes, `finality, `dummyVotes
      ensures Tables() == UpdateFinalityVote(old(Tables()), peer, vote)
    {
      hide RecalculateFinality;
      var prev := Lookup(finalityVotes, peer);
      finalityVotes := finalityVotes[peer := vote];
      if prev.Some? && vote < prev.value {
        return;
      }
      if prev.Some? && vote == prev.value {
        return;
      }
      RecalculateFinalityConsensus();
    }

    /** The votes of the current peers are sorted, and as many of the lowest as may be faulty are skipped. */
    method RecalculateFinalityConsensus()
      requires Resolved()
      modifies `finality, `dummyVotes
      ensures Tables() == RecalculateFinality(old(Tables()))
    {
      hide ParamsAt, PruneBelow;
      var peers := ParamsAt(Params(), round).peers;
      var votes: seq<nat> := [];
      for i := 0 to |peers|
        invariant |votes| == i
        invariant forall j | 0 <= j < i :: votes[j] == if peers[j] in finalityVotes then finalityVotes[peers[j]] else 0
      {
        votes := votes + [if peers[i] in finalityVotes then finalityVotes[peers[i]] else 0];
      }
      assert votes == ReportedVotes(finalityVotes, peers);
      SortedPickIsFinalityRound(votes);
      var agreed := Sort(votes)[MaxFaulty(|peers|)];
      OneFinalityRound(votes, agreed, FinalityRound(votes));
      var before := if finality.Some? then finality.value else 0;
      finality := Some(agreed);
      var kept := if agreed < before then before else agreed;
      if before != kept {
        dummyVotes := PruneBelow(dummyVotes, kept);
      }
    }

    method ProcessFinalityVoteUpdate(peer: PeerPubkey, vote: nat, sig: Signature) returns (r: Outcome<FinalityError>)
      requires Resolved()
      modifies `round, `proposals, `notarized, `payloads, `blockVotes, `dummyVotes, `finalityVotes, `finality
      ensures Step(r, Tables()) == ProcessFinalityVote(old(Tables()), peer, vote, sig)
    {
      hide UpdateFinalityVote;
      if !Verifies(sig, peer, FinalityMessage(vote)) {
        return Failed(InvalidFinalitySignature);
      }
      UpdatePeerFinalityVoteRound(peer, vote);
      return Done;
    }

    // Votes and proposals

    /** A vote or proposal is processed as one transaction. */
    method ProcessVoteResponse(peerIdx: nat, resp: VoteResponse) returns (r: Outcome<VoteError>)
      requires Resolved() && Inv(Tables())
      modifies `round, `proposals, `notarized, `payloads, `blockVotes, `dummyVotes, `finalityVotes, `finality
      ensures Step(r, Tables()) == ProcessVote(cfg, old(Tables()), peerIdx, resp)
      ensures Inv(Tables())
    {
      hide Inv, ProcessVote;
      var before := Tables();
      ProcessVoteKeepsInv(cfg, before, peerIdx, resp);
      FailedVoteChangesNothing(cfg, before, peerIdx, resp);
      r := ProcessVoteResponseTx(peerIdx, resp);
      if r != Done {
        RollBack(before);
      }
    }

    method ProcessVoteResponseTx(peerIdx: nat, resp: VoteResponse) returns (r: Outcome<VoteError>)
      requires Resolved() && Inv(Tables())
      modifies `round, `proposals, `notarized, `payloads, `blockVotes, `dummyVotes, `finalityVotes, `finality
      ensures r == ProcessVote(cfg, old(Tables()), peerIdx, resp).outcome
      ensures r == Done ==> Tables() == ProcessVote(cfg, old(Tables()), peerIdx, resp).state
    {
      hide Inv, CountVote, WithProposal, VerifyWithContent, DirectlyExtends, IsDummy;
      ghost var s := Tables();
      var block := resp.block.inner;
      if block.round != round {
        return Failed(InvalidRound);
      }
      match resp {
        case Vote(_) =>
        case Proposal(_, payload) =>
          var params := ParamsAt(Params(), round);
          if LeaderIdx(cfg, round, |params.peers|) != peerIdx {
            return Failed(NotALeader);
          }
          if IsDummy(block) {
            return Failed(ProposedDummy);
          }
          var content := VerifyWithContent(block, params, payload);
          if content.Some? {
            return Failed(InvalidContent(content.value));
          }
          if !DirectlyExtends(block, PrevBlock(notarized, round)) {
            return Failed(DoesNotExtend);
          }
          var existing := InsertProposal(block, payload);
          if existing.Some? {
            return if existing.value != block then Failed(ForkedProposal) else Done;
          }
          WithProposalKeepsInv(s, block, payload);
      }
      r := InsertVote(s, peerIdx, resp.block);
    }

    /** The signature that was stored for the peer before. */
    method RecordVote(peerIdx: nat, vote: SignedBlock) returns (existing: Option<Signature>)
      requires Resolved()
      modifies `blockVotes, `dummyVotes
      ensures Tables() == Counted(old(Tables()), peerIdx, vote)
      ensures existing == StoredSig(old(Tables()), peerIdx, vote)
    {
      hide Put, At, IsDummy, OneEntryWritten;
      if IsDummy(vote.inner) {
        existing := InsertDummyVote(round, peerIdx, vote.sig);
        OneEntryIsPut(old(dummyVotes), dummyVotes, round, peerIdx, vote.sig);
      } else {
        var present := InsertBlockVote(round, peerIdx, vote);
        OneEntryIsPut(old(blockVotes), blockVotes, round, peerIdx, vote);
        existing := if present.Some? then Some(present.value.sig) else None;
      }
    }

    /** The part that a vote and a proposal share; `before` is where the transaction started. */
    method InsertVote(ghost before: State, peerIdx: nat, vote: SignedBlock) returns (r: Outcome<VoteError>)
      requires Resolved() && Inv(Tables()) && vote.inner.round == round
      modifies `round, `proposals, `notarized, `payloads, `blockVotes, `dummyVotes, `finalityVotes, `finality
      ensures r == CountVote(cfg, before, old(Tables()), peerIdx, vote).outcome
      ensures r == Done ==> Tables() == CountVote(cfg, before, old(Tables()), peerIdx, vote).state
    {
      hide Inv, Base, FinishRound, VerifyWithContent, IsDummy, ParamsAt, CommitRound, Counted, StoredSig;
      ghost var s := Tables();
      var params := ParamsAt(Params(), round);
      if peerIdx >= |params.peers| {
        return Panicked;
      }
      if !Verifies(vote.sig, params.peers[peerIdx], BlockMessage(vote.inner)) {
        return Failed(InvalidSignature);
      }
      if IsDummy(vote.inner) {
        var content := VerifyWithContent(vote.inner, params, []);
        if content.Some? {
          return Failed(InvalidContent(content.value));
        }
      } else if round in proposals && proposals[round] != vote.inner {
        return Failed(VoteForADifferentProposal);
      }
      CheckedVote(cfg, before, s, peerIdx, vote);
      hide CountVote;
      var existing := RecordVote(peerIdx, vote);
      if existing.Some? {
        return if existing.value != vote.sig then Failed(ForkedSignature) else Done;
      }
      CountedKeepsBase(s, peerIdx, vote);
      CommitCases(cfg, before, Counted(s, peerIdx, vote), VotePinnedMismatch);
      var ok := CheckRoundEnd();
      return if ok then Done else Failed(VotePinnedMismatch);
    }

    // Certificates

    /** A certificate is processed as one transaction. */
    method ProcessNotarizedBlockResponse(cert: Notarized, payload: Payload) returns (r: Outcome<CertError>)
      requires Resolved() && Inv(Tables()) && forall i | i in cert.sigs :: i < 256
      modifies `round, `proposals, `notarized, `payloads, `blockVotes, `dummyVotes, `finalityVotes, `finality
      ensures Step(r, Tables()) == ProcessNotarized(cfg, old(Tables()), cert, payload)
      ensures Inv(Tables())
    {
      hide Inv, ProcessNotarized;
      var before := Tables();
      ProcessNotarizedKeepsInv(cfg, before, cert, payload);
      FailedCertificateChangesNothing(cfg, before, cert, payload);
      r := ProcessNotarizedBlockResponseTx(cert, payload);
      if r != Done {
        RollBack(before);
      }
    }

    method ProcessNotarizedBlockResponseTx(cert: Notarized, payload: Payload) returns (r: Outcome<CertError>)
      requires Resolved() && Inv(Tables()) && forall i | i in cert.sigs :: i < 256
      modifies `round, `proposals, `notarized, `payloads, `blockVotes, `dummyVotes, `finalityVotes, `finality
      ensures r == ProcessNotarized(cfg, old(Tables()), cert, payload).outcome
      ensures r == Done ==> Tables() == ProcessNotarized(cfg, old(Tables()), cert, payload).state
    {
      hide Inv, Base, FinishRound, VerifyWithContent, IsDummy, QuorumSigned, ProcessCertified, WithDummyVotes, ParamsAt,
           CommitRound;
      ghost var s := Tables();
      var params := ParamsAt(Params(), cert.inner.round);
      var check := VerifySigs(cert, params);
      if check != CertOk {
        return if check == IndexOutOfRange then Panicked else Failed(InvalidSignatures);
      }
      var content := VerifyWithContent(cert.inner, params, payload);
      if content.Some? {
        return Failed(InvalidNotarizedContent(content.value));
      }
      CheckedCertificate(cfg, s, cert, payload);
      hide ProcessNotarized;
      if IsDummy(cert.inner) {
        if cert.inner.round != round {
          return Failed(WrongRoundDummy);
        }
        r := ProcessDummyTx(cert);
        return;
      }
      r := ProcessCertifiedTx(cert, payload);
    }

    /** The dummy block of the current round is certified. */
    method ProcessDummyTx(cert: Notarized) returns (r: Outcome<CertError>)
      requires Resolved() && Inv(Tables())
      modifies `round, `proposals, `notarized, `payloads, `blockVotes, `dummyVotes, `finalityVotes, `finality
      ensures var step := CommitRound(cfg, old(Tables()), WithDummyVotes(old(Tables()), cert.sigs), CertPinnedMismatch);
              r == step.outcome && (r == Done ==> Tables() == step.state)
    {
      hide Inv, Base, FinishRound, WithDummyVotes, CommitRound;
      ghost var s := Tables();
      CommitCases(cfg, s, WithDummyVotes(s, cert.sigs), CertPinnedMismatch);
      WithDummyVotesKeepsInv(s, cert.sigs);
      InvMeansBase(WithDummyVotes(s, cert.sigs));
      InsertDummyVotes(cert.sigs);
      var ok := CheckRoundEnd();
      return if ok then Done else Failed(CertPinnedMismatch);
    }

    method InsertDummyVotes(sigs: map<nat, Signature>)
      requires Resolved()
      modifies `dummyVotes
      ensures Tables() == WithDummyVotes(old(Tables()), sigs)
    {
      var left := sigs.Keys;
      ghost var before := dummyVotes;
      assert sigs - left == map[];
      while left != {}
        invariant left <= sigs.Keys
        invariant dummyVotes == Put(before, round, sigs - left)
        decreases left
      {
        var i :| i in left;
        PutOneMore(before, round, sigs - left, i, sigs[i]);
        assert (sigs - left)[i := sigs[i]] == sigs - (left - {i});
        ghost var written := dummyVotes;
        var _ := InsertDummyVote(round, i, sigs[i]);
        OneEntryIsPut(written, dummyVotes, round, i, sigs[i]);
        left := left - {i};
      }
      assert sigs - {} == sigs;
    }

    /** A certified block goes on top of the last one or takes its place. */
    method ProcessCertifiedTx(cert: Notarized, payload: Payload) returns (r: Outcome<CertError>)
      requires Resolved() && Inv(Tables()) && !IsDummy(cert.inner)
      requires QuorumSigned(cert, ParamsAt(Params(), cert.inner.round))
      requires VerifyWithContent(cert.inner, ParamsAt(Params(), cert.inner.round), payload).None?
      modifies `round, `proposals, `notarized, `payloads, `blockVotes, `dummyVotes, `finalityVotes, `finality
      ensures r == ProcessCertified(cfg, old(Tables()), cert, payload).outcome
      ensures r == Done ==> Tables() == ProcessCertified(cfg, old(Tables()), cert, payload).state
    {
      hide Inv, Base, FinishRound, VerifyWithContent, IsDummy, QuorumSigned, WithCertificate, DirectlyExtends, ParamsAt;
      ghost var s := Tables();
      var block := cert.inner;
      var latest := PrevBlock(notarized, round);
      if latest.Some? {
        if block.round == latest.value.round {
          return if latest.value != block then Panicked else Done;
        }
        if block.round <= latest.value.round {
          return Failed(WrongRoundBlock);
        }
      }
      CertifiedCases(s, cert, payload);
      if DirectlyExtends(block, latest) {
        InsertCertificate(cert, payload);
      } else {
        if latest.None? {
          return Panicked;
        }
        var second := PrevBlock(notarized, latest.value.round);
        if !DirectlyExtends(block, second) {
          return Failed(WrongParent);
        }
        notarized := notarized - {latest.value.round};
        InsertCertificate(cert, payload);
      }
      var ok := CheckRoundEnd();
      return if ok then Done else Failed(CertPinnedMismatch);
    }

    method InsertCertificate(cert: Notarized, payload: Payload)
      requires Resolved() && cert.inner.round !in notarized
      modifies `notarized, `payloads, `blockVotes
      ensures Tables() == WithCertificate(old(Tables()), cert, payload)
    {
      hide WithNotarized, Params, Resolved, Composed, Resolves, SignedBy, Put;
      var inserted := InsertNotarizedBlock(cert.inner, Some(payload));
      assert inserted;
      ghost var t := Tables();
      InsertBlockVotes(cert);
      assert Tables() == t.(blockVotes := Put(t.blockVotes, cert.inner.round, SignedBy(cert.inner, cert.sigs)));
    }

    method InsertBlockVotes(cert: Notarized)
      modifies `blockVotes
      ensures blockVotes == Put(old(blockVotes), cert.inner.round, SignedBy(cert.inner, cert.sigs))
    {
      hide Put, OneEntryWritten, At;
      var left := cert.sigs.Keys;
      ghost var before := blockVotes;
      ghost var votes := SignedBy(cert.inner, cert.sigs);
      assert votes - left == map[];
      PutNothing(before, cert.inner.round);
      while left != {}
        invariant left <= cert.sigs.Keys
        invariant blockVotes == Put(before, cert.inner.round, votes - left)
        decreases left
      {
        var i :| i in left;
        PutOneMore(before, cert.inner.round, votes - left, i, SignedBlock(cert.inner, cert.sigs[i]));
        assert (votes - left)[i := votes[i]] == votes - (left - {i});
        ghost var written := blockVotes;
        var _ := InsertBlockVote(cert.inner.round, i, SignedBlock(cert.inner, cert.sigs[i]));
        OneEntryIsPut(written, blockVotes, cert.inner.round, i, SignedBlock(cert.inner, cert.sigs[i]));
        left := left - {i};
      }
      assert votes - {} == votes;
    }

    // Membership

    /** `false` where the process stops, because the change would apply to a round that is reached. The
        tables are what the specification says, except that a change for a round that has another one
        already leaves a hash whose parameters are not stored, unless they were stored before. */
    method ConsensusParamsChange(scheduleRound: nat, timestamp: nat, peers: seq<PeerPubkey>) returns (ok: bool)
      requires Resolved() && GoodPeers(peers)
      modifies `paramsSchedule, `paramsByHash
      ensures ok <==> ChangeParams(old(Tables()), scheduleRound, timestamp, peers).outcome == Done
      ensures var change := ChangedParams(old(Tables()), scheduleRound, timestamp, peers);
              Resolved() <==> ok && change.applyRound in old(paramsSchedule) ==> Digest(change) in old(paramsByHash)
      ensures Resolved() ==> Tables() == ChangeParams(old(Tables()), scheduleRound, timestamp, peers).state
      ensures NoClash(old(Tables()), scheduleRound, timestamp, peers) ==> Resolved()
    {
      hide ChangedParams;
      var change := ChangedParams(Tables(), scheduleRound, timestamp, peers);
      ChangeHasPeers(Tables(), scheduleRound, timestamp, peers);
      if change.applyRound <= round {
        return false;
      }
      InsertedResolvesIff(paramsSchedule, paramsByHash, change.applyRound, change);
      if change.applyRound in paramsSchedule && Params()[change.applyRound] == change {
        SameEntryResolves(paramsSchedule, paramsByHash, change.applyRound, change);
      }
      var present := change.applyRound in paramsSchedule;
      paramsSchedule := paramsSchedule[change.applyRound := Digest(change)];
      if !present {
        paramsByHash := paramsByHash[Digest(change) := change];
      }
      return true;
    }

    // Answers to peers

    /** The peers whose votes for the proposal are stored. */
    method GetPeersWithProposalVotes() returns (voters: VoteSet)
      requires Resolved() && Inv(Tables())
      ensures voters.Valid() && voters.Set() == Voters(At(blockVotes, round))
    {
      hide RowOk, ParamsAt, NoFutureRows, PayloadsOk;
      VotersAreInRange(Tables());
      voters := new VoteSet();
      var votes := At(blockVotes, round);
      var left := votes.Keys;
      while left != {}
        invariant left <= votes.Keys && votes == At(blockVotes, round)
        invariant voters.Valid() && fresh(voters) && fresh(voters.bytes)
        invariant voters.Set() == votes.Keys - left
        decreases left
      {
        var i :| i in left;
        voters.Insert(i);
        left := left - {i};
      }
    }

    /** The payload of a block that is served is always there. */
    method GetNotarizedBlockResp(curRound: nat, min: nat) returns (answer: Answer)
      requires Resolved() && Inv(Tables())
      ensures answer == NotarizedBlockResp(Tables(), curRound, min) && answer != MissingPayload
    {
      hide Inv, VerifyWithContent, QuorumSigned, IsDummy;
      answer := NotarizedBlockResp(Tables(), curRound, min);
      if Next(notarized, min).Some? {
        ServedBlockIsAcceptable(Tables(), curRound, min);
      }
    }
  }

  lemma ChangeHasPeers(s: State, round: nat, timestamp: nat, peers: seq<PeerPubkey>)
    ensures ChangedParams(s, round, timestamp, peers).peers == peers
  {}

  lemma InvMeansBase(s: State)
    requires Inv(s)
    ensures Base(s)
  {}

  lemma FailedVoteChangesNothing(cfg: Config, s: State, peerIdx: nat, resp: VoteResponse)
    ensures var step := ProcessVote(cfg, s, peerIdx, resp); step.outcome != Done ==> step.state == s
  {
    hide FinishRound, ProposalError, WithProposal, WithBlockVote, WithDummyVotes, VerifyWithContent, IsDummy;
  }

  lemma FailedCertificateChangesNothing(cfg: Config, s: State, cert: Notarized, payload: Payload)
    ensures var step := ProcessNotarized(cfg, s, cert, payload); step.outcome != Done ==> step.state == s
  {
    hide FinishRound, WithCertificate, WithDummyVotes, VerifyWithContent, IsDummy, QuorumSigned, DirectlyExtends;
  }

  /** The signature that was stored where the vote goes. */
  function StoredSig(s: State, peerIdx: nat, vote: SignedBlock): Option<Signature> {
    if IsDummy(vote.inner) then Lookup(At(s.dummyVotes, s.round), peerIdx)
    else
      var present := Lookup(At(s.blockVotes, s.round), peerIdx);
      if present.Some? then Some(present.value.sig) else None
  }

  lemma CheckedVote(cfg: Config, before: State, s: State, peerIdx: nat, vote: SignedBlock)
    requires peerIdx < |ParamsAt(s.schedule, s.round).peers|
    requires Verifies(vote.sig, ParamsAt(s.schedule, s.round).peers[peerIdx], BlockMessage(vote.inner))
    requires IsDummy(vote.inner) ==> VerifyWithContent(vote.inner, ParamsAt(s.schedule, s.round), []).None?
    requires !IsDummy(vote.inner) && s.round in s.proposals ==> s.proposals[s.round] == vote.inner
    ensures var existing := StoredSig(s, peerIdx, vote);
            CountVote(cfg, before, s, peerIdx, vote)
            == if existing.None? then CommitRound(cfg, before, Counted(s, peerIdx, vote), VotePinnedMismatch)
               else if existing.value != vote.sig then Step(Failed(ForkedSignature), before)
               else Step(Done, Counted(s, peerIdx, vote))
  {
    hide CommitRound, IsDummy, VerifyWithContent, WithDummyVotes, WithBlockVote, At, ParamsAt;
  }

  lemma CheckedCertificate(cfg: Config, s: State, cert: Notarized, payload: Payload)
    requires QuorumSigned(cert, ParamsAt(s.schedule, cert.inner.round))
    requires VerifyWithContent(cert.inner, ParamsAt(s.schedule, cert.inner.round), payload).None?
    ensures ProcessNotarized(cfg, s, cert, payload)
            == if !IsDummy(cert.inner) then ProcessCertified(cfg, s, cert, payload)
               else if cert.inner.round != s.round then Step(Failed(WrongRoundDummy), s)
               else CommitRound(cfg, s, WithDummyVotes(s, cert.sigs), CertPinnedMismatch)
  {
    hide CommitRound, IsDummy, VerifyWithContent, WithDummyVotes, ProcessCertified, ParamsAt;
  }

  lemma CommitCases<E>(cfg: Config, before: State, s: State, pinError: E)
    ensures var t := FinishRound(cfg, s);
            CommitRound(cfg, before, s, pinError) == if t.Some? then Step(Done, t.value)
              else Step(Failed(pinError), before)
  {
    hide FinishRound;
  }

  /** The tables with a vote that passed the checks are ones the round loop can start from. */
  lemma CountedKeepsBase(s: State, peerIdx: nat, vote: SignedBlock)
    requires Inv(s) && vote.inner.round == s.round && peerIdx < |ParamsAt(s.schedule, s.round).peers|
    requires Verifies(vote.sig, ParamsAt(s.schedule, s.round).peers[peerIdx], BlockMessage(vote.inner))
    requires !IsDummy(vote.inner) && s.round in s.proposals ==> s.proposals[s.round] == vote.inner
    ensures Base(Counted(s, peerIdx, vote))
  {
    hide Base, IsDummy, WithBlockVote, WithDummyVotes;
    if IsDummy(vote.inner) {
      WithDummyVotesKeepsInv(s, map[peerIdx := vote.sig]);
    } else {
      assert VoteOk(RowAt(s, s.round), peerIdx, vote);
      WithBlockVoteKeepsInv(s, peerIdx, vote);
    }
  }

  lemma PutNothing(table: VoteTable, r: nat)
    ensures Put(table, r, map[]) == table
  {}

  lemma PutOneMore<V>(table: map<nat, map<nat, V>>, r: nat, votes: map<nat, V>, i: nat, vote: V)
    ensures Put(Put(table, r, votes), r, map[i := vote]) == Put(table, r, votes[i := vote])
  {
    assert i in votes[i := vote] && i in map[i := vote];
    assert (At(table, r) + votes) + map[i := vote] == At(table, r) + votes[i := vote];
    if votes == map[] {
      assert At(table, r) + map[i := vote] == At(table, r) + votes[i := vote];
    }
  }

  /** Where the last block is, and that both ways of inserting a certified block are ones the round
      loop can start from. */
  lemma CertifiedCases(s: State, cert: Notarized, payload: Payload)
    requires Inv(s) && !IsDummy(cert.inner)
    requires QuorumSigned(cert, ParamsAt(s.schedule, cert.inner.round))
    requires VerifyWithContent(cert.inner, ParamsAt(s.schedule, cert.inner.round), payload).None?
    requires var latest := PrevBlock(s.notarized, s.round); latest.Some? ==> latest.value.round < cert.inner.round
    ensures cert.inner.round !in s.notarized && Base(WithCertificate(s, cert, payload))
    ensures var latest := PrevBlock(s.notarized, s.round);
            latest.Some? ==> Base(WithCertificate(s.(notarized := s.notarized - {latest.value.round}), cert, payload))
  {
    hide Base, WithCertificate, QuorumSigned, VerifyWithContent, IsDummy, ParamsAt;
    LatestIsHighest(s);
    assert cert.inner.round !in s.notarized;
    WithCertificateKeepsBase(s, cert, payload);
    var latest := Prev(s.notarized, s.round);
    if latest.Some? {
      RemoveNotarizedKeepsBase(s, latest.value);
      WithCertificateKeepsBase(s.(notarized := s.notarized - {latest.value}), cert, payload);
    }
  }
}
