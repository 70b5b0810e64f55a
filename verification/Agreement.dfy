/** What correct nodes agree on in every run with few faulty peers. */
module Agreement {
  import opened Wrappers
  import opened OrderedTables
  import opened NumPeers
  import opened Blocks
  import opened Chains
  import opened State
  import opened Finality
  import opened Invariants
  import opened Steps
  import opened Runs
  import opened TableLinks
  import opened StoredSignatures
  import opened Network

  // Agreement

  function FaultyIdxs(w: World, params: ConsensusParams): set<nat> {
    set i | 0 <= i < |params.peers| && params.peers[i] !in w.correct
  }

  /** No round that the node reached has more faulty peers than its quorums tolerate. */
  ghost predicate FewFaulty(w: World, s: State) {
    forall r: nat | r <= s.round ::
      |FaultyIdxs(w, ParamsAt(s.schedule, r))| <= MaxFaulty(|ParamsAt(s.schedule, r).peers|)
  }

  /** Two nodes have the same parameters for every round that both reached. */
  ghost predicate SameParams(a: State, b: State) {
    forall r: nat | r <= a.round && r <= b.round :: ParamsAt(a.schedule, r) == ParamsAt(b.schedule, r)
  }

  /** A quorum signed the block: enough peers, by index, and what each correct one of them signed. */
  ghost predicate SignedQuorum(w: World, net: Net, params: ConsensusParams, block: BlockHeader, voters: set<nat>) {
    && Threshold(|params.peers|) <= |voters|
    && forall i | i in voters ::
       i < |params.peers| && (params.peers[i] in w.correct ==> (params.peers[i], BlockMessage(block)) in net.signed)
  }

  /** A correct peer in both quorums signed both blocks, and it signs one block per round. */
  lemma QuorumsAgree(w: World, net: Net, params: ConsensusParams, a: BlockHeader, b: BlockHeader,
                     votersA: set<nat>, votersB: set<nat>)
    requires NetGood(w, net) && GoodPeers(params.peers)
    requires |FaultyIdxs(w, params)| <= MaxFaulty(|params.peers|)
    requires a.round == b.round && !IsDummy(a) && !IsDummy(b)
    requires SignedQuorum(w, net, params, a, votersA) && SignedQuorum(w, net, params, b, votersB)
    ensures a == b
  {
    hide NodeGood, IsDummy;
    var i := QuorumsShareCorrectPeer(|params.peers|, votersA, votersB, FaultyIdxs(w, params));
    var key := params.peers[i];
    assert key in w.correct;
    assert SignedIsTrue(net.nodes, key, BlockMessage(a)) && SignedIsTrue(net.nodes, key, BlockMessage(b));
  }

  /** The votes stored with a notarized block. */
  lemma NotarizedHasQuorum(w: World, net: Net, key: PeerPubkey, r: nat)
    requires NetGood(w, net) && key in net.nodes && r in net.nodes[key].notarized
    ensures var s := net.nodes[key]; var block := s.notarized[r];
            && block.round == r && !IsDummy(block) && r < s.round
            && SignedQuorum(w, net, ParamsAt(s.schedule, r), block, Voters(At(s.blockVotes, r)))
  {
    hide Good, IsDummy, VerifyWithContent, SignedIsTrue;
    var s := net.nodes[key];
    assert NodeGood(w, net.signed, key, s);
    GoodMeansInv(ConfigOf(w, key), s);
    var row := RowAt(s, r);
    assert RowOk(row);
    assert row.notarized == Some(s.notarized[r]);
    assert AllKnown(At(s.blockVotes, r), ReleasedSigs(w, net.signed));
    forall i | i in row.votes
      ensures i < |row.params.peers|
      ensures row.params.peers[i] in w.correct ==> (row.params.peers[i], BlockMessage(s.notarized[r])) in net.signed
    {
      assert VoteOk(row, i, row.votes[i]);
      assert row.votes[i].sig in ReleasedSigs(w, net.signed);
    }
  }

  lemma GoodMeansInv(cfg: Config, s: State)
    requires Good(cfg, s)
    ensures Inv(s)
  {}

  /** No two correct nodes ever hold different notarized blocks for the same round. */
  lemma NotarizedBlocksAgree(w: World, nets: seq<Net>, keys: seq<PeerPubkey>, actions: seq<Action>, i: nat,
                             a: PeerPubkey, b: PeerPubkey, r: nat)
    requires IsNetRun(w, nets, keys, actions) && i < |nets|
    requires a in nets[i].nodes && b in nets[i].nodes
    requires FewFaulty(w, nets[i].nodes[a]) && SameParams(nets[i].nodes[a], nets[i].nodes[b])
    requires r in nets[i].nodes[a].notarized && r in nets[i].nodes[b].notarized
    ensures nets[i].nodes[a].notarized[r] == nets[i].nodes[b].notarized[r]
  {
    hide IsNetRun, NetGood, SignedQuorum, IsDummy;
    EveryNetIsGood(w, nets, keys, actions, i);
    var net := nets[i];
    var sa, sb := net.nodes[a], net.nodes[b];
    NotarizedHasQuorum(w, net, a, r);
    NotarizedHasQuorum(w, net, b, r);
    QuorumsAgree(w, net, ParamsAt(sa.schedule, r), sa.notarized[r], sb.notarized[r],
                 Voters(At(sa.blockVotes, r)), Voters(At(sb.blockVotes, r)));
  }

  /** A certificate made of released signatures is never for another block than the stored one. */
  lemma CertificateAgrees(w: World, net: Net, key: PeerPubkey, cert: Notarized)
    requires NetGood(w, net) && key in net.nodes && FewFaulty(w, net.nodes[key])
    requires cert.inner.round in net.nodes[key].notarized && !IsDummy(cert.inner)
    requires QuorumSigned(cert, ParamsAt(net.nodes[key].schedule, cert.inner.round))
    requires forall i | i in cert.sigs :: cert.sigs[i] in ReleasedSigs(w, net.signed)
    ensures cert.inner == net.nodes[key].notarized[cert.inner.round]
  {
    hide NetGood, IsDummy;
    var s, r := net.nodes[key], cert.inner.round;
    var params := ParamsAt(s.schedule, r);
    NotarizedHasQuorum(w, net, key, r);
    forall i | i in cert.sigs
      ensures i < |params.peers|
              && (params.peers[i] in w.correct ==> (params.peers[i], BlockMessage(cert.inner)) in net.signed)
    {
      assert SigOk(cert, params, i);
    }
    QuorumsAgree(w, net, params, s.notarized[r], cert.inner, Voters(At(s.blockVotes, r)), Voters(cert.sigs));
  }

  // Stopping

  /** A certificate stops the process exactly when its signatures are not refused and one of them is for
      an index without a peer, or when it passes every check and another block is stored for its round as
      the last one, or nothing is stored and it is not a first block. */
  lemma CertificatePanicsIff(cfg: Config, s: State, cert: Notarized, payload: Payload)
    requires Inv(s)
    ensures var params := ParamsAt(s.schedule, cert.inner.round);
            ProcessNotarized(cfg, s, cert, payload).outcome == Panicked <==>
            && !SignatureRefused(cert, params)
            && (|| (exists i :: i in cert.sigs && |params.peers| <= i)
                || (&& VerifyWithContent(cert.inner, params, payload).None? && !IsDummy(cert.inner)
                    && (|| (cert.inner.round + 1 == Reach(s.notarized) && s.notarized[cert.inner.round] != cert.inner)
                        || (s.notarized == map[] && !DirectlyExtends(cert.inner, None)))))
  {
    hide Base, FinishRound, VerifyWithContent, ParamsAt, WithCertificate, DirectlyExtends, IsDummy;
    LatestIsHighest(s);
  }

  const SECOND_BLOCK := NewHeader(Some(NewHeader(None, 0, 0, SOLO_PARAMS, [])), 0, 1, SOLO_PARAMS, [])

  /** A valid certificate for the second block of a chain stops a node that has no blocks. */
  lemma EmptyNodeCanStop()
    ensures var cert := Notarized(SECOND_BLOCK, map[0 := Signature(0, BlockMessage(SECOND_BLOCK), 0)]);
            && QuorumSigned(cert, SOLO_PARAMS)
            && ProcessNotarized(Config(None, imap[]), FreshState(SOLO_PARAMS, map[]), cert, []).outcome == Panicked
  {
    hide ProcessNotarized, VerifyWithContent, Inv, Reach, IsDummy;
    var first := NewHeader(None, 0, 0, SOLO_PARAMS, []);
    var s := FreshState(SOLO_PARAMS, map[]);
    var cert := Notarized(SECOND_BLOCK, map[0 := Signature(0, BlockMessage(SECOND_BLOCK), 0)]);
    FreshIsGood(Config(None, imap[]), SOLO_PARAMS, map[]);
    PrevIs(s.schedule, 2, 0);
    NewHeaderIsAcceptable(Some(first), 0, 1, SOLO_PARAMS, []);
    assert Voters(cert.sigs) == {0};
    SignedHasPeers(cert, SOLO_PARAMS);
    CertificatePanicsIff(Config(None, imap[]), s, cert, []);
  }

  /** With few faulty peers, the process is never stopped by two different notarized blocks. */
  lemma NoTwoNotarizedBlocks(w: World, nets: seq<Net>, keys: seq<PeerPubkey>, actions: seq<Action>, i: nat,
                             key: PeerPubkey, cert: Notarized, payload: Payload)
    requires IsNetRun(w, nets, keys, actions) && i < |nets| && key in nets[i].nodes
    requires FewFaulty(w, nets[i].nodes[key])
    requires Brings(CertificateArrives(cert, payload), ReleasedSigs(w, nets[i].signed))
    requires var params := ParamsAt(nets[i].nodes[key].schedule, cert.inner.round);
             !IsDummy(cert.inner) && QuorumSigned(cert, params) && VerifyWithContent(cert.inner, params, payload).None?
    ensures ProcessNotarized(ConfigOf(w, key), nets[i].nodes[key], cert, payload).outcome == Panicked <==>
            nets[i].nodes[key].notarized == map[] && !DirectlyExtends(cert.inner, None)
  {
    hide IsNetRun, NetGood, NodeGood, ProcessNotarized, QuorumSigned, VerifyWithContent, DirectlyExtends, IsDummy,
         ParamsAt;
    EveryNetIsGood(w, nets, keys, actions, i);
    var s := nets[i].nodes[key];
    NodeIsGood(w, nets[i], key);
    NodeGoodMeansInv(w, nets[i].signed, key, s);
    CertificatePanicsIff(ConfigOf(w, key), s, cert, payload);
    SignedHasPeers(cert, ParamsAt(s.schedule, cert.inner.round));
    if cert.inner.round + 1 == Reach(s.notarized) {
      CertificateAgrees(w, nets[i], key, cert);
    }
  }

  lemma SignedHasPeers(cert: Notarized, params: ConsensusParams)
    requires QuorumSigned(cert, params)
    ensures !SignatureRefused(cert, params) && forall i | i in cert.sigs :: i < |params.peers|
  {
    forall i | i in cert.sigs
      ensures i < |params.peers|
    {
      assert SigOk(cert, params, i);
    }
  }

  lemma NodeGoodMeansInv(w: World, signed: Signed, key: PeerPubkey, s: State)
    requires NodeGood(w, signed, key, s)
    ensures Inv(s)
  {}

  // Common history

  /** Correct nodes that share a notarized round, one of them with a chain up to it, share their history up
      to it if and only if the other one has a chain, too. */
  lemma HistoriesAgreeIff(w: World, nets: seq<Net>, keys: seq<PeerPubkey>, actions: seq<Action>, i: nat,
                          a: PeerPubkey, b: PeerPubkey, r: nat)
    requires IsNetRun(w, nets, keys, actions) && i < |nets|
    requires a in nets[i].nodes && b in nets[i].nodes
    requires FewFaulty(w, nets[i].nodes[a]) && SameParams(nets[i].nodes[a], nets[i].nodes[b])
    requires r in nets[i].nodes[a].notarized && r in nets[i].nodes[b].notarized
    requires Linked(Below(nets[i].nodes[a].notarized, r + 1))
    ensures Below(nets[i].nodes[a].notarized, r + 1) == Below(nets[i].nodes[b].notarized, r + 1) <==>
            Linked(Below(nets[i].nodes[b].notarized, r + 1))
  {
    hide IsNetRun, Linked, FewFaulty, SameParams;
    NotarizedBlocksAgree(w, nets, keys, actions, i, a, b, r);
    var ta, tb := Below(nets[i].nodes[a].notarized, r + 1), Below(nets[i].nodes[b].notarized, r + 1);
    if Linked(tb) {
      SameTipSameChain(ta, tb, r);
    }
  }

  /** Along the run, no event makes the node notarize an orphan. */
  ghost predicate NeverUnlinked(w: World, nets: seq<Net>, keys: seq<PeerPubkey>, actions: seq<Action>,
                                key: PeerPubkey, end: nat)
    requires end <= |actions| && |keys| == |actions| && |nets| == |actions| + 1
  {
    forall k | 0 <= k < end && keys[k] == key && actions[k].Local? && key in nets[k].nodes ::
      !Unlinks(ConfigOf(w, key), nets[k].nodes[key], actions[k].event)
  }

  lemma NodeStepKeepsTable(w: World, net: Net, actor: PeerPubkey, a: Action, next: Net, key: PeerPubkey)
    requires NetGood(w, net) && NetStep(w, net, actor, a, next)
    requires key in net.nodes && Linked(net.nodes[key].notarized)
    requires actor == key && a.Local? ==> !Unlinks(ConfigOf(w, key), net.nodes[key], a.event)
    ensures key in next.nodes && Linked(next.nodes[key].notarized)
  {
    hide NetGood, Linked, Allowed, After, Brings, ProcessVote, OwnProposal, Unlinks, NodeGood, Inv;
    NodeIsGood(w, net, key);
    NodeGoodMeansInv(w, net.signed, key, net.nodes[key]);
    var cfg, s := ConfigOf(w, key), net.nodes[key];
    if actor == key {
      match a
      case Local(e) => StepKeepsTableIff(cfg, s, e);
      case Propose(peerIdx, _, _, _) =>
        OwnProposalForm(key, s, a);
        ProposalKeepsTable(cfg, s, peerIdx, OwnProposal(key, s, a));
      case _ =>
    }
  }

  lemma FreshNodeIsLinked(w: World, net: Net, key: PeerPubkey)
    requires IsNetStart(w, net) && key in net.nodes
    ensures Linked(net.nodes[key].notarized)
  {}

  lemma SameNodes(w: World, net: Net)
    requires NetGood(w, net)
    ensures net.nodes.Keys == w.correct
  {}

  lemma {:induction false} NodeStaysLinked(w: World, nets: seq<Net>, keys: seq<PeerPubkey>, actions: seq<Action>,
                                           i: nat, key: PeerPubkey)
    requires IsNetRun(w, nets, keys, actions) && i < |nets| && key in nets[i].nodes
    requires NeverUnlinked(w, nets, keys, actions, key, i)
    ensures Linked(nets[i].nodes[key].notarized)
  {
    hide NetGood, NetStep, IsNetStart, Linked, Unlinks;
    if i == 0 {
      FreshNodeIsLinked(w, nets[0], key);
    } else {
      EveryNetIsGood(w, nets, keys, actions, i - 1);
      EveryNetIsGood(w, nets, keys, actions, i);
      SameNodes(w, nets[i - 1]);
      SameNodes(w, nets[i]);
      assert key in nets[i - 1].nodes;
      NodeStaysLinked(w, nets, keys, actions, i - 1, key);
      assert NetStep(w, nets[i - 1], keys[i - 1], actions[i - 1], nets[i - 1 + 1]);
      NodeStepKeepsTable(w, nets[i - 1], keys[i - 1], actions[i - 1], nets[i], key);
    }
  }

  /** Two correct nodes that never notarized an orphan share their whole history up to any notarized round
      that they share. */
  lemma HistoriesAgree(w: World, nets: seq<Net>, keys: seq<PeerPubkey>, actions: seq<Action>, i: nat,
                       a: PeerPubkey, b: PeerPubkey, r: nat)
    requires IsNetRun(w, nets, keys, actions) && i < |nets|
    requires a in nets[i].nodes && b in nets[i].nodes
    requires NeverUnlinked(w, nets, keys, actions, a, i) && NeverUnlinked(w, nets, keys, actions, b, i)
    requires FewFaulty(w, nets[i].nodes[a]) && SameParams(nets[i].nodes[a], nets[i].nodes[b])
    requires r in nets[i].nodes[a].notarized && r in nets[i].nodes[b].notarized
    ensures Below(nets[i].nodes[a].notarized, r + 1) == Below(nets[i].nodes[b].notarized, r + 1)
  {
    hide IsNetRun, Linked, FewFaulty, SameParams, NeverUnlinked;
    NodeStaysLinked(w, nets, keys, actions, i, a);
    NodeStaysLinked(w, nets, keys, actions, i, b);
    BelowIsLinked(nets[i].nodes[a].notarized, r + 1);
    BelowIsLinked(nets[i].nodes[b].notarized, r + 1);
    HistoriesAgreeIff(w, nets, keys, actions, i, a, b, r);
  }

  // Membership changes

  /** A change depends on the parameters of its round and on the history up to half that round only. */
  lemma SameHistorySameChange(a: State, b: State, round: nat, timestamp: nat, peers: seq<PeerPubkey>)
    requires ParamsAt(a.schedule, round) == ParamsAt(b.schedule, round)
    requires Below(a.notarized, round / 2) == Below(b.notarized, round / 2)
    ensures ChangedParams(a, round, timestamp, peers) == ChangedParams(b, round, timestamp, peers)
  {
    var half := round / 2;
    SamePrev(a.notarized, half);
    SamePrev(b.notarized, half);
  }

  lemma SamePrev(table: BlockTable, r: nat)
    ensures PrevBlock(Below(table, r), r) == PrevBlock(table, r)
  {
    PrevDependsOnKeysBelow(Below(table, r), table, r);
  }

  /** Nodes that share the history which a change commits to schedule the same change, so equal schedules
      stay equal. */
  lemma NodesScheduleTheSameChange(w: World, nets: seq<Net>, keys: seq<PeerPubkey>, actions: seq<Action>, i: nat,
                                   a: PeerPubkey, b: PeerPubkey, r: nat,
                                   round: nat, timestamp: nat, peers: seq<PeerPubkey>)
    requires IsNetRun(w, nets, keys, actions) && i < |nets|
    requires a in nets[i].nodes && b in nets[i].nodes
    requires NeverUnlinked(w, nets, keys, actions, a, i) && NeverUnlinked(w, nets, keys, actions, b, i)
    requires FewFaulty(w, nets[i].nodes[a]) && nets[i].nodes[a].schedule == nets[i].nodes[b].schedule
    requires r in nets[i].nodes[a].notarized && r in nets[i].nodes[b].notarized && round / 2 <= r + 1
    requires GoodPeers(peers)
    ensures var stepA := ChangeParams(nets[i].nodes[a], round, timestamp, peers);
            var stepB := ChangeParams(nets[i].nodes[b], round, timestamp, peers);
            stepA.outcome == Done && stepB.outcome == Done ==> stepA.state.schedule == stepB.state.schedule
  {
    hide IsNetRun, FewFaulty, NeverUnlinked, ParamsAt, ChangedParams, IsSchedule;
    HistoriesAgree(w, nets, keys, actions, i, a, b, r);
    BelowOfBelow(nets[i].nodes[a].notarized, round / 2, r + 1);
    BelowOfBelow(nets[i].nodes[b].notarized, round / 2, r + 1);
    SameHistorySameChange(nets[i].nodes[a], nets[i].nodes[b], round, timestamp, peers);
  }

  lemma BelowOfBelow(table: BlockTable, low: nat, high: nat)
    requires low <= high
    ensures Below(Below(table, high), low) == Below(table, low)
  {}

  // Finality

  /** The current peers, by index, that are correct and have a notarized block right below the round or above. */
  function Reached(net: Net, params: ConsensusParams, round: nat): set<nat> {
    set i | 0 <= i < |params.peers| && params.peers[i] in net.nodes
      && round <= Reach(net.nodes[params.peers[i]].notarized)
  }

  /** Whatever faulty peers report, more than `MaxFaulty` correct peers have reached the finality round
      that a correct node computes. */
  lemma FinalityIsSupported(w: World, nets: seq<Net>, keys: seq<PeerPubkey>, actions: seq<Action>, i: nat,
                            key: PeerPubkey)
    requires IsNetRun(w, nets, keys, actions) && i < |nets| && key in nets[i].nodes
    requires FewFaulty(w, nets[i].nodes[key])
    ensures var s := nets[i].nodes[key];
            var params := ParamsAt(s.schedule, s.round);
            var agreed := FinalityRound(ReportedVotes(s.finalityVotes, params.peers));
            MaxFaulty(|params.peers|) + 1 <= |Reached(nets[i], params, agreed)|
  {
    hide IsNetRun, NodeGood, SignedIsTrue, Reach, ParamsAt;
    EveryNetIsGood(w, nets, keys, actions, i);
    var s := nets[i].nodes[key];
    var params := ParamsAt(s.schedule, s.round);
    var votes := ReportedVotes(s.finalityVotes, params.peers);
    var agreed := FinalityRound(votes);
    var faulty := FaultyIdxs(w, params);
    FinalityHasCorrectSupport(votes, faulty);
    assert FinalityTrue(w, nets[i].nodes, s.finalityVotes);
    forall k | k in Supporters(votes, agreed) - faulty
      ensures k in Reached(nets[i], params, agreed)
    {
      assert params.peers[k] in w.correct;
      assert params.peers[k] in nets[i].nodes;
    }
    SubsetSize(Supporters(votes, agreed) - faulty, Reached(nets[i], params, agreed));
  }
}
