/** Many nodes over one run, with faulty peers that may sign anything with their own keys. */
module Network {
  import opened Wrappers
  import opened Blocks
  import opened Chains
  import opened State
  import opened Invariants
  import opened Steps
  import opened Progress
  import opened Runs
  import opened StoredSignatures

  /** The keys of the correct peers, and the hash of each round number. */
  datatype World = World(correct: set<PeerPubkey>, roundHash: imap<nat, nat>)

  /** The tables of every correct peer, and every message that a correct peer has signed. */
  datatype Net = Net(nodes: map<PeerPubkey, State>, signed: Signed)

  type Signed = set<(PeerPubkey, Message)>

  function ConfigOf(w: World, key: PeerPubkey): Config {
    Config(Some(key), w.roundHash)
  }

  // Signatures cannot be forged

  /** Only a correct peer makes signatures that verify for its key. */
  predicate Released(w: World, signed: Signed, sig: Signature) {
    sig.Signature? && sig.signer in w.correct ==> (sig.signer, sig.message) in signed
  }

  ghost function ReleasedSigs(w: World, signed: Signed): iset<Signature> {
    iset sig: Signature | Released(w, signed, sig)
  }

  // Steps

  datatype Action =
    /** Anything happens to a node, with messages from anyone. */
    | Local(event: Event)
    /** A peer signs its stored proposal for its current round. */
    | SignVote
    /** A peer whose round timed out signs the dummy block of the round. */
    | SignDummy
    /** A peer signs its finality vote, which it raises only after it has the notarized block before it. */
    | SignFinality(vote: nat)
    /** A leader builds a block, and its signature is released if the node recorded it. */
    | Propose(peerIdx: nat, timestamp: nat, payload: Payload, nonce: nat)

  function OwnProposal(key: PeerPubkey, s: State, a: Action): VoteResponse
    requires a.Propose?
  {
    var block := NewHeader(PrevBlock(s.notarized, s.round), a.timestamp, s.round, ParamsAt(s.schedule, s.round),
        a.payload);
    Proposal(SignedBlock(block, Signature(key, BlockMessage(block), a.nonce)), a.payload)
  }

  ghost predicate NetStep(w: World, net: Net, key: PeerPubkey, a: Action, next: Net) {
    && key in net.nodes
    && var cfg := ConfigOf(w, key);
       var s := net.nodes[key];
       match a
       case Local(e) =>
         && Allowed(cfg, s, e) && Brings(e, ReleasedSigs(w, net.signed))
         && next == net.(nodes := net.nodes[key := After(cfg, s, e)])
       case SignVote =>
         s.round in s.proposals && next == net.(signed := net.signed + {(key, BlockMessage(s.proposals[s.round]))})
       case SignDummy =>
         next == net.(signed := net.signed + {(key, BlockMessage(NewDummy(s.round, ParamsAt(s.schedule, s.round))))})
       case SignFinality(vote) =>
         vote <= Reach(s.notarized) && next == net.(signed := net.signed + {(key, FinalityMessage(vote))})
       case Propose(peerIdx, _, _, _) =>
         var resp := OwnProposal(key, s, a);
         var step := ProcessVote(cfg, s, peerIdx, resp);
         next == Net(net.nodes[key := step.state],
                     if step.outcome == Done then net.signed + {(key, BlockMessage(resp.block.inner))} else net.signed)
  }

  ghost predicate IsFresh(s: State) {
    exists params: ConsensusParams, pins: PinTable :: GoodPeers(params.peers) && s == FreshState(params, pins)
  }

  ghost predicate IsNetStart(w: World, net: Net) {
    && net.nodes.Keys == w.correct && net.signed == {}
    && forall k | k in net.nodes :: IsFresh(net.nodes[k])
  }

  ghost predicate IsNetRun(w: World, nets: seq<Net>, keys: seq<PeerPubkey>, actions: seq<Action>) {
    && |nets| == |actions| + 1 && |keys| == |actions|
    && IsNetStart(w, nets[0])
    && forall i | 0 <= i < |actions| :: NetStep(w, nets[i], keys[i], actions[i], nets[i + 1])
  }

  // What every step keeps

  /** The tables of a node are good and hold only signatures that were made. */
  ghost predicate NodeGood(w: World, signed: Signed, key: PeerPubkey, s: State) {
    Good(ConfigOf(w, key), s) && SigsKnown(s.blockVotes, ReleasedSigs(w, signed))
  }

  /** What a correct peer signed is its stored proposal of the round, or a finality vote it has reached. */
  predicate SignedIsTrue(nodes: map<PeerPubkey, State>, key: PeerPubkey, message: Message) {
    match message
    case BlockMessage(block) =>
      !IsDummy(block) ==>
        key in nodes && block.round in nodes[key].proposals && nodes[key].proposals[block.round] == block
    case FinalityMessage(vote) => key in nodes && vote <= Reach(nodes[key].notarized)
  }

  /** The finality votes that a node holds for correct peers are ones they have reached. */
  ghost predicate FinalityTrue(w: World, nodes: map<PeerPubkey, State>, votes: FinalityVoteTable) {
    forall p | p in votes && p in w.correct :: p in nodes && votes[p] <= Reach(nodes[p].notarized)
  }

  ghost predicate NetGood(w: World, net: Net) {
    && net.nodes.Keys == w.correct
    && (forall k | k in net.nodes :: NodeGood(w, net.signed, k, net.nodes[k]))
    && (forall pair | pair in net.signed :: SignedIsTrue(net.nodes, pair.0, pair.1))
    && (forall k | k in net.nodes :: FinalityTrue(w, net.nodes, net.nodes[k].finalityVotes))
  }

  lemma MoreSigned(w: World, signed: Signed, more: Signed, key: PeerPubkey, s: State)
    requires NodeGood(w, signed, key, s) && signed <= more
    ensures NodeGood(w, more, key, s)
  {
    hide Good, SigsKnown;
    MoreIsKnown(s.blockVotes, ReleasedSigs(w, signed), ReleasedSigs(w, more));
  }

  lemma StartIsGood(w: World, net: Net)
    requires IsNetStart(w, net)
    ensures NetGood(w, net)
  {
    hide Good;
    forall k | k in net.nodes
      ensures NodeGood(w, net.signed, k, net.nodes[k])
    {
      var params: ConsensusParams, pins: PinTable :| GoodPeers(params.peers)
          && net.nodes[k] == FreshState(params, pins);
      FreshIsGood(ConfigOf(w, k), params, pins);
    }
  }

  /** A node that moves forward keeps every proposal and reaches as far, so what was signed stays true. */
  lemma SignedStaysTrue(nodes: map<PeerPubkey, State>, key: PeerPubkey, t: State, signer: PeerPubkey, message: Message)
    requires key in nodes && SignedIsTrue(nodes, signer, message)
    requires Reach(nodes[key].notarized) <= Reach(t.notarized)
    requires forall r | r in nodes[key].proposals :: r in t.proposals && t.proposals[r] == nodes[key].proposals[r]
    ensures SignedIsTrue(nodes[key := t], signer, message)
  {
    hide Reach, IsDummy;
  }

  lemma FinalityStaysTrue(w: World, nodes: map<PeerPubkey, State>, key: PeerPubkey, t: State, votes: FinalityVoteTable)
    requires key in nodes && FinalityTrue(w, nodes, votes) && Reach(nodes[key].notarized) <= Reach(t.notarized)
    ensures FinalityTrue(w, nodes[key := t], votes)
  {
    hide Reach;
  }

  /** One node takes a step and more is signed; everything signed is true afterwards. */
  lemma NodeMoves(w: World, net: Net, key: PeerPubkey, t: State, more: Signed)
    requires NetGood(w, net) && key in net.nodes && net.signed <= more
    requires NodeGood(w, more, key, t) && Forward(ConfigOf(w, key), net.nodes[key], t)
    requires forall pair | pair in more && pair !in net.signed :: SignedIsTrue(net.nodes[key := t], pair.0, pair.1)
    requires FinalityTrue(w, net.nodes, t.finalityVotes) || FinalityTrue(w, net.nodes[key := t], t.finalityVotes)
    ensures NetGood(w, Net(net.nodes[key := t], more))
  {
    hide NodeGood, SignedIsTrue, FinalityTrue, OwnVote, Reach;
    var nodes := net.nodes[key := t];
    assert nodes.Keys == net.nodes.Keys;
    forall pair | pair in more
      ensures SignedIsTrue(nodes, pair.0, pair.1)
    {
      if pair in net.signed {
        SignedStaysTrue(net.nodes, key, t, pair.0, pair.1);
      }
    }
    forall k | k in nodes
      ensures NodeGood(w, more, k, nodes[k])
      ensures FinalityTrue(w, nodes, nodes[k].finalityVotes)
    {
      if k != key {
        MoreSigned(w, net.signed, more, k, net.nodes[k]);
        FinalityStaysTrue(w, net.nodes, key, t, net.nodes[k].finalityVotes);
      } else if FinalityTrue(w, net.nodes, t.finalityVotes) {
        FinalityStaysTrue(w, net.nodes, key, t, t.finalityVotes);
      }
    }
  }

  lemma PeerSigns(w: World, net: Net, key: PeerPubkey, message: Message)
    requires NetGood(w, net) && SignedIsTrue(net.nodes, key, message)
    ensures NetGood(w, net.(signed := net.signed + {(key, message)}))
  {
    hide NodeGood, SignedIsTrue, FinalityTrue;
    forall k | k in net.nodes
      ensures NodeGood(w, net.signed + {(key, message)}, k, net.nodes[k])
    {
      MoreSigned(w, net.signed, net.signed + {(key, message)}, k, net.nodes[k]);
    }
  }

  /** A finality vote that arrives for a correct peer was signed by it. */
  lemma StepKeepsFinalityTrue(w: World, net: Net, key: PeerPubkey, e: Event)
    requires NetGood(w, net) && key in net.nodes && Inv(net.nodes[key])
    requires Allowed(ConfigOf(w, key), net.nodes[key], e) && Brings(e, ReleasedSigs(w, net.signed))
    requires Forward(ConfigOf(w, key), net.nodes[key], After(ConfigOf(w, key), net.nodes[key], e))
    ensures var t := After(ConfigOf(w, key), net.nodes[key], e);
            FinalityTrue(w, net.nodes[key := t], t.finalityVotes)
  {
    hide Allowed, After, Inv, Reach, NodeGood;
    var cfg, s := ConfigOf(w, key), net.nodes[key];
    var t := After(cfg, s, e);
    StepExplainsFinalityVotes(cfg, s, e);
    assert FinalityTrue(w, net.nodes, s.finalityVotes);
    FinalityStaysTrue(w, net.nodes, key, t, s.finalityVotes);
    forall p | p in t.finalityVotes && p in w.correct
      ensures t.finalityVotes[p] <= Reach(net.nodes[key := t][p].notarized)
    {
      assert VoteExplained(cfg, s, e, t, p);
      if e.FinalityVoteArrives? && p == e.peer && Verifies(e.sig, p, FinalityMessage(e.vote)) {
        assert e.sig in ReleasedSigs(w, net.signed);
        SignedStaysTrue(net.nodes, key, t, p, FinalityMessage(e.vote));
      }
    }
  }

  lemma LocalStepKeepsGood(w: World, net: Net, key: PeerPubkey, e: Event)
    requires NetGood(w, net) && key in net.nodes
    requires Allowed(ConfigOf(w, key), net.nodes[key], e) && Brings(e, ReleasedSigs(w, net.signed))
    ensures NetGood(w, net.(nodes := net.nodes[key := After(ConfigOf(w, key), net.nodes[key], e)]))
  {
    hide Allowed, After, SigsKnown, Brings, SignedIsTrue, Inv, DummyQuorum, OwnVote, Reach, FinalityTrue;
    var cfg, s := ConfigOf(w, key), net.nodes[key];
    assert NodeGood(w, net.signed, key, s);
    StepKeepsGood(cfg, s, e);
    StepGoesForward(cfg, s, e);
    StepStoresKnown(cfg, s, e, ReleasedSigs(w, net.signed));
    StepKeepsFinalityTrue(w, net, key, e);
    NodeMoves(w, net, key, After(cfg, s, e), net.signed);
  }

  lemma CurrentProposalIsStored(net: Net, key: PeerPubkey)
    requires key in net.nodes && Inv(net.nodes[key]) && net.nodes[key].round in net.nodes[key].proposals
    ensures SignedIsTrue(net.nodes, key, BlockMessage(net.nodes[key].proposals[net.nodes[key].round]))
  {
    var s := net.nodes[key];
    hide Stored, VotesOk;
    StoredProposalRound(s, s.round);
  }

  lemma StoredProposalRound(s: State, r: nat)
    requires Base(s) && r in s.proposals
    ensures s.proposals[r].round == r
  {
    assert RowOk(RowAt(s, r));
    assert RowAt(s, r).proposal == Some(s.proposals[r]);
  }

  /** The leader's own signature is new: the node and what it signed change together. */
  lemma ProposeKeepsGood(w: World, net: Net, key: PeerPubkey, a: Action)
    requires NetGood(w, net) && key in net.nodes && a.Propose?
    ensures var resp := OwnProposal(key, net.nodes[key], a);
            var step := ProcessVote(ConfigOf(w, key), net.nodes[key], a.peerIdx, resp);
            NetGood(w, Net(net.nodes[key := step.state],
                           if step.outcome == Done then net.signed + {(key, BlockMessage(resp.block.inner))}
                             else net.signed))
  {
    hide OwnProposal, ProcessVote, SigsKnown, Inv, DummyQuorum, OwnVote, Reach, IsDummy, NetGood, FinalityTrue;
    var cfg, s := ConfigOf(w, key), net.nodes[key];
    var resp := OwnProposal(key, s, a);
    var step := ProcessVote(cfg, s, a.peerIdx, resp);
    NodeIsGood(w, net, key);
    OwnProposalForm(key, s, a);
    if step.outcome == Done {
      var e := VoteArrives(a.peerIdx, resp);
      var more := net.signed + {(key, BlockMessage(resp.block.inner))};
      StepKeepsGood(cfg, s, e);
      StepGoesForward(cfg, s, e);
      MoreSigned(w, net.signed, more, key, s);
      StepStoresKnown(cfg, s, e, ReleasedSigs(w, more));
      ProposalIsStored(cfg, s, a.peerIdx, resp);
      OwnVoteKeepsFinalityTrue(w, net, key, a.peerIdx, resp);
      NodeMoves(w, net, key, step.state, more);
    } else {
      FailureChangesNothing(cfg, s, a.peerIdx, resp);
      assert net.nodes[key := step.state] == net.nodes;
    }
  }

  lemma OwnVoteKeepsFinalityTrue(w: World, net: Net, key: PeerPubkey, peerIdx: nat, resp: VoteResponse)
    requires NetGood(w, net) && key in net.nodes && Inv(net.nodes[key])
    requires Forward(ConfigOf(w, key), net.nodes[key],
             ProcessVote(ConfigOf(w, key), net.nodes[key], peerIdx, resp).state)
    ensures var t := ProcessVote(ConfigOf(w, key), net.nodes[key], peerIdx, resp).state;
            FinalityTrue(w, net.nodes[key := t], t.finalityVotes)
  {
    hide ProcessVote, Inv, Reach, NodeGood;
    var cfg, s, e := ConfigOf(w, key), net.nodes[key], VoteArrives(peerIdx, resp);
    var t := ProcessVote(cfg, s, peerIdx, resp).state;
    AfterVote(cfg, s, e);
    hide After;
    StepExplainsFinalityVotes(cfg, s, e);
    assert FinalityTrue(w, net.nodes, s.finalityVotes);
    FinalityStaysTrue(w, net.nodes, key, t, s.finalityVotes);
    forall p | p in t.finalityVotes && p in w.correct
      ensures t.finalityVotes[p] <= Reach(net.nodes[key := t][p].notarized)
    {
      assert VoteExplained(cfg, s, e, t, p);
    }
  }

  lemma OwnProposalForm(key: PeerPubkey, s: State, a: Action)
    requires a.Propose?
    ensures var resp := OwnProposal(key, s, a);
            resp.Proposal? && resp.block.sig == Signature(key, BlockMessage(resp.block.inner), a.nonce)
  {}

  lemma FailureChangesNothing(cfg: Config, s: State, peerIdx: nat, resp: VoteResponse)
    requires ProcessVote(cfg, s, peerIdx, resp).outcome != Done
    ensures ProcessVote(cfg, s, peerIdx, resp).state == s
  {
    hide FinishRound, ProposalError, WithProposal, WithBlockVote, WithDummyVotes, VerifyWithContent, IsDummy;
  }

  lemma NetStepKeepsGood(w: World, net: Net, key: PeerPubkey, a: Action, next: Net)
    requires NetGood(w, net) && NetStep(w, net, key, a, next)
    ensures NetGood(w, next)
  {
    hide NetGood, Allowed, After, Brings, ProcessVote, OwnProposal, SignedIsTrue;
    match a
    case Local(e) => LocalStepKeepsGood(w, net, key, e);
    case SignVote =>
      assert Inv(net.nodes[key]) by { NodeIsGood(w, net, key); }
      CurrentProposalIsStored(net, key);
      PeerSigns(w, net, key, BlockMessage(net.nodes[key].proposals[net.nodes[key].round]));
    case SignDummy =>
      var dummy := NewDummy(net.nodes[key].round, ParamsAt(net.nodes[key].schedule, net.nodes[key].round));
      DummyNeedsNoProposal(net, key, dummy.round, ParamsAt(net.nodes[key].schedule, net.nodes[key].round));
      PeerSigns(w, net, key, BlockMessage(dummy));
    case SignFinality(vote) =>
      ReachedVoteIsTrue(net, key, vote);
      PeerSigns(w, net, key, FinalityMessage(vote));
    case Propose(_, _, _, _) => ProposeKeepsGood(w, net, key, a);
  }

  lemma NodeIsGood(w: World, net: Net, key: PeerPubkey)
    requires NetGood(w, net) && key in net.nodes
    ensures NodeGood(w, net.signed, key, net.nodes[key])
  {}

  lemma DummyNeedsNoProposal(net: Net, key: PeerPubkey, round: nat, params: ConsensusParams)
    ensures SignedIsTrue(net.nodes, key, BlockMessage(NewDummy(round, params)))
  {
    NewDummyIsAcceptable(round, params);
  }

  lemma ReachedVoteIsTrue(net: Net, key: PeerPubkey, vote: nat)
    requires key in net.nodes && vote <= Reach(net.nodes[key].notarized)
    ensures SignedIsTrue(net.nodes, key, FinalityMessage(vote))
  {}

  /** In every run a correct peer signs at most one block per round, and it is its stored proposal. */
  lemma {:induction false} EveryNetIsGood(w: World, nets: seq<Net>, keys: seq<PeerPubkey>, actions: seq<Action>, i: nat)
    requires IsNetRun(w, nets, keys, actions) && i < |nets|
    ensures NetGood(w, nets[i])
  {
    hide NetGood, NetStep, IsNetStart;
    if i == 0 {
      StartIsGood(w, nets[0]);
    } else {
      EveryNetIsGood(w, nets, keys, actions, i - 1);
      assert NetStep(w, nets[i - 1], keys[i - 1], actions[i - 1], nets[i - 1 + 1]);
      NetStepKeepsGood(w, nets[i - 1], keys[i - 1], actions[i - 1], nets[i]);
    }
  }
}
