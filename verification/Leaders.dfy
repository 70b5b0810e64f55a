/** Which peer may propose: the one whose index is the remainder of the round's hash by the number of peers. */
module Leaders {
  import opened Wrappers
  import opened OrderedTables
  import opened Blocks
  import opened Chains
  import opened State
  import opened Invariants
  import opened VoteRules
  import opened StoredSignatures

  lemma Multiple(k: int, n: int)
    requires 1 <= k && 0 < n
    ensures n <= k * n
  {}

  lemma NoSmallMultiple(k: int, n: int, r: int)
    requires 0 < n && k * n == r && 0 - n < r < n
    ensures r == 0
  {
    if k >= 1 {
      Multiple(k, n);
    } else if k <= -1 {
      Multiple(-k, n);
    }
  }

  lemma Divided(h: int, n: int) returns (q: int)
    requires 0 < n
    ensures h == q * n + h % n
  {
    q := h / n;
  }

  lemma RemainderIs(h: int, n: int, q: int, i: int)
    requires 0 <= i < n && h == q * n + i
    ensures h % n == i
  {
    var d := Divided(h, n);
    NoSmallMultiple(d - q, n, i - h % n);
  }

  lemma Congruent(a: int, b: int, n: int)
    requires 0 < n
    ensures a % n == b % n <==> (a - b) % n == 0
  {
    var p := Divided(a, n);
    var q := Divided(b, n);
    var d := Divided(a - b, n);
    if a % n == b % n {
      RemainderIs(a - b, n, p - q, 0);
    } else if (a - b) % n == 0 {
      NoSmallMultiple(d - (p - q), n, a % n - b % n);
    }
  }

  /** A proposal that is stored came from the peer whose index is what the round's hash leaves when divided by
      the number of peers. */
  lemma StoredProposalIsLeaders(cfg: Config, s: State, peerIdx: nat, resp: VoteResponse) returns (q: int)
    requires Inv(s) && s.round in cfg.roundHash
    requires ProcessVote(cfg, s, peerIdx, resp).state.proposals != s.proposals
    ensures var n := |ParamsAt(s.schedule, s.round).peers|;
            peerIdx < n && cfg.roundHash[s.round] == q * n + peerIdx
  {
    hide Inv, ProcessVote, IsDummy, VerifyWithContent, DirectlyExtends, ParamsAt;
    NewProposalIsLeaders(cfg, s, peerIdx, resp);
    q := Divided(cfg.roundHash[s.round], |ParamsAt(s.schedule, s.round).peers|);
  }

  /** A correct peer at that index, which has not voted in the round, has its block stored exactly when the pin
      of the round allows it, and a proposal of a peer at any other index is refused. */
  lemma LeaderProposes(cfg: Config, s: State, q: int, i: nat, key: PeerPubkey, timestamp: nat, payload: Payload,
                       nonce: nat)
    requires Inv(s) && s.round !in s.proposals && i !in At(s.blockVotes, s.round) && s.round in cfg.roundHash
    requires var params := ParamsAt(s.schedule, s.round);
             i < |params.peers| && params.peers[i] == key && cfg.roundHash[s.round] == q * |params.peers| + i
    ensures var params := ParamsAt(s.schedule, s.round);
            var block := NewHeader(PrevBlock(s.notarized, s.round), timestamp, s.round, params, payload);
            var vote := SignedBlock(block, Signature(key, BlockMessage(block), nonce));
            var step := ProcessVote(cfg, s, i, Proposal(vote, payload));
            && step.outcome == (if PinAllows(WithFirstProposal(s, i, vote, payload)) then Done
                                else Failed(VotePinnedMismatch))
            && (step.outcome == Done ==>
                  s.round in step.state.proposals && step.state.proposals[s.round] == block)
    ensures forall j, other: SignedBlock, content: Payload | j != i && other.inner.round == s.round ::
              ProcessVote(cfg, s, j, Proposal(other, content)) == Step(Failed(NotALeader), s)
  {
    hide Inv, PinAllows, WithFirstProposal, NewHeader, CountVote;
    var params := ParamsAt(s.schedule, s.round);
    RemainderIs(cfg.roundHash[s.round], |params.peers|, q, i);
    LeaderIsAccepted(cfg, s, i, key, timestamp, payload, nonce);
    hide ProcessVote;
    var block := NewHeader(PrevBlock(s.notarized, s.round), timestamp, s.round, params, payload);
    var vote := SignedBlock(block, Signature(key, BlockMessage(block), nonce));
    HeaderRound(PrevBlock(s.notarized, s.round), timestamp, s.round, params, payload);
    if ProcessVote(cfg, s, i, Proposal(vote, payload)).outcome == Done {
      ProposalIsStored(cfg, s, i, Proposal(vote, payload));
    }
  }

  /** In two rounds with equally many peers, of one node or of two, the stored proposals are those of the same
      index if and only if the hashes of the rounds are congruent. */
  lemma SameLeaderIff(cfg: Config, s: State, i: nat, first: VoteResponse, u: State, j: nat, second: VoteResponse)
    requires Inv(s) && s.round in cfg.roundHash && Inv(u) && u.round in cfg.roundHash
    requires ProcessVote(cfg, s, i, first).state.proposals != s.proposals
    requires ProcessVote(cfg, u, j, second).state.proposals != u.proposals
    requires |ParamsAt(s.schedule, s.round).peers| == |ParamsAt(u.schedule, u.round).peers|
    ensures i == j <==>
            (cfg.roundHash[s.round] - cfg.roundHash[u.round]) % |ParamsAt(s.schedule, s.round).peers| == 0
  {
    hide Inv, ProcessVote, ParamsAt;
    var n := |ParamsAt(s.schedule, s.round).peers|;
    var p := StoredProposalIsLeaders(cfg, s, i, first);
    var q := StoredProposalIsLeaders(cfg, u, j, second);
    RemainderIs(cfg.roundHash[s.round], n, p, i);
    RemainderIs(cfg.roundHash[u.round], n, q, j);
    Congruent(cfg.roundHash[s.round], cfg.roundHash[u.round], n);
  }
}
