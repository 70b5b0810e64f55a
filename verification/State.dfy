/** The tables of one node, as a value, and what each kind of step leaves in them.

    Every step is a database transaction: unless it commits, the tables are what
    they were. */
module State {
  import opened Wrappers
  import opened OrderedTables
  import opened NumPeers
  import opened Blocks
  import opened Chains
  import opened Finality

  predicate GoodPeers(peers: seq<PeerPubkey>) {
    1 <= |peers| <= 255
  }

  predicate IsSchedule(m: map<nat, ConsensusParams>) {
    0 in m && forall r | r in m :: GoodPeers(m[r].peers)
  }

  const SOLO_PARAMS := ConsensusParams(0, 0, 0, 0, 0, 0, None, [0])

  /** Parameters by the first round they apply to. */
  type Schedule = m: map<nat, ConsensusParams> | IsSchedule(m) witness map[0 := SOLO_PARAMS]

  function ParamsAt(schedule: Schedule, round: nat): (p: ConsensusParams)
    ensures GoodPeers(p.peers)
  {
    schedule[Floor(schedule, round).value]
  }

  type PayloadTable = map<Hash<Payload>, Payload>
  type VoteTable = map<nat, map<nat, SignedBlock>>
  type DummyVoteTable = map<nat, map<nat, Signature>>
  type PinTable = map<nat, Hash<BlockHeader>>
  type FinalityVoteTable = map<PeerPubkey, nat>

  datatype State = State(
    round: nat,
    schedule: Schedule,
    proposals: BlockTable,
    notarized: BlockTable,
    payloads: PayloadTable,
    blockVotes: VoteTable,
    dummyVotes: DummyVoteTable,
    pins: PinTable,
    finalityVotes: FinalityVoteTable,
    finality: Option<nat>)

  /** What does not change while a node runs: its own key, and the hash of each round number. */
  datatype Config = Config(ourPeer: Option<PeerPubkey>, roundHash: imap<nat, nat>)

  function LeaderIdx(cfg: Config, round: nat, numPeers: nat): nat
    requires 0 < numPeers
  {
    (if round in cfg.roundHash then cfg.roundHash[round] else 0) % numPeers
  }

  datatype Step<+E> = Step(outcome: Outcome<E>, state: State)

  // Table writes

  /** Votes of the block's round that are not for the block are dropped. The range that is scanned
      ends before the last peer index. */
  function KeepVotesFor(votes: VoteTable, block: BlockHeader): VoteTable {
    if block.round !in votes then votes
    else
      var kept := votes[block.round];
      votes[block.round := map i | i in kept && (255 <= i || kept[i].inner == block) :: kept[i]]
  }

  function WithProposal(s: State, block: BlockHeader, payload: Payload): State {
    s.(proposals := s.proposals[block.round := block],
       payloads := s.payloads[block.payloadHash := payload],
       blockVotes := KeepVotesFor(s.blockVotes, block))
  }

  function WithNotarized(s: State, block: BlockHeader, payload: Option<Payload>): State {
    if block.round in s.notarized then s
    else
      s.(notarized := s.notarized[block.round := block],
         payloads := if payload.Some? then s.payloads[block.payloadHash := payload.value] else s.payloads,
         blockVotes := KeepVotesFor(s.blockVotes, block))
  }

  function WithBlockVote(s: State, peerIdx: nat, vote: SignedBlock): State {
    s.(blockVotes := Put(s.blockVotes, s.round, map[peerIdx := vote]))
  }

  function WithDummyVotes(s: State, sigs: map<nat, Signature>): State {
    s.(dummyVotes := Put(s.dummyVotes, s.round, sigs))
  }

  function SignedBy(block: BlockHeader, sigs: map<nat, Signature>): map<nat, SignedBlock> {
    map i | i in sigs :: SignedBlock(block, sigs[i])
  }

  /** The certified block in the notarized table, with its votes. */
  function WithCertificate(s: State, cert: Notarized, payload: Payload): State {
    var t := WithNotarized(s, cert.inner, Some(payload));
    t.(blockVotes := Put(t.blockVotes, cert.inner.round, SignedBy(cert.inner, cert.sigs)))
  }

  // Finality

  function ReportedVotes(votes: FinalityVoteTable, peers: seq<PeerPubkey>): (r: seq<nat>)
    ensures |r| == |peers|
  {
    seq(|peers|, i requires 0 <= i < |peers| => if peers[i] in votes then votes[peers[i]] else 0)
  }

  function PruneBelow(votes: map<nat, map<nat, Signature>>, round: nat): map<nat, map<nat, Signature>> {
    map r | r in votes && round <= r :: votes[r]
  }

  ghost function RecalculateFinality(s: State): State {
    var agreed := FinalityRound(ReportedVotes(s.finalityVotes, ParamsAt(s.schedule, s.round).peers));
    var before := if s.finality.Some? then s.finality.value else 0;
    s.(finality := Some(agreed),
       dummyVotes := if before < agreed then PruneBelow(s.dummyVotes, agreed) else s.dummyVotes)
  }

  ghost function UpdateFinalityVote(s: State, peer: PeerPubkey, vote: nat): State {
    var t := s.(finalityVotes := s.finalityVotes[peer := vote]);
    if peer in s.finalityVotes && vote <= s.finalityVotes[peer] then t else RecalculateFinality(t)
  }

  // Ending rounds

  function ThresholdAt(s: State, round: nat): (t: nat)
    ensures 0 < t
  {
    Threshold(|ParamsAt(s.schedule, round).peers|)
  }

  predicate ProposalQuorum(s: State, round: nat) {
    round in s.proposals && ThresholdAt(s, round) <= |Voters(At(s.blockVotes, round))|
  }

  predicate DummyQuorum(s: State, round: nat) {
    ThresholdAt(s, round) <= |Voters(At(s.dummyVotes, round))|
  }

  /** Nothing ends the round: no notarized block at it or above, and no quorum in it. */
  ghost predicate Unfinished(s: State, round: nat) {
    Above(s.notarized, round) && !ProposalQuorum(s, round) && !DummyQuorum(s, round)
  }

  ghost predicate FirstUnfinished(s: State, start: nat, round: nat) {
    start <= round && Unfinished(s, round) && forall r | start <= r < round :: !Unfinished(s, r)
  }

  /** Quorums need votes, so no round above every key of the tables has ended. */
  lemma QuorumsAreStored(s: State, round: nat)
    requires forall r | r in s.notarized || r in s.blockVotes || r in s.dummyVotes :: r < round
    ensures Unfinished(s, round)
  {}

  lemma FirstUnfinishedExists(s: State, start: nat)
    ensures exists r :: FirstUnfinished(s, start, r)
  {
    var keys := s.notarized.Keys + s.blockVotes.Keys + s.dummyVotes.Keys;
    var top := Greatest(keys);
    var bound := if top.Some? && start <= top.value then top.value + 1 else start;
    assert forall r | r in s.notarized || r in s.blockVotes || r in s.dummyVotes :: r in keys;
    QuorumsAreStored(s, bound);
    FirstUnfinishedBelow(s, start, bound);
  }

  lemma {:induction false} FirstUnfinishedBelow(s: State, start: nat, bound: nat)
    requires start <= bound && Unfinished(s, bound)
    ensures exists r :: FirstUnfinished(s, start, r)
    decreases bound - start
  {
    if Unfinished(s, start) {
      assert FirstUnfinished(s, start, start);
    } else {
      FirstUnfinishedBelow(s, start + 1, bound);
      var r :| FirstUnfinished(s, start + 1, r);
      assert FirstUnfinished(s, start, r);
    }
  }

  /** The round a node is in once the loop stops. */
  ghost function EndRound(s: State): (end: nat)
    ensures FirstUnfinished(s, s.round, end)
  {
    FirstUnfinishedExists(s, s.round);
    var r :| FirstUnfinished(s, s.round, r);
    r
  }

  /** Proposals that become notarized while rounds end. */
  ghost function FreshBlocks(s: State, end: nat): BlockTable {
    map r | r in s.proposals && s.round <= r < end && Above(s.notarized, r) && ProposalQuorum(s, r) :: s.proposals[r]
  }

  ghost function KeepVotesForAll(votes: VoteTable, blocks: BlockTable): VoteTable {
    map r | r in votes :: if r in blocks then KeepVotesFor(votes, blocks[r])[r] else votes[r]
  }

  predicate PinHolds(pins: PinTable, notarized: BlockTable, round: nat) {
    round in pins ==> round in notarized && Digest(notarized[round]) == pins[round]
  }

  ghost function AfterRounds(s: State, end: nat): State {
    var newBlocks := FreshBlocks(s, end);
    s.(round := end, notarized := s.notarized + newBlocks, blockVotes := KeepVotesForAll(s.blockVotes, newBlocks))
  }

  /** The tables when the current round has moved on as far as it can: `None` when a round that is
      left behind has a pin that its block does not match. */
  ghost function FinishRound(cfg: Config, s: State): Option<State> {
    var t := AfterRounds(s, EndRound(s));
    if exists r | s.round <= r < t.round :: !PinHolds(s.pins, t.notarized, r) then None
    else
      var last := Highest(t.notarized);
      if cfg.ourPeer.Some? && last.Some? && s.round <= last.value
      then Some(UpdateFinalityVote(t, cfg.ourPeer.value, last.value + 1))
      else Some(t)
  }

  ghost function CommitRound<E>(cfg: Config, before: State, s: State, pinError: E): Step<E> {
    match FinishRound(cfg, s)
    case Some(t) => Step(Done, t)
    case None => Step(Failed(pinError), before)
  }

  // Votes and proposals

  datatype VoteResponse = Proposal(block: SignedBlock, payload: Payload) | Vote(block: SignedBlock)

  datatype VoteError =
    | InvalidRound | InvalidSignature | ForkedProposal | ForkedSignature | VoteForADifferentProposal
    | NotALeader | ProposedDummy | InvalidContent(content: ContentError) | VotePinnedMismatch | DoesNotExtend

  ghost function CountVote(cfg: Config, before: State, s: State, peerIdx: nat, vote: SignedBlock): Step<VoteError> {
    var params := ParamsAt(s.schedule, s.round);
    var block := vote.inner;
    if |params.peers| <= peerIdx then Step(Panicked, before)
    else if !Verifies(vote.sig, params.peers[peerIdx], BlockMessage(block)) then Step(Failed(InvalidSignature), before)
    else if IsDummy(block) then
      var content := VerifyWithContent(block, params, []);
      var present := At(s.dummyVotes, s.round);
      if content.Some? then Step(Failed(InvalidContent(content.value)), before)
      else if peerIdx !in present
        then CommitRound(cfg, before, WithDummyVotes(s, map[peerIdx := vote.sig]), VotePinnedMismatch)
      else if present[peerIdx] != vote.sig then Step(Failed(ForkedSignature), before)
      else Step(Done, WithDummyVotes(s, map[peerIdx := vote.sig]))
    else
      var present := At(s.blockVotes, s.round);
      if s.round in s.proposals && s.proposals[s.round] != block then Step(Failed(VoteForADifferentProposal), before)
      else if peerIdx !in present then CommitRound(cfg, before, WithBlockVote(s, peerIdx, vote), VotePinnedMismatch)
      else if present[peerIdx].sig != vote.sig then Step(Failed(ForkedSignature), before)
      else Step(Done, WithBlockVote(s, peerIdx, vote))
  }

  function ProposalError(cfg: Config, s: State, peerIdx: nat, block: BlockHeader, payload: Payload): Option<VoteError> {
    var params := ParamsAt(s.schedule, s.round);
    var content := VerifyWithContent(block, params, payload);
    if LeaderIdx(cfg, s.round, |params.peers|) != peerIdx then Some(NotALeader)
    else if IsDummy(block) then Some(ProposedDummy)
    else if content.Some? then Some(InvalidContent(content.value))
    else if !DirectlyExtends(block, PrevBlock(s.notarized, s.round)) then Some(DoesNotExtend)
    else None
  }

  ghost function ProcessVote(cfg: Config, s: State, peerIdx: nat, resp: VoteResponse): Step<VoteError> {
    var block := resp.block.inner;
    if block.round != s.round then Step(Failed(InvalidRound), s)
    else match resp
      case Vote(_) => CountVote(cfg, s, s, peerIdx, resp.block)
      case Proposal(_, payload) =>
        var error := ProposalError(cfg, s, peerIdx, block, payload);
        if error.Some? then Step(Failed(error.value), s)
        else if s.round !in s.proposals then CountVote(cfg, s, WithProposal(s, block, payload), peerIdx, resp.block)
        else if s.proposals[s.round] != block then Step(Failed(ForkedProposal), s)
        else Step(Done, s)
  }

  // Certificates

  datatype CertError =
    | InvalidSignatures | InvalidNotarizedContent(content: ContentError) | WrongRoundDummy | WrongRoundBlock
    | WrongParent | CertPinnedMismatch

  /** The first signature that does not verify stops the scan before an index without a peer can. */
  ghost predicate SignatureRefused(cert: Notarized, params: ConsensusParams) {
    || |Voters(cert.sigs)| < Threshold(|params.peers|)
    || exists i | i in cert.sigs :: i < |params.peers| && !SigOk(cert, params, i)
  }

  ghost function ProcessNotarized(cfg: Config, s: State, cert: Notarized, payload: Payload): Step<CertError> {
    var block := cert.inner;
    var params := ParamsAt(s.schedule, block.round);
    var content := VerifyWithContent(block, params, payload);
    if SignatureRefused(cert, params) then Step(Failed(InvalidSignatures), s)
    else if !QuorumSigned(cert, params) then Step(Panicked, s)
    else if content.Some? then Step(Failed(InvalidNotarizedContent(content.value)), s)
    else if IsDummy(block) then
      if block.round != s.round then Step(Failed(WrongRoundDummy), s)
      else CommitRound(cfg, s, WithDummyVotes(s, cert.sigs), CertPinnedMismatch)
    else ProcessCertified(cfg, s, cert, payload)
  }

  /** A block whose certificate was checked is appended, or takes the place of the last one. */
  ghost function ProcessCertified(cfg: Config, s: State, cert: Notarized, payload: Payload): Step<CertError> {
    var block := cert.inner;
    var latest := PrevBlock(s.notarized, s.round);
    if latest.Some? && block.round == latest.value.round then
      Step(if block == latest.value then Done else Panicked, s)
    else if latest.Some? && block.round < latest.value.round then Step(Failed(WrongRoundBlock), s)
    else if DirectlyExtends(block, latest) then
      CommitRound(cfg, s, WithCertificate(s, cert, payload), CertPinnedMismatch)
    else if latest.None? then Step(Panicked, s)
    else if !DirectlyExtends(block, PrevBlock(s.notarized, latest.value.round)) then Step(Failed(WrongParent), s)
    else
      var rewound := s.(notarized := s.notarized - {latest.value.round});
      CommitRound(cfg, s, WithCertificate(rewound, cert, payload), CertPinnedMismatch)
  }

  // Finality votes, membership changes, opening

  datatype FinalityError = InvalidFinalitySignature

  ghost function ProcessFinalityVote(s: State, peer: PeerPubkey, round: nat, sig: Signature): Step<FinalityError> {
    if Verifies(sig, peer, FinalityMessage(round)) then Step(Done, UpdateFinalityVote(s, peer, round))
    else Step(Failed(InvalidFinalitySignature), s)
  }

  const APPLY_DELAY_BASE: nat := 32

  function MakeChange(params: ConsensusParams, scheduleRound: nat, timestamp: nat, peers: seq<PeerPubkey>,
                      midBlock: Option<(nat, Hash<BlockHeader>)>): ConsensusParams {
    params.(peers := peers, timestamp := timestamp, prevMidBlock := midBlock, scheduleRound := scheduleRound,
            applyRound := scheduleRound + |params.peers| + APPLY_DELAY_BASE)
  }

  function ChangedParams(s: State, round: nat, timestamp: nat, peers: seq<PeerPubkey>): ConsensusParams {
    var mid := PrevBlock(s.notarized, round / 2);
    MakeChange(ParamsAt(s.schedule, round), round, timestamp, peers,
               if mid.Some? then Some((mid.value.round, Digest(mid.value))) else None)
  }

  /** A change is scheduled ahead of the current round, or the process stops. */
  function ChangeParams(s: State, round: nat, timestamp: nat, peers: seq<PeerPubkey>): Step<()>
    requires GoodPeers(peers)
  {
    var params := ChangedParams(s, round, timestamp, peers);
    if params.applyRound <= s.round then Step(Panicked, s)
    else Step(Done, s.(schedule := s.schedule[params.applyRound := params]))
  }

  /** A change that lands on a round already scheduled has to be the same change. */
  predicate NoClash(s: State, round: nat, timestamp: nat, peers: seq<PeerPubkey>) {
    var params := ChangedParams(s, round, timestamp, peers);
    params.applyRound in s.schedule ==> s.schedule[params.applyRound] == params
  }

  function FreshState(params: ConsensusParams, pins: PinTable): State
    requires GoodPeers(params.peers)
  {
    State(0, map[0 := params], map[], map[], map[], map[], map[], pins, map[], None)
  }

  /** Opening rewrites the node's own finality vote and runs the round loop. */
  ghost function Reopen(cfg: Config, s: State): Option<State> {
    var latest := PrevBlock(s.notarized, s.round);
    var own := if latest.Some? then latest.value.round + 1 else 0;
    var t := if cfg.ourPeer.Some? then UpdateFinalityVote(s, cfg.ourPeer.value, own) else s;
    FinishRound(cfg, t)
  }
}
