/** Serving notarized blocks, and a node that asks for them one by one: which answers it takes, and when it
    ends with the server's blocks. */
module CatchUp {
  import opened Wrappers
  import opened OrderedTables
  import opened NumPeers
  import opened Blocks
  import opened Chains
  import opened State
  import opened Invariants
  import opened Steps
  import opened Progress
  import opened ChainSteps
  import opened ChainRuns

  /** `MissingPayload` is where the process stops. */
  datatype Answer = Answer(block: Notarized, payload: Payload) | NoAnswer | MissingPayload

  function SigsOf(votes: map<nat, SignedBlock>): map<nat, Signature> {
    map i | i in votes :: votes[i].sig
  }

  /** The first notarized block from `min` on with its stored votes, or else the dummy block of
      `curRound` if a quorum voted for it. */
  function NotarizedBlockResp(s: State, curRound: nat, min: nat): Answer {
    match Next(s.notarized, min)
    case Some(k) =>
      var block := s.notarized[k];
      if block.payloadHash !in s.payloads then MissingPayload
      else Answer(Notarized(block, SigsOf(At(s.blockVotes, block.round))), s.payloads[block.payloadHash])
    case None =>
      var params := ParamsAt(s.schedule, curRound);
      var sigs := At(s.dummyVotes, curRound);
      if Threshold(|params.peers|) <= |Voters(sigs)| then Answer(Notarized(NewDummy(curRound, params), sigs), [])
      else NoAnswer
  }

  /** Every notarized block is served with its payload, and under the parameters of its round the
      answer passes every check that a receiver makes on signatures and content. */
  lemma ServedBlockIsAcceptable(s: State, curRound: nat, min: nat)
    requires Inv(s) && Next(s.notarized, min).Some?
    ensures var k := Next(s.notarized, min).value;
            var answer := NotarizedBlockResp(s, curRound, min);
            && answer.Answer? && answer.block.inner == s.notarized[k] && answer.block.inner.round == k
            && !IsDummy(answer.block.inner)
            && QuorumSigned(answer.block, ParamsAt(s.schedule, k))
            && VerifyWithContent(answer.block.inner, ParamsAt(s.schedule, k), answer.payload).None?
  {
    hide IsDummy, VerifyWithContent;
    var k := Next(s.notarized, min).value;
    var row := RowAt(s, k);
    assert RowOk(row);
    assert row.notarized == Some(s.notarized[k]);
    var answer := NotarizedBlockResp(s, curRound, min);
    assert Voters(SigsOf(row.votes)) == Voters(row.votes);
    forall i | i in answer.block.sigs
      ensures SigOk(answer.block, row.params, i)
    {
      assert VoteOk(row, i, row.votes[i]);
    }
  }

  /** What is answered: the first notarized block from the asked round on, with its payload and the signatures of
      its votes; without one, the dummy block of the current round if a quorum has voted for it; else nothing. */
  lemma AnswerIs(s: State, curRound: nat, min: nat)
    requires Inv(s)
    ensures var answer := NotarizedBlockResp(s, curRound, min);
            var params := ParamsAt(s.schedule, curRound);
            if exists k :: k in s.notarized && min <= k then
              exists k :: k in s.notarized && min <= k && (forall j | j in s.notarized && min <= j :: k <= j)
                && answer.Answer? && answer.block.inner == s.notarized[k]
                && answer.block.inner.payloadHash == Digest(answer.payload)
                && answer.block.sigs.Keys == At(s.blockVotes, k).Keys
                && forall i | i in answer.block.sigs :: answer.block.sigs[i] == At(s.blockVotes, k)[i].sig
            else if Threshold(|params.peers|) <= |At(s.dummyVotes, curRound).Keys| then
              answer == Answer(Notarized(NewDummy(curRound, params), At(s.dummyVotes, curRound)), [])
            else answer == NoAnswer
  {
    hide IsDummy, VerifyWithContent, ParamsAt, QuorumSigned, NewDummy, RowsOk;
    assert Voters(At(s.dummyVotes, curRound)) == At(s.dummyVotes, curRound).Keys;
    var next := Next(s.notarized, min);
    if next.Some? {
      var k := next.value;
      BlockAtItsRound(s, k);
      var answer := NotarizedBlockResp(s, curRound, min);
      assert k in s.notarized && min <= k && answer.block.inner == s.notarized[k];
    }
  }

  lemma BlockAtItsRound(s: State, k: nat)
    requires Base(s) && k in s.notarized
    ensures s.notarized[k].round == k && s.notarized[k].payloadHash in s.payloads
  {
    assert RowOk(RowAt(s, k));
    assert RowAt(s, k).notarized == Some(s.notarized[k]);
  }

  // Catching up

  ghost predicate Serves(server: State) {
    Inv(server) && Linked(server.notarized)
  }

  /** A node at rest, under the parameters of the server's rounds, whose pins the server's chain meets. What
      proposals and votes it holds, and which round it is in, is left open. */
  ghost predicate Ready(server: State, client: State) {
    && Inv(client) && Settled(client)
    && (forall r: nat | r in server.notarized :: ParamsAt(client.schedule, r) == ParamsAt(server.schedule, r))
    && PinsHold(client.pins, server.notarized, Reach(server.notarized))
  }

  ghost predicate PinsHold(pins: PinTable, table: BlockTable, end: nat) {
    forall r: nat {:trigger PinHolds(pins, table, r)} | r < end :: PinHolds(pins, table, r)
  }

  /** The blocks of the client are the server's, up to the client's last one. */
  predicate IsPrefix(server: BlockTable, client: BlockTable) {
    client == Below(server, Reach(client))
  }

  /** All but the last block of the client are the server's, and the last one is not. */
  predicate IsOneOff(server: BlockTable, client: BlockTable) {
    var last := Highest(client);
    last.Some? && client - {last.value} == Below(server, last.value + 1)
  }

  /** What the client makes of the answer to its request. */
  ghost function Received(cfg: Config, server: State, client: State): Option<Step<CertError>> {
    match NotarizedBlockResp(server, client.round, Reach(client.notarized))
    case Answer(block, payload) => Some(ProcessNotarized(cfg, client, block, payload))
    case _ => None
  }

  /** One request, if its answer is accepted. */
  ghost function Request(cfg: Config, server: State, client: State): Option<State> {
    var step := Received(cfg, server, client);
    if step.Some? && step.value.outcome == Done then Some(step.value.state) else None
  }

  /** The client after `n` requests, as long as each answer is accepted. */
  ghost function AfterRequests(cfg: Config, server: State, client: State, n: nat): Option<State>
    decreases n
  {
    if n == 0 then Some(client)
    else
      var next := Request(cfg, server, client);
      if next.None? then None else AfterRequests(cfg, server, next.value, n - 1)
  }

  /** The server's blocks above the client's last one. */
  function Missing(server: BlockTable, client: BlockTable): set<nat> {
    set k | k in server && Reach(client) <= k
  }

  // What the next block extends

  /** A table and its part below a round have the same last block, as long as nothing is between. */
  lemma SameLastBlock(table: BlockTable, round: nat, k: nat)
    requires round <= k && forall r | r in table && round <= r :: k <= r
    ensures PrevBlock(Below(table, round), round) == PrevBlock(table, k)
    ensures k in table ==> Below(table, k + 1) == Below(table, round)[k := table[k]]
  {
    PrevDependsOnKeysBelow(Below(table, round), table, round);
    var p := Prev(table, round);
    if p.Some? {
      PrevIs(table, k, p.value);
    }
  }

  /** The server's next block extends the last block of a linked table exactly when that table is what the
      server has below it. */
  lemma NextExtendsIff(server: BlockTable, table: BlockTable, round: nat, k: nat)
    requires Linked(server) && Linked(table) && Above(table, round)
    requires k in server && round <= k && forall r | r in server && round <= r :: k <= r
    ensures DirectlyExtends(server[k], PrevBlock(table, round)) <==> table == Below(server, round)
  {
    var part := Below(server, round);
    BelowIsLinked(server, round);
    SameLastBlock(server, round, k);
    assert LinkAt(server, k);
    if DirectlyExtends(server[k], PrevBlock(table, round)) {
      ExtendsOneBlock(server[k], PrevBlock(table, round), PrevBlock(part, round));
      SameLastSameChain(table, part, round);
    }
  }

  lemma ExtendsOneBlock(block: BlockHeader, p: Option<BlockHeader>, q: Option<BlockHeader>)
    requires DirectlyExtends(block, p) && DirectlyExtends(block, q)
    ensures p == q
  {}

  lemma SameLastSameChain(a: BlockTable, b: BlockTable, round: nat)
    requires Linked(a) && Linked(b) && Above(a, round) && Above(b, round)
    requires PrevBlock(a, round) == PrevBlock(b, round)
    ensures a == b
  {
    var i, j := Prev(a, round), Prev(b, round);
    if i.Some? {
      assert LinkAt(a, i.value) && LinkAt(b, j.value);
      SameTipSameChain(a, b, i.value);
    }
  }

  lemma ReachIsAbove(table: BlockTable)
    ensures Above(table, Reach(table))
  {}

  /** The next block goes on top of the client's last block, or of the one before it, exactly when the client
      has the server's blocks, or all but the last of its own are the server's. */
  lemma NextFitsIff(server: BlockTable, client: State, k: nat)
    requires Linked(server) && Inv(client) && Linked(client.notarized)
    requires Next(server, Reach(client.notarized)) == Some(k)
    ensures DirectlyExtends(server[k], PrevBlock(client.notarized, client.round))
            <==> IsPrefix(server, client.notarized)
    ensures Highest(client.notarized).Some? ==>
              (DirectlyExtends(server[k], PrevBlock(client.notarized, Highest(client.notarized).value))
               <==> IsOneOff(server, client.notarized))
  {
    hide Base, DirectlyExtends, Linked;
    var table := client.notarized;
    ReachIsAbove(table);
    PrevBlockAboveAll(table, Reach(table), client.round);
    NextExtendsIff(server, table, Reach(table), k);
    if table != map[] {
      var last := Highest(table).value;
      LinkedPrefix(table, last);
      PrevBlockOfPrefix(table, last, last);
      PrevBlockAboveAll(table - {last}, last, last + 1);
      NextExtendsIff(server, table - {last}, last + 1, k);
    }
  }

  lemma PartIsLinked(server: BlockTable, client: State)
    requires Linked(server) && Inv(client)
    requires IsPrefix(server, client.notarized)
    ensures Linked(client.notarized)
  {
    BelowIsLinked(server, Reach(client.notarized));
  }

  // Rounds that end with a served block

  /** A notarized block above the current round ends every round up to its own, whatever proposals and votes
      there are. */
  lemma OnlyBlockEndsRounds(u: State, last: nat)
    requires Base(u) && u.round <= last && last in u.notarized && Above(u.notarized, last + 1)
    ensures EndRound(u) == last + 1 && FreshBlocks(u, last + 1) == map[]
  {
    hide ParamsAt, RowsOk, PayloadsOk;
    NoVoters(At(u.dummyVotes, last + 1));
    assert Unfinished(u, last + 1);
    assert FirstUnfinished(u, u.round, EndRound(u));
    assert forall r: nat | r <= last :: !Above(u.notarized, r);
  }

  lemma FinishPast(cfg: Config, u: State, last: nat)
    requires Base(u) && u.round <= last && last in u.notarized && Above(u.notarized, last + 1)
    requires PinsHold(u.pins, u.notarized, last + 1)
    ensures FinishRound(cfg, u).Some?
    ensures var t := FinishRound(cfg, u).value; t.round == last + 1 && t.notarized == u.notarized
  {
    hide Base, FreshBlocks, UpdateFinalityVote, EndRound, Above, PinHolds, KeepVotesForAll;
    OnlyBlockEndsRounds(u, last);
    MergeNothing(u.notarized);
    AfterRoundsTables(u, last + 1);
    FinishRoundTables(cfg, u, FinishRound(cfg, u).value);
  }

  lemma PinsOfPart(pins: PinTable, table: BlockTable, k: nat)
    requires k in table && PinsHold(pins, table, Reach(table))
    ensures PinsHold(pins, Below(table, k + 1), k + 1)
  {
    var part := Below(table, k + 1);
    forall r: nat | r < k + 1
      ensures PinHolds(pins, part, r)
    {
      assert PinHolds(pins, table, r);
    }
  }

  // Requests

  /** The answer passes every check of the client on signatures and content. */
  lemma AnswerIsChecked(server: State, client: State, k: nat)
    requires Serves(server) && Ready(server, client) && Next(server.notarized, Reach(client.notarized)) == Some(k)
    ensures var answer := NotarizedBlockResp(server, client.round, Reach(client.notarized));
            && answer.Answer? && answer.block.inner == server.notarized[k] && server.notarized[k].round == k
            && !IsDummy(answer.block.inner)
            && QuorumSigned(answer.block, ParamsAt(client.schedule, k))
            && VerifyWithContent(answer.block.inner, ParamsAt(client.schedule, k), answer.payload).None?
  {
    hide Base, IsDummy, VerifyWithContent, QuorumSigned, ParamsAt, NotarizedBlockResp, PinsHold, Settled;
    ServedBlockIsAcceptable(server, client.round, Reach(client.notarized));
  }

  lemma MisfitIsRefused(cfg: Config, s: State, cert: Notarized, payload: Payload)
    requires Inv(s) && !IsDummy(cert.inner) && Reach(s.notarized) <= cert.inner.round && Highest(s.notarized).Some?
    requires QuorumSigned(cert, ParamsAt(s.schedule, cert.inner.round))
    requires VerifyWithContent(cert.inner, ParamsAt(s.schedule, cert.inner.round), payload).None?
    requires !DirectlyExtends(cert.inner, PrevBlock(s.notarized, s.round))
    requires !DirectlyExtends(cert.inner, PrevBlock(s.notarized, Highest(s.notarized).value))
    ensures ProcessNotarized(cfg, s, cert, payload) == Step(Failed(WrongParent), s)
  {
    hide Base, FinishRound, IsDummy, DirectlyExtends, VerifyWithContent, ParamsAt, WithCertificate, WithDummyVotes;
    LatestIsHighest(s);
  }

  /** The tables of the client with the served block. */
  lemma ServedBlockIsInserted(server: BlockTable, client: State, cert: Notarized, payload: Payload)
    requires Linked(server) && Inv(client) && Linked(client.notarized) && !IsDummy(cert.inner)
    requires Next(server, Reach(client.notarized)) == Some(cert.inner.round) && server[cert.inner.round] == cert.inner
    requires IsPrefix(server, client.notarized) || IsOneOff(server, client.notarized)
    requires Extends(client, cert.inner)
    ensures WithCert(client, cert, payload).notarized == Below(server, cert.inner.round + 1)
  {
    hide Base, DirectlyExtends, Linked, IsDummy, Extends, WithCert;
    var k := cert.inner.round;
    CertTables(client, cert, payload);
    NextFitsIff(server, client, k);
    LatestIsHighest(client);
    SameLastBlock(server, Reach(client.notarized), k);
  }

  /** The client takes the answer to its next request if its blocks, or all but the last, are the server's,
      and then has the server's blocks up to the served one; otherwise it refuses the parent. */
  lemma AnswerIsTakenIff(cfg: Config, server: State, client: State)
    requires Serves(server) && Ready(server, client) && Linked(client.notarized)
    requires Next(server.notarized, Reach(client.notarized)).Some?
    ensures var step := Received(cfg, server, client);
            var k := Next(server.notarized, Reach(client.notarized)).value;
            && step.Some?
            && if IsPrefix(server.notarized, client.notarized) || IsOneOff(server.notarized, client.notarized)
               then
                 && step.value.outcome == Done && Ready(server, step.value.state)
                 && step.value.state.notarized == Below(server.notarized, k + 1)
                 && step.value.state.round == if client.round <= k then k + 1 else client.round
               else step.value == Step(Failed(WrongParent), client)
  {
    hide Base, IsDummy, VerifyWithContent, QuorumSigned, ParamsAt, NotarizedBlockResp, PinsHold, Settled, Linked,
         ProcessNotarized, FinishRound, WithCert, Extends, DirectlyExtends, IsPrefix, IsOneOff, Below;
    var k := Next(server.notarized, Reach(client.notarized)).value;
    AnswerIsChecked(server, client, k);
    NextFitsIff(server.notarized, client, k);
    var answer := NotarizedBlockResp(server, client.round, Reach(client.notarized));
    if IsPrefix(server.notarized, client.notarized) || IsOneOff(server.notarized, client.notarized) {
      EmptyOrLast(server.notarized, client.notarized);
      InsertableIsProcessed(cfg, client, answer.block, answer.payload);
      FittingAnswerIsTaken(cfg, server, client, answer.block, answer.payload);
    } else {
      EmptyIsPrefix(server.notarized, client.notarized);
      MisfitIsRefused(cfg, client, answer.block, answer.payload);
    }
  }

  /** With two blocks that are not the server's a client is refused its next one. */
  lemma TwoOwnBlocksAreRefused(cfg: Config, server: State, client: State, i: nat, j: nat)
    requires Serves(server) && Ready(server, client) && Linked(client.notarized)
    requires Next(server.notarized, Reach(client.notarized)).Some?
    requires i < j && {i, j} <= client.notarized.Keys
    requires i in server.notarized ==> server.notarized[i] != client.notarized[i]
    requires j in server.notarized ==> server.notarized[j] != client.notarized[j]
    ensures Received(cfg, server, client) == Some(Step(Failed(WrongParent), client))
  {
    hide Serves, Ready, Linked, Received;
    AnswerIsTakenIff(cfg, server, client);
    assert i in client.notarized && j in client.notarized;
    assert i in client.notarized - {Highest(client.notarized).value};
  }

  lemma EmptyOrLast(server: BlockTable, client: BlockTable)
    ensures IsOneOff(server, client) ==> Highest(client).Some?
  {}

  lemma EmptyIsPrefix(server: BlockTable, client: BlockTable)
    ensures Highest(client).None? ==> IsPrefix(server, client)
  {
    assert Below(server, 0) == map[];
  }

  lemma FittingAnswerIsTaken(cfg: Config, server: State, client: State, cert: Notarized, payload: Payload)
    requires Serves(server) && Ready(server, client) && Linked(client.notarized)
    requires Next(server.notarized, Reach(client.notarized)) == Some(cert.inner.round)
    requires server.notarized[cert.inner.round] == cert.inner && !IsDummy(cert.inner)
    requires IsPrefix(server.notarized, client.notarized) || IsOneOff(server.notarized, client.notarized)
    requires Extends(client, cert.inner) && Base(WithCert(client, cert, payload))
    ensures var t := FinishRound(cfg, WithCert(client, cert, payload));
            var k := cert.inner.round;
            && t.Some? && Ready(server, t.value) && t.value.notarized == Below(server.notarized, k + 1)
            && t.value.round == if client.round <= k then k + 1 else client.round
  {
    hide Base, IsDummy, ParamsAt, PinsHold, Settled, Linked, FinishRound, WithCert, Extends, IsPrefix, IsOneOff, Below;
    var u := WithCert(client, cert, payload);
    var k := cert.inner.round;
    ServedBlockIsInserted(server.notarized, client, cert, payload);
    CertOtherTables(client, cert, payload);
    CertTables(client, cert, payload);
    if client.round <= k {
      PinsOfPart(client.pins, server.notarized, k);
      LastOfPart(server.notarized, k);
      FinishPast(cfg, u, k);
    } else {
      FinishLate(cfg, client, cert, payload);
    }
    var t := FinishRound(cfg, u).value;
    FinishRoundKeepsInv(cfg, u);
    FinishRoundSettles(cfg, u, t);
    FinishRoundTables(cfg, u, t);
  }

  lemma LastOfPart(table: BlockTable, k: nat)
    requires k in table
    ensures k in Below(table, k + 1) && Above(Below(table, k + 1), k + 1) && Reach(Below(table, k + 1)) == k + 1
  {}

  lemma PartIsPrefix(table: BlockTable, k: nat)
    requires k in table
    ensures IsPrefix(table, Below(table, k + 1)) && Reach(Below(table, k + 1)) == k + 1
  {
    LastOfPart(table, k);
  }

  lemma OneLessMissing(server: BlockTable, client: BlockTable)
    requires Next(server, Reach(client)).Some?
    ensures var k := Next(server, Reach(client)).value;
            |Missing(server, client)| == |Missing(server, Below(server, k + 1))| + 1
  {
    var k := Next(server, Reach(client)).value;
    LastOfPart(server, k);
    assert Missing(server, client) == Missing(server, Below(server, k + 1)) + {k};
  }

  lemma NothingMissing(server: BlockTable, client: BlockTable)
    requires Next(server, Reach(client)).None?
    ensures Missing(server, client) == {} && |Missing(server, client)| == 0
    ensures IsPrefix(server, client) <==> client == server
    ensures Reach(server) <= Reach(client)
  {
    assert Below(server, Reach(client)) == server;
  }

  lemma SomethingMissing(server: BlockTable, client: BlockTable)
    requires Next(server, Reach(client)).Some?
    ensures Missing(server, client) != {} && 1 <= |Missing(server, client)|
    ensures Next(server, Reach(client)).value + 1 <= Reach(server)
  {
    assert Next(server, Reach(client)).value in Missing(server, client);
  }

  /** A client that has the server's blocks up to its own last one takes an answer for every block it misses,
      and then has the server's table. */
  lemma {:induction false} PrefixCatchesUp(cfg: Config, server: State, client: State)
    requires Serves(server) && Ready(server, client) && IsPrefix(server.notarized, client.notarized)
    ensures var end := AfterRequests(cfg, server, client, |Missing(server.notarized, client.notarized)|);
            && end.Some? && Ready(server, end.value) && end.value.notarized == server.notarized
            && end.value.round ==
               if client.round <= Reach(server.notarized) then Reach(server.notarized) else client.round
    decreases |Missing(server.notarized, client.notarized)|
  {
    hide Base, Settled, PinsHold, ParamsAt, Received, Reach, Missing, Linked, IsPrefix;
    PartIsLinked(server.notarized, client);
    var next := Next(server.notarized, Reach(client.notarized));
    if next.None? {
      NothingMissing(server.notarized, client.notarized);
      ReachUpToRound(client);
    } else {
      AnswerIsTakenIff(cfg, server, client);
      var more := Request(cfg, server, client).value;
      PartIsPrefix(server.notarized, next.value);
      OneLessMissing(server.notarized, client.notarized);
      SomethingMissing(server.notarized, client.notarized);
      PrefixCatchesUp(cfg, server, more);
    }
  }

  lemma ReachUpToRound(s: State)
    requires Inv(s)
    ensures Reach(s.notarized) <= s.round
  {}

  /** A client ends with the server's table after one accepted answer for every block above its own last one
      if and only if its blocks are the server's, or all but the last are and the server has a block above. */
  lemma ClientCatchesUpIff(cfg: Config, server: State, client: State)
    requires Serves(server) && Ready(server, client) && Linked(client.notarized)
    ensures var end := AfterRequests(cfg, server, client, |Missing(server.notarized, client.notarized)|);
            (end.Some? && end.value.notarized == server.notarized) <==>
            || IsPrefix(server.notarized, client.notarized)
            || (IsOneOff(server.notarized, client.notarized) && Missing(server.notarized, client.notarized) != {})
  {
    hide Base, Settled, PinsHold, ParamsAt, Received, Reach, Missing, Linked, IsPrefix, IsOneOff;
    if IsPrefix(server.notarized, client.notarized) {
      PrefixCatchesUp(cfg, server, client);
    } else if Next(server.notarized, Reach(client.notarized)).None? {
      NothingMissing(server.notarized, client.notarized);
    } else {
      SomethingMissing(server.notarized, client.notarized);
      AnswerIsTakenIff(cfg, server, client);
      if IsOneOff(server.notarized, client.notarized) {
        PartIsPrefix(server.notarized, Next(server.notarized, Reach(client.notarized)).value);
        OneLessMissing(server.notarized, client.notarized);
        PrefixCatchesUp(cfg, server, Request(cfg, server, client).value);
      }
    }
  }

  /** An empty node under the server's parameters, whose pins the server's chain meets, accepts every
      answer and holds the server's notarized table after as many answers as there are blocks. */
  lemma EmptyNodeCatchesUp(cfg: Config, server: State, schedule: Schedule, params: ConsensusParams, pins: PinTable)
    requires Serves(server) && GoodPeers(params.peers)
    requires forall r: nat | r in server.notarized :: ParamsAt(schedule, r) == ParamsAt(server.schedule, r)
    requires PinsHold(pins, server.notarized, Reach(server.notarized))
    ensures var client := FreshState(params, pins).(schedule := schedule);
            var end := AfterRequests(cfg, server, client, |Voters(server.notarized)|);
            end.Some? && end.value.notarized == server.notarized && end.value.round == Reach(server.notarized)
  {
    hide Serves, AfterRequests, ParamsAt, PinsHold, RowOk, IsPrefix;
    var client := FreshState(params, pins).(schedule := schedule);
    EmptyNodeIsGood(params, pins, schedule);
    EmptyIsPrefix(server.notarized, client.notarized);
    assert Missing(server.notarized, client.notarized) == Voters(server.notarized);
    PrefixCatchesUp(cfg, server, client);
  }

  lemma EmptyNodeIsGood(params: ConsensusParams, pins: PinTable, schedule: Schedule)
    requires GoodPeers(params.peers)
    ensures var s := FreshState(params, pins).(schedule := schedule); Inv(s) && Settled(s)
  {
    NoVoters<Signature>(map[]);
  }
}
