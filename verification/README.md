# BFTE: consensus and governance, verified

BFTE is a Byzantine fault tolerant federation. Its nodes run a reformulation of
the Simplex protocol (`crates/consensus`), keep everything they know in database
tables, and change the tables in transactions. On top of it a governance module
(`crates/modules/consensus-ctrl`) lets the peers vote on who is a peer and which
modules run, and `crates/node-app` keeps copies of its tables in memory.

This project models that code in Dafny and proves what it keeps.

## How it is built

* **Values.** `OrderedTables`, `Blocks`, `ParamsEncoding`, `Chains`, `NumPeers`,
  `Finality`, `Sorting`: table ranges, headers, hashes and signatures, the notarized table as
  a hash-linked chain, quorum arithmetic, the finality rule. A hash is a free
  constructor: injective, never zero. A signature is a free constructor that
  carries signer and message.
* **One node.** `State` holds the tables of a node as a value and says what each
  kind of step leaves in them (`ProcessVote`, `ProcessNotarized`,
  `ProcessFinalityVote`, `ChangeParams`, `Reopen`). `ConsensusNode.Consensus` is
  the node as the program runs it, a class whose methods change the tables in
  place, loop, fail halfway and roll back; each method is proved to end with the
  outcome and the tables that `State` says. `RoundLoop` is the reasoning for its
  round loop, and `ParamTables` the two tables that hold the parameters.
* **What holds.** `Invariants`, `Steps`, `Progress`, `ChainSteps`, `VoteRules`,
  `FinalityRules` and `Dummies` are about one step; `Leaders`, `FinalityTables`,
  `RoundEnds` and `Refusals` say the same steps on the stored tables alone, without
  the functions that the specification is made of: who may propose, what finality
  is, which vote or certificate ends a round, and why anything is refused;
  `Liveness` is about votes that arrive in any order; `Runs`, `ChainRuns` and
  `TableLinks` are about every run of one node, `Stall`, `ChainBreak` and
  `OddDummies` about one run each; `Clashes` is about two changes of one block;
  `CatchUp` is about a server and a client; `StoredSignatures`, `Network` and
  `Agreement` are about any number of nodes, of which some are faulty and sign
  whatever they like with their own keys.
* **Governance.** `Governance` holds the rules on values and the theorems over
  runs, `CtrlTables` what an item does to each table, `CtrlReplicas` that it has
  exactly one result, `CtrlHistory` runs in terms of the votes that were cast,
  `StandingVotes` what is left undone, `GovernanceRuns` two runs of the module,
  `ConsensusCtrl` the module as a class, `NodeApp` the loop above it with its copies,
  and `Meta` the key-value votes.
* **Data structures.** `VoteSets` (a bitmap of 32 bytes) and `PeerSets` (the
  sorted vector that gives peers their indices).

Each step of a node is a transaction. A failed one is rolled back, and so is one
that stops the process (`assert!`, `panic!`, `expect`, an index out of range);
`debug_assert!` is not a stop. The assertions that the code makes about itself
are proved where they can be reached: `assert inserted` in
`ConsensusNode.Consensus.CheckRoundEnd` and `InsertCertificate` is the claim that
no block is ever inserted twice.

The hypotheses, each stated where it is used: 1 to 255 peers in every scheduled
round (`State.GoodPeers`, in the type `State.Schedule`); signatures of correct
peers cannot be forged (`Network.Released`); no round has more faulty peers than
`MaxFaulty` (`Agreement.FewFaulty`); two nodes have the same parameters in the
rounds that both reached (`Agreement.SameParams`). The runs of a node include two
different membership changes that land on one round: there the second one's
parameters count as stored, and a node that would look up parameters that its
tables lost stops instead (below). That the peer set handed to `consensus-ctrl` is
the one in its table, which its methods require, is what `NodeApp` proves of its copy.

## Where the code does less than its design says

* **A committed state is not always at rest.** When the leader's block arrives as
  a plain vote before it arrives as a proposal, storing the proposal ends in the
  early return for repeated votes (`handle_vote.rs:183-193`), before the round
  loop. If the votes collected so far are a quorum, the round stays open with a
  quorum in it. `Stall.RunCanStall` is such a run. `Progress.ProcessVoteSettlesIff`
  is the exact condition: a step leaves a resting state at rest if and only if it
  is not that one. `Runs.ReopenChangesNothingIff` says when opening the database
  again changes the round or the blocks.
* **A valid certificate can stop an empty node.** The comment at
  `handle_notarized_block.rs:158` says that there must be an earlier block. A node
  without blocks that is sent a certified block other than a first one stops at
  the `expect` two lines below; `Agreement.EmptyNodeCanStop` is such a certificate.
  `Agreement.CertificatePanicsIff` says exactly when a certificate stops a node (a
  signer index without a peer does it, too), and `Agreement.NoTwoNotarizedBlocks`
  shows that with few faulty peers two different blocks for a round do not.
* **Removing a peer does not count the votes to add one again.** The votes of those
  who stay can then be a quorum for a new peer, or all there is needed for a new
  module, and nothing happens until somebody votes again.
  `GovernanceRuns.VotesCanStand` is a run that ends with both, and
  `StandingVotes.LeavesAddStandingIff` and `LeavesModuleStandingIff` say exactly
  which items leave such votes behind. Votes to remove a peer and votes for versions
  never wait (`Governance.CtrlRunsKeepInv`).
* **A held proposal can be orphaned, and the chain can break.** A certificate for a
  round that is over may still insert a block, on top of the last one or in its
  place. If a proposal for the current round was accepted before that, it then
  extends a block that is no longer the last one (`ChainRuns.StepKeepsChainIff`). The
  table is still a chain (`TableLinks.LateCertificateKeepsTable`), and stays one if the
  round ends by dummy votes or by a certificate, but the loop notarizes the orphan all
  the same when that has its quorum. `ChainBreak.ChainCanBreak` is such a run. The exact
  conditions for the table alone are `TableLinks.LoopKeepsTableIff` for the loop,
  `TableLinks.StepKeepsTableIff` for one event, and `TableLinks.RunsStayLinkedIff` for a
  whole run.
* **Two changes that land on one round.** All items of a block are processed with one
  round (`node-app/src/lib.rs:140-157`), so two membership changes in a block land on
  the same one. `GovernanceRuns.OneBlockCanChangeMembersTwice` is a run in which two
  items of one peer change the members twice, and `Clashes.SecondChangeClashesIff`
  says that the changes clash exactly when they are for different peers.
  `insert_consensus_params` then overwrites the hash that is scheduled and does not
  store the second parameters (`Clashes.ParametersCanBeLost`);
  `ParamTables.InsertedResolvesIff` and `Clashes.SecondInsertionIsLostIff` say exactly
  when a later lookup can fail for it.
* **One vote can spoil a dummy certificate.** A dummy block may carry any time, and a
  vote for one with a time of its own counts, but a server makes its dummy certificate
  for the block without one (`getters.rs:136-150`). So one faulty peer among the voters
  makes every other node refuse the certificate: `OddDummies.OneOddVoteSpoilsCertificate`
  is such a run with four peers, `OddDummies.OddDummyIsCounted` says when such a vote
  is taken, and `Dummies.ServedDummyIsSignedIff` when a certificate is refused for one.
* **Not every node can catch up.** A client asks for the block after its own last one. It
  ends with the server's blocks if its own are the server's, or all but the last are
  and the server has a block above that one, which then goes in its place; with two
  blocks of its own it is refused with `WrongParent` at the first answer
  (`CatchUp.AnswerIsTakenIff`, `CatchUp.ClientCatchesUpIff`,
  `CatchUp.TwoOwnBlocksAreRefused`).

## Model

| member | source | states |
|---|---|---|
| `NumPeers.MaxFaulty` | crates/consensus-core/src/num_peers.rs:24-26 | the most peers that three times over still stay below the total |
| `NumPeers.Threshold` | crates/consensus-core/src/num_peers.rs:29-31 | a quorum is what is left without the faulty peers, and twice a quorum exceeds all peers by more than the faulty ones |
| `NumPeers.QuorumsShareCorrectPeer` | crates/consensus-core/src/num_peers.rs:24-31 | any two quorums share a peer that is not faulty |
| `NumPeers.QuorumHasCorrectMajority` | crates/consensus-core/src/num_peers.rs:24-31 | a quorum holds more than `MaxFaulty` peers that are not faulty |
| `Blocks.NewHeaderIsAcceptable` | crates/consensus-core/src/block.rs:161-218 | a header that a leader builds is no dummy, extends the block it was built on, and passes the content check with its payload |
| `Blocks.NewDummyIsAcceptable` | crates/consensus-core/src/block.rs:220-241 | the dummy header is recognised as one and passes the content check with the empty payload |
| `Blocks.ContentFitsIff` | crates/consensus-core/src/block.rs:188-218 | the content check passes exactly for version 0, the hash and length of the parameters, and the hash and length of the payload, of which a dummy has none |
| `Blocks.ContentErrorsIff` | crates/consensus-core/src/block.rs:188-218 | which content error is reported, each in both directions |
| `ParamsEncoding.EncodedLenCountsBytes` | crates/consensus-core/src/consensus_params.rs:42-91 | the length of the parameters that a header carries is the number of bytes of their encoding |
| `Blocks.VerifySigs` | crates/consensus-core/src/signed.rs:146-164 | a certificate is accepted if and only if a quorum signed and every signature verifies for the peer at its index; otherwise which error comes first |
| `Chains.SeqNumbersCountBlocks` | crates/consensus-core/src/block.rs:172-172 | in a linked table each block's sequence number is the number of blocks before it, modulo 2^32 |
| `Chains.LinkedPrefix` | crates/consensus/src/consensus/handle_notarized_block.rs:186-186 | dropping the last block leaves a linked chain |
| `Chains.LinkedAppend` | crates/consensus-core/src/block.rs:243-253 | a block that directly extends the last one can be appended to the chain |
| `Chains.SameTipSameChain` | crates/consensus-core/src/block.rs:243-253 | two linked chains with the same last block are equal block for block |
| `Chains.SameTipHashSameChain` | crates/consensus-core/src/block.rs:184-186 | two linked chains whose last blocks have the same hash are equal block for block |
| `Finality.SortedPickIsFinalityRound` | crates/consensus/src/consensus/handle_finality_vote.rs:100-110 | sorting the reports and skipping `MaxFaulty` of them gives the greatest round that a quorum reports to have reached |
| `Finality.RisingVotesNeverLowerFinality` | crates/consensus/src/consensus/handle_finality_vote.rs:100-110 | for fixed peers, raising reports never lowers the finality round |
| `Finality.FinalityHasCorrectSupport` | crates/consensus/src/consensus/handle_finality_vote.rs:100-110 | with at most `MaxFaulty` false reports, more than `MaxFaulty` truthful ones reached the finality round |
| `FinalityRules.RisingVoteDecidesFinality` | crates/consensus/src/consensus/handle_finality_vote.rs:56-114 | a rising vote makes the stored finality the greatest round a quorum of the current peers reports; any other vote leaves it |
| `FinalityRules.PrunedOnlyBelowFinality` | crates/consensus/src/consensus/handle_finality_vote.rs:112-139 | dummy votes are dropped exactly below a finality value that has just risen |
| `FinalityRules.OwnVoteFollowsBlocks` | crates/consensus/src/consensus/finish_round.rs:119-136 | where a round ended with a notarized block at it or above, the own vote is exactly one past the last notarized block, and else it stays |
| `FinalityRules.OpeningRestoresOwnVote` | crates/consensus/src/consensus/init.rs:62-103 | after opening the own vote is one past the last notarized block |
| `RoundEnds.OpeningCountsOwnVote` | crates/consensus/src/consensus/init.rs:62-103 | opening a node at rest sets the own vote to one past the last block, decides finality among the current peers where that rose, and moves nothing |
| `FinalityTables.FinalityVoteArrivesCounts` | crates/consensus/src/consensus/handle_finality_vote.rs:39-114 | a finality vote with its peer's signature is stored, and if it rises, finality becomes the greatest round for which a quorum of the current peers has votes of it or more; without the signature it is refused and nothing changes |
| `FinalityTables.FinalityEventCounts` | crates/consensus/src/consensus/handle_finality_vote.rs:39-141 | the same for the event in a run, with exactly the dummy votes below a risen finality value dropped |
| `FinalityTables.OwnVoteDecidesFinality` | crates/consensus/src/consensus/finish_round.rs:107-136 | where a round ends with a notarized block at it or above, the own vote is stored and, if it rose, decides finality among the peers of the new round; else neither votes nor finality change |
| `FinalityRules.ChangeTakesEffect` | crates/consensus-core/src/consensus_params.rs:124-147 | a change applies after the delay and not before, with the new peers, up to the next scheduled entry |
| `FinalityRules.ChangeIsScheduledIff` | crates/consensus/src/consensus/getters.rs:267-298 | a change is scheduled if and only if the round from which it applies is ahead of the current one, and else the process stops and nothing is written |
| `ParamTables.InsertedResolvesIff` | crates/consensus/src/consensus/ctx.rs:341-357 | after an insertion every scheduled hash has its parameters if and only if the round was free or the parameters were stored, and then lookups are those of one table with the new entry |
| `State.EndRound` | crates/consensus/src/consensus/finish_round.rs:28-105 | the round where the loop stops is the least from the current one on that is above every notarized block and has no quorum for its proposal or its dummy |
| `VoteRules.LoopStopsAtFirstUnfinished` | crates/consensus/src/consensus/finish_round.rs:28-117 | the step moves to the first unfinished round and notarizes the proposals that ended rounds, if and only if every pin passed on the way matches the block of its round |
| `ConsensusNode.Consensus.CheckRoundEnd` | crates/consensus/src/consensus/finish_round.rs:18-162 | the loop terminates with the tables of `FinishRound`, or is refused exactly where a pin does not match |
| `ConsensusNode.Consensus.EnterRound` | crates/consensus/src/consensus/finish_round.rs:107-136 | the new current round is written, and the own finality vote becomes one past the last notarized round |
| `ConsensusNode.Consensus.Init` | crates/consensus/src/consensus/init.rs:113-130 | a database that is initialised for the first time holds its parameters and its pin and nothing else, and keeps the invariant |
| `ConsensusNode.Consensus.InitAgain` | crates/consensus/src/consensus/init.rs:113-130 | initialising again is refused exactly when the first parameters are other ones, and writes nothing but the pin |
| `ConsensusNode.Consensus.Open` | crates/consensus/src/consensus/init.rs:54-106 | opening rewrites the own finality vote and runs the round loop, or fails and changes nothing |
| `ConsensusNode.Consensus.InsertProposal` | crates/consensus/src/consensus/ctx.rs:359-391 | the first proposal of a round is stored with its payload and the votes for other blocks are dropped; a later one changes nothing |
| `ConsensusNode.Consensus.InsertNotarizedBlock` | crates/consensus/src/consensus/ctx.rs:423-460 | the first block of a round is stored with its payload and the votes for other blocks are dropped; a later one changes nothing |
| `ConsensusNode.Consensus.InsertBlockVote` | crates/consensus/src/consensus/ctx.rs:498-510 | afterwards the entry of the round and peer is the vote and every other entry is what it was; what was there is returned |
| `ConsensusNode.Consensus.InsertDummyVote` | crates/consensus/src/consensus/ctx.rs:484-496 | afterwards the entry of the round and peer is the signature and every other entry is what it was; what was there is returned |
| `ConsensusNode.Consensus.ProcessVoteResponse` | crates/consensus/src/consensus/handle_vote.rs:52-198 | a vote or proposal ends with the outcome and tables of `ProcessVote`; every failure leaves the tables as they were |
| `ConsensusNode.Consensus.ProcessNotarizedBlockResponse` | crates/consensus/src/consensus/handle_notarized_block.rs:51-195 | a certificate ends with the outcome and tables of `ProcessNotarized`; every failure leaves the tables as they were |
| `ConsensusNode.Consensus.ProcessCertifiedTx` | crates/consensus/src/consensus/handle_notarized_block.rs:115-194 | a certified block extends the last one or replaces it, with every refusal in between |
| `ConsensusNode.Consensus.InsertCertificate` | crates/consensus/src/consensus/handle_notarized_block.rs:197-218 | the block, its payload and every signature of the certificate are stored; the block is not there before |
| `ConsensusNode.Consensus.UpdatePeerFinalityVoteRound` | crates/consensus/src/consensus/handle_finality_vote.rs:56-93 | the vote is always written, and finality is computed again only when it rose |
| `ConsensusNode.Consensus.RecalculateFinalityConsensus` | crates/consensus/src/consensus/handle_finality_vote.rs:95-141 | the finality round of the current peers is written, and dummy votes below it are pruned only when it rose |
| `ConsensusNode.Consensus.ProcessFinalityVoteUpdate` | crates/consensus/src/consensus/handle_finality_vote.rs:39-53 | a finality vote counts only with the signature of its peer |
| `ConsensusNode.Consensus.ConsensusParamsChange` | crates/consensus/src/consensus/getters.rs:267-298 | a change is scheduled for its apply round, or the process stops because that round is reached; the tables resolve afterwards if and only if the round was free or the parameters were stored, and then are what the specification says |
| `ConsensusNode.Consensus.GetNotarizedBlockResp` | crates/consensus/src/consensus/getters.rs:106-155 | the answer is the first notarized block from the asked round on, or the dummy block, and its payload is never missing |
| `ConsensusNode.Consensus.GetPeersWithProposalVotes` | crates/consensus/src/consensus/ctx.rs:161-172 | the bitmap holds exactly the peers with a stored vote in the current round |
| `Invariants.CurrentVotesMatchProposal` | crates/consensus/src/tables.rs:110-121 | in the current round every stored vote is for the proposal, if there is one |
| `Invariants.WithProposalKeepsInv` | crates/consensus/src/consensus/ctx.rs:359-391 | storing a checked proposal keeps the invariant |
| `Invariants.WithCertificateKeepsBase` | crates/consensus/src/consensus/ctx.rs:423-460 | storing a certified block keeps a quorum of valid votes for exactly that block, and its payload |
| `Invariants.FreshBlocksAreCurrent` | crates/consensus/src/consensus/finish_round.rs:58-73 | the loop notarizes at most the proposal of the round it starts in, and drops no vote |
| `Invariants.ProcessVoteKeepsInv` | crates/consensus/src/consensus/handle_vote.rs:71-198 | votes and proposals keep the invariant |
| `Invariants.ProcessNotarizedKeepsInv` | crates/consensus/src/consensus/handle_notarized_block.rs:67-195 | certificates keep the invariant, also where a block is deleted and replaced |
| `Invariants.ChangeParamsKeepsInv` | crates/consensus/src/consensus/getters.rs:267-298 | a membership change leaves the parameters of every round up to the current one, so every stored certificate keeps its quorum |
| `Invariants.LookupBeforeChange` | crates/consensus/src/consensus/ctx.rs:186-207 | an entry for a later round does not change the parameter lookup of an earlier one |
| `Invariants.ReopenKeepsInv` | crates/consensus/src/consensus/init.rs:54-106 | opening keeps the invariant |
| `VoteRules.NewProposalIsLeaders` | crates/consensus/src/consensus/handle_vote.rs:101-155 | a proposal is stored once a round and only from the leader, signed by it, with checked content, on top of the last notarized block |
| `VoteRules.FirstVoteStays` | crates/consensus/src/consensus/handle_vote.rs:177-193 | no later vote replaces or removes the first vote of a peer in a round |
| `VoteRules.RejectedOnlyByPin` | crates/consensus/src/consensus/finish_round.rs:29-37 | the loop is rejected exactly when the current round ends and its pin is not the hash of the proposal that ends it |
| `VoteRules.LeaderIsAccepted` | crates/node/src/run_consensus.rs:618-639 | the block a correct leader builds is accepted by its node if and only if the pin of the round allows it |
| `VoteRules.FirstDummyStays` | crates/consensus/src/consensus/handle_vote.rs:157-193 | no later vote replaces the first dummy vote of a peer in a round |
| `VoteRules.VoteAcceptedIff` | crates/consensus/src/consensus/handle_vote.rs:84-193 | a plain vote is accepted if and only if it is for the current round, validly signed by a peer of it, against neither the stored proposal nor the peer's earlier vote, and the pin of the round allows what a new vote brings about |
| `VoteRules.ProposalAcceptedIff` | crates/consensus/src/consensus/handle_vote.rs:84-193 | a proposal is accepted if and only if it is the leader's, well-formed and on top of the chain, and is stored already or is the first one, validly signed and allowed by the pin of the round |
| `Leaders.StoredProposalIsLeaders` | crates/consensus-core/src/block.rs:43-53 | a proposal is stored only from the peer whose index is what the hash of the round leaves when divided by the number of peers |
| `Leaders.LeaderProposes` | crates/consensus/src/consensus/handle_vote.rs:101-155 | the block that the peer of that index builds is stored if and only if the pin of the round allows it, and a proposal of any other index is refused as not the leader's |
| `Leaders.SameLeaderIff` | crates/consensus-core/src/block.rs:43-53 | in two rounds with equally many peers the stored proposals come from the same index if and only if the hashes of the rounds are congruent |
| `RoundEnds.BlockVoteEndsRoundIff` | crates/consensus/src/consensus/handle_vote.rs:157-197 | a new accepted vote for a block is stored and changes no other vote; it ends the round, with the proposal notarized, if and only if the proposal is there and a quorum of peers has voted with it |
| `RoundEnds.DummyVoteEndsRoundIff` | crates/consensus/src/consensus/handle_vote.rs:157-197 | a new accepted dummy vote is stored, nothing else changes, and it ends the round, with no block, if and only if a quorum of peers has voted for a dummy with it |
| `RoundEnds.ProposalEndsRoundIff` | crates/consensus/src/consensus/handle_vote.rs:117-197 | a first accepted proposal is stored with its payload, of the earlier votes exactly those for it stay, and it ends the round if and only if they are a quorum with the leader's, unless that was there before |
| `Liveness.VotesNotarizeIff` | crates/consensus/src/consensus/handle_vote.rs:157-197 | valid votes for the held proposal that arrive in any order, repeated or not, end the round with it notarized if and only if their peers, with those counted before, are a quorum |
| `Liveness.DummiesEndRoundIff` | crates/consensus/src/consensus/handle_vote.rs:157-197 | valid dummy votes that arrive in any order, repeated or not, end a round without a pin if and only if their peers, with those counted before, are a quorum, and notarize nothing |
| `Refusals.VoteErrorsIff` | crates/consensus/src/consensus/handle_vote.rs:84-193 | which error a vote is refused with, each in both directions: as forked exactly when its peer has validly signed another vote; a refused or repeated vote changes nothing |
| `Refusals.PinRefusesDummyVoteIff` | crates/consensus/src/consensus/finish_round.rs:29-37 | a pin refuses a dummy vote if and only if it is valid and new and would end a pinned round |
| `Refusals.PinRefusesBlockVoteIff` | crates/consensus/src/consensus/finish_round.rs:29-37 | a pin refuses a vote for a block if and only if it is valid and new and would end the round with another block than the pinned one |
| `Refusals.ProposalErrorsIff` | crates/consensus/src/consensus/handle_vote.rs:84-155 | which error a proposal is refused with, each in both directions; a refused or repeated proposal changes nothing |
| `Dummies.RunsKeepDummies` | crates/consensus/src/tables.rs:124-137 | in every run each stored dummy vote is a signature of its peer on a dummy block of its round |
| `Dummies.ServedDummyIsSignedIff` | crates/consensus/src/consensus/getters.rs:136-150 | the dummy certificate a server makes of its votes is validly signed if and only if all of them are for the dummy block that nodes make |
| `Dummies.ServedDummyEndsRound` | crates/consensus/src/consensus/getters.rs:136-150 | a node that waits in a round which a server left by a dummy quorum refuses the signatures exactly when they are for another dummy block, and else leaves the round exactly when its pin allows it |
| `OddDummies.OddDummyIsCounted` | crates/consensus/src/consensus/handle_vote.rs:157-176 | a first vote for a dummy block with any time is taken if and only if the pin of the round allows it, and one with a time of its own leaves votes that no certificate can be made of |
| `OddDummies.OneOddVoteSpoilsCertificate` | crates/consensus/src/consensus/getters.rs:136-150 | a concrete run with one faulty peer of four ends a round by dummy votes, and a fresh node refuses the certificate that is served for it |
| `Progress.DummyCertificateEndsRound` | crates/consensus/src/consensus/handle_notarized_block.rs:93-113 | an accepted dummy certificate always advances the round |
| `Progress.CertificateEndsItsRound` | crates/consensus/src/consensus/handle_notarized_block.rs:191-192 | an accepted certificate takes the node past the round of its block |
| `RoundEnds.BlockCertificateTakenIff` | crates/consensus/src/consensus/handle_notarized_block.rs:75-192 | a certificate with a block changes a node at rest if and only if a quorum signed it, its content fits, the block is above the last one and extends it or the one before it, and no pin of the rounds it ends is for anything else |
| `RoundEnds.CertifiedBlockIsStored` | crates/consensus/src/consensus/handle_notarized_block.rs:139-218 | the block is then on top of the last one or, where it does not extend that, in its place, with its payload; the votes of its round are those of the certificate and the earlier ones for it; the node is past that round or stays where it was |
| `RoundEnds.DummyCertificateTakenIff` | crates/consensus/src/consensus/handle_notarized_block.rs:75-113 | a dummy certificate changes a node at rest if and only if it is for the current round, a quorum signed it, its content fits and the round is not pinned |
| `RoundEnds.DummyCertificateIsStored` | crates/consensus/src/consensus/handle_notarized_block.rs:93-113 | it then takes the node to the next round and only its signatures are stored |
| `Refusals.CertificateErrorsIff` | crates/consensus/src/consensus/handle_notarized_block.rs:75-189 | which error a certificate is refused with, each in both directions; one for the last block itself is accepted and changes nothing |
| `Progress.ProcessVoteGoesForward` | crates/consensus/src/consensus/handle_vote.rs:71-198 | a vote never moves the round, the last notarized round, the proposals or the own finality vote backwards |
| `Progress.ProcessNotarizedGoesForward` | crates/consensus/src/consensus/handle_notarized_block.rs:115-189 | nor does a certificate, also where it deletes and replaces the last block |
| `Progress.ReopenGoesForward` | crates/consensus/src/consensus/init.rs:62-103 | nor does opening, and it leaves a state at rest |
| `Progress.FinishRoundSettles` | crates/consensus/src/consensus/finish_round.rs:28-117 | the state the round loop leaves is one it would leave alone |
| `Progress.ProcessVoteSettlesIff` | crates/consensus/src/consensus/handle_vote.rs:183-197 | a vote or proposal leaves a state at rest if and only if it is not a proposal whose block the leader voted for before and that a quorum has voted for |
| `Progress.ProcessNotarizedSettles` | crates/consensus/src/consensus/handle_notarized_block.rs:67-195 | a certificate leaves a state at rest |
| `Stall.RunCanStall` | crates/consensus/src/consensus/handle_vote.rs:183-193 | a concrete run commits a state that is not at rest |
| `Runs.EveryStateIsGood` | crates/consensus/src/tables.rs:76-121 | in every run notarized blocks lie below the current round, proposals and votes not above it, each notarized block has valid votes for exactly it at a quorum of peer indices, every stored block has its payload, and the own finality vote is at most one past the last notarized round |
| `Runs.RunsGoForward` | crates/consensus/src/consensus/finish_round.rs:107-136 | in every run the current round, the highest notarized round and the own finality vote never decrease, and no proposal is replaced |
| `Runs.RunsKeepSettings` | crates/consensus/src/consensus/init.rs:113-130 | in every run the pins and the parameters of round 0 are those the node was initialised with, and the parameters of a round that was reached never change |
| `Runs.RunsSettleIff` | crates/consensus/src/consensus/finish_round.rs:28-117 | every state of a run is at rest if and only if no proposal of the run stalls a round |
| `ChainRuns.LateCertificateTakenIff` | crates/consensus/src/consensus/handle_notarized_block.rs:75-192 | a certificate for a round that is over changes the tables if and only if its block passes every check, goes on top of the last block or in its place, and no pin is in the way |
| `ChainRuns.StepKeepsChainIff` | crates/consensus/src/consensus/handle_notarized_block.rs:139-189 | an event leaves a hash-linked table whose last block the proposal held for the current round extends, if and only if it is not such a certificate while a proposal is held |
| `ChainRuns.RunsStayChainedIff` | crates/consensus/src/consensus/handle_notarized_block.rs:139-189 | every state of a run has a hash-linked table, with the current proposal on top, if and only if no event of the run orphans a proposal |
| `TableLinks.LoopKeepsTableIff` | crates/consensus/src/consensus/finish_round.rs:58-73 | the round loop leaves a hash-linked table, whatever the held proposal extends, if and only if that proposal has no quorum or extends the last block |
| `TableLinks.StepKeepsTableIff` | crates/consensus/src/consensus/finish_round.rs:28-73 | an event leaves the table alone hash-linked if and only if it is not a vote, a certificate or an opening that passes every check and makes the loop notarize a proposal that does not extend the last block |
| `TableLinks.RunsStayLinkedIff` | crates/consensus/src/consensus/finish_round.rs:28-73 | the table of every state of a run is hash-linked if and only if no event of the run does that |
| `TableLinks.LateCertificateKeepsTable` | crates/consensus/src/consensus/handle_notarized_block.rs:139-189 | in a state at rest a certificate for a round that is over leaves the table hash-linked, also where the held proposal then extends a block that is not the last one |
| `ChainBreak.ChainCanBreak` | crates/consensus/src/consensus/finish_round.rs:58-73 | a concrete run ends with a table that is not a chain |
| `Runs.ReopenChangesNothingIff` | crates/consensus/src/consensus/init.rs:91-103 | opening changes neither round nor notarized table if and only if the current proposal has no quorum |
| `ChainSteps.ProcessVoteKeepsChain` | crates/consensus/src/consensus/handle_vote.rs:117-122 | votes and proposals keep the chain without any condition |
| `ChainRuns.LateCertificateOrphans` | crates/consensus/src/consensus/handle_notarized_block.rs:139-189 | after a certificate for a round that is over, taken while a proposal is held, the table is not a chain that this proposal or its round's block extends; the table itself may still be one |
| `CatchUp.ServedBlockIsAcceptable` | crates/consensus/src/consensus/getters.rs:114-133 | every served block comes with its payload and passes all signature and content checks of a receiver |
| `CatchUp.AnswerIs` | crates/consensus/src/consensus/getters.rs:106-155 | the answer is the first notarized block from the asked round on with its payload and the signatures of its stored votes, or the dummy block of the current round if a quorum has voted for one, or nothing |
| `CatchUp.AnswerIsTakenIff` | crates/consensus/src/consensus/handle_notarized_block.rs:139-189 | a client at rest, whatever proposals and votes it holds, takes the answer to its next request if and only if its blocks, or all but its last one, are the server's; it then has the server's blocks up to the served one and is in a later round than that one's; otherwise it refuses the parent and changes nothing |
| `CatchUp.TwoOwnBlocksAreRefused` | crates/consensus/src/consensus/handle_notarized_block.rs:139-189 | a client with two blocks that are not the server's refuses the answer to its next request |
| `CatchUp.PrefixCatchesUp` | crates/node/src/run_consensus.rs:692-724 | a client that has the server's blocks up to its own last one takes as many answers as it misses blocks and then has the server's table, in the round after it or the one it was in |
| `CatchUp.ClientCatchesUpIff` | crates/node/src/run_consensus.rs:692-724 | a client ends with the server's table if and only if its blocks are the server's, or all but the last are and the server has a block above |
| `CatchUp.EmptyNodeCatchesUp` | crates/node/src/run_consensus.rs:715-720 | an empty node accepts as many answers as there are blocks, then holds exactly the server's chain and is in the round after it |
| `StoredSignatures.StepStoresKnown` | crates/consensus/src/consensus/handle_notarized_block.rs:206-215 | a step stores only votes whose signatures it was given |
| `StoredSignatures.ProposalIsStored` | crates/consensus/src/consensus/handle_vote.rs:124-143 | a proposal that was processed without an error is the stored proposal of its round |
| `Network.EveryNetIsGood` | crates/node/src/run_consensus.rs:354-381 | in every run of many nodes a correct peer signs at most one block per round, which is its stored proposal, and no finality vote it has not reached |
| `Network.NetStepKeepsGood` | crates/node/src/run_consensus.rs:596-616 | delivering any released message, voting, proposing, timing out, changing members and restarting all keep that |
| `Agreement.NotarizedBlocksAgree` | crates/consensus/src/consensus/handle_notarized_block.rs:119-128 | with few faulty peers and the same parameters no two correct nodes ever hold different notarized blocks for a round |
| `Agreement.CertificateAgrees` | crates/consensus/src/consensus/ctx.rs:434-441 | a certificate of released signatures is never for another block than the one stored for its round |
| `Agreement.CertificatePanicsIff` | crates/consensus/src/consensus/handle_notarized_block.rs:75-162 | a certificate stops the process exactly when its signatures are not refused and one is for an index without a peer, or when it passes every check and another block is the last one stored, for the same round, or nothing is stored and it is not a first block |
| `Agreement.EmptyNodeCanStop` | crates/consensus/src/consensus/handle_notarized_block.rs:158-162 | a concrete valid certificate stops a node that has no blocks |
| `Agreement.NoTwoNotarizedBlocks` | crates/consensus/src/consensus/handle_notarized_block.rs:119-128 | with few faulty peers the stop for two different notarized blocks cannot be reached |
| `Agreement.HistoriesAgreeIff` | crates/consensus/src/consensus/handle_notarized_block.rs:139-189 | correct nodes that share a notarized round, one of them with a chain up to it, share their history up to it if and only if the other one has a chain |
| `Agreement.HistoriesAgree` | crates/consensus/src/consensus/handle_notarized_block.rs:139-189 | two correct nodes that never notarized a proposal that does not extend their last block share their history up to every notarized round they share |
| `Agreement.SameHistorySameChange` | crates/consensus/src/consensus/getters.rs:274-283 | a membership change depends only on the parameters of its round and the history up to half that round |
| `Agreement.NodesScheduleTheSameChange` | crates/consensus/src/consensus/getters.rs:267-298 | correct nodes with equal schedules and a shared history have equal schedules after the same change |
| `Agreement.FinalityIsSupported` | crates/consensus/src/consensus/handle_finality_vote.rs:100-110 | whatever faulty peers report, more than `MaxFaulty` correct peers have notarized up to the finality round a correct node computes |
| `PeerSets.SameMembersSameIndices` | crates/consensus-core/src/consensus_params.rs:173-179 | equal membership gives equal sequences, so every node gives a key the same index |
| `PeerSets.PeerSet.constructor` | crates/consensus-core/src/peer_set.rs:56-62 | a peer set holds the given keys in order, each as often as given, and is strictly sorted if and only if they are distinct |
| `PeerSets.PeerSet.Insert` | crates/consensus-core/src/peer_set.rs:29-36 | inserting adds exactly the key, keeps strict order, and tells whether it was new |
| `PeerSets.PeerSet.Remove` | crates/consensus-core/src/peer_set.rs:38-47 | removing drops exactly the key, keeps strict order, and tells whether it was there |
| `PeerSets.PeerSet.FindPeerIdx` | crates/consensus-core/src/consensus_params.rs:173-179 | the index of a key is where it stands, and there is none exactly for non-members |
| `VoteSets.VoteSet.Insert` | crates/consensus/src/vote_set.rs:33-46 | the set of indices gains exactly the index |
| `VoteSets.VoteSet.Remove` | crates/consensus/src/vote_set.rs:48-50 | the set of indices loses exactly the index |
| `VoteSets.VoteSet.Contains` | crates/consensus/src/vote_set.rs:52-54 | tells membership in the set of indices |
| `VoteSets.VoteSet.Len` | crates/consensus/src/vote_set.rs:56-61 | the number of set bits is the size of the set |
| `VoteSets.VoteSet.BitOr` | crates/consensus/src/vote_set.rs:13-25 | the result is the union, and both operands stay as they were |
| `Governance.CtrlRunsKeepInv` | crates/modules/consensus-ctrl/src/module.rs:479-828 | in every run there is a peer, every recorded voter is a member, votes to add name no member, votes to remove name a member and never a quorum the same one, singleton kinds are unique, and no upgrade that all peers voted for is left undone |
| `Governance.CtrlRunsGrowModules` | crates/modules/consensus-ctrl/src/module.rs:454-473 | in every run a module keeps its id, kind and major version, and its minor version never decreases |
| `CtrlTables.PeerEntersIff` | crates/modules/consensus-ctrl/src/module.rs:498-548 | a peer enters if and only if a member's item votes for it and, the voter included, as many members as the threshold asks for have it as their recorded vote |
| `CtrlTables.PeerLeavesIff` | crates/modules/consensus-ctrl/src/module.rs:695-764 | a member leaves if and only if a member's item votes for that and, the voter included, as many members as the threshold asks for have that as their recorded vote |
| `CtrlTables.AddVotesAfter` | crates/modules/consensus-ctrl/src/module.rs:498-548 | what every item leaves of each member's vote to add a peer: it stays until that peer enters or the member leaves |
| `CtrlTables.RemoveVotesAfter` | crates/modules/consensus-ctrl/src/module.rs:704-775 | what every item leaves of each member's vote to remove a peer: it stays until that peer or the member leaves |
| `CtrlTables.ModuleVotesAfter` | crates/modules/consensus-ctrl/src/module.rs:580-666 | what every item leaves of each vote for a module: it stays until one of its kind is set up |
| `CtrlTables.VersionVotesAfter` | crates/modules/consensus-ctrl/src/module.rs:780-828 | an item for a version records it with the running major version, and no other version vote changes |
| `CtrlTables.ModuleUpgradedIff` | crates/modules/consensus-ctrl/src/module.rs:413-477 | an item changes a module if and only if after it every member has a stored vote for a higher minor version, and then to the least of those votes, which one member has cast |
| `CtrlTables.ModuleIsAddedIff` | crates/modules/consensus-ctrl/src/module.rs:590-666 | a module is set up if and only if an item votes for it and every other member has voted for that kind and major version; at the least minor version of those votes, under the least free id, with one effect |
| `CtrlReplicas.EffectsAreExact` | crates/modules/consensus-ctrl/src/module.rs:526-548 | the effects of an item are the change of the peers, if they changed, and one upgrade for each changed module in the order of the ids |
| `CtrlReplicas.ItemIsAcceptedIff` | crates/modules/consensus-ctrl/src/module.rs:906-957 | an item has a result if and only if it comes from a member and is not to add a peer again, to remove the last or no peer, for an unknown kind or a second singleton, or for a module that does not run |
| `CtrlReplicas.ItemIsDetermined` | crates/modules/consensus-ctrl/src/module.rs:906-957 | and it has only one: tables and effects follow from the tables before |
| `CtrlReplicas.ReplicasAgree` | crates/node-app/src/lib.rs:140-157 | nodes that process the same items hold the same tables after each of them |
| `CtrlHistory.RecordedVotesWereCast` | crates/modules/consensus-ctrl/src/module.rs:479-828 | in every run each recorded vote was cast by the peer it is recorded for |
| `CtrlHistory.RunsStartFrom` | crates/modules/consensus-ctrl/src/init.rs:34-66 | a run starts with the given peers, the module itself at the given version and no votes, and in all of it that module keeps its kind and major version at the given minor version or above |
| `CtrlHistory.RunPeerEntersIff` | crates/modules/consensus-ctrl/src/module.rs:498-548 | in every run a peer enters exactly with a member's vote that makes as many recorded votes of members for it as the threshold asks for |
| `CtrlHistory.RunPeerLeavesIff` | crates/modules/consensus-ctrl/src/module.rs:695-764 | the same for leaving, except that the last peer stays |
| `CtrlHistory.MembershipWasVotedFor` | crates/modules/consensus-ctrl/src/module.rs:479-778 | whoever enters or leaves in a run, a quorum of those who were members then have sent items for it |
| `CtrlHistory.UpgradesWereVotedFor` | crates/modules/consensus-ctrl/src/module.rs:413-477 | whatever minor version a module is upgraded to in a run, every member has sent an item for it or a higher one, and one for exactly it |
| `CtrlHistory.ModulesWereVotedFor` | crates/modules/consensus-ctrl/src/module.rs:553-670 | whatever module is set up in a run, every member has sent an item for its kind and major version at its minor version or above |
| `Governance.MembershipChangesWithQuorum` | crates/modules/consensus-ctrl/src/module.rs:498-778 | a peer enters or leaves exactly when an item votes for that and the recorded votes of a quorum of members, that vote included, name it |
| `Governance.FewerPeersRemovalsOk` | crates/modules/consensus-ctrl/src/module.rs:733-750 | when a quorum removes one peer, the votes that are left are no quorum for any other |
| `StandingVotes.LeavesAddStandingIff` | crates/modules/consensus-ctrl/src/module.rs:733-775 | an item leaves a quorum for adding a peer waiting if and only if it removes a member and the votes of those who stay are one |
| `StandingVotes.LeavesModuleStandingIff` | crates/modules/consensus-ctrl/src/module.rs:733-775 | an item leaves a module with every member's vote waiting if and only if it removes the last member without one |
| `GovernanceRuns.VotesCanStand` | crates/modules/consensus-ctrl/src/module.rs:733-775 | a concrete run leaves a quorum for adding a peer and every vote for a module waiting |
| `GovernanceRuns.OneBlockCanChangeMembersTwice` | crates/node-app/src/lib.rs:140-157 | a concrete run in which two items of one peer, one after the other, change the members twice |
| `Clashes.SecondChangeClashesIff` | crates/consensus/src/consensus/getters.rs:267-298 | a second change of a block applies from the same round as the first, and is another change there if and only if it is for other peers |
| `Clashes.SecondInsertionIsLostIff` | crates/consensus/src/consensus/ctx.rs:341-357 | of two insertions for a free round the second leaves a hash without parameters unless it is the first one again or its parameters were stored before |
| `Clashes.ParametersCanBeLost` | crates/consensus/src/consensus/ctx.rs:341-357 | a concrete pair of insertions leaves a scheduled hash without its parameters |
| `Governance.NewModuleIsFresh` | crates/modules/consensus-ctrl/src/module.rs:602-666 | a new module gets the least unused id from 1 on, replaces nothing, has one effect, and every member had voted for its kind at that minor version or above |
| `Governance.UpgradedModules` | crates/modules/consensus-ctrl/src/module.rs:413-477 | after the check no module is below the minor version that all peers voted for, no version is lower, and ids, kinds and major versions are what they were |
| `Governance.EffectsTellChanges` | crates/modules/consensus-ctrl/src/module.rs:526-548 | the effects hold one parameter change, with the new peers, if the peers changed and none otherwise, and configurations change only with an effect for a module |
| `ConsensusCtrl.ConsensusCtrlModule.ProcessCItem` | crates/modules/consensus-ctrl/src/module.rs:906-957 | an item is refused exactly in the listed cases and then changes nothing; otherwise tables and effects are those of the rules, and the invariant is kept |
| `ConsensusCtrl.ConsensusCtrlModule.ProcessVoteAddPeer` | crates/modules/consensus-ctrl/src/module.rs:479-551 | the vote is recorded, and with a quorum the peer enters and the votes for it are cleared |
| `ConsensusCtrl.ConsensusCtrlModule.ProcessVoteRemovePeer` | crates/modules/consensus-ctrl/src/module.rs:672-778 | the vote is recorded, and with a quorum the peer leaves, its votes and those against it are cleared, and modules are upgraded to what the others agree on; the last peer stays |
| `ConsensusCtrl.ConsensusCtrlModule.ProcessVoteAddModule` | crates/modules/consensus-ctrl/src/module.rs:553-670 | the module is set up when every peer voted for its kind and major version, at the least minor version among them |
| `ConsensusCtrl.ConsensusCtrlModule.FindFreshId` | crates/modules/consensus-ctrl/src/module.rs:634-645 | the search terminates with the least unused id from 1 on |
| `ConsensusCtrl.ConsensusCtrlModule.ProcessVoteModuleVersion` | crates/modules/consensus-ctrl/src/module.rs:780-828 | the vote is recorded and every module that has the votes is upgraded |
| `ConsensusCtrl.ConsensusCtrlModule.CheckModuleVersionUpgrades` | crates/modules/consensus-ctrl/src/module.rs:413-477 | each upgrade goes to the minimum minor version voted by all peers, where a missing vote is 0, and has exactly one effect |
| `ConsensusCtrl.ConsensusCtrlModule.Bootstrap` | crates/modules/consensus-ctrl/src/init.rs:34-66 | the bootstrapped tables hold the peers and the module itself, and keep the invariant |
| `NodeApp.NodeApp.ReloadInvalidatedCopies` | crates/node-app/src/lib.rs:171-207 | both copies are equal to the tables before an item is processed, or it fails, exactly when the configurations are read anew and a module that has to be set up cannot be |
| `NodeApp.NodeApp.ProcessCItem` | crates/node-app/src/process_citem.rs:52-88 | a committed item leaves each copy equal to its table or invalidated, and a failed one leaves the tables as they were and both copies invalidated; the core consensus is handed the peers exactly when they changed, which only a change that applies ahead of its round does, and the process stops only at another one |
| `NodeApp.NodeApp.ProcessItems` | crates/node-app/src/lib.rs:140-157 | any number of committed and rolled back items keeps the copies coherent, and where the process stops the tables are such that it can start again |
| `NodeApp.NodeApp.ProcessEffectsPre` | crates/node-app/src/process_citem.rs:227-261 | the copy of the peer set becomes equal to the table, and one change with the new peers is handed to the core consensus if they changed, none otherwise; the process stops exactly when they changed and the change would not apply ahead of the current round |
| `NodeApp.NodeApp.ProcessEffectsPost` | crates/node-app/src/process_citem.rs:263-282 | the copy of the configurations survives only when the table did not change |
| `NodeApp.NodeApp.SetupModulesTo` | crates/node-app/src/lib.rs:294-354 | the running modules become those configured, no module is left over, and a change is reported exactly when there is one; it fails exactly when a module that is new or configured anew cannot be set up, with the modules before the first such one running |
| `NodeApp.OnlyOneCtrl` | crates/node-app/src/process_citem.rs:235-239 | only the module with id 0 makes effects of the `consensus-ctrl` kind |
| `Meta.OneWinner` | crates/modules/meta/src/module.rs:301-337 | at most one value of a key can have a quorum of the current peers |
| `Meta.RecheckIsDetermined` | crates/modules/meta/src/module.rs:278-341 | what the recheck leaves does not depend on the order in which keys and values are looked at |
| `Meta.VoteDecidesIff` | crates/modules/meta/src/module.rs:186-247 | a vote decides its key if and only if it is new and, the voter included, as many peers as the threshold asks for have voted for the value; then the peers' votes for the key are gone, and otherwise it replaces the voter's last |
| `Meta.RecheckDecidesIff` | crates/modules/meta/src/module.rs:278-341 | a recheck gives a key without a value exactly the value that as many peers as the threshold asks for have voted for, and only then drops their votes for it |
| `Meta.MetaModule.RecheckAfterPeerRemoval` | crates/modules/meta/src/module.rs:278-341 | every key without a value gets the one that has a quorum, if any, and only the members' votes for it are cleared |
| `Meta.MetaModule.ProcessVoteKeyValue` | crates/modules/meta/src/module.rs:186-247 | a new vote is recorded, and decides the key exactly when its value then has a quorum |
| `Meta.MetaModule.ProcessApproveVote` | crates/modules/meta/src/module.rs:249-274 | approving is voting for what the approved peer voted for, and is refused when that peer has no vote |

## Left out

- Networking, RPC, gossip, async tasks, timers, watch channels, the web UI, the CLI and logging: input and output around the modelled state. Of `run_consensus.rs` the model keeps when a correct peer signs and what a client asks for.
- Hashing, signatures, binary encodings and the database: abstracted as described above. Whether a round needs a timeout is not modelled.
- Rounds and counters are unbounded numbers; the `u64` and `u32` overflows that the code rules out with `expect` are not modelled. Sequence numbers wrap modulo 2^32 as in the code.
- The two tables `cons_params_schedule` and `cons_params` are the fields of `ConsensusNode.Consensus`; the specification `State` sees them as one map from rounds to parameters, which they are as long as every hash has its entry.
- Agreement on the blocks delivered to the application: delivery compares round numbers on the node's own table (`crates/node/src/app_api.rs`), which does not decide it. `Agreement.HistoriesAgree` is about the notarized tables.
- Agreement.NotarizedBlocksAgree: `SameParams` is a hypothesis on the two nodes; `Agreement.NodesScheduleTheSameChange` is the part of it that does not depend on delivery to the application, which is left out.
- Dummy quorums of old rounds are pruned with finality, so that they are kept is not an invariant.
- The stored finality value may go down: the code writes a lower value before it compares (`handle_finality_vote.rs:112-127`). `Finality.RisingVotesNeverLowerFinality` is about fixed peers and rising votes.
- A pin is checked only while the round advances; a later replacement of a pinned block is not checked again.
- The position inside a block that `node-app` saves, and exactly-once resumption.
- The own pending votes and proposals of the `consensus-ctrl` and `meta` modules, their decoding of raw items, and their read-only listings.
- `consensus-ctrl` does not bound the number of peers at 255, which peer indices need.
- NodeApp.NodeApp.ProcessCItem: other modules are arbitrary effects or a refusal. The round from which a change applies and the round of the core consensus are parameters of the item; `ConsensusNode.Consensus.ConsensusParamsChange` is what the core consensus computes and writes. That both write in one transaction is not modelled.
- Meta.MetaModule.ProcessApproveVote: the table of votes is opened again by `process_vote_key_value` while the handle of the lookup is still alive (`crates/modules/meta/src/module.rs:257-263`); database handles, and an error for opening a table twice, are not modelled.
- Meta.MetaModule.RecheckAfterPeerRemoval: the tables of votes and values are opened again in the loop while their first handles are alive (`crates/modules/meta/src/module.rs:283-284`, 318, 326), which a comment in `crates/modules/consensus-ctrl/src/module.rs:411-412` warns about; not modelled, for the same reason.
- `get_vote`, `get_finalized_block`, the consensus history and the explorer: reads without further consequence for the tables.
