/** The round loop, one round at a time. */
module RoundLoop {
  import opened Wrappers
  import opened OrderedTables
  import opened Blocks
  import opened Chains
  import opened State
  import opened Invariants
  import opened Progress

  /** The tables when the loop has reached round `cur`; the current round is written after the loop. */
  ghost function MidLoop(s: State, cur: nat): State {
    s.(notarized := s.notarized + FreshBlocks(s, cur))
  }

  /** The last of the rounds passed so far that has a notarized block at it or above. */
  ghost function LastNotarized(s: State, cur: nat): Option<nat> {
    var h := Highest(MidLoop(s, cur).notarized);
    if cur <= s.round || h.None? || h.value < s.round then None
    else Some(if h.value < cur then h.value else cur - 1)
  }

  /** The pins of the rounds in `[s.round, end)` match the blocks the loop has in place. */
  ghost predicate PinsChecked(s: State, cur: nat, end: nat) {
    forall r: nat {:trigger PinHolds(s.pins, MidLoop(s, cur).notarized, r)} | s.round <= r < end ::
      PinHolds(s.pins, MidLoop(s, cur).notarized, r)
  }

  lemma LoopStarts(s: State)
    ensures MidLoop(s, s.round) == s && LastNotarized(s, s.round) == None && s.round <= EndRound(s)
  {
    assert FreshBlocks(s, s.round) == map[];
    MergeNothing(s.notarized);
  }

  lemma EndRoundIsFirst(s: State, cur: nat)
    requires s.round <= cur <= EndRound(s)
    ensures cur == EndRound(s) <==> Unfinished(s, cur)
  {
    assert FirstUnfinished(s, s.round, EndRound(s));
  }

  lemma FreshStays(s: State, cur: nat)
    requires !(Above(s.notarized, cur) && ProposalQuorum(s, cur))
    ensures FreshBlocks(s, cur + 1) == FreshBlocks(s, cur)
    ensures MidLoop(s, cur + 1) == MidLoop(s, cur)
  {
    hide ProposalQuorum, Above;
  }

  lemma CheckedPinsStay(s: State, cur: nat, end: nat)
    requires end <= cur && PinsChecked(s, cur, end)
    ensures PinsChecked(s, cur + 1, end)
  {
    hide ProposalQuorum, Above;
    var more := MidLoop(s, cur + 1).notarized;
    forall r: nat | s.round <= r < end
      ensures PinHolds(s.pins, more, r)
    {
      assert PinHolds(s.pins, MidLoop(s, cur).notarized, r);
      assert r in FreshBlocks(s, cur + 1) <==> r in FreshBlocks(s, cur);
    }
  }

  /** A notarized block at the round or above it ends the round. */
  lemma CoveredRoundEnds(s: State, cur: nat)
    requires s.round <= cur <= EndRound(s)
    requires Highest(s.notarized).Some? && cur <= Highest(s.notarized).value
    ensures cur < EndRound(s) && MidLoop(s, cur + 1) == MidLoop(s, cur) && LastNotarized(s, cur + 1) == Some(cur)
  {
    hide ProposalQuorum, FreshBlocks, EndRound;
    EndRoundIsFirst(s, cur);
    assert !Above(s.notarized, cur);
    FreshStays(s, cur);
    assert Highest(s.notarized).value in MidLoop(s, cur).notarized;
  }

  /** Only the round the loop starts in can have a proposal with a quorum. */
  lemma ProposalIsCurrent(s: State, cur: nat)
    requires Base(s) && s.round <= cur && Above(s.notarized, cur) && ProposalQuorum(s, cur)
    ensures cur == s.round && cur in s.proposals && cur !in s.notarized
    ensures FreshBlocks(s, cur + 1) == map[cur := s.proposals[cur]]
  {
    hide RowsOk, ParamsAt, Voters;
  }

  lemma NotarizedProposal(s: State)
    requires Base(s) && Above(s.notarized, s.round) && s.round in s.proposals
    ensures s.(notarized := s.notarized[s.round := s.proposals[s.round]]) ==
            WithNotarized(s, s.proposals[s.round], None)
  {
    hide RowsOk, KeepVotesFor;
    CurrentVotesMatchProposal(s);
  }

  /** A quorum of votes for the proposal ends the round and notarizes the proposal. */
  lemma ProposalEndsRound(s: State, cur: nat)
    requires Base(s) && s.round <= cur <= EndRound(s)
    requires Above(s.notarized, cur) && ProposalQuorum(s, cur)
    ensures cur < EndRound(s) && cur in s.proposals && cur !in MidLoop(s, cur).notarized
    ensures s.proposals[cur].round == cur && !IsDummy(s.proposals[cur])
    ensures MidLoop(s, cur + 1) == WithNotarized(MidLoop(s, cur), s.proposals[cur], None)
    ensures LastNotarized(s, cur + 1) == Some(cur)
  {
    hide Base, EndRound, KeepVotesFor, IsDummy, FreshBlocks, WithNotarized, ProposalQuorum;
    EndRoundIsFirst(s, cur);
    ProposalIsCurrent(s, cur);
    LoopStarts(s);
    NotarizedProposal(s);
    CurrentVotesMatchProposal(s);
    ProposalIsNoDummy(s, cur);
    MergeOne(s.notarized, cur, s.proposals[cur]);
    assert cur in MidLoop(s, cur + 1).notarized;
  }

  lemma ProposalIsNoDummy(s: State, r: nat)
    requires Base(s) && r in s.proposals
    ensures !IsDummy(s.proposals[r])
  {
    assert RowOk(RowAt(s, r));
    assert RowAt(s, r).proposal == Some(s.proposals[r]);
  }

  /** A quorum of dummy votes ends the round without a block. */
  lemma DummiesEndRound(s: State, cur: nat)
    requires s.round <= cur <= EndRound(s)
    requires Above(s.notarized, cur) && !ProposalQuorum(s, cur) && DummyQuorum(s, cur)
    ensures cur < EndRound(s) && MidLoop(s, cur + 1) == MidLoop(s, cur)
            && LastNotarized(s, cur + 1) == LastNotarized(s, cur)
  {
    hide ProposalQuorum, DummyQuorum, EndRound;
    EndRoundIsFirst(s, cur);
    FreshStays(s, cur);
    assert Above(MidLoop(s, cur).notarized, cur);
  }

  lemma NothingEndsRound(s: State, cur: nat)
    requires s.round <= cur <= EndRound(s)
    requires Above(s.notarized, cur) && !ProposalQuorum(s, cur) && !DummyQuorum(s, cur)
    ensures cur == EndRound(s)
  {
    hide ProposalQuorum, DummyQuorum, EndRound;
    EndRoundIsFirst(s, cur);
  }

  /** Where the loop stops, it has done what the specification says. */
  lemma LoopEnds(cfg: Config, s: State)
    requires Base(s) && PinsChecked(s, EndRound(s), EndRound(s))
    ensures var end := EndRound(s);
            var t := MidLoop(s, end).(round := end);
            FinishRound(cfg, s) == Some(if cfg.ourPeer.Some? && LastNotarized(s, end).Some?
                                        then UpdateFinalityVote(t, cfg.ourPeer.value, LastNotarized(s, end).value + 1)
                                          else t)
  {
    hide Base, FreshBlocks, UpdateFinalityVote, EndRound, PinHolds, KeepVotesForAll, ProposalQuorum, DummyQuorum;
    var end := EndRound(s);
    AfterRoundsTables(s, end);
    EndRoundIsFirst(s, end);
    FreshIsBelow(s, end);
    var t := AfterRounds(s, end);
    assert t.notarized == MidLoop(s, end).notarized;
    assert forall r: nat | s.round <= r < end :: PinHolds(s.pins, t.notarized, r);
  }

  lemma FreshIsBelow(s: State, end: nat)
    ensures forall r | r in FreshBlocks(s, end) :: r < end
  {}

  /** A pin that does not match while the loop runs does not match at its end either. */
  lemma MismatchIsFinal(cfg: Config, s: State, cur: nat, r: nat)
    requires Base(s) && s.round <= r < cur <= EndRound(s) && !PinHolds(s.pins, MidLoop(s, cur).notarized, r)
    ensures FinishRound(cfg, s).None?
  {
    hide Base, UpdateFinalityVote, EndRound, KeepVotesForAll, ProposalQuorum, Above;
    var end := EndRound(s);
    AfterRoundsTables(s, end);
    assert r in FreshBlocks(s, end) <==> r in FreshBlocks(s, cur);
    assert !PinHolds(s.pins, AfterRounds(s, end).notarized, r);
  }

  /** Only the notarized table changes while the loop runs. */
  lemma MidLoopKeeps(s: State, cur: nat)
    ensures MidLoop(s, cur) == s.(notarized := MidLoop(s, cur).notarized)
    ensures ProposalQuorum(MidLoop(s, cur), cur) == ProposalQuorum(s, cur)
    ensures DummyQuorum(MidLoop(s, cur), cur) == DummyQuorum(s, cur)
    ensures ThresholdAt(MidLoop(s, cur), cur) == ThresholdAt(s, cur)
  {
    hide FreshBlocks, ParamsAt;
  }

  lemma NoPinsYet(s: State)
    ensures PinsChecked(s, s.round, s.round)
  {}

  lemma PinPasses(s: State, cur: nat)
    requires s.round < cur && PinsChecked(s, cur, cur - 1) && PinHolds(s.pins, MidLoop(s, cur).notarized, cur - 1)
    ensures PinsChecked(s, cur, cur)
  {
    hide PinHolds, MidLoop;
  }
}
