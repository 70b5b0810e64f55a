/** One node over a whole run: what holds in every state that it commits. */
module Runs {
  import opened Wrappers
  import opened OrderedTables
  import opened Blocks
  import opened State
  import opened Invariants
  import opened Steps
  import opened Progress
  import opened ChainSteps

  datatype Event =
    | VoteArrives(peerIdx: nat, resp: VoteResponse)
    | CertificateArrives(cert: Notarized, payload: Payload)
    | FinalityVoteArrives(peer: PeerPubkey, vote: nat, sig: Signature)
    | MembershipChanges(round: nat, timestamp: nat, peers: seq<PeerPubkey>)
    | Restarts

  /** A node does not ask itself for its finality vote.

      A membership change may land on a round that has another one. The tables then schedule parameters
      that were not stored; here they are there all the same. A node that looks them up stops, so its
      committed states are among those that follow here. */
  predicate Allowed(cfg: Config, s: State, e: Event) {
    match e
    case FinalityVoteArrives(peer, _, _) => cfg.ourPeer != Some(peer)
    case MembershipChanges(_, _, peers) => GoodPeers(peers)
    case _ => true
  }

  /** The committed tables after an event. */
  ghost function After(cfg: Config, s: State, e: Event): State
    requires Allowed(cfg, s, e)
  {
    match e
    case VoteArrives(peerIdx, resp) => ProcessVote(cfg, s, peerIdx, resp).state
    case CertificateArrives(cert, payload) => ProcessNotarized(cfg, s, cert, payload).state
    case FinalityVoteArrives(peer, vote, sig) => ProcessFinalityVote(s, peer, vote, sig).state
    case MembershipChanges(round, timestamp, peers) => ChangeParams(s, round, timestamp, peers).state
    case Restarts => if Reopen(cfg, s).Some? then Reopen(cfg, s).value else s
  }

  ghost predicate IsStep(cfg: Config, s: State, e: Event, t: State) {
    Allowed(cfg, s, e) && t == After(cfg, s, e)
  }

  /** The states of a node, from the one it is initialized with, through every event. */
  ghost predicate IsRun(cfg: Config, params: ConsensusParams, pins: PinTable, states: seq<State>, events: seq<Event>) {
    && GoodPeers(params.peers)
    && |states| == |events| + 1
    && states[0] == FreshState(params, pins)
    && forall i | 0 <= i < |events| :: IsStep(cfg, states[i], events[i], states[i + 1])
  }

  /** What every committed state promises. */
  ghost predicate Good(cfg: Config, s: State) {
    && Inv(s)
    && OwnVote(cfg, s) <= Reach(s.notarized)
    && !DummyQuorum(s, s.round)
  }

  lemma FreshIsGood(cfg: Config, params: ConsensusParams, pins: PinTable)
    requires GoodPeers(params.peers)
    ensures var s := FreshState(params, pins); Good(cfg, s) && Settled(s) && Chained(s)
  {
    var s := FreshState(params, pins);
    NoVoters(At(s.dummyVotes, s.round));
    NoVoters(At(s.blockVotes, s.round));
  }

  // One step

  lemma StepKeepsInv(cfg: Config, s: State, e: Event)
    requires Inv(s) && Allowed(cfg, s, e)
    ensures Inv(After(cfg, s, e))
  {
    hide Inv, ProcessVote, ProcessNotarized, ProcessFinalityVote, ChangeParams, Reopen, UpdateFinalityVote;
    match e
    case VoteArrives(peerIdx, resp) => ProcessVoteKeepsInv(cfg, s, peerIdx, resp);
    case CertificateArrives(cert, payload) => ProcessNotarizedKeepsInv(cfg, s, cert, payload);
    case FinalityVoteArrives(peer, vote, sig) => FinalityVoteKeepsInv(s, peer, vote, sig);
    case MembershipChanges(round, timestamp, peers) => ChangeParamsKeepsInv(s, round, timestamp, peers);
    case Restarts => ReopenKeepsInv(cfg, s);
  }

  lemma FinalityVoteKeepsInv(s: State, peer: PeerPubkey, vote: nat, sig: Signature)
    requires Inv(s)
    ensures Inv(ProcessFinalityVote(s, peer, vote, sig).state)
  {
    hide Inv, UpdateFinalityVote;
    UpdateFinalityVoteKeepsInv(s, peer, vote);
  }

  lemma StepGoesForward(cfg: Config, s: State, e: Event)
    requires Good(cfg, s) && Allowed(cfg, s, e)
    ensures Forward(cfg, s, After(cfg, s, e))
  {
    hide Inv, Forward, DummyQuorum, OwnVote, Reach, ProcessVote, ProcessNotarized, ProcessFinalityVote, ChangeParams,
         Reopen;
    match e
    case VoteArrives(peerIdx, resp) => ProcessVoteGoesForward(cfg, s, peerIdx, resp);
    case CertificateArrives(cert, payload) => ProcessNotarizedGoesForward(cfg, s, cert, payload);
    case FinalityVoteArrives(peer, vote, sig) => ProcessFinalityVoteGoesForward(cfg, s, peer, vote, sig);
    case MembershipChanges(round, timestamp, peers) => ChangeParamsGoesForward(cfg, s, round, timestamp, peers);
    case Restarts =>
      if Reopen(cfg, s).Some? {
        ReopenGoesForward(cfg, s);
      } else {
        StandingStillGoesForward(cfg, s);
      }
  }

  lemma StandingStillGoesForward(cfg: Config, s: State)
    requires OwnVote(cfg, s) <= Reach(s.notarized)
    ensures Forward(cfg, s, s)
  {}

  /** The one event that commits a state the round loop would not leave alone. */
  ghost predicate Stalls(cfg: Config, s: State, e: Event) {
    e.VoteArrives? && StallsRound(cfg, s, e.peerIdx, e.resp)
  }

  lemma StepSettlesIff(cfg: Config, s: State, e: Event)
    requires Good(cfg, s) && Settled(s) && Allowed(cfg, s, e)
    ensures Settled(After(cfg, s, e)) <==> !Stalls(cfg, s, e)
  {
    hide Inv, Settled, DummyQuorum, OwnVote, Reach, StallsRound, ProcessVote, ProcessNotarized, ProcessFinalityVote,
         ChangeParams, Reopen;
    match e
    case VoteArrives(peerIdx, resp) => ProcessVoteSettlesIff(cfg, s, peerIdx, resp);
    case CertificateArrives(cert, payload) => ProcessNotarizedSettles(cfg, s, cert, payload);
    case FinalityVoteArrives(peer, vote, sig) => ProcessFinalityVoteGoesForward(cfg, s, peer, vote, sig);
    case MembershipChanges(round, timestamp, peers) => ChangeParamsGoesForward(cfg, s, round, timestamp, peers);
    case Restarts =>
      if Reopen(cfg, s).Some? {
        ReopenGoesForward(cfg, s);
      }
  }

  lemma SettledHasNoDummyQuorum(s: State)
    requires Settled(s)
    ensures !DummyQuorum(s, s.round)
  {}

  lemma VoteLeavesNoDummyQuorum(cfg: Config, s: State, peerIdx: nat, resp: VoteResponse)
    requires Inv(s) && !DummyQuorum(s, s.round)
    ensures var t := ProcessVote(cfg, s, peerIdx, resp).state; !DummyQuorum(t, t.round)
  {
    hide Base, ProcessVote, FinishRound, WithVote, ParamsAt, KeepVotesFor, ProposalError, Settled;
    var t := ProcessVote(cfg, s, peerIdx, resp).state;
    ProcessVoteShape(cfg, s, peerIdx, resp);
    if Enters(s, WithVote(s, peerIdx, resp)) && FinishRound(cfg, WithVote(s, peerIdx, resp)) == Some(t) {
      FinishRoundSettles(cfg, WithVote(s, peerIdx, resp), t);
      SettledHasNoDummyQuorum(t);
    }
  }

  lemma CertificateLeavesNoDummyQuorum(cfg: Config, s: State, cert: Notarized, payload: Payload)
    requires Inv(s) && !DummyQuorum(s, s.round)
    ensures var t := ProcessNotarized(cfg, s, cert, payload).state; !DummyQuorum(t, t.round)
  {
    hide Base, ProcessNotarized, FinishRound, WithCert, Extends, Settled, DummyQuorum;
    var t := ProcessNotarized(cfg, s, cert, payload).state;
    ProcessNotarizedShape(cfg, s, cert, payload);
    if t != s {
      FinishRoundSettles(cfg, WithCert(s, cert, payload), t);
      SettledHasNoDummyQuorum(t);
    }
  }

  lemma OthersLeaveNoDummyQuorum(cfg: Config, s: State, e: Event)
    requires Good(cfg, s) && Allowed(cfg, s, e) && !e.VoteArrives? && !e.CertificateArrives?
    ensures var t := After(cfg, s, e); !DummyQuorum(t, t.round)
  {
    hide Inv, Settled, OwnVote, Reach, UpdateFinalityVote, Reopen, ParamsAt, ChangedParams;
    match e
    case FinalityVoteArrives(peer, vote, sig) =>
      UpdateFinalityVoteTables(s, peer, vote);
      FewerDummyVotes(s, UpdateFinalityVote(s, peer, vote));
    case MembershipChanges(round, timestamp, peers) => ChangeParamsKeepsInv(s, round, timestamp, peers);
    case Restarts =>
      if Reopen(cfg, s).Some? {
        ReopenGoesForward(cfg, s);
        SettledHasNoDummyQuorum(Reopen(cfg, s).value);
      }
    case _ =>
  }

  lemma StepKeepsGood(cfg: Config, s: State, e: Event)
    requires Good(cfg, s) && Allowed(cfg, s, e)
    ensures Good(cfg, After(cfg, s, e))
  {
    hide Inv, DummyQuorum, OwnVote, Reach, After;
    StepKeepsInv(cfg, s, e);
    StepGoesForward(cfg, s, e);
    if e.VoteArrives? {
      VoteLeavesNoDummyQuorum(cfg, s, e.peerIdx, e.resp);
      assert After(cfg, s, e) == ProcessVote(cfg, s, e.peerIdx, e.resp).state by { AfterVote(cfg, s, e); }
    } else if e.CertificateArrives? {
      CertificateLeavesNoDummyQuorum(cfg, s, e.cert, e.payload);
      assert After(cfg, s, e) == ProcessNotarized(cfg, s, e.cert, e.payload).state by { AfterCertificate(cfg, s, e); }
    } else {
      OthersLeaveNoDummyQuorum(cfg, s, e);
    }
  }

  lemma AfterVote(cfg: Config, s: State, e: Event)
    requires e.VoteArrives?
    ensures After(cfg, s, e) == ProcessVote(cfg, s, e.peerIdx, e.resp).state
  {
    hide ProcessVote;
  }

  lemma AfterCertificate(cfg: Config, s: State, e: Event)
    requires e.CertificateArrives?
    ensures After(cfg, s, e) == ProcessNotarized(cfg, s, e.cert, e.payload).state
  {
    hide ProcessNotarized;
  }

  // Whole runs

  /** Every state of every run keeps the invariant. */
  lemma {:induction false} EveryStateIsGood(cfg: Config, params: ConsensusParams, pins: PinTable,
                                            states: seq<State>, events: seq<Event>, i: nat)
    requires IsRun(cfg, params, pins, states, events) && i < |states|
    ensures Good(cfg, states[i])
  {
    hide Good, After, Allowed, FreshState;
    if i == 0 {
      FreshIsGood(cfg, params, pins);
    } else {
      EveryStateIsGood(cfg, params, pins, states, events, i - 1);
      assert IsStep(cfg, states[i - 1], events[i - 1], states[i - 1 + 1]);
      StepKeepsGood(cfg, states[i - 1], events[i - 1]);
    }
  }

  lemma StepKeepsSettings(cfg: Config, s: State, e: Event)
    requires Inv(s) && Allowed(cfg, s, e)
    ensures var t := After(cfg, s, e);
            t.pins == s.pins && forall r: nat | r <= s.round :: ParamsAt(t.schedule, r) == ParamsAt(s.schedule, r)
  {
    hide Inv, ProcessVote, ProcessNotarized, Reopen, UpdateFinalityVote, ParamsAt, FinishRound, Opened, WithVote,
         WithCert, Enters, CommitsBeforeLoop;
    match e
    case VoteArrives(peerIdx, resp) =>
      ProcessVoteShape(cfg, s, peerIdx, resp);
      EntersWithSettings(cfg, s, WithVote(s, peerIdx, resp));
      ProposalKeepsSettings(s, resp);
    case CertificateArrives(cert, payload) =>
      ProcessNotarizedShape(cfg, s, cert, payload);
      EntersWithSettings(cfg, s, WithCert(s, cert, payload));
    case FinalityVoteArrives(peer, vote, sig) => UpdateFinalityVoteTables(s, peer, vote);
    case MembershipChanges(round, timestamp, peers) => ChangeParamsKeepsInv(s, round, timestamp, peers);
    case Restarts =>
      OpenedTables(cfg, s);
      if Reopen(cfg, s).Some? {
        InvIsBase(Opened(cfg, s));
        FinishRoundTables(cfg, Opened(cfg, s), Reopen(cfg, s).value);
      }
  }

  lemma InvIsBase(s: State)
    requires Inv(s)
    ensures Base(s)
  {}

  lemma EntersWithSettings(cfg: Config, s: State, u: State)
    ensures Enters(s, u) && FinishRound(cfg, u).Some? ==>
              FinishRound(cfg, u).value.pins == s.pins && FinishRound(cfg, u).value.schedule == s.schedule
  {
    hide Base, FinishRound;
    if Enters(s, u) && FinishRound(cfg, u).Some? {
      FinishRoundTables(cfg, u, FinishRound(cfg, u).value);
    }
  }

  lemma ProposalKeepsSettings(s: State, resp: VoteResponse)
    ensures WithOwnProposal(s, resp).pins == s.pins && WithOwnProposal(s, resp).schedule == s.schedule
  {
    hide KeepVotesFor;
  }

  /** In every run the pins are those the node was initialized with, and no parameters of a round that it has
      reached ever change: those of round 0 are the ones it was initialized with. */
  lemma {:induction false} RunsKeepSettings(cfg: Config, params: ConsensusParams, pins: PinTable,
                                            states: seq<State>, events: seq<Event>, i: nat, j: nat)
    requires IsRun(cfg, params, pins, states, events) && i <= j < |states|
    ensures states[j].pins == pins && ParamsAt(states[j].schedule, 0) == params
    ensures forall r: nat | r <= states[i].round ::
              ParamsAt(states[j].schedule, r) == ParamsAt(states[i].schedule, r)
    decreases j
  {
    hide Inv, After, Allowed, ParamsAt, OwnVote, Reach, DummyQuorum, FreshState, Forward;
    if j == 0 {
      FreshSettings(params, pins);
    } else {
      RunsKeepSettings(cfg, params, pins, states, events, if i < j then i else j - 1, j - 1);
      EveryStateIsGood(cfg, params, pins, states, events, j - 1);
      assert IsStep(cfg, states[j - 1], events[j - 1], states[j - 1 + 1]);
      StepKeepsSettings(cfg, states[j - 1], events[j - 1]);
      if i < j {
        RunsGoForward(cfg, params, pins, states, events, i, j - 1);
        ForwardRounds(cfg, states[i], states[j - 1]);
      }
    }
  }

  lemma FreshSettings(params: ConsensusParams, pins: PinTable)
    requires GoodPeers(params.peers)
    ensures FreshState(params, pins).pins == pins && ParamsAt(FreshState(params, pins).schedule, 0) == params
  {}

  lemma ForwardRounds(cfg: Config, s: State, t: State)
    requires Forward(cfg, s, t)
    ensures s.round <= t.round
  {}

  lemma ForwardIsTransitive(cfg: Config, a: State, b: State, c: State)
    requires Forward(cfg, a, b) && Forward(cfg, b, c)
    ensures Forward(cfg, a, c)
  {
    hide OwnVote, Reach;
  }

  /** In every run the current round, the highest notarized round and the own finality vote never
      decrease, proposals are never replaced, and the own vote is at most one past the highest
      notarized round. */
  lemma {:induction false} RunsGoForward(cfg: Config, params: ConsensusParams, pins: PinTable,
                                         states: seq<State>, events: seq<Event>, i: nat, j: nat)
    requires IsRun(cfg, params, pins, states, events) && i <= j < |states|
    ensures Forward(cfg, states[i], states[j])
    decreases j
  {
    hide Forward, After, Allowed, Inv, DummyQuorum, FreshState, OwnVote, Reach;
    EveryStateIsGood(cfg, params, pins, states, events, i);
    if i == j {
      StandingStillGoesForward(cfg, states[i]);
    } else {
      RunsGoForward(cfg, params, pins, states, events, i, j - 1);
      EveryStateIsGood(cfg, params, pins, states, events, j - 1);
      assert IsStep(cfg, states[j - 1], events[j - 1], states[j - 1 + 1]);
      StepGoesForward(cfg, states[j - 1], events[j - 1]);
      ForwardIsTransitive(cfg, states[i], states[j - 1], states[j]);
    }
  }

  /** Every state of a run is one that the round loop leaves alone if and only if no event stalls a round. */
  lemma {:induction false} RunsSettleIff(cfg: Config, params: ConsensusParams, pins: PinTable,
                                         states: seq<State>, events: seq<Event>, i: nat)
    requires IsRun(cfg, params, pins, states, events) && i < |states|
    ensures (forall j | 0 <= j <= i :: Settled(states[j])) <==>
            (forall k | 0 <= k < i :: !Stalls(cfg, states[k], events[k]))
  {
    hide Settled, Good, After, Allowed, FreshState, Stalls;
    if i == 0 {
      FreshIsGood(cfg, params, pins);
    } else {
      RunsSettleIff(cfg, params, pins, states, events, i - 1);
      if Settled(states[i - 1]) {
        EveryStateIsGood(cfg, params, pins, states, events, i - 1);
        assert IsStep(cfg, states[i - 1], events[i - 1], states[i - 1 + 1]);
        StepSettlesIff(cfg, states[i - 1], events[i - 1]);
      }
    }
  }

  // Reopening

  /** Opening a database that a run left behind changes the round or the notarized blocks, or stops,
      exactly when the current proposal was left with a quorum. */
  lemma ReopenChangesNothingIff(cfg: Config, s: State)
    requires Good(cfg, s)
    ensures (&& Reopen(cfg, s).Some? && Reopen(cfg, s).value.round == s.round
             && Reopen(cfg, s).value.notarized == s.notarized)
            <==> !ProposalQuorum(s, s.round)
  {
    hide Base, Reopen, FinishRound, Opened, ParamsAt, AfterRounds, OwnVote, Reach, DummyQuorum;
    var u := Opened(cfg, s);
    OpenedTables(cfg, s);
    assert ProposalQuorum(u, u.round) == ProposalQuorum(s, s.round);
    if ProposalQuorum(s, s.round) {
      if Reopen(cfg, s).Some? {
        FinishRoundTables(cfg, u, Reopen(cfg, s).value);
        assert !Unfinished(u, u.round);
      }
    } else {
      SettledLoopStops(cfg, u);
    }
  }

  /** The loop does nothing to tables that are at rest. */
  lemma SettledLoopStops(cfg: Config, u: State)
    requires Inv(u) && Settled(u)
    ensures FinishRound(cfg, u) == Some(u)
  {
    hide Base, UpdateFinalityVote;
    SettledEndsHere(u);
    NothingFresh(u);
    LatestIsHighest(u);
  }

  lemma NothingFresh(u: State)
    requires Base(u)
    ensures AfterRounds(u, u.round) == u
  {
    hide Base, ProposalQuorum;
    FreshBlocksAreCurrent(u, u.round);
    MergeNothing(u.notarized);
  }
}
