/** Two membership changes that land on one round: when they do, and what the second one loses. */
module Clashes {
  import opened Wrappers
  import opened Blocks
  import opened State
  import opened Invariants
  import opened ParamTables

  /** All items of a block are processed with the round of the block, so the second change of a block lands
      on the round of the first one, and it is the same change if and only if it is for the same peers. */
  lemma SecondChangeClashesIff(s: State, round: nat, timestamp: nat, first: seq<PeerPubkey>, second: seq<PeerPubkey>)
    requires GoodPeers(first) && GoodPeers(second) && ChangeParams(s, round, timestamp, first).outcome == Done
    ensures var t := ChangeParams(s, round, timestamp, first).state;
            && ChangedParams(t, round, timestamp, second).applyRound
               == ChangedParams(s, round, timestamp, first).applyRound
            && (NoClash(t, round, timestamp, second) <==> first == second)
  {
    var change := ChangedParams(s, round, timestamp, first);
    var t := ChangeParams(s, round, timestamp, first).state;
    LookupBeforeChange(s.schedule, change.applyRound, change, round);
    assert ChangedParams(t, round, timestamp, second) == change.(peers := second);
    assert t.schedule[change.applyRound] == change;
  }

  /** Of two insertions for one free round the second one's parameters can be looked up if and only if they
      are the first one's or were stored before. */
  lemma SecondInsertionIsLostIff(schedule: ParamsSchedule, params: ParamsByHash, round: nat,
                                 first: ConsensusParams, second: ConsensusParams)
    requires Resolves(schedule, params) && round !in schedule && GoodPeers(first.peers) && GoodPeers(second.peers)
    ensures var (once, stored) := Inserted(schedule, params, round, first);
            var (twice, kept) := Inserted(once, stored, round, second);
            Resolves(twice, kept) <==> first == second || Digest(second) in params
  {
    InsertedResolvesIff(schedule, params, round, first);
    var (once, stored) := Inserted(schedule, params, round, first);
    InsertedResolvesIff(once, stored, round, second);
  }

  const LATER := SOLO_PARAMS.(peers := [0, 1], applyRound := 33)
  const LOST := SOLO_PARAMS.(peers := [0, 2], applyRound := 33)

  /** Such a pair of insertions. */
  lemma ParametersCanBeLost()
    ensures var schedule: ParamsSchedule := map[0 := Digest(SOLO_PARAMS)];
            var params: ParamsByHash := map[Digest(SOLO_PARAMS) := SOLO_PARAMS];
            var (once, stored) := Inserted(schedule, params, 33, LATER);
            var (twice, kept) := Inserted(once, stored, 33, LOST);
            Resolves(schedule, params) && Resolves(once, stored) && !Resolves(twice, kept)
  {
    var schedule: ParamsSchedule := map[0 := Digest(SOLO_PARAMS)];
    var params: ParamsByHash := map[Digest(SOLO_PARAMS) := SOLO_PARAMS];
    InsertedResolvesIff(schedule, params, 33, LATER);
    assert LATER != LOST && LOST != SOLO_PARAMS;
    SecondInsertionIsLostIff(schedule, params, 33, LATER, LOST);
  }
}
