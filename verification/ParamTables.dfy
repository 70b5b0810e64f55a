/** The two tables that hold the parameters: hashes by round, and parameters by hash. */
module ParamTables {
  import opened Blocks
  import opened State

  type ParamsSchedule = map<nat, Hash<ConsensusParams>>
  type ParamsByHash = map<Hash<ConsensusParams>, ConsensusParams>

  /** Every scheduled hash has its parameters, and there are some for round 0. */
  predicate Resolves(schedule: ParamsSchedule, params: ParamsByHash) {
    && 0 in schedule
    && (forall h | h in params :: h == Digest(params[h]))
    && (forall r | r in schedule :: schedule[r] in params && GoodPeers(params[schedule[r]].peers))
  }

  /** The parameters by the round they are scheduled for. */
  function Composed(schedule: ParamsSchedule, params: ParamsByHash): Schedule
    requires Resolves(schedule, params)
  {
    map r | r in schedule :: params[schedule[r]]
  }

  /** What inserting parameters leaves: where the round has an entry already, its hash is overwritten, but
      the parameters themselves are not stored. */
  function Inserted(schedule: ParamsSchedule, params: ParamsByHash, round: nat, added: ConsensusParams)
      : (ParamsSchedule, ParamsByHash)
  {
    (schedule[round := Digest(added)], if round in schedule then params else params[Digest(added) := added])
  }

  /** A lookup can fail after an insertion if and only if the round had an entry and the parameters were
      never stored; otherwise the insertion is one into the composed table. */
  lemma InsertedResolvesIff(schedule: ParamsSchedule, params: ParamsByHash, round: nat, added: ConsensusParams)
    requires Resolves(schedule, params) && GoodPeers(added.peers)
    ensures var (schedule', params') := Inserted(schedule, params, round, added);
            && (Resolves(schedule', params') <==> round !in schedule || Digest(added) in params)
            && (Resolves(schedule', params') ==>
                  Composed(schedule', params') == Composed(schedule, params)[round := added])
  {
    var (schedule', params') := Inserted(schedule, params, round, added);
    assert schedule'[round] == Digest(added);
    if round !in schedule || Digest(added) in params {
      assert Resolves(schedule', params');
      assert Composed(schedule', params') == Composed(schedule, params)[round := added];
    }
  }

  /** Scheduling the change that is scheduled already is harmless. */
  lemma SameEntryResolves(schedule: ParamsSchedule, params: ParamsByHash, round: nat, added: ConsensusParams)
    requires Resolves(schedule, params) && round in schedule && Composed(schedule, params)[round] == added
    ensures Digest(added) in params
  {
    assert schedule[round] in params;
  }
}
