/** Two runs of the `consensus-ctrl` module: one that leaves votes waiting, and one in which a single block
    changes the members twice. */
module GovernanceRuns {
  import opened Blocks
  import opened Governance
  import opened StandingVotes

  // Votes that wait

  const KINDS: Inits := map[CTRL_KIND := true, 7 := false]
  const BEGIN := Bootstrapped({1, 2}, Version(0, 0))
  const ADDING := BEGIN.(addVotes := map[1 := 9])
  const PLANNING := ADDING.(addModuleVotes := map[1 := (7, Version(0, 0))])
  const REMOVING := PLANNING.(removeVotes := map[1 := 2])
  const REMOVED := PLANNING.(peers := {1})

  /** With two peers, one of whom votes for a third and for a module and then both to remove the other, a
      peer is left whose own votes are all that is needed, and nothing has been done. */
  lemma VotesCanStand()
    ensures exists states: seq<Tables>, votes: seq<Vote> ::
      && IsCtrlRun(KINDS, {1, 2}, Version(0, 0), states, votes)
      && AddStanding(states[|votes|], 9) && ModuleStanding(states[|votes|], 7, 0)
  {
    hide IsCtrlStep;
    var states := [BEGIN, ADDING, PLANNING, REMOVING, REMOVED];
    var votes := [Vote(1, VoteAddPeer(9)), Vote(1, VoteAddModule(7, Version(0, 0))), Vote(1, VoteRemovePeer(2)),
                  Vote(2, VoteRemovePeer(2))];
    AddStep();
    ModuleStep();
    FirstRemoveStep();
    SecondRemoveStep();
    LeftWithVotes();
    hide AddStanding, ModuleStanding;
    assert IsCtrlRun(KINDS, {1, 2}, Version(0, 0), states, votes);
    assert states[|votes|] == REMOVED;
  }

  lemma AddStep()
    ensures IsCtrlStep(KINDS, BEGIN, Vote(1, VoteAddPeer(9)), ADDING)
  {
    assert NamedBy(map[1 := 9], {1, 2}, 9) == {1};
    assert Accepted(KINDS, BEGIN, 1, VoteAddPeer(9), ADDING, []);
  }

  lemma ModuleStep()
    ensures IsCtrlStep(KINDS, ADDING, Vote(1, VoteAddModule(7, Version(0, 0))), PLANNING)
  {
    var matching := Matching(PLANNING.addModuleVotes, {1, 2}, 7, 0);
    assert 2 !in matching && 2 in {1, 2};
    assert Accepted(KINDS, ADDING, 1, VoteAddModule(7, Version(0, 0)), PLANNING, []);
  }

  lemma FirstRemoveStep()
    ensures IsCtrlStep(KINDS, PLANNING, Vote(1, VoteRemovePeer(2)), REMOVING)
  {
    assert NamedBy(map[1 := 2], {1, 2}, 2) == {1};
    assert Accepted(KINDS, PLANNING, 1, VoteRemovePeer(2), REMOVING, []);
  }

  /** A single peer that has voted for no version upgrades nothing. */
  lemma NothingToUpgrade(s: Tables)
    requires s.peers == {1} && s.versionVotes == map[] && s.configs == BEGIN.configs
    ensures Upgraded(s) == s
  {
    var minors := VotedMinors(s, CTRL_ID);
    assert minors == map[1 := 0];
    assert IsMinimum(minors, Minimum(minors));
    assert Upgraded(s).configs == s.configs;
  }

  lemma SecondPeerIsRemoved(votes: map<PeerPubkey, PeerPubkey>)
    requires votes == map[1 := 2, 2 := 2]
    ensures HasQuorum(votes, {1, 2}, 2) && WithoutPeer(REMOVING, votes, 2) == REMOVED
  {
    assert NamedBy(votes, {1, 2}, 2) == {1, 2};
    var without := WithoutPeer(REMOVING, votes, 2);
    assert without.peers == {1} && without.removeVotes == map[] && without.addVotes == map[1 := 9];
  }

  lemma SecondRemoveStep()
    ensures IsCtrlStep(KINDS, REMOVING, Vote(2, VoteRemovePeer(2)), REMOVED)
  {
    hide Upgraded, WithoutPeer, HasQuorum;
    SecondPeerIsRemoved(map[1 := 2][2 := 2]);
    NothingToUpgrade(REMOVED);
    var effects := [PeerRemoved(2), ParamsChange({1})];
    assert effects[2..] == [];
    assert PeerRemoveVoted(REMOVING, 2, 2, REMOVED, effects);
    assert Accepted(KINDS, REMOVING, 2, VoteRemovePeer(2), REMOVED, effects);
  }

  lemma LeftWithVotes()
    ensures AddStanding(REMOVED, 9) && ModuleStanding(REMOVED, 7, 0)
  {
    assert NamedBy(REMOVED.addVotes, {1}, 9) == {1};
    assert 1 in Matching(REMOVED.addModuleVotes, {1}, 7, 0);
    assert Matching(REMOVED.addModuleVotes, {1}, 7, 0).Keys == {1};
  }

  // One block with two changes

  const LEAVING := BEGIN.(removeVotes := map[2 := 2])
  const ALONE := BEGIN.(peers := {1})
  const JOINED := BEGIN.(peers := {1, 9})

  /** Two items that one peer can put into one block change the members twice: the votes before it were one
      short of removing a peer, and the peer that completes them is then a quorum of its own. */
  lemma OneBlockCanChangeMembersTwice()
    ensures exists states: seq<Tables>, votes: seq<Vote> ::
      && IsCtrlRun(KINDS, {1, 2}, Version(0, 0), states, votes)
      && |votes| == 3 && votes[1].voter == votes[2].voter
      && states[1].peers != states[2].peers && states[2].peers != states[3].peers
      && states[1].peers != states[3].peers
  {
    hide IsCtrlStep;
    var states := [BEGIN, LEAVING, ALONE, JOINED];
    var votes := [Vote(2, VoteRemovePeer(2)), Vote(1, VoteRemovePeer(2)), Vote(1, VoteAddPeer(9))];
    LeaveStep();
    LastRemoveStep();
    JoinStep();
    assert 2 in BEGIN.peers && 2 !in ALONE.peers && 9 in JOINED.peers && 2 !in JOINED.peers;
    assert IsCtrlRun(KINDS, {1, 2}, Version(0, 0), states, votes);
    assert states[1] == LEAVING && states[2] == ALONE && states[3] == JOINED;
  }

  lemma LeaveStep()
    ensures IsCtrlStep(KINDS, BEGIN, Vote(2, VoteRemovePeer(2)), LEAVING)
  {
    assert NamedBy(map[2 := 2], {1, 2}, 2) == {2};
    assert Accepted(KINDS, BEGIN, 2, VoteRemovePeer(2), LEAVING, []);
  }

  lemma LastRemoveTables(votes: map<PeerPubkey, PeerPubkey>)
    requires votes == map[1 := 2, 2 := 2]
    ensures HasQuorum(votes, {1, 2}, 2) && WithoutPeer(LEAVING, votes, 2) == ALONE
  {
    assert NamedBy(votes, {1, 2}, 2) == {1, 2};
    var without := WithoutPeer(LEAVING, votes, 2);
    assert without.peers == {1} && without.removeVotes == map[] && without.addVotes == map[];
  }

  lemma LastRemoveStep()
    ensures IsCtrlStep(KINDS, LEAVING, Vote(1, VoteRemovePeer(2)), ALONE)
  {
    hide Upgraded, WithoutPeer, HasQuorum;
    LastRemoveTables(map[2 := 2][1 := 2]);
    NothingToUpgrade(ALONE);
    var effects := [PeerRemoved(2), ParamsChange({1})];
    assert effects[2..] == [];
    assert PeerRemoveVoted(LEAVING, 1, 2, ALONE, effects);
    assert Accepted(KINDS, LEAVING, 1, VoteRemovePeer(2), ALONE, effects);
  }

  lemma JoinTables(votes: map<PeerPubkey, PeerPubkey>)
    requires votes == map[1 := 9]
    ensures HasQuorum(votes, {1}, 9) && (map p | p in votes && votes[p] != 9 :: votes[p]) == map[]
  {
    assert NamedBy(votes, {1}, 9) == {1};
  }

  lemma JoinStep()
    ensures IsCtrlStep(KINDS, ALONE, Vote(1, VoteAddPeer(9)), JOINED)
  {
    hide HasQuorum;
    JoinTables(map[1 := 9]);
    assert {1} + {9} == {1, 9};
    var effects := [PeerAdded(9), ParamsChange({1, 9})];
    assert PeerAddVoted(ALONE, 1, 9, JOINED, effects);
    assert Accepted(KINDS, ALONE, 1, VoteAddPeer(9), JOINED, effects);
  }
}
