/** Votes that have what they need and wait: removing a peer does not count the votes to add peers and
    modules again. */
module StandingVotes {
  import opened NumPeers
  import opened Blocks
  import opened Governance

  /** A quorum of the members names somebody who is not a peer. */
  ghost predicate AddStanding(s: Tables, peer: PeerPubkey) {
    peer !in s.peers && HasQuorum(s.addVotes, s.peers, peer)
  }

  /** Every member's vote names the kind with the major version. */
  ghost predicate ModuleStanding(s: Tables, kind: ModuleKind, major: nat) {
    s.peers != {} && Matching(s.addModuleVotes, s.peers, kind, major).Keys == s.peers
  }

  /** The item removes a peer. */
  ghost predicate Removes(s: Tables, voter: PeerPubkey, item: CItem) {
    item.VoteRemovePeer? && HasQuorum(s.removeVotes[voter := item.peer], s.peers, item.peer)
  }

  /** An item makes a quorum to add a peer wait exactly when it removes another member and the votes of
      those who stay are a quorum among them. */
  lemma LeavesAddStandingIff(inits: Inits, s: Tables, voter: PeerPubkey, item: CItem, t: Tables, effects: seq<Effect>,
                             peer: PeerPubkey)
    requires CtrlInv(inits, s) && Accepted(inits, s, voter, item, t, effects) && !AddStanding(s, peer)
    ensures AddStanding(t, peer) <==>
            Removes(s, voter, item) && HasQuorum(s.addVotes, s.peers - {item.peer}, peer)
  {
    hide CtrlInv, UpgradeEffects, UpgradedConfig, Minimum, Matching, HasQuorum, MembershipVoted;
    VotersOfInv(inits, s);
    MembershipChangesWithQuorum(inits, s, voter, item, t, effects);
    match item
    case VoteAddPeer(target) => AddVoteStands(s, voter, target, t, effects, peer);
    case VoteRemovePeer(target) => RemoveVoteStands(inits, s, voter, target, t, effects, peer);
    case _ =>
  }

  lemma VotersOfInv(inits: Inits, s: Tables)
    requires CtrlInv(inits, s)
    ensures VotersOk(s.peers, s.addVotes, s.removeVotes)
  {}

  lemma AddVoteStands(s: Tables, voter: PeerPubkey, target: PeerPubkey, t: Tables, effects: seq<Effect>,
                      peer: PeerPubkey)
    requires VotersOk(s.peers, s.addVotes, s.removeVotes) && voter in s.peers && target !in s.peers
    requires PeerAddVoted(s, voter, target, t, effects) && !AddStanding(s, peer)
    ensures !AddStanding(t, peer)
  {
    var votes := s.addVotes[voter := target];
    if peer != target && peer !in s.peers {
      SubsetSize(NamedBy(t.addVotes, t.peers, peer), NamedBy(s.addVotes, s.peers, peer));
      SubsetSize(s.peers, t.peers);
      MoreNeedMore(|s.peers|, |t.peers|);
    }
  }

  lemma MoreNeedMore(n: nat, m: nat)
    requires n <= m
    ensures Threshold(n) <= Threshold(m)
  {}

  lemma NobodyNamesMembers(s: Tables, peers: set<PeerPubkey>, peer: PeerPubkey)
    requires VotersOk(s.peers, s.addVotes, s.removeVotes) && peer in s.peers && peers != {} && peers <= s.peers
    ensures !HasQuorum(s.addVotes, peers, peer)
  {
    assert NamedBy(s.addVotes, peers, peer) == {};
  }

  lemma RemoveVoteStands(inits: Inits, s: Tables, voter: PeerPubkey, target: PeerPubkey, t: Tables,
                         effects: seq<Effect>, peer: PeerPubkey)
    requires VotersOk(s.peers, s.addVotes, s.removeVotes)
             && Accepted(inits, s, voter, VoteRemovePeer(target), t, effects)
    requires MembershipVoted(s, voter, VoteRemovePeer(target), t) && !AddStanding(s, peer)
    ensures AddStanding(t, peer) <==>
            HasQuorum(s.removeVotes[voter := target], s.peers, target)
              && HasQuorum(s.addVotes, s.peers - {target}, peer)
  {
    hide UpgradeEffects, UpgradedConfig, Minimum;
    if HasQuorum(s.removeVotes[voter := target], s.peers, target) {
      assert NamedBy(t.addVotes, t.peers, peer) == NamedBy(s.addVotes, s.peers - {target}, peer);
      if peer in s.peers {
        NobodyNamesMembers(s, s.peers - {target}, peer);
      }
    }
  }

  /** The same for a module: it waits exactly when the last member without a vote for it is removed. */
  lemma LeavesModuleStandingIff(inits: Inits, s: Tables, voter: PeerPubkey, item: CItem, t: Tables,
                                effects: seq<Effect>, kind: ModuleKind, major: nat)
    requires CtrlInv(inits, s) && Accepted(inits, s, voter, item, t, effects) && !ModuleStanding(s, kind, major)
    ensures ModuleStanding(t, kind, major) <==>
            Removes(s, voter, item)
              && Matching(s.addModuleVotes, s.peers - {item.peer}, kind, major).Keys == s.peers - {item.peer}
  {
    hide CtrlInv, UpgradeEffects, UpgradedConfig, Minimum, HasQuorum;
    VotersOfInv(inits, s);
    MembershipChangesWithQuorum(inits, s, voter, item, t, effects);
    match item
    case VoteAddPeer(target) =>
      assert s.peers <= t.peers && t.addModuleVotes == s.addModuleVotes;
      StandsForFewer(s, t, kind, major);
    case VoteRemovePeer(target) => assert t.addModuleVotes == s.addModuleVotes;
    case VoteAddModule(k, version) => ModuleVoteStands(s, voter, k, version, t, effects, kind, major);
    case VoteModuleVersion(_, _) =>
  }

  lemma StandsForFewer(s: Tables, t: Tables, kind: ModuleKind, major: nat)
    requires s.peers <= t.peers && t.addModuleVotes == s.addModuleVotes && s.peers != {}
    ensures ModuleStanding(t, kind, major) ==> ModuleStanding(s, kind, major)
  {
    var m := Matching(s.addModuleVotes, s.peers, kind, major);
    if ModuleStanding(t, kind, major) {
      forall p | p in s.peers
        ensures p in m
      {
        assert p in Matching(t.addModuleVotes, t.peers, kind, major);
      }
      assert m.Keys == s.peers;
    }
  }

  lemma ModuleVoteStands(s: Tables, voter: PeerPubkey, k: ModuleKind, version: Version, t: Tables, effects: seq<Effect>,
                         kind: ModuleKind, major: nat)
    requires voter in s.peers && ModuleAddVoted(s, voter, k, version, t, effects)
    ensures !ModuleStanding(t, kind, major)
  {
    var votes := s.addModuleVotes[voter := (k, version)];
    var matching := Matching(votes, s.peers, k, version.major);
    var after := Matching(t.addModuleVotes, t.peers, kind, major);
    if matching.Keys == s.peers {
      assert voter in matching;
      assert voter !in after;
    } else if kind == k && major == version.major {
      assert after == matching;
    } else {
      assert voter !in after;
    }
  }
}
