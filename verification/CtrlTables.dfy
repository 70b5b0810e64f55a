/** What a consensus item does, said on the tables themselves: who enters and leaves, which votes are kept,
    which modules are set up and upgraded and what is announced. Every node gets the same from the same items. */
module CtrlTables {
  import opened NumPeers
  import opened Blocks
  import opened Governance
  import opened StandingVotes

  // Peers

  /** A peer enters exactly when an item votes for it and, with that vote, a quorum of the members has. */
  lemma PeerEntersIff(inits: Inits, s: Tables, voter: PeerPubkey, item: CItem, t: Tables, effects: seq<Effect>,
                      p: PeerPubkey)
    requires CtrlInv(inits, s) && Accepted(inits, s, voter, item, t, effects) && p !in s.peers
    ensures p in t.peers <==>
            && item == VoteAddPeer(p)
            && Threshold(|s.peers|)
               <= |set q: PeerPubkey | q in s.peers && (q == voter || (q in s.addVotes && s.addVotes[q] == p))|
  {
    hide CtrlInv, Accepted;
    MembershipChangesWithQuorum(inits, s, voter, item, t, effects);
    assert NamedBy(s.addVotes[voter := p], s.peers, p)
        == (set q: PeerPubkey | q in s.peers && (q == voter || (q in s.addVotes && s.addVotes[q] == p))) by {
      assert voter in s.peers by { VoterIsMember(inits, s, voter, item, t, effects); }
    }
  }

  /** A member leaves exactly when an item votes for that and, with that vote, a quorum of the members has. */
  lemma PeerLeavesIff(inits: Inits, s: Tables, voter: PeerPubkey, item: CItem, t: Tables, effects: seq<Effect>,
                      p: PeerPubkey)
    requires CtrlInv(inits, s) && Accepted(inits, s, voter, item, t, effects) && p in s.peers
    ensures p !in t.peers <==>
            && item == VoteRemovePeer(p)
            && Threshold(|s.peers|)
               <= |set q: PeerPubkey | q in s.peers && (q == voter || (q in s.removeVotes && s.removeVotes[q] == p))|
  {
    hide CtrlInv, Accepted;
    MembershipChangesWithQuorum(inits, s, voter, item, t, effects);
    assert NamedBy(s.removeVotes[voter := p], s.peers, p)
        == (set q: PeerPubkey | q in s.peers && (q == voter || (q in s.removeVotes && s.removeVotes[q] == p)));
  }

  lemma VoterIsMember(inits: Inits, s: Tables, voter: PeerPubkey, item: CItem, t: Tables, effects: seq<Effect>)
    requires Accepted(inits, s, voter, item, t, effects)
    ensures voter in s.peers
  {}

  // Recorded votes

  /** The last vote of each member to add a peer is kept until that peer enters or the member leaves. */
  lemma AddVotesAfter(inits: Inits, s: Tables, voter: PeerPubkey, item: CItem, t: Tables, effects: seq<Effect>,
                      q: PeerPubkey)
    requires CtrlInv(inits, s) && Accepted(inits, s, voter, item, t, effects)
    ensures if item.VoteAddPeer? && q == voter then
              if item.peer in t.peers then q !in t.addVotes else q in t.addVotes && t.addVotes[q] == item.peer
            else if q in s.addVotes && s.addVotes[q] !in t.peers && q in t.peers then
              q in t.addVotes && t.addVotes[q] == s.addVotes[q]
            else q !in t.addVotes
  {
    hide CtrlInv, Upgraded, UpgradeEffects, Minimum, Matching, HasQuorum;
    VotersOfInv(inits, s);
    match item
    case VoteAddPeer(peer) => AddVotesAfterAdd(s, voter, peer, t, effects, q);
    case VoteRemovePeer(peer) => AddVotesAfterRemove(s, voter, peer, t, effects, q);
    case VoteAddModule(_, _) =>
    case VoteModuleVersion(id, minor) => VersionVoteKeepsOthers(s, voter, id, minor, t, effects);
  }

  lemma AddVotesAfterAdd(s: Tables, voter: PeerPubkey, peer: PeerPubkey, t: Tables, effects: seq<Effect>,
                         q: PeerPubkey)
    requires VotersOk(s.peers, s.addVotes, s.removeVotes) && voter in s.peers && peer !in s.peers
    requires PeerAddVoted(s, voter, peer, t, effects)
    ensures if q == voter then if peer in t.peers then q !in t.addVotes else q in t.addVotes && t.addVotes[q] == peer
            else if q in s.addVotes && s.addVotes[q] !in t.peers && q in t.peers then
              q in t.addVotes && t.addVotes[q] == s.addVotes[q]
            else q !in t.addVotes
  {
    hide HasQuorum;
  }

  lemma AddVotesAfterRemove(s: Tables, voter: PeerPubkey, peer: PeerPubkey, t: Tables, effects: seq<Effect>,
                            q: PeerPubkey)
    requires VotersOk(s.peers, s.addVotes, s.removeVotes) && voter in s.peers && peer in s.peers
    requires PeerRemoveVoted(s, voter, peer, t, effects)
    ensures if q in s.addVotes && s.addVotes[q] !in t.peers && q in t.peers then
              q in t.addVotes && t.addVotes[q] == s.addVotes[q]
            else q !in t.addVotes
  {
    hide HasQuorum, UpgradeEffects, UpgradedConfig;
  }

  lemma VersionVoteKeepsOthers(s: Tables, voter: PeerPubkey, id: ModuleId, minor: nat, t: Tables, effects: seq<Effect>)
    requires id in s.configs && s.peers != {} && ModuleVersionVoted(s, voter, id, minor, t, effects)
    ensures t.peers == s.peers && t.addVotes == s.addVotes && t.removeVotes == s.removeVotes
  {
    hide UpgradeEffects, UpgradedConfig;
  }

  /** The last vote of each member to remove a peer is kept until that peer or the member leaves. */
  lemma RemoveVotesAfter(inits: Inits, s: Tables, voter: PeerPubkey, item: CItem, t: Tables, effects: seq<Effect>,
                         q: PeerPubkey)
    requires CtrlInv(inits, s) && Accepted(inits, s, voter, item, t, effects)
    ensures if item.VoteRemovePeer? && q == voter then
              if item.peer !in t.peers then q !in t.removeVotes
              else q in t.removeVotes && t.removeVotes[q] == item.peer
            else if q in s.removeVotes && s.removeVotes[q] in t.peers && q in t.peers then
              q in t.removeVotes && t.removeVotes[q] == s.removeVotes[q]
            else q !in t.removeVotes
  {
    hide CtrlInv, Upgraded, UpgradeEffects, Minimum, Matching, HasQuorum;
    VotersOfInv(inits, s);
    match item
    case VoteAddPeer(_) =>
    case VoteRemovePeer(peer) => RemoveVotesAfterRemove(s, voter, peer, t, effects, q);
    case VoteAddModule(_, _) =>
    case VoteModuleVersion(id, minor) => VersionVoteKeepsOthers(s, voter, id, minor, t, effects);
  }

  lemma RemoveVotesAfterRemove(s: Tables, voter: PeerPubkey, peer: PeerPubkey, t: Tables, effects: seq<Effect>,
                               q: PeerPubkey)
    requires VotersOk(s.peers, s.addVotes, s.removeVotes) && voter in s.peers && peer in s.peers
    requires PeerRemoveVoted(s, voter, peer, t, effects)
    ensures if q == voter then
              if peer !in t.peers then q !in t.removeVotes else q in t.removeVotes && t.removeVotes[q] == peer
            else if q in s.removeVotes && s.removeVotes[q] in t.peers && q in t.peers then
              q in t.removeVotes && t.removeVotes[q] == s.removeVotes[q]
            else q !in t.removeVotes
  {
    hide HasQuorum, UpgradeEffects, UpgradedConfig;
  }

  /** The last vote of each member for a module is kept until a module of that kind is set up, also when the
      member leaves. */
  lemma ModuleVotesAfter(inits: Inits, s: Tables, voter: PeerPubkey, item: CItem, t: Tables, effects: seq<Effect>,
                         q: PeerPubkey)
    requires Accepted(inits, s, voter, item, t, effects)
    ensures var setUp := item.VoteAddModule? && t.configs != s.configs;
            if item.VoteAddModule? && q == voter then
              if setUp then q !in t.addModuleVotes
              else q in t.addModuleVotes && t.addModuleVotes[q] == (item.kind, item.version)
            else if q in s.addModuleVotes && !(setUp && s.addModuleVotes[q].0 == item.kind) then
              q in t.addModuleVotes && t.addModuleVotes[q] == s.addModuleVotes[q]
            else q !in t.addModuleVotes
  {
    hide UpgradeEffects, UpgradedConfig, Minimum, Matching, HasQuorum;
  }

  /** A version vote is recorded with the major version that runs; no other version vote changes, ever. */
  lemma VersionVotesAfter(inits: Inits, s: Tables, voter: PeerPubkey, item: CItem, t: Tables, effects: seq<Effect>)
    requires Accepted(inits, s, voter, item, t, effects)
    ensures if item.VoteModuleVersion?
            then item.id in s.configs
                 && t.versionVotes
                    == s.versionVotes[(voter, item.id) := Version(s.configs[item.id].version.major, item.minor)]
            else t.versionVotes == s.versionVotes
  {
    hide UpgradeEffects, UpgradedConfig, Minimum, Matching, HasQuorum;
  }

  // Modules

  /** A module changes exactly when all members, after the item, have voted for a higher minor version of it;
      then its minor version becomes the least of those, and nothing else of it changes. */
  lemma ModuleUpgradedIff(inits: Inits, s: Tables, voter: PeerPubkey, item: CItem, t: Tables, effects: seq<Effect>,
                          k: ModuleId)
    requires CtrlInv(inits, s) && Accepted(inits, s, voter, item, t, effects) && k in s.configs
    ensures k in t.configs
    ensures t.configs[k] != s.configs[k] <==>
            forall p | p in t.peers ::
              (p, k) in t.versionVotes && s.configs[k].version.minor < t.versionVotes[(p, k)].minor
    ensures t.configs[k] != s.configs[k] ==>
              && t.configs[k].kind == s.configs[k].kind && t.configs[k].version.major == s.configs[k].version.major
              && (forall p | p in t.peers ::
                    (p, k) in t.versionVotes && t.configs[k].version.minor <= t.versionVotes[(p, k)].minor)
              && (exists p | p in t.peers && (p, k) in t.versionVotes ::
                    t.configs[k].version.minor == t.versionVotes[(p, k)].minor)
  {
    hide CtrlInv, Accepted;
    ModuleIsUpgraded(inits, s, voter, item, t, effects, k);
  }

  /** Every member has voted for the module at a higher minor version than it runs at. */
  ghost predicate AllVotedHigher(peers: set<PeerPubkey>, votes: map<(PeerPubkey, ModuleId), Version>, id: ModuleId,
                                 minor: nat) {
    forall p | p in peers :: (p, id) in votes && minor < votes[(p, id)].minor
  }

  /** The least minor version that the members have voted for. */
  ghost predicate LeastVoted(peers: set<PeerPubkey>, votes: map<(PeerPubkey, ModuleId), Version>, id: ModuleId,
                             minor: nat) {
    && (forall p | p in peers :: (p, id) in votes && minor <= votes[(p, id)].minor)
    && (exists p :: p in peers && (p, id) in votes && votes[(p, id)].minor == minor)
  }

  /** What an item may do to a module that runs. */
  ghost predicate UpgradedTo(before: ModuleConfig, after: ModuleConfig, peers: set<PeerPubkey>,
                             votes: map<(PeerPubkey, ModuleId), Version>, id: ModuleId) {
    && (after != before <==> AllVotedHigher(peers, votes, id, before.version.minor))
    && (after != before ==>
          && after == before.(version := Version(before.version.major, after.version.minor))
          && LeastVoted(peers, votes, id, after.version.minor))
  }

  lemma ModuleIsUpgraded(inits: Inits, s: Tables, voter: PeerPubkey, item: CItem, t: Tables, effects: seq<Effect>,
                         k: ModuleId)
    requires CtrlInv(inits, s) && Accepted(inits, s, voter, item, t, effects) && k in s.configs
    ensures k in t.configs && UpgradedTo(s.configs[k], t.configs[k], t.peers, t.versionVotes, k)
  {
    hide UpgradeEffects, UpgradedConfig, Minimum, Matching, HasQuorum, ModulesOk, UpgradedTo, NoUpgradePending,
         RemovalsOk, PeerAddVoted, PeerRemoveVoted, ModuleAddVoted, ModuleVersionVoted, Upgraded;
    match item
    case VoteAddPeer(peer) =>
      AddKeepsModules(s, voter, peer, t, effects);
      NotUpgraded(s.peers, t.peers, s.versionVotes, k, s.configs[k]);
    case VoteRemovePeer(peer) =>
      RemoveUpgrades(s, voter, peer, t, effects, k);
      NotUpgraded(s.peers, s.peers, s.versionVotes, k, s.configs[k]);
    case VoteAddModule(kind, version) =>
      NewModuleKeepsOthers(s, voter, kind, version, t, effects, k);
      NotUpgraded(s.peers, s.peers, s.versionVotes, k, s.configs[k]);
    case VoteModuleVersion(id, minor) => VersionVoteUpgrades(s, voter, id, minor, t, effects, k);
  }

  lemma AddKeepsModules(s: Tables, voter: PeerPubkey, peer: PeerPubkey, t: Tables, effects: seq<Effect>)
    requires PeerAddVoted(s, voter, peer, t, effects)
    ensures s.peers <= t.peers && t.configs == s.configs && t.versionVotes == s.versionVotes
  {
    hide HasQuorum;
  }

  lemma NewModuleKeepsOthers(s: Tables, voter: PeerPubkey, kind: ModuleKind, version: Version, t: Tables,
                             effects: seq<Effect>, k: ModuleId)
    requires ModuleAddVoted(s, voter, kind, version, t, effects) && k in s.configs
    ensures t.peers == s.peers && k in t.configs && t.configs[k] == s.configs[k] && t.versionVotes == s.versionVotes
  {
    hide Matching, Minimum;
  }

  lemma RemoveUpgrades(s: Tables, voter: PeerPubkey, peer: PeerPubkey, t: Tables, effects: seq<Effect>, k: ModuleId)
    requires s.peers != {} && PeerRemoveVoted(s, voter, peer, t, effects) && k in s.configs
    ensures k in t.configs
    ensures || (t.peers == s.peers && t.configs == s.configs && t.versionVotes == s.versionVotes)
            || UpgradedTo(s.configs[k], t.configs[k], t.peers, t.versionVotes, k)
  {
    hide HasQuorum, UpgradeEffects, UpgradedConfig, UpgradedTo;
    var without := WithoutPeer(s, s.removeVotes[voter := peer], peer);
    if without.peers != {} {
      UpgradedIff(without, k);
    }
  }

  lemma VersionVoteUpgrades(s: Tables, voter: PeerPubkey, id: ModuleId, minor: nat, t: Tables, effects: seq<Effect>,
                            k: ModuleId)
    requires s.peers != {} && id in s.configs && ModuleVersionVoted(s, voter, id, minor, t, effects) && k in s.configs
    ensures k in t.configs && UpgradedTo(s.configs[k], t.configs[k], t.peers, t.versionVotes, k)
  {
    hide UpgradeEffects, UpgradedConfig, UpgradedTo;
    UpgradedIff(s.(versionVotes := s.versionVotes[(voter, id) := Version(s.configs[id].version.major, minor)]), k);
  }

  lemma UpgradedIff(u: Tables, k: ModuleId)
    requires u.peers != {} && k in u.configs
    ensures UpgradedTo(u.configs[k], UpgradedConfig(u, k), u.peers, u.versionVotes, k)
  {
    hide Minimum;
    var minors := VotedMinors(u, k);
    var least := Minimum(minors);
    assert IsMinimum(minors, least);
    var q :| q in minors && minors[q] == least;
    assert q in u.peers && VotedMinor(u.versionVotes, q, k) == least;
    forall p | p in u.peers
      ensures p in minors && minors[p] == VotedMinor(u.versionVotes, p, k) && least <= minors[p]
    {}
  }

  lemma NotUpgraded(peers: set<PeerPubkey>, more: set<PeerPubkey>, votes: map<(PeerPubkey, ModuleId), Version>,
                    k: ModuleId, config: ModuleConfig)
    requires NoUpgradePending(peers, votes, k, config) && peers <= more
    ensures UpgradedTo(config, config, more, votes, k)
  {}

  /** A module is set up exactly when an item votes for it and every other member has voted for its kind and
      major version. It gets the least unused id from 1 on, at the least minor version of all those votes, and
      no other module changes. */
  lemma ModuleIsAddedIff(inits: Inits, s: Tables, voter: PeerPubkey, item: CItem, t: Tables, effects: seq<Effect>)
    requires CtrlInv(inits, s) && Accepted(inits, s, voter, item, t, effects)
    ensures t.configs.Keys != s.configs.Keys <==>
            && item.VoteAddModule?
            && forall q | q in s.peers && q != voter ::
                 && q in s.addModuleVotes && s.addModuleVotes[q].0 == item.kind
                 && s.addModuleVotes[q].1.major == item.version.major
    ensures t.configs.Keys != s.configs.Keys ==>
              exists id: ModuleId, minor: nat ::
                && 1 <= id && id !in s.configs && (forall j | 1 <= j < id :: j in s.configs)
                && t.configs == s.configs[id := ModuleConfig(item.kind, Version(item.version.major, minor))]
                && minor <= item.version.minor
                && (forall q | q in s.peers && q != voter :: minor <= s.addModuleVotes[q].1.minor)
                && (minor == item.version.minor
                    || exists q | q in s.peers && q != voter :: minor == s.addModuleVotes[q].1.minor)
                && effects == [ModuleAdded(item.kind, id, Version(item.version.major, minor))]
  {
    hide CtrlInv, UpgradeEffects, UpgradedConfig, HasQuorum, KindTaken, PeerAddVoted, ModuleAddVoted;
    VotersOfInv(inits, s);
    match item
    case VoteAddPeer(peer) => AddKeepsModules(s, voter, peer, t, effects);
    case VoteRemovePeer(_) =>
    case VoteAddModule(kind, version) => ModuleVoteAdds(s, voter, kind, version, t, effects);
    case VoteModuleVersion(_, _) =>
  }

  lemma ModuleVoteAdds(s: Tables, voter: PeerPubkey, kind: ModuleKind, version: Version, t: Tables,
                       effects: seq<Effect>)
    requires voter in s.peers && ModuleAddVoted(s, voter, kind, version, t, effects)
    ensures t.configs.Keys != s.configs.Keys <==>
            forall q | q in s.peers && q != voter ::
              && q in s.addModuleVotes && s.addModuleVotes[q].0 == kind
              && s.addModuleVotes[q].1.major == version.major
    ensures t.configs.Keys != s.configs.Keys ==>
              exists id: ModuleId, minor: nat ::
                && 1 <= id && id !in s.configs && (forall j | 1 <= j < id :: j in s.configs)
                && t.configs == s.configs[id := ModuleConfig(kind, Version(version.major, minor))]
                && minor <= version.minor
                && (forall q | q in s.peers && q != voter :: minor <= s.addModuleVotes[q].1.minor)
                && (minor == version.minor
                    || exists q | q in s.peers && q != voter :: minor == s.addModuleVotes[q].1.minor)
                && effects == [ModuleAdded(kind, id, Version(version.major, minor))]
  {
    hide Minimum;
    var votes := s.addModuleVotes[voter := (kind, version)];
    var matching := Matching(votes, s.peers, kind, version.major);
    assert voter in matching && matching[voter] == version.minor;
    assert (forall q | q in s.peers && q != voter ::
              q in s.addModuleVotes && s.addModuleVotes[q].0 == kind && s.addModuleVotes[q].1.major == version.major)
           ==> forall q | q in s.peers :: q in matching;
    if matching.Keys == s.peers {
      forall q | q in s.peers && q != voter
        ensures q in s.addModuleVotes && s.addModuleVotes[q].0 == kind && s.addModuleVotes[q].1.major == version.major
        ensures matching[q] == s.addModuleVotes[q].1.minor
      {
        assert q in matching;
      }
      var minor := Minimum(matching);
      assert IsMinimum(matching, minor);
      var p :| p in matching && matching[p] == minor;
      var id :| IsFreshId(s.configs, id)
          && t.configs == s.configs[id := ModuleConfig(kind, Version(version.major, minor))]
          && effects == [ModuleAdded(kind, id, Version(version.major, minor))];
      assert id in t.configs && id !in s.configs;
    }
  }
}
