/** The voting rules of the `consensus-ctrl` module: who the peers are, which modules run, and at
    which versions. */
module Governance {
  import opened NumPeers
  import opened Blocks

  type ModuleId = nat
  type ModuleKind = nat

  const CTRL_KIND: ModuleKind := 0
  const CTRL_ID: ModuleId := 0

  datatype Version = Version(major: nat, minor: nat)

  datatype ModuleConfig = ModuleConfig(kind: ModuleKind, version: Version)

  /** The kinds that can be set up, and whether a kind may be set up only once. */
  type Inits = map<ModuleKind, bool>

  datatype Tables = Tables(
    peers: set<PeerPubkey>,
    addVotes: map<PeerPubkey, PeerPubkey>,
    removeVotes: map<PeerPubkey, PeerPubkey>,
    addModuleVotes: map<PeerPubkey, (ModuleKind, Version)>,
    configs: map<ModuleId, ModuleConfig>,
    versionVotes: map<(PeerPubkey, ModuleId), Version>)

  datatype CItem =
    | VoteAddPeer(peer: PeerPubkey)
    | VoteRemovePeer(peer: PeerPubkey)
    | VoteAddModule(kind: ModuleKind, version: Version)
    | VoteModuleVersion(id: ModuleId, minor: nat)

  datatype Effect =
    | PeerAdded(peer: PeerPubkey)
    | PeerRemoved(peer: PeerPubkey)
    | ParamsChange(peers: set<PeerPubkey>)
    | ModuleAdded(kind: ModuleKind, id: ModuleId, version: Version)
    | ModuleUpgraded(id: ModuleId, before: Version, after: Version)

  // Counting

  /** The members whose recorded vote names the peer. */
  function NamedBy(votes: map<PeerPubkey, PeerPubkey>, peers: set<PeerPubkey>, target: PeerPubkey): set<PeerPubkey> {
    set p | p in peers && p in votes && votes[p] == target
  }

  predicate HasQuorum(votes: map<PeerPubkey, PeerPubkey>, peers: set<PeerPubkey>, target: PeerPubkey) {
    Threshold(|peers|) <= |NamedBy(votes, peers, target)|
  }

  ghost predicate IsMinimum(values: map<PeerPubkey, nat>, m: nat) {
    (exists p :: p in values && values[p] == m) && forall p | p in values :: m <= values[p]
  }

  lemma {:induction false} MinimumExists(values: map<PeerPubkey, nat>, keys: set<PeerPubkey>)
    requires keys == values.Keys && values != map[]
    ensures exists m :: IsMinimum(values, m)
    decreases keys
  {
    var p :| p in keys;
    var rest := values - {p};
    if rest == map[] {
      assert forall q | q in values :: q == p || q in rest;
      assert IsMinimum(values, values[p]);
    } else {
      MinimumExists(rest, keys - {p});
      var m :| IsMinimum(rest, m);
      assert forall q | q in values :: q == p || (q in rest && rest[q] == values[q]);
      if m <= values[p] {
        var q :| q in rest && rest[q] == m;
        assert q in values && values[q] == m;
        assert IsMinimum(values, m);
      } else {
        assert IsMinimum(values, values[p]);
      }
    }
  }

  ghost function Minimum(values: map<PeerPubkey, nat>): (m: nat)
    requires values != map[]
    ensures IsMinimum(values, m)
  {
    MinimumExists(values, values.Keys);
    var m :| IsMinimum(values, m);
    m
  }

  function VotedMinor(votes: map<(PeerPubkey, ModuleId), Version>, peer: PeerPubkey, id: ModuleId): nat {
    if (peer, id) in votes then votes[(peer, id)].minor else 0
  }

  /** The minor version every peer voted for a module; a missing vote is a vote for 0. */
  function VotedMinors(s: Tables, id: ModuleId): (v: map<PeerPubkey, nat>)
    ensures s.peers != {} ==> v != map[]
  {
    var v := map p | p in s.peers :: VotedMinor(s.versionVotes, p, id);
    assert v.Keys == s.peers;
    v
  }

  // Upgrades

  /** The configuration with the agreed version, where that is higher. */
  ghost function UpgradedConfig(s: Tables, id: ModuleId): ModuleConfig
    requires s.peers != {} && id in s.configs
  {
    var config := s.configs[id];
    var agreed := Minimum(VotedMinors(s, id));
    if config.version.minor < agreed then config.(version := Version(config.version.major, agreed)) else config
  }

  ghost function Upgraded(s: Tables): Tables
    requires s.peers != {}
  {
    s.(configs := map id | id in s.configs :: UpgradedConfig(s, id))
  }

  /** One effect for every module whose configuration changed, and no other. */
  ghost predicate UpgradeEffects(before: map<ModuleId, ModuleConfig>, after: map<ModuleId, ModuleConfig>,
                                 effects: seq<Effect>) {
    && (forall i | 0 <= i < |effects| ::
          && effects[i].ModuleUpgraded? && effects[i].id in before && effects[i].id in after
          && before[effects[i].id] != after[effects[i].id]
          && effects[i].before == before[effects[i].id].version && effects[i].after == after[effects[i].id].version)
    && (forall i, j | 0 <= i < j < |effects| :: effects[i].id < effects[j].id)
    && (forall id | id in before && id in after && before[id] != after[id] :: HasUpgrade(effects, id))
  }

  ghost predicate HasUpgrade(effects: seq<Effect>, id: ModuleId) {
    exists i :: 0 <= i < |effects| && effects[i].ModuleUpgraded? && effects[i].id == id
  }

  // New modules

  ghost predicate IsFreshId(configs: map<ModuleId, ModuleConfig>, id: ModuleId) {
    1 <= id && id !in configs && forall j | 1 <= j < id :: j in configs
  }

  /** Members whose vote names the kind with the major version. */
  function Matching(votes: map<PeerPubkey, (ModuleKind, Version)>, peers: set<PeerPubkey>,
                    kind: ModuleKind, major: nat): map<PeerPubkey, nat> {
    map p | p in peers && p in votes && votes[p].0 == kind && votes[p].1.major == major :: votes[p].1.minor
  }

  predicate KindTaken(configs: map<ModuleId, ModuleConfig>, kind: ModuleKind) {
    exists id | id in configs :: configs[id].kind == kind
  }

  // One consensus item

  predicate Refused(inits: Inits, s: Tables, item: CItem) {
    match item
    case VoteAddPeer(peer) => peer in s.peers
    case VoteRemovePeer(peer) => peer !in s.peers || |s.peers| == 1
    case VoteAddModule(kind, _) => kind !in inits || (inits[kind] && KindTaken(s.configs, kind))
    case VoteModuleVersion(id, _) => id !in s.configs
  }

  ghost predicate PeerAddVoted(s: Tables, voter: PeerPubkey, peer: PeerPubkey, t: Tables, effects: seq<Effect>) {
    var votes := s.addVotes[voter := peer];
    if HasQuorum(votes, s.peers, peer) then
      && t == s.(peers := s.peers + {peer}, addVotes := map p | p in votes && votes[p] != peer :: votes[p])
      && effects == [PeerAdded(peer), ParamsChange(t.peers)]
    else t == s.(addVotes := votes) && effects == []
  }

  /** The tables without a peer, its votes and the votes for removing it. */
  function WithoutPeer(s: Tables, votes: map<PeerPubkey, PeerPubkey>, peer: PeerPubkey): Tables {
    var left := s.peers - {peer};
    s.(peers := left,
       removeVotes := map p | p in votes && p in left && votes[p] != peer :: votes[p],
       addVotes := map p | p in s.addVotes && p in left :: s.addVotes[p])
  }

  ghost predicate PeerRemoveVoted(s: Tables, voter: PeerPubkey, peer: PeerPubkey, t: Tables, effects: seq<Effect>) {
    var votes := s.removeVotes[voter := peer];
    var without := WithoutPeer(s, votes, peer);
    if voter in s.removeVotes && s.removeVotes[voter] == peer then t == s && effects == []
    else if HasQuorum(votes, s.peers, peer) then
      && without.peers != {} && t == Upgraded(without)
      && |effects| >= 2 && effects[..2] == [PeerRemoved(peer), ParamsChange(t.peers)]
      && UpgradeEffects(s.configs, t.configs, effects[2..])
    else t == s.(removeVotes := votes) && effects == []
  }

  ghost predicate ModuleAddVoted(s: Tables, voter: PeerPubkey, kind: ModuleKind, version: Version, t: Tables,
                                 effects: seq<Effect>) {
    var votes := s.addModuleVotes[voter := (kind, version)];
    var matching := Matching(votes, s.peers, kind, version.major);
    if matching.Keys == s.peers && matching != map[] then
      exists id {:trigger IsFreshId(s.configs, id)} ::
        && IsFreshId(s.configs, id)
        && var agreed := Version(version.major, Minimum(matching));
           && t == s.(configs := s.configs[id := ModuleConfig(kind, agreed)],
                      addModuleVotes := map p | p in votes && votes[p].0 != kind :: votes[p])
           && effects == [ModuleAdded(kind, id, agreed)]
    else t == s.(addModuleVotes := votes) && effects == []
  }

  ghost predicate ModuleVersionVoted(s: Tables, voter: PeerPubkey, id: ModuleId, minor: nat, t: Tables,
                                     effects: seq<Effect>)
    requires id in s.configs && s.peers != {}
  {
    && t == Upgraded(s.(versionVotes := s.versionVotes[(voter, id) := Version(s.configs[id].version.major, minor)]))
    && UpgradeEffects(s.configs, t.configs, effects)
  }

  /** What a consensus item of a member leaves in the tables, and its effects. */
  ghost predicate Accepted(inits: Inits, s: Tables, voter: PeerPubkey, item: CItem, t: Tables, effects: seq<Effect>) {
    && voter in s.peers && !Refused(inits, s, item)
    && match item
       case VoteAddPeer(peer) => PeerAddVoted(s, voter, peer, t, effects)
       case VoteRemovePeer(peer) => PeerRemoveVoted(s, voter, peer, t, effects)
       case VoteAddModule(kind, version) => ModuleAddVoted(s, voter, kind, version, t, effects)
       case VoteModuleVersion(id, minor) => ModuleVersionVoted(s, voter, id, minor, t, effects)
  }

  /** The tables the module is bootstrapped with. */
  function Bootstrapped(peers: set<PeerPubkey>, version: Version): Tables {
    Tables(peers, map[], map[], map[], map[CTRL_ID := ModuleConfig(CTRL_KIND, version)], map[])
  }

  // What every item keeps

  ghost predicate VotersOk(peers: set<PeerPubkey>, addVotes: map<PeerPubkey, PeerPubkey>,
                           removeVotes: map<PeerPubkey, PeerPubkey>) {
    && peers != {}
    && (forall p | p in addVotes :: p in peers && addVotes[p] !in peers)
    && (forall p | p in removeVotes :: p in peers && removeVotes[p] in peers)
  }

  /** No member is named for removal by a quorum: such a vote was acted on when it was recorded. */
  ghost predicate RemovalsOk(peers: set<PeerPubkey>, removeVotes: map<PeerPubkey, PeerPubkey>) {
    forall p | p in peers :: !HasQuorum(removeVotes, peers, p)
  }

  ghost predicate ModulesOk(inits: Inits, configs: map<ModuleId, ModuleConfig>) {
    && CTRL_ID in configs && configs[CTRL_ID].kind == CTRL_KIND
    && (forall id | id in configs :: configs[id].kind in inits)
    && (forall i, j | i in configs && j in configs && configs[i].kind == configs[j].kind && inits[configs[i].kind] ::
       i == j)
  }

  /** Version votes are for modules that run, and every upgrade that has the votes was made. */
  ghost predicate VersionsOk(peers: set<PeerPubkey>, votes: map<(PeerPubkey, ModuleId), Version>,
                             configs: map<ModuleId, ModuleConfig>) {
    && (forall v | v in votes :: v.1 in configs)
    && (forall id | id in configs :: NoUpgradePending(peers, votes, id, configs[id]))
  }

  ghost predicate NoUpgradePending(peers: set<PeerPubkey>, votes: map<(PeerPubkey, ModuleId), Version>, id: ModuleId,
                                   config: ModuleConfig) {
    exists p :: p in peers && VotedMinor(votes, p, id) <= config.version.minor
  }

  ghost predicate CtrlInv(inits: Inits, s: Tables) {
    && VotersOk(s.peers, s.addVotes, s.removeVotes)
    && RemovalsOk(s.peers, s.removeVotes)
    && ModulesOk(inits, s.configs)
    && VersionsOk(s.peers, s.versionVotes, s.configs)
  }

  lemma BootstrappedIsGood(inits: Inits, peers: set<PeerPubkey>, version: Version)
    requires peers != {} && CTRL_KIND in inits
    ensures CtrlInv(inits, Bootstrapped(peers, version))
  {
    var s := Bootstrapped(peers, version);
    var p :| p in peers;
    assert VotedMinor(s.versionVotes, p, CTRL_ID) == 0;
    NobodyNamed(peers);
  }

  lemma NobodyNamed(peers: set<PeerPubkey>)
    requires peers != {}
    ensures RemovalsOk(peers, map[])
  {
    forall p | p in peers
      ensures !HasQuorum(map[], peers, p)
    {
      assert NamedBy(map[], peers, p) == {};
    }
  }

  // Votes to remove a peer

  /** A vote that gives no quorum to its target gives none to anybody else: the voter's vote moved. */
  lemma RecordedRemovalsOk(peers: set<PeerPubkey>, removeVotes: map<PeerPubkey, PeerPubkey>, voter: PeerPubkey,
                           peer: PeerPubkey)
    requires RemovalsOk(peers, removeVotes) && !HasQuorum(removeVotes[voter := peer], peers, peer)
    ensures RemovalsOk(peers, removeVotes[voter := peer])
  {
    var votes := removeVotes[voter := peer];
    forall p | p in peers && p != peer
      ensures !HasQuorum(votes, peers, p)
    {
      SubsetSize(NamedBy(votes, peers, p), NamedBy(removeVotes, peers, p));
    }
  }

  /** More peers need more votes, and the new peer has none. */
  lemma MorePeersRemovalsOk(peers: set<PeerPubkey>, removeVotes: map<PeerPubkey, PeerPubkey>, peer: PeerPubkey)
    requires RemovalsOk(peers, removeVotes) && peer !in peers && peers != {}
    requires forall p | p in removeVotes :: p in peers && removeVotes[p] in peers
    ensures RemovalsOk(peers + {peer}, removeVotes)
  {
    forall p | p in peers + {peer}
      ensures !HasQuorum(removeVotes, peers + {peer}, p)
    {
      assert NamedBy(removeVotes, peers + {peer}, p) == if p == peer then {} else NamedBy(removeVotes, peers, p);
    }
  }

  /** A quorum that removes one peer leaves too few votes for any other: each member has one vote. */
  lemma FewerPeersRemovalsOk(peers: set<PeerPubkey>, votes: map<PeerPubkey, PeerPubkey>, peer: PeerPubkey)
    requires peer in peers && |peers| != 1 && HasQuorum(votes, peers, peer)
    ensures var left := peers - {peer};
            RemovalsOk(left, map p | p in votes && p in left && votes[p] != peer :: votes[p])
  {
    var left := peers - {peer};
    var kept := map p | p in votes && p in left && votes[p] != peer :: votes[p];
    assert |left| == |peers| - 1;
    var gone := NamedBy(votes, peers, peer);
    forall p | p in left
      ensures !HasQuorum(kept, left, p)
    {
      var named := NamedBy(kept, left, p);
      assert named !! gone;
      SubsetSize(named + gone, peers);
      assert |named + gone| == |named| + |gone|;
      TwoQuorumsAreTooMany(|peers|);
    }
  }

  lemma TwoQuorumsAreTooMany(n: nat)
    requires 2 <= n
    ensures n - Threshold(n) < Threshold(n - 1)
  {}

  // Upgrades that are due

  lemma UpgradeIsDone(s: Tables, id: ModuleId)
    requires s.peers != {} && id in s.configs
    ensures NoUpgradePending(s.peers, s.versionVotes, id, UpgradedConfig(s, id))
  {
    var minors := VotedMinors(s, id);
    assert IsMinimum(minors, Minimum(minors));
    var p :| p in minors && minors[p] == Minimum(minors);
    assert p in s.peers && VotedMinor(s.versionVotes, p, id) == minors[p];
  }

  /** An upgrade changes minor versions only, and leaves none pending. */
  lemma UpgradedModules(inits: Inits, s: Tables)
    requires s.peers != {} && ModulesOk(inits, s.configs) && forall v | v in s.versionVotes :: v.1 in s.configs
    ensures ModulesOk(inits, Upgraded(s).configs) && VersionsOk(s.peers, s.versionVotes, Upgraded(s).configs)
    ensures Upgraded(s).configs.Keys == s.configs.Keys
    ensures forall id | id in s.configs ::
              && Upgraded(s).configs[id].kind == s.configs[id].kind
              && Upgraded(s).configs[id].version.major == s.configs[id].version.major
              && s.configs[id].version.minor <= Upgraded(s).configs[id].version.minor
  {
    hide UpgradedConfig, NoUpgradePending;
    var t := Upgraded(s);
    forall id | id in s.configs
      ensures t.configs[id].kind == s.configs[id].kind
      ensures t.configs[id].version.major == s.configs[id].version.major
      ensures s.configs[id].version.minor <= t.configs[id].version.minor
      ensures NoUpgradePending(s.peers, s.versionVotes, id, t.configs[id])
    {
      UpgradeIsDone(s, id);
      UpgradeKeepsKind(s, id);
    }
  }

  lemma UpgradeKeepsKind(s: Tables, id: ModuleId)
    requires s.peers != {} && id in s.configs
    ensures UpgradedConfig(s, id).kind == s.configs[id].kind
    ensures UpgradedConfig(s, id).version.major == s.configs[id].version.major
    ensures s.configs[id].version.minor <= UpgradedConfig(s, id).version.minor
  {
    hide Minimum;
  }

  lemma MorePeersNoneUpgraded(peers: set<PeerPubkey>, more: set<PeerPubkey>,
                              votes: map<(PeerPubkey, ModuleId), Version>, configs: map<ModuleId, ModuleConfig>)
    requires VersionsOk(peers, votes, configs) && peers <= more
    ensures VersionsOk(more, votes, configs)
  {
    forall id | id in configs
      ensures NoUpgradePending(more, votes, id, configs[id])
    {
      assert NoUpgradePending(peers, votes, id, configs[id]);
    }
  }

  lemma VotersAfterAdd(peers: set<PeerPubkey>, addVotes: map<PeerPubkey, PeerPubkey>,
                       removeVotes: map<PeerPubkey, PeerPubkey>, voter: PeerPubkey, peer: PeerPubkey)
    requires VotersOk(peers, addVotes, removeVotes) && voter in peers && peer !in peers
    ensures peers != {} && forall p | p in removeVotes :: p in peers && removeVotes[p] in peers
    ensures var votes := addVotes[voter := peer];
            && VotersOk(peers, votes, removeVotes)
            && VotersOk(peers + {peer}, map p | p in votes && votes[p] != peer :: votes[p], removeVotes)
  {}

  lemma PeerAddKeepsInv(inits: Inits, s: Tables, voter: PeerPubkey, peer: PeerPubkey, t: Tables, effects: seq<Effect>)
    requires CtrlInv(inits, s) && Accepted(inits, s, voter, VoteAddPeer(peer), t, effects)
    ensures CtrlInv(inits, t)
  {
    hide VersionsOk, ModulesOk, HasQuorum, RemovalsOk, VotersOk;
    VotersAfterAdd(s.peers, s.addVotes, s.removeVotes, voter, peer);
    MorePeersNoneUpgraded(s.peers, t.peers, s.versionVotes, s.configs);
    MorePeersRemovalsOk(s.peers, s.removeVotes, peer);
  }

  lemma PeerRemoveKeepsInv(inits: Inits, s: Tables, voter: PeerPubkey, peer: PeerPubkey, t: Tables,
                           effects: seq<Effect>)
    requires CtrlInv(inits, s) && Accepted(inits, s, voter, VoteRemovePeer(peer), t, effects)
    ensures CtrlInv(inits, t)
  {
    hide UpgradeEffects, UpgradedConfig, HasQuorum, ModulesOk, NoUpgradePending, RemovalsOk;
    var votes := s.removeVotes[voter := peer];
    if HasQuorum(votes, s.peers, peer) {
      FewerPeersRemovalsOk(s.peers, votes, peer);
      if t.peers != s.peers {
        UpgradedModules(inits, WithoutPeer(s, votes, peer));
      }
    } else {
      RecordedRemovalsOk(s.peers, s.removeVotes, voter, peer);
    }
  }

  lemma NewModuleIsGood(inits: Inits, peers: set<PeerPubkey>, votes: map<(PeerPubkey, ModuleId), Version>,
                        configs: map<ModuleId, ModuleConfig>, id: ModuleId, config: ModuleConfig)
    requires peers != {} && ModulesOk(inits, configs) && VersionsOk(peers, votes, configs)
    requires 1 <= id && id !in configs && config.kind in inits
             && (inits[config.kind] ==> !KindTaken(configs, config.kind))
    ensures ModulesOk(inits, configs[id := config]) && VersionsOk(peers, votes, configs[id := config])
  {
    hide NoUpgradePending;
    assert NoUpgradePending(peers, votes, id, config) by {
      var p :| p in peers;
      assert (p, id).1 == id;
      assert VotedMinor(votes, p, id) == 0;
      NoVoteNeeded(peers, votes, p, id, config);
    }
  }

  lemma NoVoteNeeded(peers: set<PeerPubkey>, votes: map<(PeerPubkey, ModuleId), Version>, p: PeerPubkey, id: ModuleId,
                     config: ModuleConfig)
    requires p in peers && VotedMinor(votes, p, id) == 0
    ensures NoUpgradePending(peers, votes, id, config)
  {}

  lemma ModuleAddKeepsInv(inits: Inits, s: Tables, voter: PeerPubkey, kind: ModuleKind, version: Version, t: Tables,
                          effects: seq<Effect>)
    requires CtrlInv(inits, s) && Accepted(inits, s, voter, VoteAddModule(kind, version), t, effects)
    ensures CtrlInv(inits, t)
  {
    hide Minimum, Matching, KindTaken, ModulesOk, VersionsOk, RemovalsOk;
    if t.configs != s.configs {
      var id :| IsFreshId(s.configs, id) && id in t.configs && t.configs == s.configs[id := t.configs[id]]
          && t.configs[id].kind == kind;
      NewModuleIsGood(inits, s.peers, s.versionVotes, s.configs, id, t.configs[id]);
    }
  }

  lemma VersionVoteKeepsInv(inits: Inits, s: Tables, voter: PeerPubkey, id: ModuleId, minor: nat, t: Tables,
                            effects: seq<Effect>)
    requires CtrlInv(inits, s) && Accepted(inits, s, voter, VoteModuleVersion(id, minor), t, effects)
    ensures CtrlInv(inits, t)
  {
    hide UpgradeEffects, UpgradedConfig, ModulesOk, NoUpgradePending, VotersOk, RemovalsOk;
    VoterOkMeansPeers(s);
    UpgradedModules(inits,
      s.(versionVotes := s.versionVotes[(voter, id) := Version(s.configs[id].version.major, minor)]));
  }

  lemma VoterOkMeansPeers(s: Tables)
    requires VotersOk(s.peers, s.addVotes, s.removeVotes)
    ensures s.peers != {}
  {}

  /** Every item keeps the invariant. */
  lemma ItemKeepsInv(inits: Inits, s: Tables, voter: PeerPubkey, item: CItem, t: Tables, effects: seq<Effect>)
    requires CtrlInv(inits, s) && Accepted(inits, s, voter, item, t, effects)
    ensures CtrlInv(inits, t)
  {
    hide CtrlInv, Accepted;
    match item
    case VoteAddPeer(peer) => PeerAddKeepsInv(inits, s, voter, peer, t, effects);
    case VoteRemovePeer(peer) => PeerRemoveKeepsInv(inits, s, voter, peer, t, effects);
    case VoteAddModule(kind, version) => ModuleAddKeepsInv(inits, s, voter, kind, version, t, effects);
    case VoteModuleVersion(id, minor) => VersionVoteKeepsInv(inits, s, voter, id, minor, t, effects);
  }

  /** A module keeps its kind and major version, and its minor version never decreases. */
  ghost predicate ModulesGrow(s: Tables, t: Tables) {
    forall id | id in s.configs ::
      && id in t.configs && t.configs[id].kind == s.configs[id].kind
      && t.configs[id].version.major == s.configs[id].version.major
      && s.configs[id].version.minor <= t.configs[id].version.minor
  }

  lemma ItemGrowsModules(inits: Inits, s: Tables, voter: PeerPubkey, item: CItem, t: Tables, effects: seq<Effect>)
    requires Accepted(inits, s, voter, item, t, effects)
    ensures ModulesGrow(s, t)
  {
    hide UpgradeEffects, Minimum, Matching, HasQuorum, UpgradedConfig, KindTaken;
    if s.peers != {} {
      forall u: Tables, id | u.peers != {} && id in u.configs && Upgraded(u) == t
        ensures UpgradedConfig(u, id).kind == u.configs[id].kind
        ensures UpgradedConfig(u, id).version.major == u.configs[id].version.major
        ensures u.configs[id].version.minor <= UpgradedConfig(u, id).version.minor
      {
        UpgradeKeepsKind(u, id);
      }
    }
  }

  /** A peer enters exactly when an item votes for it and the recorded votes of a quorum of the members,
      that vote included, name it; a peer leaves exactly when the same holds for removing it. Nobody else
      enters or leaves. */
  ghost predicate MembershipVoted(s: Tables, voter: PeerPubkey, item: CItem, t: Tables) {
    && (forall p | p !in s.peers ::
          p in t.peers <==> item == VoteAddPeer(p) && HasQuorum(s.addVotes[voter := p], s.peers, p))
    && (forall p | p in s.peers ::
          p !in t.peers <==> item == VoteRemovePeer(p) && HasQuorum(s.removeVotes[voter := p], s.peers, p))
  }

  /** A vote that was recorded before is not counted again, and need not be: it never completes a quorum. */
  lemma MembershipChangesWithQuorum(inits: Inits, s: Tables, voter: PeerPubkey, item: CItem, t: Tables,
                                    effects: seq<Effect>)
    requires CtrlInv(inits, s) && Accepted(inits, s, voter, item, t, effects)
    ensures MembershipVoted(s, voter, item, t)
  {
    hide UpgradeEffects, Minimum, Matching, UpgradedConfig, HasQuorum, ModulesOk, VersionsOk, VotersOk;
    if item.VoteRemovePeer? && voter in s.removeVotes && s.removeVotes[voter] == item.peer {
      assert s.removeVotes[voter := item.peer] == s.removeVotes;
    }
  }

  /** The peer sets that parameter changes carry, in order. */
  function ParamsChanges(effects: seq<Effect>): seq<set<PeerPubkey>> {
    if effects == [] then []
    else
      var last := effects[|effects| - 1];
      ParamsChanges(effects[..|effects| - 1]) + if last.ParamsChange? then [last.peers] else []
  }

  lemma {:induction false} OtherEffectsChangeNoParams(first: seq<Effect>, rest: seq<Effect>)
    requires forall e | e in rest :: !e.ParamsChange?
    ensures ParamsChanges(first + rest) == ParamsChanges(first)
  {
    if rest == [] {
      assert first + rest == first;
    } else {
      OtherEffectsChangeNoParams(first, rest[..|rest| - 1]);
      assert (first + rest)[..|first + rest| - 1] == first + rest[..|rest| - 1];
    }
  }

  lemma OneParamsChange(e: Effect, peers: set<PeerPubkey>)
    requires !e.ParamsChange?
    ensures ParamsChanges([e, ParamsChange(peers)]) == [peers]
  {
    assert [e, ParamsChange(peers)][..1] == [e] && [e][..0] == [];
    assert ParamsChanges([e]) == [];
  }

  /** What the effects tell: there is one parameter change, with the new peers, if the peers changed, and
      none otherwise; the configurations changed only if a module was added or upgraded. */
  lemma EffectsTellChanges(inits: Inits, s: Tables, voter: PeerPubkey, item: CItem, t: Tables, effects: seq<Effect>)
    requires Accepted(inits, s, voter, item, t, effects)
    ensures ParamsChanges(effects) == if t.peers != s.peers then [t.peers] else []
    ensures t.configs != s.configs ==> exists e :: e in effects && (e.ModuleAdded? || e.ModuleUpgraded?)
  {
    hide Minimum, Matching, UpgradedConfig, HasQuorum, ParamsChanges;
    NoEffectsNoChanges();
    match item
    case VoteAddPeer(peer) =>
      if effects != [] {
        OneParamsChange(PeerAdded(peer), t.peers);
        assert peer in t.peers && peer !in s.peers;
      }
    case VoteRemovePeer(peer) =>
      if effects != [] {
        RemovalEffects(s, t, peer, effects);
      }
    case VoteAddModule(_, _) =>
      if effects != [] {
        assert effects[0] in effects && effects == [effects[0]];
        OtherEffectsChangeNoParams([], effects);
        assert [] + effects == effects;
      }
    case VoteModuleVersion(_, _) =>
      UpgradesAreTold(s.configs, t.configs, effects);
      OtherEffectsChangeNoParams([], effects);
      assert [] + effects == effects;
  }

  lemma NoEffectsNoChanges()
    ensures ParamsChanges([]) == []
  {}

  lemma RemovalEffects(s: Tables, t: Tables, peer: PeerPubkey, effects: seq<Effect>)
    requires |effects| >= 2 && effects[..2] == [PeerRemoved(peer), ParamsChange(t.peers)]
    requires UpgradeEffects(s.configs, t.configs, effects[2..])
    requires s.configs.Keys == t.configs.Keys && peer in s.peers && peer !in t.peers
    ensures t.peers != s.peers && ParamsChanges(effects) == [t.peers]
    ensures t.configs != s.configs ==> exists e :: e in effects && e.ModuleUpgraded?
  {
    hide ParamsChanges, UpgradeEffects;
    var rest := effects[2..];
    assert effects == [PeerRemoved(peer), ParamsChange(t.peers)] + rest;
    UpgradesAreTold(s.configs, t.configs, rest);
    OneParamsChange(PeerRemoved(peer), t.peers);
    OtherEffectsChangeNoParams([PeerRemoved(peer), ParamsChange(t.peers)], rest);
    if t.configs != s.configs {
      var e :| e in rest && e.ModuleUpgraded?;
      assert e in effects;
    }
  }

  lemma UpgradesAreTold(before: map<ModuleId, ModuleConfig>, after: map<ModuleId, ModuleConfig>, effects: seq<Effect>)
    requires UpgradeEffects(before, after, effects) && before.Keys == after.Keys
    ensures forall e | e in effects :: e.ModuleUpgraded?
    ensures after != before ==> exists e :: e in effects && e.ModuleUpgraded?
  {
    if after != before {
      var id :| id in before && before[id] != after[id];
      assert HasUpgrade(effects, id);
      var i :| 0 <= i < |effects| && effects[i].ModuleUpgraded? && effects[i].id == id;
      assert effects[i] in effects;
    }
  }

  // Runs

  datatype Vote = Vote(voter: PeerPubkey, item: CItem)

  /** A vote that is refused changes nothing. */
  ghost predicate IsCtrlStep(inits: Inits, s: Tables, v: Vote, t: Tables) {
    || (exists effects :: Accepted(inits, s, v.voter, v.item, t, effects))
    || (t == s && (v.voter !in s.peers || Refused(inits, s, v.item)))
  }

  ghost predicate IsCtrlRun(inits: Inits, peers: set<PeerPubkey>, version: Version, states: seq<Tables>,
                            votes: seq<Vote>) {
    && peers != {} && CTRL_KIND in inits
    && |states| == |votes| + 1 && states[0] == Bootstrapped(peers, version)
    && forall i | 0 <= i < |votes| :: IsCtrlStep(inits, states[i], votes[i], states[i + 1])
  }

  /** In every run there are peers, voters are members, votes name whom they can, singleton kinds are
      unique, and no removal and no upgrade that has the votes is left undone. */
  lemma {:induction false} CtrlRunsKeepInv(inits: Inits, peers: set<PeerPubkey>, version: Version,
                                           states: seq<Tables>, votes: seq<Vote>, i: nat)
    requires IsCtrlRun(inits, peers, version, states, votes) && i < |states|
    ensures CtrlInv(inits, states[i])
  {
    hide CtrlInv, Accepted, Bootstrapped;
    if i == 0 {
      BootstrappedIsGood(inits, peers, version);
    } else {
      CtrlRunsKeepInv(inits, peers, version, states, votes, i - 1);
      var s, v, t := states[i - 1], votes[i - 1], states[i];
      assert IsCtrlStep(inits, s, v, states[i - 1 + 1]);
      if t != s {
        var effects :| Accepted(inits, s, v.voter, v.item, t, effects);
        ItemKeepsInv(inits, s, v.voter, v.item, t, effects);
      }
    }
  }

  /** In every run modules are never removed or changed in kind, and versions only go up. */
  lemma {:induction false} CtrlRunsGrowModules(inits: Inits, peers: set<PeerPubkey>, version: Version,
                                               states: seq<Tables>, votes: seq<Vote>, i: nat, j: nat)
    requires IsCtrlRun(inits, peers, version, states, votes) && i <= j < |states|
    ensures ModulesGrow(states[i], states[j])
    decreases j
  {
    hide Accepted, Bootstrapped;
    if i < j {
      CtrlRunsGrowModules(inits, peers, version, states, votes, i, j - 1);
      var s, v, t := states[j - 1], votes[j - 1], states[j];
      assert IsCtrlStep(inits, s, v, states[j - 1 + 1]);
      if t != s {
        var effects :| Accepted(inits, s, v.voter, v.item, t, effects);
        ItemGrowsModules(inits, s, v.voter, v.item, t, effects);
      }
    }
  }

  /** A new module gets the least unused id from 1 on, and replaces nothing. */
  lemma NewModuleIsFresh(inits: Inits, s: Tables, voter: PeerPubkey, item: CItem, t: Tables, effects: seq<Effect>,
                         id: ModuleId)
    requires Accepted(inits, s, voter, item, t, effects) && id in t.configs && id !in s.configs
    ensures IsFreshId(s.configs, id) && t.configs == s.configs[id := t.configs[id]]
    ensures item.VoteAddModule? && t.configs[id].kind == item.kind && t.configs[id].version.major == item.version.major
    ensures effects == [ModuleAdded(item.kind, id, t.configs[id].version)]
    ensures forall p | p in s.peers && p != voter :: p in s.addModuleVotes && s.addModuleVotes[p].0 == item.kind
                                                     && t.configs[id].version.minor <= s.addModuleVotes[p].1.minor
  {
    hide UpgradeEffects, UpgradedConfig, HasQuorum;
    var votes := s.addModuleVotes[voter := (item.kind, item.version)];
    var matching := Matching(votes, s.peers, item.kind, item.version.major);
    assert IsMinimum(matching, Minimum(matching));
    forall p | p in s.peers && p != voter
      ensures p in s.addModuleVotes && s.addModuleVotes[p].0 == item.kind
      ensures t.configs[id].version.minor <= s.addModuleVotes[p].1.minor
    {
      assert p in matching;
    }
  }
}
