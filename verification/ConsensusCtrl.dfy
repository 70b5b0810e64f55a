/** The `consensus-ctrl` module as it runs: votes are recorded in tables and counted in loops. */
module ConsensusCtrl {
  import opened Wrappers
  import opened OrderedTables
  import opened NumPeers
  import opened Blocks
  import opened Governance

  datatype Result = Ok(effects: seq<Effect>) | Err

  class ConsensusCtrlModule {
    const inits: Inits
    var peers: set<PeerPubkey>
    var addVotes: map<PeerPubkey, PeerPubkey>
    var removeVotes: map<PeerPubkey, PeerPubkey>
    var addModuleVotes: map<PeerPubkey, (ModuleKind, Version)>
    var configs: map<ModuleId, ModuleConfig>
    var versionVotes: map<(PeerPubkey, ModuleId), Version>

    function Contents(): Tables
      reads this
    {
      Tables(peers, addVotes, removeVotes, addModuleVotes, configs, versionVotes)
    }

    constructor Bootstrap(inits: Inits, peers: set<PeerPubkey>, version: Version)
      requires peers != {} && CTRL_KIND in inits
      ensures this.inits == inits && Contents() == Bootstrapped(peers, version)
      ensures CtrlInv(inits, Contents())
    {
      this.inits, this.peers := inits, peers;
      addVotes, removeVotes, addModuleVotes, versionVotes := map[], map[], map[], map[];
      configs := map[CTRL_ID := ModuleConfig(CTRL_KIND, version)];
      new;
      BootstrappedIsGood(inits, peers, version);
    }

    /** A transaction that is not committed leaves the tables as they were. */
    method RollBack(to: Tables)
      modifies this
      ensures Contents() == to
    {
      peers, addVotes, removeVotes := to.peers, to.addVotes, to.removeVotes;
      addModuleVotes, configs, versionVotes := to.addModuleVotes, to.configs, to.versionVotes;
    }

    /** Processes an item of a member. `peerSet` is the caller's copy of the peers. */
    method ProcessCItem(voter: PeerPubkey, peerSet: set<PeerPubkey>, item: CItem) returns (r: Result)
      requires CtrlInv(inits, Contents()) && peerSet == peers && voter in peerSet
      modifies this
      ensures r.Err? <==> Refused(inits, old(Contents()), item)
      ensures r.Err? ==> Contents() == old(Contents())
      ensures r.Ok? ==> Accepted(inits, old(Contents()), voter, item, Contents(), r.effects)
      ensures CtrlInv(inits, Contents())
    {
      hide CtrlInv, PeerAddVoted, PeerRemoveVoted, ModuleAddVoted, ModuleVersionVoted;
      ghost var s := Contents();
      InvMeansVoters(inits, s);
      match item {
        case VoteAddPeer(peer) => r := ProcessVoteAddPeer(voter, peerSet, peer);
        case VoteRemovePeer(peer) => r := ProcessVoteRemovePeer(voter, peerSet, peer);
        case VoteAddModule(kind, version) => r := ProcessVoteAddModule(voter, peerSet, kind, version);
        case VoteModuleVersion(id, minor) => r := ProcessVoteModuleVersion(voter, peerSet, id, minor);
      }
      if r.Ok? {
        ItemKeepsInv(inits, s, voter, item, Contents(), r.effects);
      }
    }

    method CountVotes(votes: map<PeerPubkey, PeerPubkey>, peerSet: set<PeerPubkey>, target: PeerPubkey) returns (n: nat)
      ensures n == |NamedBy(votes, peerSet, target)|
    {
      n := 0;
      var left := peerSet;
      assert NamedBy(votes, peerSet - left, target) == {};
      while left != {}
        invariant left <= peerSet
        invariant n == |NamedBy(votes, peerSet - left, target)|
        decreases left
      {
        var p :| p in left;
        ghost var before := NamedBy(votes, peerSet - left, target);
        left := left - {p};
        if p in votes && votes[p] == target {
          n := n + 1;
          assert NamedBy(votes, peerSet - left, target) == before + {p};
        } else {
          assert NamedBy(votes, peerSet - left, target) == before;
        }
      }
      assert peerSet - left == peerSet;
    }

    method ProcessVoteAddPeer(voter: PeerPubkey, peerSet: set<PeerPubkey>, peer: PeerPubkey) returns (r: Result)
      requires peerSet == peers
      modifies this`peers, this`addVotes
      ensures r.Err? <==> peer in old(peers)
      ensures r.Err? ==> Contents() == old(Contents())
      ensures r.Ok? ==> PeerAddVoted(old(Contents()), voter, peer, Contents(), r.effects)
    {
      if peer in peers {
        return Err;
      }
      addVotes := addVotes[voter := peer];
      var count := CountVotes(addVotes, peerSet, peer);
      if count < Threshold(|peerSet|) {
        return Ok([]);
      }
      addVotes := map p | p in addVotes && addVotes[p] != peer :: addVotes[p];
      peers := peers + {peer};
      return Ok([PeerAdded(peer), ParamsChange(peers)]);
    }

    method ProcessVoteRemovePeer(voter: PeerPubkey, peerSet: set<PeerPubkey>, peer: PeerPubkey) returns (r: Result)
      requires peerSet == peers && peers != {}
      modifies this`peers, this`addVotes, this`removeVotes, this`configs
      ensures r.Err? <==> peer !in old(peers) || |old(peers)| == 1
      ensures r.Err? ==> Contents() == old(Contents())
      ensures r.Ok? ==> PeerRemoveVoted(old(Contents()), voter, peer, Contents(), r.effects)
    {
      hide UpgradeEffects, UpgradedConfig, Upgraded, NamedBy;
      if peer !in peers {
        return Err;
      }
      if |peers| == 1 {
        return Err;
      }
      if voter in removeVotes && removeVotes[voter] == peer {
        return Ok([]);
      }
      removeVotes := removeVotes[voter := peer];
      var count := CountVotes(removeVotes, peerSet, peer);
      if count < Threshold(|peerSet|) {
        return Ok([]);
      }
      PeersRemain(peers, peer);
      hide WithoutPeer;
      var effects := RemovePeer(peer);
      return Ok(effects);
    }

    /** Removes a peer with its votes and the votes against it, and upgrades what the others agree on. */
    method RemovePeer(peer: PeerPubkey) returns (effects: seq<Effect>)
      requires peers - {peer} != {}
      modifies this`peers, this`addVotes, this`removeVotes, this`configs
      ensures var without := WithoutPeer(old(Contents()), old(removeVotes), peer);
              without.peers != {} && Contents() == Upgraded(without)
      ensures |effects| >= 2 && effects[..2] == [PeerRemoved(peer), ParamsChange(peers)]
      ensures UpgradeEffects(old(configs), configs, effects[2..])
    {
      hide UpgradeEffects, UpgradedConfig, Upgraded;
      peers := peers - {peer};
      removeVotes := map p | p in removeVotes && p in peers && removeVotes[p] != peer :: removeVotes[p];
      addVotes := map p | p in addVotes && p in peers :: addVotes[p];
      var upgrades := CheckModuleVersionUpgrades(peers);
      effects := [PeerRemoved(peer), ParamsChange(peers)] + upgrades;
      assert effects[2..] == upgrades;
    }

    method ProcessVoteAddModule(voter: PeerPubkey, peerSet: set<PeerPubkey>, kind: ModuleKind, version: Version)
        returns (r: Result)
      requires peerSet == peers && peers != {}
      modifies this`addModuleVotes, this`configs
      ensures r.Err? <==> kind !in inits || (inits[kind] && KindTaken(old(configs), kind))
      ensures r.Err? ==> Contents() == old(Contents())
      ensures r.Ok? ==> ModuleAddVoted(old(Contents()), voter, kind, version, Contents(), r.effects)
    {
      if kind !in inits {
        return Err;
      }
      if inits[kind] {
        var taken := FindKind(kind);
        if taken {
          return Err;
        }
      }
      addModuleVotes := addModuleVotes[voter := (kind, version)];
      var count, minor := CountMatching(addModuleVotes, peerSet, kind, version.major);
      ghost var matching := Matching(addModuleVotes, peerSet, kind, version.major);
      AllMatch(matching.Keys, peerSet);
      if count != |peerSet| {
        return Ok([]);
      }
      assert matching != map[] by {
        var p :| p in peerSet;
        assert p in matching;
      }
      addModuleVotes := map p | p in addModuleVotes && addModuleVotes[p].0 != kind :: addModuleVotes[p];
      var id := FindFreshId();
      configs := configs[id := ModuleConfig(kind, Version(version.major, minor))];
      return Ok([ModuleAdded(kind, id, Version(version.major, minor))]);
    }

    method FindKind(kind: ModuleKind) returns (found: bool)
      ensures found <==> KindTaken(configs, kind)
    {
      var left := configs.Keys;
      while left != {}
        invariant left <= configs.Keys
        invariant forall id | id in configs && id !in left :: configs[id].kind != kind
        decreases left
      {
        var id :| id in left;
        left := left - {id};
        if configs[id].kind == kind {
          return true;
        }
      }
      return false;
    }

    /** How many members voted for the kind and major version, and the least minor version among them. */
    method CountMatching(votes: map<PeerPubkey, (ModuleKind, Version)>, peerSet: set<PeerPubkey>, kind: ModuleKind,
                         major: nat)
        returns (count: nat, minor: nat)
      ensures count == |Matching(votes, peerSet, kind, major).Keys|
      ensures Matching(votes, peerSet, kind, major) != map[] ==> minor == Minimum(Matching(votes, peerSet, kind, major))
    {
      hide Matching, IsMinimum;
      count, minor := 0, 0;
      var left := peerSet;
      MatchingNobody(votes, peerSet, kind, major);
      while left != {}
        invariant left <= peerSet
        invariant count == |Matching(votes, peerSet - left, kind, major).Keys|
        invariant count == 0 <==> Matching(votes, peerSet - left, kind, major) == map[]
        invariant count != 0 ==> IsMinimum(Matching(votes, peerSet - left, kind, major), minor)
        decreases left
      {
        var p :| p in left;
        ghost var before := Matching(votes, peerSet - left, kind, major);
        MatchingOneMore(votes, peerSet, left, kind, major, p);
        if p in votes && votes[p].0 == kind && votes[p].1.major == major {
          var m := votes[p].1.minor;
          MinimumOfMore(before, p, m, minor);
          minor := if count == 0 || m < minor then m else minor;
          count := count + 1;
        }
        left := left - {p};
      }
      assert peerSet - left == peerSet;
      if count != 0 {
        OneMinimum(Matching(votes, peerSet, kind, major), minor, Minimum(Matching(votes, peerSet, kind, major)));
      }
    }

    /** Ids are tried from 1 on. */
    method FindFreshId() returns (id: ModuleId)
      ensures IsFreshId(configs, id)
    {
      ghost var bound := Highest(configs);
      ghost var end := if bound.Some? then bound.value + 1 else 1;
      id := 1;
      while id in configs
        invariant 1 <= id && forall j | 1 <= j < id :: j in configs
        decreases if id <= end then end - id else 0
      {
        id := id + 1;
      }
    }

    method ProcessVoteModuleVersion(voter: PeerPubkey, peerSet: set<PeerPubkey>, id: ModuleId, minor: nat)
        returns (r: Result)
      requires peerSet == peers && voter in peerSet
      modifies this`versionVotes, this`configs
      ensures r.Err? <==> id !in old(configs)
      ensures r.Err? ==> Contents() == old(Contents())
      ensures r.Ok? ==> ModuleVersionVoted(old(Contents()), voter, id, minor, Contents(), r.effects)
    {
      hide UpgradeEffects, UpgradedConfig;
      if id !in configs {
        return Err;
      }
      versionVotes := versionVotes[(voter, id) := Version(configs[id].version.major, minor)];
      var effects := CheckModuleVersionUpgrades(peerSet);
      return Ok(effects);
    }

    /** The least minor version that the members voted for. */
    method LeastVotedMinor(peerSet: set<PeerPubkey>, id: ModuleId) returns (minor: Option<nat>)
      requires peerSet == peers && peers != {}
      ensures minor == Some(Minimum(VotedMinors(Contents(), id)))
    {
      minor := None;
      var left := peerSet;
      ghost var all := VotedMinors(Contents(), id);
      while left != {}
        invariant left <= peerSet
        invariant minor.None? <==> left == peerSet
        invariant minor.Some? ==> exists p :: p in peerSet - left && all[p] == minor.value
        invariant minor.Some? ==> forall p | p in peerSet - left :: minor.value <= all[p]
        decreases left
      {
        var p :| p in left;
        var vote := VotedMinor(versionVotes, p, id);
        assert all[p] == vote;
        if minor.None? || vote <= minor.value {
          minor := Some(vote);
          assert p in peerSet - (left - {p});
        } else {
          ghost var q :| q in peerSet - left && all[q] == minor.value;
          assert q in peerSet - (left - {p});
        }
        left := left - {p};
      }
      ghost var p :| p in peerSet - left && all[p] == minor.value;
      assert p in all;
      OneMinimum(all, minor.value, Minimum(all));
    }

    /** Collects the modules whose peers all voted for a higher minor version, then upgrades them. */
    method CheckModuleVersionUpgrades(peerSet: set<PeerPubkey>) returns (effects: seq<Effect>)
      requires peerSet == peers && peers != {}
      modifies this`configs
      ensures Contents() == Upgraded(old(Contents()))
      ensures UpgradeEffects(old(configs), configs, effects)
    {
      hide UpgradeEffects, UpgradedConfig, Applied;
      ghost var s := Contents();
      var upgrades := CollectUpgrades(peerSet);
      effects := ApplyUpgrades(upgrades);
      AppliedIsUpgraded(s, upgrades, configs, effects);
    }

    method CollectUpgrades(peerSet: set<PeerPubkey>) returns (upgrades: seq<(ModuleId, ModuleConfig)>)
      requires peerSet == peers && peers != {}
      ensures IsUpgradeList(Contents(), upgrades)
    {
      hide UpgradedConfig, ListedBelow, Minimum;
      upgrades := [];
      var next := Next(configs, 0);
      ghost var from := 0;
      NothingListed(Contents());
      while next.Some?
        invariant next == Next(configs, from)
        invariant ListedBelow(Contents(), upgrades, from)
        decreases if next.Some? then Highest(configs).value + 1 - next.value else 0
      {
        var id := next.value;
        var config := configs[id];
        var agreed := LeastVotedMinor(peerSet, id);
        ListOne(Contents(), upgrades, from, id);
        if config.version.minor < agreed.value {
          upgrades := upgrades + [(id, config.(version := Version(config.version.major, agreed.value)))];
        }
        from := id + 1;
        next := Next(configs, id + 1);
      }
      AllListed(Contents(), upgrades, from);
    }

    method ApplyUpgrades(upgrades: seq<(ModuleId, ModuleConfig)>) returns (effects: seq<Effect>)
      requires forall i | 0 <= i < |upgrades| :: upgrades[i].0 in configs
      requires forall i, j | 0 <= i < j < |upgrades| :: upgrades[i].0 < upgrades[j].0
      modifies this`configs
      ensures Applied(old(configs), upgrades, configs, effects)
    {
      hide Applied;
      effects := [];
      ghost var before := configs;
      NothingApplied(before);
      for n := 0 to |upgrades|
        invariant configs.Keys == before.Keys
        invariant Applied(before, upgrades[..n], configs, effects)
      {
        var (id, config) := upgrades[n];
        ApplyOne(before, upgrades, n, configs, effects);
        effects := effects + [ModuleUpgraded(id, configs[id].version, config.version)];
        configs := configs[id := config];
      }
      assert upgrades[..|upgrades|] == upgrades;
    }
  }

  // Lists of upgrades

  ghost predicate Listed(upgrades: seq<(ModuleId, ModuleConfig)>, id: ModuleId) {
    exists i :: 0 <= i < |upgrades| && upgrades[i].0 == id
  }

  ghost predicate IsUpgrade(s: Tables, id: ModuleId, config: ModuleConfig)
    requires s.peers != {}
  {
    id in s.configs && config == UpgradedConfig(s, id) && config != s.configs[id]
  }

  /** The upgrades, in the order of their ids, of the modules below `from` that have the votes. */
  ghost predicate ListedBelow(s: Tables, upgrades: seq<(ModuleId, ModuleConfig)>, from: nat)
    requires s.peers != {}
  {
    && (forall i | 0 <= i < |upgrades| :: IsUpgrade(s, upgrades[i].0, upgrades[i].1) && upgrades[i].0 < from)
    && (forall i, j | 0 <= i < j < |upgrades| :: upgrades[i].0 < upgrades[j].0)
    && (forall id | id in s.configs && id < from && UpgradedConfig(s, id) != s.configs[id] :: Listed(upgrades, id))
  }

  ghost predicate IsUpgradeList(s: Tables, upgrades: seq<(ModuleId, ModuleConfig)>)
    requires s.peers != {}
  {
    && (forall i | 0 <= i < |upgrades| :: IsUpgrade(s, upgrades[i].0, upgrades[i].1))
    && (forall i, j | 0 <= i < j < |upgrades| :: upgrades[i].0 < upgrades[j].0)
    && (forall id | id in s.configs && UpgradedConfig(s, id) != s.configs[id] :: Listed(upgrades, id))
  }

  lemma NothingListed(s: Tables)
    requires s.peers != {}
    ensures ListedBelow(s, [], 0)
  {}

  lemma AllListed(s: Tables, upgrades: seq<(ModuleId, ModuleConfig)>, from: nat)
    requires s.peers != {} && ListedBelow(s, upgrades, from) && Next(s.configs, from).None?
    ensures IsUpgradeList(s, upgrades)
  {
    hide UpgradedConfig, Listed;
  }

  lemma ListedStays(upgrades: seq<(ModuleId, ModuleConfig)>, last: (ModuleId, ModuleConfig), id: ModuleId)
    requires Listed(upgrades, id) || id == last.0
    ensures Listed(upgrades + [last], id)
  {
    if id == last.0 {
      assert (upgrades + [last])[|upgrades|] == last;
    } else {
      var i :| 0 <= i < |upgrades| && upgrades[i].0 == id;
      assert (upgrades + [last])[i].0 == id;
    }
  }

  /** The next module in order is listed if it has the votes. */
  lemma ListOne(s: Tables, upgrades: seq<(ModuleId, ModuleConfig)>, from: nat, id: ModuleId)
    requires s.peers != {} && ListedBelow(s, upgrades, from) && Next(s.configs, from) == Some(id)
    ensures var config := s.configs[id];
            var agreed := Minimum(VotedMinors(s, id));
            if config.version.minor < agreed
            then ListedBelow(s, upgrades + [(id, config.(version := Version(config.version.major, agreed)))], id + 1)
            else ListedBelow(s, upgrades, id + 1)
  {
    hide Minimum, VotedMinors, Listed;
    var last := (id, UpgradedConfig(s, id));
    forall k | Listed(upgrades, k) || k == id
      ensures Listed(upgrades + [last], k)
    {
      ListedStays(upgrades, last, k);
    }
  }

  /** The configurations after the listed upgrades, and an effect for each. */
  ghost predicate Applied(before: map<ModuleId, ModuleConfig>, upgrades: seq<(ModuleId, ModuleConfig)>,
                          after: map<ModuleId, ModuleConfig>, effects: seq<Effect>)
  {
    && after.Keys == before.Keys && |effects| == |upgrades|
    && (forall i | 0 <= i < |upgrades| :: upgrades[i].0 in before && after[upgrades[i].0] == upgrades[i].1)
    && (forall i | 0 <= i < |upgrades| ::
          effects[i] == ModuleUpgraded(upgrades[i].0, before[upgrades[i].0].version, upgrades[i].1.version))
    && (forall id | id in before && !Listed(upgrades, id) :: after[id] == before[id])
  }

  lemma NothingApplied(before: map<ModuleId, ModuleConfig>)
    ensures Applied(before, [], before, [])
  {}

  lemma ApplyOne(before: map<ModuleId, ModuleConfig>, upgrades: seq<(ModuleId, ModuleConfig)>, n: nat,
                 after: map<ModuleId, ModuleConfig>, effects: seq<Effect>)
    requires n < |upgrades| && Applied(before, upgrades[..n], after, effects) && upgrades[n].0 in before
    requires forall i, j | 0 <= i < j < |upgrades| :: upgrades[i].0 < upgrades[j].0
    ensures var (id, config) := upgrades[n];
            && upgrades[..n + 1] == upgrades[..n] + [upgrades[n]]
            && id in after
            && Applied(before, upgrades[..n + 1], after[id := config],
                       effects + [ModuleUpgraded(id, after[id].version, config.version)])
  {
    var (id, config) := upgrades[n];
    var done := upgrades[..n];
    assert upgrades[..n + 1] == done + [upgrades[n]];
    assert forall i | 0 <= i < n :: done[i].0 != id;
    assert !Listed(done, id);
    forall k | Listed(done, k) || k == id
      ensures Listed(done + [upgrades[n]], k)
    {
      ListedStays(done, upgrades[n], k);
    }
  }

  lemma AppliedIsUpgraded(s: Tables, upgrades: seq<(ModuleId, ModuleConfig)>, after: map<ModuleId, ModuleConfig>,
                          effects: seq<Effect>)
    requires s.peers != {} && IsUpgradeList(s, upgrades) && Applied(s.configs, upgrades, after, effects)
    ensures after == Upgraded(s).configs && UpgradeEffects(s.configs, after, effects)
  {
    hide UpgradedConfig;
    var t := Upgraded(s);
    forall id | id in s.configs
      ensures after[id] == t.configs[id]
      ensures after[id] != s.configs[id] ==> HasUpgrade(effects, id)
    {
      if Listed(upgrades, id) {
        var i :| 0 <= i < |upgrades| && upgrades[i].0 == id;
        assert IsUpgrade(s, id, upgrades[i].1);
        assert effects[i].ModuleUpgraded? && effects[i].id == id;
      }
    }
  }

  lemma InvMeansVoters(inits: Inits, s: Tables)
    requires CtrlInv(inits, s)
    ensures s.peers != {}
  {}

  lemma PeersRemain(peers: set<PeerPubkey>, peer: PeerPubkey)
    requires peer in peers && |peers| != 1
    ensures peers - {peer} != {}
  {
    assert peers == (peers - {peer}) + {peer};
  }

  lemma AllMatch(some: set<PeerPubkey>, all: set<PeerPubkey>)
    requires some <= all
    ensures |some| == |all| <==> some == all
  {
    assert all == some + (all - some);
  }

  lemma MatchingNobody(votes: map<PeerPubkey, (ModuleKind, Version)>, peerSet: set<PeerPubkey>, kind: ModuleKind,
                       major: nat)
    ensures Matching(votes, peerSet - peerSet, kind, major) == map[]
    ensures |Matching(votes, peerSet - peerSet, kind, major).Keys| == 0
  {}

  lemma MatchingOneMore(votes: map<PeerPubkey, (ModuleKind, Version)>, peerSet: set<PeerPubkey>, left: set<PeerPubkey>,
                        kind: ModuleKind, major: nat, p: PeerPubkey)
    requires p in left && left <= peerSet
    ensures var before := Matching(votes, peerSet - left, kind, major);
            var after := Matching(votes, peerSet - (left - {p}), kind, major);
            if p in votes && votes[p].0 == kind && votes[p].1.major == major
            then p !in before && after == before[p := votes[p].1.minor] && |after.Keys| == |before.Keys| + 1
              && after != map[]
            else after == before
  {
    var before := Matching(votes, peerSet - left, kind, major);
    var after := Matching(votes, peerSet - (left - {p}), kind, major);
    if p in votes && votes[p].0 == kind && votes[p].1.major == major {
      assert p in after;
      assert after == before[p := votes[p].1.minor];
      assert after.Keys == before.Keys + {p};
    }
  }

  lemma OneMinimum(values: map<PeerPubkey, nat>, a: nat, b: nat)
    requires IsMinimum(values, a) && IsMinimum(values, b)
    ensures a == b
  {}

  lemma MinimumOfMore(values: map<PeerPubkey, nat>, p: PeerPubkey, m: nat, least: nat)
    requires p !in values && (values != map[] ==> IsMinimum(values, least))
    ensures IsMinimum(values[p := m], if values == map[] || m < least then m else least)
  {
    var more := values[p := m];
    assert p in more && more[p] == m;
    if values != map[] && least <= m {
      var q :| q in values && values[q] == least;
      assert q in more && more[q] == least;
    }
  }
}
