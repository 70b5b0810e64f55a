/** The rules of consensus items are total and leave nothing open: nodes that process the same items hold the
    same tables and announce the same effects. */
module CtrlReplicas {
  import opened OrderedTables
  import opened Blocks
  import opened Governance
  import opened StandingVotes

  // What is announced

  predicate InIdOrder(effects: seq<Effect>) {
    forall i, j | 0 <= i < j < |effects| ::
      effects[i].ModuleUpgraded? && effects[j].ModuleUpgraded? && effects[i].id < effects[j].id
  }

  /** The effects are the upgrades from one table of configurations to the other, in the order of the ids. */
  lemma UpgradesAreExact(before: map<ModuleId, ModuleConfig>, after: map<ModuleId, ModuleConfig>, effects: seq<Effect>)
    requires UpgradeEffects(before, after, effects) && before.Keys == after.Keys
    ensures forall e: Effect ::
              e in effects <==> && e.ModuleUpgraded? && e.id in before && before[e.id] != after[e.id]
                                && e.before == before[e.id].version && e.after == after[e.id].version
    ensures InIdOrder(effects)
  {
    forall e: Effect | e.ModuleUpgraded? && e.id in before && before[e.id] != after[e.id]
               && e.before == before[e.id].version && e.after == after[e.id].version
      ensures e in effects
    {
      assert HasUpgrade(effects, e.id);
      var i :| 0 <= i < |effects| && effects[i].ModuleUpgraded? && effects[i].id == e.id;
      assert effects[i] == e;
    }
  }

  /** What the effects are: the change of the peers, if they changed, and then the upgrades. A new module is told
      by `CtrlTables.ModuleIsAddedIff`. */
  lemma EffectsAreExact(inits: Inits, s: Tables, voter: PeerPubkey, item: CItem, t: Tables, effects: seq<Effect>)
    requires CtrlInv(inits, s) && Accepted(inits, s, voter, item, t, effects)
    ensures match item
            case VoteAddPeer(p) =>
              effects == if p in t.peers then [PeerAdded(p), ParamsChange(t.peers)] else []
            case VoteRemovePeer(p) =>
              if p in t.peers then effects == []
              else && |effects| >= 2 && effects[..2] == [PeerRemoved(p), ParamsChange(t.peers)]
                   && t.configs.Keys == s.configs.Keys && UpgradeEffects(s.configs, t.configs, effects[2..])
            case VoteAddModule(_, _) => t.configs.Keys == s.configs.Keys ==> effects == []
            case VoteModuleVersion(_, _) =>
              t.configs.Keys == s.configs.Keys && UpgradeEffects(s.configs, t.configs, effects)
  {
    hide CtrlInv, UpgradeEffects, UpgradedConfig, HasQuorum, Matching, KindTaken;
    VotersOfInv(inits, s);
  }

  // No choice

  lemma {:induction false} SameUpgrades(a: seq<Effect>, b: seq<Effect>)
    requires forall e :: e in a <==> e in b
    requires InIdOrder(a) && InIdOrder(b)
    ensures a == b
  {
    if b != [] {
      FirstIsIn(b);
    }
    if a != [] {
      FirstIsIn(a);
      SameFirst(a, b);
      forall e
        ensures e in a[1..] <==> e in b[1..]
      {
        InRest(a, e);
        InRest(b, e);
      }
      SameUpgrades(a[1..], b[1..]);
    }
  }

  lemma FirstIsIn(a: seq<Effect>)
    requires a != []
    ensures a[0] in a
  {}

  lemma SameFirst(a: seq<Effect>, b: seq<Effect>)
    requires a != [] && b != [] && a[0] in b && b[0] in a
    requires InIdOrder(a) && InIdOrder(b)
    ensures a[0] == b[0]
  {
    var i :| 0 <= i < |b| && b[i] == a[0];
    var j :| 0 <= j < |a| && a[j] == b[0];
  }

  lemma InRest(a: seq<Effect>, e: Effect)
    requires a != []
    requires InIdOrder(a)
    ensures e in a[1..] <==> e in a && e != a[0]
  {
    if e in a && e != a[0] {
      var i :| 0 <= i < |a| && a[i] == e;
      assert a[1..][i - 1] == e;
    }
  }

  lemma UpgradeEffectsAreDetermined(before: map<ModuleId, ModuleConfig>, after: map<ModuleId, ModuleConfig>,
                                    a: seq<Effect>, b: seq<Effect>)
    requires before.Keys == after.Keys && UpgradeEffects(before, after, a) && UpgradeEffects(before, after, b)
    ensures a == b
  {
    hide UpgradeEffects;
    UpgradesAreExact(before, after, a);
    UpgradesAreExact(before, after, b);
    SameUpgrades(a, b);
  }

  lemma OneFreshId(configs: map<ModuleId, ModuleConfig>, i: ModuleId, j: ModuleId)
    requires IsFreshId(configs, i) && IsFreshId(configs, j)
    ensures i == j
  {
    assert !(i < j) && !(j < i);
  }

  /** An item of a member has one result. */
  lemma ItemIsDetermined(inits: Inits, s: Tables, voter: PeerPubkey, item: CItem, t: Tables, effects: seq<Effect>,
                         t': Tables, effects': seq<Effect>)
    requires CtrlInv(inits, s)
    requires Accepted(inits, s, voter, item, t, effects) && Accepted(inits, s, voter, item, t', effects')
    ensures t == t' && effects == effects'
  {
    hide CtrlInv, UpgradeEffects, UpgradedConfig, HasQuorum, Matching, KindTaken, IsFreshId, PeerAddVoted, Minimum,
         PeerRemoveVoted, ModuleAddVoted;
    VotersOfInv(inits, s);
    match item
    case VoteAddPeer(peer) => AddIsDetermined(s, voter, peer, t, effects, t', effects');
    case VoteRemovePeer(peer) => RemoveIsDetermined(s, voter, peer, t, effects, t', effects');
    case VoteAddModule(kind, version) => ModuleIsDetermined(s, voter, kind, version, t, effects, t', effects');
    case VoteModuleVersion(_, _) =>
      UpgradeEffectsAreDetermined(s.configs, t.configs, effects, effects');
  }

  lemma AddIsDetermined(s: Tables, voter: PeerPubkey, peer: PeerPubkey, t: Tables, effects: seq<Effect>,
                        t': Tables, effects': seq<Effect>)
    requires PeerAddVoted(s, voter, peer, t, effects) && PeerAddVoted(s, voter, peer, t', effects')
    ensures t == t' && effects == effects'
  {
    hide HasQuorum;
  }

  lemma RemoveIsDetermined(s: Tables, voter: PeerPubkey, peer: PeerPubkey, t: Tables, effects: seq<Effect>,
                           t': Tables, effects': seq<Effect>)
    requires PeerRemoveVoted(s, voter, peer, t, effects) && PeerRemoveVoted(s, voter, peer, t', effects')
    ensures t == t' && effects == effects'
  {
    hide HasQuorum, UpgradeEffects, UpgradedConfig;
    if effects != [] && effects' != [] {
      UpgradeEffectsAreDetermined(s.configs, t.configs, effects[2..], effects'[2..]);
      assert effects == effects[..2] + effects[2..] && effects' == effects'[..2] + effects'[2..];
    }
  }

  lemma ModuleIsDetermined(s: Tables, voter: PeerPubkey, kind: ModuleKind, version: Version, t: Tables,
                           effects: seq<Effect>, t': Tables, effects': seq<Effect>)
    requires ModuleAddVoted(s, voter, kind, version, t, effects)
    requires ModuleAddVoted(s, voter, kind, version, t', effects')
    ensures t == t' && effects == effects'
  {
    hide Matching, Minimum, IsFreshId;
    forall i, j | IsFreshId(s.configs, i) && IsFreshId(s.configs, j)
      ensures i == j
    {
      OneFreshId(s.configs, i, j);
    }
  }

  // Always a result

  /** The upgrades of the modules with ids below `end`. */
  function UpgradeList(before: map<ModuleId, ModuleConfig>, after: map<ModuleId, ModuleConfig>, end: nat): seq<Effect>
    requires before.Keys == after.Keys
  {
    if end == 0 then []
    else
      var id := end - 1;
      UpgradeList(before, after, id)
        + if id in before && before[id] != after[id]
          then [ModuleUpgraded(id, before[id].version, after[id].version)] else []
  }

  lemma {:induction false} ListsUpgradesBelow(before: map<ModuleId, ModuleConfig>, after: map<ModuleId, ModuleConfig>,
                                              end: nat)
    requires before.Keys == after.Keys
    ensures var list := UpgradeList(before, after, end);
            && (forall e: Effect ::
                  e in list <==> && e.ModuleUpgraded? && e.id in before && before[e.id] != after[e.id] && e.id < end
                                 && e.before == before[e.id].version && e.after == after[e.id].version)
            && InIdOrder(list)
  {
    if end != 0 {
      ListsUpgradesBelow(before, after, end - 1);
    }
  }

  lemma UpgradeEffectsExist(before: map<ModuleId, ModuleConfig>, after: map<ModuleId, ModuleConfig>)
    requires before.Keys == after.Keys
    ensures exists effects :: UpgradeEffects(before, after, effects)
  {
    var last := Highest(before);
    var end := if last.Some? then last.value + 1 else 0;
    var list := UpgradeList(before, after, end);
    ListsUpgradesBelow(before, after, end);
    forall i | 0 <= i < |list|
      ensures list[i] in list
    {}
    forall id | id in before && id in after && before[id] != after[id]
      ensures HasUpgrade(list, id)
    {
      assert ModuleUpgraded(id, before[id].version, after[id].version) in list;
    }
    assert UpgradeEffects(before, after, list);
  }

  lemma {:induction false} FreshIdExists(configs: map<ModuleId, ModuleConfig>, low: nat, high: nat)
    requires 1 <= low <= high && high !in configs && forall j | 1 <= j < low :: j in configs
    ensures exists id :: IsFreshId(configs, id)
    decreases high - low
  {
    if low in configs {
      FreshIdExists(configs, low + 1, high);
    } else {
      assert IsFreshId(configs, low);
    }
  }

  /** An item has a result exactly when it comes from a member and votes for adding somebody who is no peer,
      for removing a peer who is not the last one, for a module of a known kind that may be set up again, or for
      a version of a module that runs. */
  lemma ItemIsAcceptedIff(inits: Inits, s: Tables, voter: PeerPubkey, item: CItem)
    requires CtrlInv(inits, s)
    ensures (exists t, effects :: Accepted(inits, s, voter, item, t, effects)) <==>
            && voter in s.peers
            && match item
               case VoteAddPeer(p) => p !in s.peers
               case VoteRemovePeer(p) => p in s.peers && |s.peers| != 1
               case VoteAddModule(kind, _) =>
                 kind in inits && (inits[kind] ==> forall id | id in s.configs :: s.configs[id].kind != kind)
               case VoteModuleVersion(id, _) => id in s.configs
  {
    hide CtrlInv, Accepted;
    VotersOfInv(inits, s);
    if voter in s.peers && !Refused(inits, s, item) {
      var t, effects := ItemResult(inits, s, voter, item);
      assert Accepted(inits, s, voter, item, t, effects);
    }
    forall t, effects | Accepted(inits, s, voter, item, t, effects)
      ensures voter in s.peers && !Refused(inits, s, item)
    {
      AcceptedIsNotRefused(inits, s, voter, item, t, effects);
    }
  }

  lemma AcceptedIsNotRefused(inits: Inits, s: Tables, voter: PeerPubkey, item: CItem, t: Tables, effects: seq<Effect>)
    requires Accepted(inits, s, voter, item, t, effects)
    ensures voter in s.peers && !Refused(inits, s, item)
  {
    hide PeerAddVoted, PeerRemoveVoted, ModuleAddVoted, ModuleVersionVoted;
  }

  lemma ItemResult(inits: Inits, s: Tables, voter: PeerPubkey, item: CItem) returns (t: Tables, effects: seq<Effect>)
    requires s.peers != {} && voter in s.peers && !Refused(inits, s, item)
    ensures Accepted(inits, s, voter, item, t, effects)
  {
    hide HasQuorum, UpgradeEffects, UpgradedConfig, KindTaken, Matching, Minimum, IsFreshId;
    match item
    case VoteAddPeer(peer) =>
      var votes := s.addVotes[voter := peer];
      if HasQuorum(votes, s.peers, peer) {
        t := s.(peers := s.peers + {peer}, addVotes := map p | p in votes && votes[p] != peer :: votes[p]);
        effects := [PeerAdded(peer), ParamsChange(t.peers)];
      } else {
        t, effects := s.(addVotes := votes), [];
      }
    case VoteRemovePeer(peer) => t, effects := RemoveResult(s, voter, peer);
    case VoteAddModule(kind, version) => t, effects := ModuleResult(s, voter, kind, version);
    case VoteModuleVersion(id, minor) =>
      t := Upgraded(s.(versionVotes := s.versionVotes[(voter, id) := Version(s.configs[id].version.major, minor)]));
      UpgradeEffectsExist(s.configs, t.configs);
      effects :| UpgradeEffects(s.configs, t.configs, effects);
  }

  lemma RemoveResult(s: Tables, voter: PeerPubkey, peer: PeerPubkey) returns (t: Tables, effects: seq<Effect>)
    requires peer in s.peers && |s.peers| != 1
    ensures PeerRemoveVoted(s, voter, peer, t, effects)
  {
    hide HasQuorum, UpgradeEffects, UpgradedConfig;
    var votes := s.removeVotes[voter := peer];
    if voter in s.removeVotes && s.removeVotes[voter] == peer {
      t, effects := s, [];
    } else if HasQuorum(votes, s.peers, peer) {
      var without := WithoutPeer(s, votes, peer);
      assert s.peers == without.peers + {peer};
      t := Upgraded(without);
      UpgradeEffectsExist(s.configs, t.configs);
      var upgrades :| UpgradeEffects(s.configs, t.configs, upgrades);
      effects := [PeerRemoved(peer), ParamsChange(t.peers)] + upgrades;
      assert effects[2..] == upgrades;
    } else {
      t, effects := s.(removeVotes := votes), [];
    }
  }

  lemma ModuleResult(s: Tables, voter: PeerPubkey, kind: ModuleKind, version: Version)
      returns (t: Tables, effects: seq<Effect>)
    ensures ModuleAddVoted(s, voter, kind, version, t, effects)
  {
    hide IsMinimum, Matching;
    var votes := s.addModuleVotes[voter := (kind, version)];
    var matching := Matching(votes, s.peers, kind, version.major);
    if matching.Keys == s.peers && matching != map[] {
      var last := Highest(s.configs);
      FreshIdExists(s.configs, 1, if last.Some? then last.value + 1 else 1);
      var id :| IsFreshId(s.configs, id);
      var agreed := Version(version.major, Minimum(matching));
      t := s.(configs := s.configs[id := ModuleConfig(kind, agreed)],
              addModuleVotes := map p | p in votes && votes[p].0 != kind :: votes[p]);
      effects := [ModuleAdded(kind, id, agreed)];
    } else {
      t, effects := s.(addModuleVotes := votes), [];
    }
  }

  // Runs

  /** Nodes that process the same items from the same start hold the same tables after each of them. */
  lemma {:induction false} ReplicasAgree(inits: Inits, peers: set<PeerPubkey>, version: Version, votes: seq<Vote>,
                                         a: seq<Tables>, b: seq<Tables>, i: nat)
    requires IsCtrlRun(inits, peers, version, a, votes) && IsCtrlRun(inits, peers, version, b, votes) && i <= |votes|
    ensures a[i] == b[i]
  {
    hide CtrlInv, Accepted, Bootstrapped, Refused;
    if i != 0 {
      ReplicasAgree(inits, peers, version, votes, a, b, i - 1);
      CtrlRunsKeepInv(inits, peers, version, a, votes, i - 1);
      assert IsCtrlStep(inits, a[i - 1], votes[i - 1], a[i - 1 + 1]);
      assert IsCtrlStep(inits, b[i - 1], votes[i - 1], b[i - 1 + 1]);
      OneStep(inits, a[i - 1], votes[i - 1], a[i], b[i]);
    }
  }

  lemma OneStep(inits: Inits, s: Tables, v: Vote, t: Tables, t': Tables)
    requires CtrlInv(inits, s) && IsCtrlStep(inits, s, v, t) && IsCtrlStep(inits, s, v, t')
    ensures t == t'
  {
    hide CtrlInv, Accepted, Refused;
    if v.voter in s.peers && !Refused(inits, s, v.item) {
      var effects :| Accepted(inits, s, v.voter, v.item, t, effects);
      var effects' :| Accepted(inits, s, v.voter, v.item, t', effects');
      ItemIsDetermined(inits, s, v.voter, v.item, t, effects, t', effects');
    } else {
      forall u, effects | Accepted(inits, s, v.voter, v.item, u, effects)
        ensures false
      {
        AcceptedIsNotRefused(inits, s, v.voter, v.item, u, effects);
      }
    }
  }
}
