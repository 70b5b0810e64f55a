/** The application loop of a node: it processes consensus items in transactions and keeps copies of
    the peer set and of the module configurations in memory. */
module NodeApp {
  import opened Wrappers
  import opened OrderedTables
  import opened Blocks
  import opened Governance
  import opened ConsensusCtrl

  /** An effect, tagged with the kind of the module that it comes from. */
  datatype ModuleEffect = ModuleEffect(kind: ModuleKind, inner: Effect)

  /** `citem` is what the raw item means to the `consensus-ctrl` module, if anything; `results` are the
      effects that other modules make of it, unless they refuse it. */
  datatype Item =
    | PeerCItem(id: ModuleId, citem: Option<CItem>, results: Option<seq<Effect>>)
    | Transaction(parts: seq<(ModuleId, Option<seq<Effect>>)>)

  /** What an item meets: `failing` are the modules that could not be set up before it, `othersRefuse` tells
      whether another module refuses its effects, `applyRound` is the round from which a change that it makes
      is to apply, and `coreRound` the round that the core consensus is in. */
  datatype Delivery = Delivery(
    sender: PeerPubkey,
    item: Item,
    failing: set<ModuleId>,
    othersRefuse: bool,
    applyRound: nat,
    coreRound: nat)

  /** `Stopped` is the end of the process. */
  datatype ItemOutcome = Committed | RolledBack | Stopped

  function Tag(kind: ModuleKind, effects: seq<Effect>): (r: seq<ModuleEffect>)
    ensures |r| == |effects| && forall i | 0 <= i < |r| :: r[i] == ModuleEffect(kind, effects[i])
  {
    seq(|effects|, i requires 0 <= i < |effects| => ModuleEffect(kind, effects[i]))
  }

  /** No effect is from `consensus-ctrl`. */
  predicate Foreign(effects: seq<ModuleEffect>) {
    forall e | e in effects :: e.kind != CTRL_KIND
  }

  predicate ChangesParams(e: ModuleEffect) {
    e.kind == CTRL_KIND && e.inner.ParamsChange?
  }

  /** The peer sets that the core consensus is to schedule, in order. */
  function CoreChanges(effects: seq<ModuleEffect>): seq<set<PeerPubkey>> {
    if effects == [] then []
    else
      var last := effects[|effects| - 1];
      CoreChanges(effects[..|effects| - 1]) + if ChangesParams(last) then [last.inner.peers] else []
  }

  lemma {:induction false} ForeignChangesNothing(effects: seq<ModuleEffect>)
    requires Foreign(effects)
    ensures CoreChanges(effects) == []
  {
    if effects != [] {
      ForeignChangesNothing(effects[..|effects| - 1]);
      assert effects[|effects| - 1] in effects;
    }
  }

  lemma {:induction false} TaggedChanges(effects: seq<Effect>)
    ensures CoreChanges(Tag(CTRL_KIND, effects)) == ParamsChanges(effects)
  {
    if effects != [] {
      TaggedChanges(effects[..|effects| - 1]);
      assert Tag(CTRL_KIND, effects)[..|effects| - 1] == Tag(CTRL_KIND, effects[..|effects| - 1]);
    }
  }

  /** A change among the first effects is a change among all of them. */
  lemma {:induction false} CoreChangesGrow(effects: seq<ModuleEffect>, n: nat)
    requires n <= |effects|
    ensures |CoreChanges(effects[..n])| <= |CoreChanges(effects)|
    decreases |effects|
  {
    if n < |effects| {
      CoreChangesGrow(effects[..|effects| - 1], n);
      assert effects[..|effects| - 1][..n] == effects[..n];
    } else {
      assert effects[..n] == effects;
    }
  }

  /** The effects tell what happened to the peers and the configurations. */
  ghost predicate Tells(s: Tables, t: Tables, effects: seq<ModuleEffect>) {
    && CoreChanges(effects) == (if t.peers != s.peers then [t.peers] else [])
    && (t.configs != s.configs ==>
          exists e :: e in effects && e.kind == CTRL_KIND && (e.inner.ModuleAdded? || e.inner.ModuleUpgraded?))
  }

  lemma CtrlEffectsTell(inits: Inits, s: Tables, voter: PeerPubkey, item: CItem, t: Tables, effects: seq<Effect>)
    requires Accepted(inits, s, voter, item, t, effects)
    ensures Tells(s, t, Tag(CTRL_KIND, effects))
  {
    hide Accepted;
    EffectsTellChanges(inits, s, voter, item, t, effects);
    var tagged := Tag(CTRL_KIND, effects);
    forall e | e in effects
      ensures ModuleEffect(CTRL_KIND, e) in tagged
    {
      var i :| 0 <= i < |effects| && effects[i] == e;
      assert tagged[i] == ModuleEffect(CTRL_KIND, e);
    }
    TaggedChanges(effects);
    if t.configs != s.configs {
      var e :| e in effects && (e.ModuleAdded? || e.ModuleUpgraded?);
      assert ModuleEffect(CTRL_KIND, e) in tagged;
    }
  }

  /** The running modules are configured ones, of the same kind. */
  ghost predicate Runs(modules: map<ModuleId, ModuleConfig>, configs: map<ModuleId, ModuleConfig>) {
    forall id | id in modules :: id in configs && modules[id].kind == configs[id].kind
  }

  lemma RunsAfterItem(inits: Inits, s: Tables, voter: PeerPubkey, item: CItem, t: Tables, effects: seq<Effect>,
                      modules: map<ModuleId, ModuleConfig>)
    requires Accepted(inits, s, voter, item, t, effects) && Runs(modules, s.configs)
    ensures Runs(modules, t.configs)
  {
    hide Accepted;
    ItemGrowsModules(inits, s, voter, item, t, effects);
  }

  /** No other module is of the kind of `consensus-ctrl`, because that kind is set up only once. */
  lemma OnlyOneCtrl(inits: Inits, s: Tables, modules: map<ModuleId, ModuleConfig>, id: ModuleId)
    requires CtrlInv(inits, s) && CTRL_KIND in inits && inits[CTRL_KIND] && Runs(modules, s.configs) && id in modules
    ensures modules[id].kind == CTRL_KIND <==> id == CTRL_ID
  {}

  /** A module that is new or configured anew cannot be set up. */
  ghost predicate CannotSetUp(modules: map<ModuleId, ModuleConfig>, configs: map<ModuleId, ModuleConfig>,
                              failing: set<ModuleId>) {
    exists id :: id in failing && NeedsSetUp(modules, configs, id)
  }

  predicate NeedsSetUp(modules: map<ModuleId, ModuleConfig>, configs: map<ModuleId, ModuleConfig>, id: ModuleId) {
    id in configs && !(id in modules && modules[id] == configs[id])
  }

  /** The modules before `id` in the order of their ids. */
  function Before(configs: map<ModuleId, ModuleConfig>, id: ModuleId): map<ModuleId, ModuleConfig> {
    map j | j in configs && j < id :: configs[j]
  }

  /** The first one, in the order of their ids, that cannot be set up. */
  ghost predicate FirstFailing(modules: map<ModuleId, ModuleConfig>, configs: map<ModuleId, ModuleConfig>,
                               failing: set<ModuleId>, id: ModuleId) {
    && id in failing && NeedsSetUp(modules, configs, id)
    && forall j | j in failing && NeedsSetUp(modules, configs, j) :: id <= j
  }

  /** What an item of `consensus-ctrl` leaves. */
  ghost predicate FromItem(inits: Inits, s: Tables, d: Delivery, t: Tables) {
    && d.item.PeerCItem? && d.item.id == CTRL_ID && d.item.citem.Some?
    && exists effects :: Accepted(inits, s, d.sender, d.item.citem.value, t, effects)
  }

  class NodeApp {
    const ctrl: ConsensusCtrlModule
    var modules: map<ModuleId, ModuleConfig>
    var peerSet: Option<set<PeerPubkey>>
    var modulesConfigs: Option<map<ModuleId, ModuleConfig>>

    /** Each copy is invalidated or equal to the table it was read from. */
    ghost predicate Coherent()
      reads this, ctrl
    {
      && (peerSet.Some? ==> peerSet.value == ctrl.peers)
      && (modulesConfigs.Some? ==> modulesConfigs.value == ctrl.configs && modules == ctrl.configs)
    }

    ghost predicate Valid()
      reads this, ctrl
    {
      && CTRL_KIND in ctrl.inits && ctrl.inits[CTRL_KIND]
      && CtrlInv(ctrl.inits, ctrl.Contents())
      && Runs(modules, ctrl.configs)
      && Coherent()
    }

    constructor (ctrl: ConsensusCtrlModule)
      requires CTRL_KIND in ctrl.inits && ctrl.inits[CTRL_KIND] && CtrlInv(ctrl.inits, ctrl.Contents())
      ensures Valid() && this.ctrl == ctrl && modules == map[] && peerSet.None? && modulesConfigs.None?
    {
      this.ctrl := ctrl;
      modules, peerSet, modulesConfigs := map[], None, None;
    }

    /** Modules whose configuration did not change are kept, the others are set up anew, in the order of their
        ids and up to the first that fails; no running module is left without a configuration. */
    method SetupModulesTo(configs: map<ModuleId, ModuleConfig>, failing: set<ModuleId>) returns (changed: Option<bool>)
      requires modules.Keys <= configs.Keys
      modifies this`modules
      ensures changed.None? <==> CannotSetUp(old(modules), configs, failing)
      ensures changed.Some? ==> modules == configs && (changed.value <==> old(modules) != configs)
      ensures changed.None? ==>
                exists id :: FirstFailing(old(modules), configs, failing, id) && modules == Before(configs, id)
    {
      ghost var before := modules;
      var existing := modules;
      modules := map[];
      var anew := false;
      var left := configs.Keys;
      while left != {}
        invariant left <= configs.Keys && forall i, j | i in configs && i !in left && j in left :: i < j
        invariant modules.Keys == configs.Keys - left && forall id | id in modules :: modules[id] == configs[id]
        invariant existing.Keys == before.Keys * left && forall id | id in existing :: existing[id] == before[id]
        invariant anew <==> exists id :: id !in left && NeedsSetUp(before, configs, id)
        invariant forall id | id in failing && id !in left :: !NeedsSetUp(before, configs, id)
        decreases left
      {
        var id := Least(left).value;
        if id in existing && existing[id] == configs[id] {
          modules := modules[id := existing[id]];
        } else {
          anew := true;
          assert NeedsSetUp(before, configs, id);
          if id in failing {
            assert FirstFailing(before, configs, failing, id);
            assert modules == Before(configs, id);
            return None;
          }
          modules := modules[id := configs[id]];
        }
        existing := existing - {id};
        left := left - {id};
      }
      assert existing.Keys == {};
      assert modules.Keys == configs.Keys;
      if !anew {
        assert forall id | id in configs :: !NeedsSetUp(before, configs, id);
        assert before == configs;
      }
      return Some(anew);
    }

    /** Reading invalidated copies anew fails exactly when the configurations are read and one of their modules
        cannot be set up. */
    method ReloadInvalidatedCopies(failing: set<ModuleId>) returns (ok: bool)
      requires Valid()
      modifies this
      ensures ok ==> Valid() && peerSet == Some(ctrl.peers) && modulesConfigs == Some(ctrl.configs)
      ensures ok <==> !(old(modulesConfigs).None? && CannotSetUp(old(modules), ctrl.configs, failing))
    {
      hide CtrlInv, CannotSetUp, FirstFailing;
      if peerSet.None? {
        peerSet := Some(ctrl.peers);
      }
      if modulesConfigs.None? {
        var configs := ctrl.configs;
        modulesConfigs := Some(configs);
        var changed := SetupModulesTo(configs, failing);
        if changed.None? {
          return false;
        }
      }
      return true;
    }

    /** Processes an item in a transaction. Where that fails, also because another module refuses the
        effects, the transaction is rolled back and the copies are invalidated. The core consensus is handed
        the peers to schedule exactly when they changed, and stops the process when the round from which the
        change is to apply has come already. */
    method ProcessCItem(d: Delivery) returns (outcome: ItemOutcome, handedOver: seq<set<PeerPubkey>>)
      requires Valid() && peerSet.Some? && modulesConfigs.Some?
      modifies this, ctrl
      ensures Valid()
      ensures outcome != Committed ==> ctrl.Contents() == old(ctrl.Contents()) && peerSet.None? && modulesConfigs.None?
      ensures outcome == Committed ==> peerSet == Some(ctrl.peers)
      ensures handedOver == if ctrl.peers != old(ctrl.peers) then [ctrl.peers] else []
      ensures ctrl.peers != old(ctrl.peers) ==> d.coreRound < d.applyRound
      ensures ctrl.Contents() != old(ctrl.Contents()) ==> FromItem(ctrl.inits, old(ctrl.Contents()), d, ctrl.Contents())
      ensures outcome == Stopped ==>
                && d.applyRound <= d.coreRound
                && exists t :: FromItem(ctrl.inits, old(ctrl.Contents()), d, t) && t.peers != old(ctrl.peers)
    {
      hide CtrlInv, Runs, Tells, FromItem;
      var before := ctrl.Contents();
      outcome, handedOver := ProcessCItemTry(d);
      if outcome != Committed {
        ghost var t := ctrl.Contents();
        assert outcome == Stopped ==> FromItem(ctrl.inits, before, d, t) && t.peers != before.peers;
        ctrl.RollBack(before);
        peerSet := None;
        modulesConfigs := None;
      }
    }

    method ProcessCItemTry(d: Delivery) returns (outcome: ItemOutcome, handedOver: seq<set<PeerPubkey>>)
      requires Valid() && peerSet.Some? && modulesConfigs.Some?
      modifies this`peerSet, this`modulesConfigs, ctrl
      ensures outcome == Committed ==> Valid() && peerSet == Some(ctrl.peers)
      ensures handedOver == if outcome == Committed && ctrl.peers != old(ctrl.peers) then [ctrl.peers] else []
      ensures outcome == Committed && ctrl.peers != old(ctrl.peers) ==> d.coreRound < d.applyRound
      ensures outcome != RolledBack && ctrl.Contents() != old(ctrl.Contents()) ==>
                FromItem(ctrl.inits, old(ctrl.Contents()), d, ctrl.Contents())
      ensures outcome == Stopped ==> d.applyRound <= d.coreRound && ctrl.peers != old(ctrl.peers)
    {
      hide CtrlInv, Runs, Accepted, Tells, Foreign;
      ghost var s := ctrl.Contents();
      var effects: Option<seq<ModuleEffect>>;
      match d.item {
        case PeerCItem(id, citem, results) => effects := ProcessPeerCItem(d.sender, id, citem, results);
        case Transaction(parts) =>
          effects := ProcessTransaction(parts);
          if effects.Some? {
            ForeignTells(s, effects.value);
          }
      }
      if effects.None? {
        return RolledBack, [];
      }
      var stops: bool;
      stops, handedOver := ProcessEffectsPre(effects.value, d.applyRound, d.coreRound, s);
      if stops {
        return Stopped, [];
      }
      if d.othersRefuse {
        return RolledBack, [];
      }
      ProcessEffectsPost(effects.value, s);
      outcome := Committed;
    }

    method ProcessPeerCItem(sender: PeerPubkey, id: ModuleId, citem: Option<CItem>, results: Option<seq<Effect>>)
        returns (effects: Option<seq<ModuleEffect>>)
      requires Valid() && peerSet.Some? && modulesConfigs.Some?
      modifies ctrl
      ensures CtrlInv(ctrl.inits, ctrl.Contents()) && Runs(modules, ctrl.configs)
      ensures effects.Some? ==> Tells(old(ctrl.Contents()), ctrl.Contents(), effects.value)
      ensures effects.Some? && ctrl.Contents() != old(ctrl.Contents()) ==>
                && id == CTRL_ID && citem.Some?
                && exists own :: Accepted(ctrl.inits, old(ctrl.Contents()), sender, citem.value, ctrl.Contents(), own)
    {
      hide CtrlInv, Runs, Accepted, Tells, Foreign, Refused;
      ghost var s := ctrl.Contents();
      if sender !in peerSet.value {
        return None;
      }
      if id !in modules {
        return None;
      }
      OnlyOneCtrl(ctrl.inits, s, modules, id);
      if id == CTRL_ID {
        if citem.None? {
          return None;
        }
        var r := ctrl.ProcessCItem(sender, peerSet.value, citem.value);
        if r.Err? {
          return None;
        }
        CtrlEffectsTell(ctrl.inits, s, sender, citem.value, ctrl.Contents(), r.effects);
        RunsAfterItem(ctrl.inits, s, sender, citem.value, ctrl.Contents(), r.effects, modules);
        return Some(Tag(modules[id].kind, r.effects));
      }
      if results.None? {
        return None;
      }
      TagForeign(modules[id].kind, results.value);
      ForeignTells(s, Tag(modules[id].kind, results.value));
      return Some(Tag(modules[id].kind, results.value));
    }

    /** `consensus-ctrl` takes no inputs and outputs. */
    method ProcessTransaction(parts: seq<(ModuleId, Option<seq<Effect>>)>) returns (effects: Option<seq<ModuleEffect>>)
      requires Valid()
      ensures effects.Some? ==> Foreign(effects.value)
    {
      hide CtrlInv, Runs;
      var all: seq<ModuleEffect> := [];
      for n := 0 to |parts|
        invariant Foreign(all)
      {
        var (id, results) := parts[n];
        if id !in modules || id == CTRL_ID || results.None? {
          return None;
        }
        OnlyOneCtrl(ctrl.inits, ctrl.Contents(), modules, id);
        TagForeign(modules[id].kind, results.value);
        all := all + Tag(modules[id].kind, results.value);
      }
      return Some(all);
    }

    /** The copy of the peer set follows the parameter changes, and each is handed over to the core
        consensus to be scheduled: one with the new peers if they changed, none otherwise. The core consensus
        stops at one whose round to apply from is not ahead of its own. */
    method ProcessEffectsPre(effects: seq<ModuleEffect>, applyRound: nat, coreRound: nat, ghost s: Tables)
        returns (stops: bool, handedOver: seq<set<PeerPubkey>>)
      requires peerSet == Some(s.peers) && Tells(s, ctrl.Contents(), effects)
      modifies this`peerSet
      ensures stops <==> ctrl.peers != s.peers && applyRound <= coreRound
      ensures !stops ==> peerSet == Some(ctrl.peers)
      ensures !stops ==> handedOver == if ctrl.peers != s.peers then [ctrl.peers] else []
    {
      handedOver := [];
      for n := 0 to |effects|
        invariant handedOver == CoreChanges(effects[..n])
        invariant handedOver != [] ==> coreRound < applyRound
        invariant peerSet == Some(if handedOver == [] then s.peers else handedOver[|handedOver| - 1])
      {
        assert effects[..n + 1][..n] == effects[..n];
        if ChangesParams(effects[n]) {
          peerSet := Some(effects[n].inner.peers);
          if applyRound <= coreRound {
            CoreChangesGrow(effects, n + 1);
            return true, handedOver;
          }
          handedOver := handedOver + [effects[n].inner.peers];
        }
      }
      assert effects[..|effects|] == effects;
      stops := false;
    }

    /** The copy of the configurations is dropped when a module was added or upgraded. */
    method ProcessEffectsPost(effects: seq<ModuleEffect>, ghost s: Tables)
      requires modulesConfigs == Some(s.configs) && Tells(s, ctrl.Contents(), effects)
      modifies this`modulesConfigs
      ensures modulesConfigs.None? || (modulesConfigs == Some(s.configs) && s.configs == ctrl.configs)
    {
      for n := 0 to |effects|
        invariant modulesConfigs.None? || modulesConfigs == Some(s.configs)
        invariant modulesConfigs.Some? ==>
          forall i | 0 <= i < n ::
            !(effects[i].kind == CTRL_KIND && (effects[i].inner.ModuleAdded? || effects[i].inner.ModuleUpgraded?))
      {
        if effects[n].kind == CTRL_KIND && (effects[n].inner.ModuleAdded? || effects[n].inner.ModuleUpgraded?) {
          modulesConfigs := None;
        }
      }
    }

    /** Any number of items, committed or rolled back, until the process stops: before each one both copies
        are what the tables hold, and the tables stay such that the node can be started on them again. */
    method ProcessItems(deliveries: seq<Delivery>) returns (processed: nat)
      requires Valid()
      modifies this, ctrl
      ensures processed <= |deliveries| && CtrlInv(ctrl.inits, ctrl.Contents())
      ensures processed == |deliveries| ==> Valid()
    {
      hide CtrlInv, Runs, Accepted, CannotSetUp;
      for n := 0 to |deliveries|
        invariant Valid()
      {
        var ok := ReloadInvalidatedCopies(deliveries[n].failing);
        if !ok {
          return n;
        }
        assert peerSet == Some(ctrl.peers) && modulesConfigs == Some(ctrl.configs) && modules == ctrl.configs;
        var outcome, _ := ProcessCItem(deliveries[n]);
        if outcome == Stopped {
          return n;
        }
      }
      return |deliveries|;
    }
  }

  lemma TagForeign(kind: ModuleKind, effects: seq<Effect>)
    requires kind != CTRL_KIND
    ensures Foreign(Tag(kind, effects))
  {}

  lemma ForeignTells(s: Tables, effects: seq<ModuleEffect>)
    requires Foreign(effects)
    ensures Tells(s, s, effects)
  {
    ForeignChangesNothing(effects);
  }
}
