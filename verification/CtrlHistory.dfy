/** Runs of the `consensus-ctrl` module, said in the votes that were cast: nothing changes that the members did
    not vote for. */
module CtrlHistory {
  import opened NumPeers
  import opened Blocks
  import opened Governance
  import opened CtrlTables
  import opened CtrlReplicas

  /** The peer has cast the vote among the first `n`. */
  ghost predicate Cast(votes: seq<Vote>, n: nat, peer: PeerPubkey, item: CItem)
    requires n <= |votes|
  {
    exists k :: 0 <= k < n && votes[k] == Vote(peer, item)
  }

  ghost function Casters(votes: seq<Vote>, n: nat, peers: set<PeerPubkey>, item: CItem): set<PeerPubkey>
    requires n <= |votes|
  {
    set q: PeerPubkey | q in peers && Cast(votes, n, q, item)
  }

  /** Every recorded vote was cast. */
  ghost predicate Recorded(s: Tables, votes: seq<Vote>, n: nat)
    requires n <= |votes|
  {
    && (forall q | q in s.addVotes :: Cast(votes, n, q, VoteAddPeer(s.addVotes[q])))
    && (forall q | q in s.removeVotes :: Cast(votes, n, q, VoteRemovePeer(s.removeVotes[q])))
    && (forall q | q in s.addModuleVotes ::
          Cast(votes, n, q, VoteAddModule(s.addModuleVotes[q].0, s.addModuleVotes[q].1)))
    && (forall q, k | (q, k) in s.versionVotes ::
          Cast(votes, n, q, VoteModuleVersion(k, s.versionVotes[(q, k)].minor)))
  }

  lemma StillCast(votes: seq<Vote>, n: nat)
    requires n < |votes|
    ensures forall q, item | Cast(votes, n, q, item) :: Cast(votes, n + 1, q, item)
    ensures Cast(votes, n + 1, votes[n].voter, votes[n].item)
  {
    assert votes[n] == Vote(votes[n].voter, votes[n].item);
  }

  lemma StepIsRecorded(inits: Inits, s: Tables, t: Tables, effects: seq<Effect>, votes: seq<Vote>, n: nat)
    requires n < |votes| && CtrlInv(inits, s) && Recorded(s, votes, n)
    requires Accepted(inits, s, votes[n].voter, votes[n].item, t, effects)
    ensures Recorded(t, votes, n + 1)
  {
    hide CtrlInv, Accepted, Cast;
    var voter, item := votes[n].voter, votes[n].item;
    StillCast(votes, n);
    forall q
      ensures q in t.addVotes ==> Cast(votes, n + 1, q, VoteAddPeer(t.addVotes[q]))
      ensures q in t.removeVotes ==> Cast(votes, n + 1, q, VoteRemovePeer(t.removeVotes[q]))
      ensures q in t.addModuleVotes ==>
                Cast(votes, n + 1, q, VoteAddModule(t.addModuleVotes[q].0, t.addModuleVotes[q].1))
    {
      AddVotesAfter(inits, s, voter, item, t, effects, q);
      RemoveVotesAfter(inits, s, voter, item, t, effects, q);
      ModuleVotesAfter(inits, s, voter, item, t, effects, q);
    }
    VersionVotesAfter(inits, s, voter, item, t, effects);
  }

  /** In every run each recorded vote was cast by the peer it is recorded for. */
  lemma {:induction false} RecordedVotesWereCast(inits: Inits, peers: set<PeerPubkey>, version: Version,
                                                 states: seq<Tables>, votes: seq<Vote>, i: nat)
    requires IsCtrlRun(inits, peers, version, states, votes) && i < |states|
    ensures Recorded(states[i], votes, i)
  {
    hide CtrlInv, Accepted, Recorded, Refused;
    if i == 0 {
      NothingRecorded(peers, version, votes);
    } else {
      RecordedVotesWereCast(inits, peers, version, states, votes, i - 1);
      CtrlRunsKeepInv(inits, peers, version, states, votes, i - 1);
      var s, v, t := states[i - 1], votes[i - 1], states[i];
      assert IsCtrlStep(inits, s, v, states[i - 1 + 1]);
      if exists effects :: Accepted(inits, s, v.voter, v.item, t, effects) {
        var effects :| Accepted(inits, s, v.voter, v.item, t, effects);
        StepIsRecorded(inits, s, t, effects, votes, i - 1);
      } else {
        MoreVotesRecorded(s, votes, i - 1);
      }
    }
  }

  lemma NothingRecorded(peers: set<PeerPubkey>, version: Version, votes: seq<Vote>)
    ensures Recorded(Bootstrapped(peers, version), votes, 0)
  {}

  lemma MoreVotesRecorded(s: Tables, votes: seq<Vote>, n: nat)
    requires n < |votes| && Recorded(s, votes, n)
    ensures Recorded(s, votes, n + 1)
  {
    hide Cast;
    StillCast(votes, n);
  }

  /** A run starts with the given peers, one module of the given version and no votes; that module keeps its kind
      and major version in every state of the run, and runs at the given minor version or a higher one. */
  lemma RunsStartFrom(inits: Inits, peers: set<PeerPubkey>, version: Version, states: seq<Tables>, votes: seq<Vote>,
                      i: nat)
    requires IsCtrlRun(inits, peers, version, states, votes) && i < |states|
    ensures states[0].peers == peers && states[0].configs == map[0 := ModuleConfig(0, version)]
    ensures states[0].addVotes == map[] && states[0].removeVotes == map[] && states[0].addModuleVotes == map[]
    ensures states[0].versionVotes == map[]
    ensures 0 in states[i].configs && states[i].configs[0].kind == 0
    ensures states[i].configs[0].version.major == version.major
    ensures version.minor <= states[i].configs[0].version.minor
  {
    CtrlRunsGrowModules(inits, peers, version, states, votes, 0, i);
  }

  // Steps of a run

  /** A step of a run either processes an item of a member, or the item is refused and nothing changes. */
  lemma StepOfRun(inits: Inits, peers: set<PeerPubkey>, version: Version, states: seq<Tables>, votes: seq<Vote>, i: nat)
      returns (effects: seq<Effect>)
    requires IsCtrlRun(inits, peers, version, states, votes) && i < |votes|
    ensures CtrlInv(inits, states[i])
    ensures if votes[i].voter in states[i].peers && !Refused(inits, states[i], votes[i].item)
            then Accepted(inits, states[i], votes[i].voter, votes[i].item, states[i + 1], effects)
            else states[i + 1] == states[i]
  {
    hide CtrlInv, Accepted, Refused;
    CtrlRunsKeepInv(inits, peers, version, states, votes, i);
    var s, v, t := states[i], votes[i], states[i + 1];
    assert IsCtrlStep(inits, s, v, t);
    effects := [];
    if exists e :: Accepted(inits, s, v.voter, v.item, t, e) {
      effects :| Accepted(inits, s, v.voter, v.item, t, effects);
      AcceptedIsNotRefused(inits, s, v.voter, v.item, t, effects);
    }
  }

  /** In every run a peer enters exactly with a member's vote for it that makes a quorum of the members. */
  lemma RunPeerEntersIff(inits: Inits, peers: set<PeerPubkey>, version: Version, states: seq<Tables>, votes: seq<Vote>,
                         i: nat, p: PeerPubkey)
    requires IsCtrlRun(inits, peers, version, states, votes) && i < |votes| && p !in states[i].peers
    ensures p in states[i + 1].peers <==>
            && votes[i].voter in states[i].peers && votes[i].item == VoteAddPeer(p)
            && Threshold(|states[i].peers|)
               <= |set q: PeerPubkey | q in states[i].peers
                           && (q == votes[i].voter || (q in states[i].addVotes && states[i].addVotes[q] == p))|
  {
    hide CtrlInv, Accepted, IsCtrlStep, Bootstrapped;
    var effects := StepOfRun(inits, peers, version, states, votes, i);
    if votes[i].voter in states[i].peers && !Refused(inits, states[i], votes[i].item) {
      PeerEntersIff(inits, states[i], votes[i].voter, votes[i].item, states[i + 1], effects, p);
    }
  }

  /** In every run a peer leaves exactly with a member's vote for that which makes a quorum of the members, and
      which is refused for the last one. */
  lemma RunPeerLeavesIff(inits: Inits, peers: set<PeerPubkey>, version: Version, states: seq<Tables>, votes: seq<Vote>,
                         i: nat, p: PeerPubkey)
    requires IsCtrlRun(inits, peers, version, states, votes) && i < |votes| && p in states[i].peers
    ensures p !in states[i + 1].peers <==>
            && votes[i].voter in states[i].peers && votes[i].item == VoteRemovePeer(p) && |states[i].peers| != 1
            && Threshold(|states[i].peers|)
               <= |set q: PeerPubkey | q in states[i].peers
                           && (q == votes[i].voter || (q in states[i].removeVotes && states[i].removeVotes[q] == p))|
  {
    hide CtrlInv, Accepted, IsCtrlStep, Bootstrapped;
    var effects := StepOfRun(inits, peers, version, states, votes, i);
    if votes[i].voter in states[i].peers && !Refused(inits, states[i], votes[i].item) {
      PeerLeavesIff(inits, states[i], votes[i].voter, votes[i].item, states[i + 1], effects, p);
    }
  }

  // Whole runs

  /** A peer that enters or leaves in a run was voted in or out by a quorum of those who were members then. */
  lemma MembershipWasVotedFor(inits: Inits, peers: set<PeerPubkey>, version: Version, states: seq<Tables>,
                              votes: seq<Vote>, i: nat, p: PeerPubkey)
    requires IsCtrlRun(inits, peers, version, states, votes) && i < |votes|
    ensures p !in states[i].peers && p in states[i + 1].peers ==>
              Threshold(|states[i].peers|) <= |Casters(votes, i + 1, states[i].peers, VoteAddPeer(p))|
    ensures p in states[i].peers && p !in states[i + 1].peers ==>
              Threshold(|states[i].peers|) <= |Casters(votes, i + 1, states[i].peers, VoteRemovePeer(p))|
  {
    hide IsCtrlStep, Bootstrapped, Cast;
    RecordedVotesWereCast(inits, peers, version, states, votes, i);
    StillCast(votes, i);
    var s, voter := states[i], votes[i].voter;
    if p in s.peers {
      RunPeerLeavesIff(inits, peers, version, states, votes, i, p);
      if p !in states[i + 1].peers {
        CountedWereCast(votes, i + 1, s.peers, voter, s.removeVotes, p, VoteRemovePeer(p));
      }
    } else {
      RunPeerEntersIff(inits, peers, version, states, votes, i, p);
      if p in states[i + 1].peers {
        CountedWereCast(votes, i + 1, s.peers, voter, s.addVotes, p, VoteAddPeer(p));
      }
    }
  }

  lemma CountedWereCast(votes: seq<Vote>, n: nat, peers: set<PeerPubkey>, voter: PeerPubkey,
                        table: map<PeerPubkey, PeerPubkey>, p: PeerPubkey, item: CItem)
    requires n <= |votes| && Cast(votes, n, voter, item)
    requires forall q | q in table && table[q] == p :: Cast(votes, n, q, item)
    ensures |set q: PeerPubkey | q in peers && (q == voter || (q in table && table[q] == p))|
            <= |Casters(votes, n, peers, item)|
  {
    hide Cast;
    var counted := set q: PeerPubkey | q in peers && (q == voter || (q in table && table[q] == p));
    SubsetSize(counted, Casters(votes, n, peers, item));
  }

  /** A module that is upgraded in a run gets a minor version that no member has voted against: each has voted for
      it or a higher one, and one has voted for exactly it. */
  lemma UpgradesWereVotedFor(inits: Inits, peers: set<PeerPubkey>, version: Version, states: seq<Tables>,
                             votes: seq<Vote>, i: nat, k: ModuleId)
    requires IsCtrlRun(inits, peers, version, states, votes) && i < |votes| && k in states[i].configs
    ensures k in states[i + 1].configs
    ensures var t, n := states[i + 1], i + 1;
            t.configs[k] != states[i].configs[k] ==>
              var minor := t.configs[k].version.minor;
              && (forall q | q in t.peers :: exists m :: minor <= m && Cast(votes, n, q, VoteModuleVersion(k, m)))
              && (exists q :: q in t.peers && Cast(votes, n, q, VoteModuleVersion(k, minor)))
  {
    hide IsCtrlStep, Bootstrapped, Cast, CtrlInv, Accepted, Refused;
    RecordedVotesWereCast(inits, peers, version, states, votes, i + 1);
    var effects := StepOfRun(inits, peers, version, states, votes, i);
    if states[i + 1] != states[i] {
      ModuleUpgradedIff(inits, states[i], votes[i].voter, votes[i].item, states[i + 1], effects, k);
    }
  }

  /** A module that is set up in a run was voted for by every member, with the same major version. */
  lemma ModulesWereVotedFor(inits: Inits, peers: set<PeerPubkey>, version: Version, states: seq<Tables>,
                            votes: seq<Vote>, i: nat, k: ModuleId)
    requires IsCtrlRun(inits, peers, version, states, votes) && i < |votes|
    requires k !in states[i].configs && k in states[i + 1].configs
    ensures var config, n := states[i + 1].configs[k], i + 1;
            forall q | q in states[i].peers ::
              exists v: Version :: v.major == config.version.major && config.version.minor <= v.minor
                                   && Cast(votes, n, q, VoteAddModule(config.kind, v))
  {
    hide IsCtrlStep, Bootstrapped, Cast, CtrlInv, Accepted, Refused;
    RecordedVotesWereCast(inits, peers, version, states, votes, i);
    StillCast(votes, i);
    var effects := StepOfRun(inits, peers, version, states, votes, i);
    var s, t, voter, item := states[i], states[i + 1], votes[i].voter, votes[i].item;
    ModuleIsAddedIff(inits, s, voter, item, t, effects);
    var config, n := t.configs[k], i + 1;
    forall q | q in s.peers
      ensures exists v: Version :: v.major == config.version.major && config.version.minor <= v.minor
                                   && Cast(votes, n, q, VoteAddModule(config.kind, v))
    {
      var v := if q == voter then item.version else s.addModuleVotes[q].1;
      assert Cast(votes, n, q, VoteAddModule(config.kind, v));
    }
  }
}
