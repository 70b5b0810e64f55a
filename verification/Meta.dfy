/** The `meta` module: peers vote on the value of a key, and a value with a quorum is agreed. */
module Meta {
  import opened Wrappers
  import opened OrderedTables
  import opened NumPeers
  import opened Blocks

  type Key = nat
  type Value = seq<Byte>
  type Votes = map<Key, map<PeerPubkey, Value>>

  /** The members whose vote for the key is the value. */
  function Supporters(votes: map<PeerPubkey, Value>, peers: set<PeerPubkey>, value: Value): set<PeerPubkey> {
    set p | p in peers && p in votes && votes[p] == value
  }

  predicate Wins(votes: map<PeerPubkey, Value>, peers: set<PeerPubkey>, value: Value) {
    Threshold(|peers|) <= |Supporters(votes, peers, value)|
  }

  /** A member has one vote, so no two values have a quorum. */
  lemma OneWinner(votes: map<PeerPubkey, Value>, peers: set<PeerPubkey>, a: Value, b: Value)
    requires peers != {} && Wins(votes, peers, a) && Wins(votes, peers, b)
    ensures a == b
  {
    var forA, forB := Supporters(votes, peers, a), Supporters(votes, peers, b);
    SubsetSize(forA + forB, peers);
    assert a != b ==> forA * forB == {};
    assert |forA + forB| == |forA| + |forB| - |forA * forB|;
  }

  /** What a recheck leaves: every key that had no value gets the one that has a quorum, if there is one,
      and the members' votes for it are cleared. */
  ghost predicate Rechecked(votes: Votes, agreed: map<Key, Value>, peers: set<PeerPubkey>, newVotes: Votes,
                            newAgreed: map<Key, Value>) {
    RecheckedKeys(votes, agreed, peers, newVotes, newAgreed, votes.Keys)
  }

  /** The same, when only the keys in `done` were looked at. */
  ghost predicate RecheckedKeys(votes: Votes, agreed: map<Key, Value>, peers: set<PeerPubkey>,
                                newVotes: Votes, newAgreed: map<Key, Value>, done: set<Key>) {
    && newVotes.Keys == votes.Keys
    && (forall k | k in agreed :: k in newAgreed && newAgreed[k] == agreed[k])
    && (forall k | k in newAgreed && k !in agreed :: k in done && k in votes && Wins(votes[k], peers, newAgreed[k]))
    && (forall k | k in votes && k in done && k !in newAgreed :: Undecided(votes[k], peers))
    && (forall k | k in votes :: newVotes[k] == if k in newAgreed && k !in agreed then votes[k] - peers else votes[k])
  }

  lemma NothingRechecked(votes: Votes, agreed: map<Key, Value>, peers: set<PeerPubkey>)
    ensures RecheckedKeys(votes, agreed, peers, votes, agreed, votes.Keys - votes.Keys)
  {}

  lemma SameKeys(votes: Votes, agreed: map<Key, Value>, peers: set<PeerPubkey>,
                 newVotes: Votes, newAgreed: map<Key, Value>, done: set<Key>, key: Key)
    requires RecheckedKeys(votes, agreed, peers, newVotes, newAgreed, done) && key in votes && key !in done
    ensures key in newVotes && newVotes[key] == votes[key]
  {}

  lemma RecheckOne(votes: Votes, agreed: map<Key, Value>, peers: set<PeerPubkey>,
                   newVotes: Votes, newAgreed: map<Key, Value>, done: set<Key>, key: Key, winner: Option<Value>)
    requires RecheckedKeys(votes, agreed, peers, newVotes, newAgreed, done) && key in votes && key !in done
    requires winner.Some? ==> key !in newAgreed && Wins(votes[key], peers, winner.value)
    requires winner.None? ==> key in newAgreed || Undecided(votes[key], peers)
    ensures newVotes[key] == votes[key]
    ensures if winner.Some?
            then RecheckedKeys(votes, agreed, peers, newVotes[key := votes[key] - peers],
              newAgreed[key := winner.value], done + {key})
            else RecheckedKeys(votes, agreed, peers, newVotes, newAgreed, done + {key})
  {
    hide Wins, Undecided;
  }

  ghost predicate Undecided(votes: map<PeerPubkey, Value>, peers: set<PeerPubkey>) {
    forall v :: !Wins(votes, peers, v)
  }

  /** The order in which keys and values are looked at makes no difference. */
  lemma RecheckIsDetermined(votes: Votes, agreed: map<Key, Value>, peers: set<PeerPubkey>,
                            votesA: Votes, agreedA: map<Key, Value>, votesB: Votes, agreedB: map<Key, Value>)
    requires peers != {}
    requires Rechecked(votes, agreed, peers, votesA, agreedA) && Rechecked(votes, agreed, peers, votesB, agreedB)
    ensures votesA == votesB && agreedA == agreedB
  {
    hide Wins;
    forall k
      ensures k in agreedA <==> k in agreedB
      ensures k in agreedA ==> agreedA[k] == agreedB[k]
    {
      if k in agreedA && k in agreedB && k !in agreed {
        OneWinner(votes[k], peers, agreedA[k], agreedB[k]);
      }
    }
    assert agreedA.Keys == agreedB.Keys;
    assert agreedA == agreedB;
    assert votesA == votesB;
  }

  /** What a vote for a value leaves. */
  ghost predicate Voted(votes: Votes, agreed: map<Key, Value>, peers: set<PeerPubkey>, voter: PeerPubkey, key: Key,
                        value: Value, newVotes: Votes, newAgreed: map<Key, Value>, reached: bool) {
    var now := At(votes, key)[voter := value];
    if voter in At(votes, key) && At(votes, key)[voter] == value
      then newVotes == votes && newAgreed == agreed && !reached
    else if Wins(now, peers, value)
      then newVotes == votes[key := now - peers] && newAgreed == agreed[key := value] && reached
    else newVotes == votes[key := now] && newAgreed == agreed && !reached
  }

  /** A vote decides its key exactly when it is a new one and, with it, a quorum of the peers has voted for the
      value. Then the peers' votes for the key are gone; otherwise it is recorded in place of the voter's last. */
  lemma VoteDecidesIff(votes: Votes, agreed: map<Key, Value>, peers: set<PeerPubkey>, voter: PeerPubkey, key: Key,
                       value: Value, newVotes: Votes, newAgreed: map<Key, Value>, reached: bool)
    requires Voted(votes, agreed, peers, voter, key, value, newVotes, newAgreed, reached) && voter in peers
    ensures var before := At(votes, key);
            && (reached <==>
                  && !(voter in before && before[voter] == value)
                  && Threshold(|peers|)
                     <= |set p: PeerPubkey | p in peers && (p == voter || (p in before && before[p] == value))|)
            && newAgreed == (if reached then agreed[key := value] else agreed)
            && (forall p: PeerPubkey :: p in At(newVotes, key) <==>
                  if reached then p in before && p !in peers else p in before || p == voter)
            && (forall p: PeerPubkey | p in At(newVotes, key) ::
                  At(newVotes, key)[p] == if p == voter then value else before[p])
            && forall k: Key | k != key :: At(newVotes, k) == At(votes, k)
  {
    var before := At(votes, key);
    assert Supporters(before[voter := value], peers, value)
        == (set p: PeerPubkey | p in peers && (p == voter || (p in before && before[p] == value)));
  }

  /** A recheck decides a key without a value exactly for the value that a quorum of the peers has voted for, and
      then their votes for it are gone; nothing else changes. */
  lemma RecheckDecidesIff(votes: Votes, agreed: map<Key, Value>, peers: set<PeerPubkey>, newVotes: Votes,
                          newAgreed: map<Key, Value>, key: Key, value: Value)
    requires Rechecked(votes, agreed, peers, newVotes, newAgreed) && peers != {}
    ensures key in newAgreed && newAgreed[key] == value <==>
            if key in agreed then agreed[key] == value
            else Threshold(|peers|)
                 <= |set p: PeerPubkey | p in peers && p in At(votes, key) && At(votes, key)[p] == value|
    ensures forall p: PeerPubkey :: p in At(newVotes, key) <==>
              p in At(votes, key) && !(p in peers && key !in agreed && key in newAgreed)
    ensures forall p: PeerPubkey | p in At(newVotes, key) :: At(newVotes, key)[p] == At(votes, key)[p]
  {
    var now := At(votes, key);
    assert Supporters(now, peers, value) == (set p: PeerPubkey | p in peers && p in now && now[p] == value);
    if key !in agreed && key in votes && Wins(votes[key], peers, value) {
      assert key in newAgreed;
      OneWinner(votes[key], peers, newAgreed[key], value);
    }
    if key !in votes {
      assert Supporters(now, peers, value) == {};
    }
  }

  lemma {:induction false} SupportGrows(votes: map<PeerPubkey, Value>, peers: set<PeerPubkey>, done: set<PeerPubkey>,
                                        p: PeerPubkey, v: Value)
    requires p in votes && p !in done
    ensures var before := Supporters(votes, peers * done, v);
            var after := Supporters(votes, peers * (done + {p}), v);
            |after| == |before| + if p in peers && votes[p] == v then 1 else 0
  {
    var before := Supporters(votes, peers * done, v);
    var after := Supporters(votes, peers * (done + {p}), v);
    assert after == if p in peers && votes[p] == v then before + {p} else before;
  }

  class MetaModule {
    var votes: Votes
    var agreed: map<Key, Value>

    constructor ()
      ensures votes == map[] && agreed == map[]
    {
      votes, agreed := map[], map[];
    }

    /** `reached` tells that the vote decided the key, which is what the effect announces. */
    method ProcessVoteKeyValue(voter: PeerPubkey, peerSet: set<PeerPubkey>, key: Key, value: Value)
        returns (reached: bool)
      requires voter in peerSet
      modifies this
      ensures Voted(old(votes), old(agreed), peerSet, voter, key, value, votes, agreed, reached)
    {
      if voter in At(votes, key) && At(votes, key)[voter] == value {
        return false;
      }
      var now := At(votes, key)[voter := value];
      votes := votes[key := now];
      var count := CountVotes(now, peerSet, value);
      if count < Threshold(|peerSet|) {
        return false;
      }
      agreed := agreed[key := value];
      votes := votes[key := now - peerSet];
      return true;
    }

    /** Votes for what another peer voted for; `None` when that peer has no vote for the key. */
    method ProcessApproveVote(voter: PeerPubkey, peerSet: set<PeerPubkey>, key: Key, approved: PeerPubkey)
        returns (reached: Option<bool>)
      requires voter in peerSet
      modifies this
      ensures reached.None? <==> approved !in At(old(votes), key)
      ensures reached.None? ==> votes == old(votes) && agreed == old(agreed)
      ensures reached.Some? ==>
        Voted(old(votes), old(agreed), peerSet, voter, key, At(old(votes), key)[approved], votes, agreed, reached.value)
    {
      if approved !in At(votes, key) {
        return None;
      }
      var r := ProcessVoteKeyValue(voter, peerSet, key, At(votes, key)[approved]);
      return Some(r);
    }

    method CountVotes(now: map<PeerPubkey, Value>, peerSet: set<PeerPubkey>, value: Value) returns (n: nat)
      ensures n == |Supporters(now, peerSet, value)|
    {
      n := 0;
      var left := now.Keys;
      assert Supporters(now, peerSet * (now.Keys - left), value) == {};
      while left != {}
        invariant left <= now.Keys
        invariant n == |Supporters(now, peerSet * (now.Keys - left), value)|
        decreases left
      {
        var p :| p in left;
        SupportGrows(now, peerSet, now.Keys - left, p, value);
        assert (now.Keys - left) + {p} == now.Keys - (left - {p});
        if now[p] == value && p in peerSet {
          n := n + 1;
        }
        left := left - {p};
      }
      assert Supporters(now, peerSet * (now.Keys - left), value) == Supporters(now, peerSet, value);
    }

    /** Members' votes for a key, counted value by value. */
    method CountValues(now: map<PeerPubkey, Value>, peerSet: set<PeerPubkey>) returns (counts: map<Value, nat>)
      ensures forall v | v in counts :: counts[v] == |Supporters(now, peerSet, v)|
      ensures forall v | v !in counts :: Supporters(now, peerSet, v) == {}
    {
      counts := map[];
      var left := now.Keys;
      while left != {}
        invariant left <= now.Keys
        invariant forall v | v in counts :: counts[v] == |Supporters(now, peerSet * (now.Keys - left), v)|
        invariant forall v | v !in counts :: Supporters(now, peerSet * (now.Keys - left), v) == {}
        decreases left
      {
        var p :| p in left;
        forall v: Value {
          SupportGrows(now, peerSet, now.Keys - left, p, v);
        }
        assert (now.Keys - left) + {p} == now.Keys - (left - {p});
        if p in peerSet {
          counts := counts[now[p] := (if now[p] in counts then counts[now[p]] else 0) + 1];
        }
        left := left - {p};
      }
      assert peerSet * (now.Keys - left) == peerSet * now.Keys;
      forall v: Value
        ensures Supporters(now, peerSet * now.Keys, v) == Supporters(now, peerSet, v)
      {}
    }

    /** After a peer left, a value may have a quorum of the others. */
    method RecheckAfterPeerRemoval(peerSet: set<PeerPubkey>)
      requires peerSet != {}
      modifies this
      ensures Rechecked(old(votes), old(agreed), peerSet, votes, agreed)
    {
      hide Wins, Undecided, RecheckedKeys;
      ghost var votes0, agreed0 := votes, agreed;
      NothingRechecked(votes, agreed, peerSet);
      var keys := votes.Keys;
      while keys != {}
        invariant keys <= votes0.Keys
        invariant RecheckedKeys(votes0, agreed0, peerSet, votes, agreed, votes0.Keys - keys)
        decreases keys
      {
        var key :| key in keys;
        SameKeys(votes0, agreed0, peerSet, votes, agreed, votes0.Keys - keys, key);
        var winner: Option<Value> := None;
        if key !in agreed {
          winner := FindWinner(votes[key], peerSet);
        }
        RecheckOne(votes0, agreed0, peerSet, votes, agreed, votes0.Keys - keys, key, winner);
        assert (votes0.Keys - keys) + {key} == votes0.Keys - (keys - {key});
        if winner.Some? {
          agreed := agreed[key := winner.value];
          votes := votes[key := votes[key] - peerSet];
        }
        keys := keys - {key};
      }
      assert votes0.Keys - keys == votes0.Keys;
    }

    /** Values are tried in any order up to the first with a quorum. */
    method FindWinner(now: map<PeerPubkey, Value>, peerSet: set<PeerPubkey>) returns (winner: Option<Value>)
      requires peerSet != {}
      ensures winner.Some? ==> Wins(now, peerSet, winner.value)
      ensures winner.None? ==> Undecided(now, peerSet)
    {
      var counts := CountValues(now, peerSet);
      var left := counts.Keys;
      while left != {}
        invariant left <= counts.Keys
        invariant forall v | v in counts && v !in left :: !Wins(now, peerSet, v)
        decreases left
      {
        var v :| v in left;
        left := left - {v};
        if Threshold(|peerSet|) <= counts[v] {
          return Some(v);
        }
      }
      return None;
    }
  }
}
