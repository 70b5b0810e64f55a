/** The ordered-table reads that the consensus tables are used through: last key
    before a bound, first key from a bound, and the votes of one round. */
module OrderedTables {
  import opened Wrappers

  predicate IsGreatest(keys: set<nat>, k: nat) {
    k in keys && forall j | j in keys :: j <= k
  }

  lemma {:induction false} MaxExists(keys: set<nat>)
    requires keys != {}
    ensures exists k :: IsGreatest(keys, k)
  {
    var k :| k in keys;
    var rest := keys - {k};
    if rest == {} {
      assert keys == {k};
      assert IsGreatest(keys, k);
    } else {
      MaxExists(rest);
      var m :| IsGreatest(rest, m);
      assert keys == rest + {k};
      assert IsGreatest(keys, if k <= m then m else k);
    }
  }

  predicate IsLeast(keys: set<nat>, k: nat) {
    k in keys && forall j | j in keys :: k <= j
  }

  lemma {:induction false} MinExists(keys: set<nat>)
    requires keys != {}
    ensures exists k :: IsLeast(keys, k)
  {
    var k :| k in keys;
    var rest := keys - {k};
    if rest == {} {
      assert keys == {k};
      assert IsLeast(keys, k);
    } else {
      MinExists(rest);
      var m :| IsLeast(rest, m);
      assert keys == rest + {k};
      assert IsLeast(keys, if m <= k then m else k);
    }
  }

  /** Last key of an ordered table. */
  function Greatest(keys: set<nat>): (g: Option<nat>)
    ensures g.None? <==> keys == {}
    ensures g.Some? ==> g.value in keys && forall j | j in keys :: j <= g.value
  {
    if keys == {} then None
    else
      MaxExists(keys);
      var k :| IsGreatest(keys, k);
      Some(k)
  }

  /** First key of an ordered table. */
  function Least(keys: set<nat>): (g: Option<nat>)
    ensures g.None? <==> keys == {}
    ensures g.Some? ==> g.value in keys && forall j | j in keys :: g.value <= j
  {
    if keys == {} then None
    else
      MinExists(keys);
      var k :| IsLeast(keys, k);
      Some(k)
  }

  /** `range(..round).next_back()` */
  function Prev<V>(table: map<nat, V>, round: nat): (g: Option<nat>)
    ensures g.None? <==> forall k | k in table :: round <= k
    ensures g.Some? ==> g.value in table && g.value < round
    ensures g.Some? ==> forall k | k in table && k < round :: k <= g.value
  {
    var keys := set k | k in table && k < round;
    assert forall k | k in table && k < round :: k in keys;
    Greatest(keys)
  }

  lemma PrevIs<V>(table: map<nat, V>, round: nat, k: nat)
    requires k in table && k < round && forall j | j in table && j < round :: j <= k
    ensures Prev(table, round) == Some(k)
  {}

  /** Tables with the same keys below `round` have the same last key below it. */
  lemma PrevDependsOnKeysBelow<V>(a: map<nat, V>, b: map<nat, V>, round: nat)
    requires forall k | k < round :: k in a <==> k in b
    ensures Prev(a, round) == Prev(b, round)
  {
    var k := Prev(a, round);
    if k.Some? {
      PrevIs(b, round, k.value);
    }
  }

  /** `range(..=round).next_back()` */
  function Floor<V>(table: map<nat, V>, round: nat): (g: Option<nat>)
    ensures g.None? <==> forall k | k in table :: round < k
    ensures g.Some? ==> g.value in table && g.value <= round
    ensures g.Some? ==> forall k | k in table && k <= round :: k <= g.value
  {
    Prev(table, round + 1)
  }

  /** `range(round..).next()` */
  function Next<V>(table: map<nat, V>, round: nat): (g: Option<nat>)
    ensures g.None? <==> forall k | k in table :: k < round
    ensures g.Some? ==> g.value in table && round <= g.value
    ensures g.Some? ==> forall k | k in table && round <= k :: g.value <= k
  {
    var keys := set k | k in table && round <= k;
    assert forall k | k in table && round <= k :: k in keys;
    Least(keys)
  }

  /** The greatest key of the whole table. */
  function Highest<V>(table: map<nat, V>): (g: Option<nat>)
    ensures g.None? <==> table == map[]
    ensures g.Some? ==> g.value in table && forall k | k in table :: k <= g.value
  {
    Greatest(table.Keys)
  }

  /** The votes stored for one round: the range `(round, MIN)..=(round, MAX)`. */
  function At<V>(table: map<nat, map<nat, V>>, round: nat): map<nat, V> {
    if round in table then table[round] else map[]
  }

  /** The peers, by index, that have an entry. */
  function Voters<V>(votes: map<nat, V>): set<nat> {
    set i | i in votes
  }

  /** All of `votes` written over what the round already holds. */
  function Put<V>(table: map<nat, map<nat, V>>, round: nat, votes: map<nat, V>): map<nat, map<nat, V>> {
    if votes == map[] then table else table[round := At(table, round) + votes]
  }

  /** One entry of a table with two-part keys. */
  function Entry<V>(table: map<nat, map<nat, V>>, round: nat, i: nat): Option<V> {
    if i in At(table, round) then Some(At(table, round)[i]) else None
  }

  /** One entry is written and every other one is what it was. */
  ghost predicate OneEntryWritten<V>(before: map<nat, map<nat, V>>, after: map<nat, map<nat, V>>, round: nat, i: nat,
                                     value: V) {
    && after.Keys == before.Keys + {round}
    && forall q: nat, j: nat :: Entry(after, q, j) == if q == round && j == i then Some(value) else Entry(before, q, j)
  }

  lemma PutWritesOneEntry<V>(before: map<nat, map<nat, V>>, round: nat, i: nat, value: V)
    ensures OneEntryWritten(before, Put(before, round, map[i := value]), round, i, value)
  {
    assert i in map[i := value];
  }

  lemma OneEntryIsPut<V>(before: map<nat, map<nat, V>>, after: map<nat, map<nat, V>>, round: nat, i: nat, value: V)
    requires OneEntryWritten(before, after, round, i, value)
    ensures after == Put(before, round, map[i := value])
  {
    var put := Put(before, round, map[i := value]);
    PutWritesOneEntry(before, round, i, value);
    forall q | q in after
      ensures after[q] == put[q]
    {
      forall j: nat
        ensures j in after[q] <==> j in put[q]
        ensures j in after[q] ==> after[q][j] == put[q][j]
      {
        assert Entry(after, q, j) == Entry(put, q, j);
      }
      assert after[q].Keys == put[q].Keys;
    }
    assert after.Keys == put.Keys;
  }
}
