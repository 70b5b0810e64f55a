/** The sorted vector of peer keys that gives every node the same peer indices. */
module PeerSets {
  import opened Wrappers
  import opened Sorting
  import opened Blocks

  method BinarySearch(s: seq<PeerPubkey>, key: PeerPubkey) returns (found: Option<nat>)
    requires Sorted(s)
    ensures found.Some? ==> found.value < |s| && s[found.value] == key
    ensures found.None? ==> key !in s
  {
    var lo, hi := 0, |s|;
    while lo < hi
      invariant 0 <= lo <= hi <= |s|
      invariant forall i | 0 <= i < |s| && !(lo <= i < hi) :: s[i] != key
    {
      var mid := (lo + hi) / 2;
      if s[mid] < key {
        lo := mid + 1;
      } else if key < s[mid] {
        hi := mid;
      } else {
        return Some(mid);
      }
    }
    return None;
  }

  /** The key sequence that a set of members determines. */
  ghost predicate Represents(s: seq<PeerPubkey>, members: set<PeerPubkey>) {
    StrictlySorted(s) && forall x :: x in s <==> x in members
  }

  /** Equal membership gives equal sequences, hence the same index for every key. */
  lemma SameMembersSameIndices(a: seq<PeerPubkey>, b: seq<PeerPubkey>, members: set<PeerPubkey>)
    requires Represents(a, members) && Represents(b, members)
    ensures a == b && |a| == |members|
  {
    StrictlySortedIsUnique(a, b);
    DistinctSize(a);
    assert Elements(a) == members;
  }

  class PeerSet {
    var keys: seq<PeerPubkey>

    ghost predicate Valid()
      reads this
    {
      StrictlySorted(keys)
    }

    ghost function Members(): set<PeerPubkey>
      reads this
    {
      Elements(keys)
    }

    /** Nothing is dropped: the items are sorted as they are, and the set is valid exactly when they are
        distinct. */
    constructor (items: seq<PeerPubkey>)
      ensures Sorted(keys) && multiset(keys) == multiset(items) && Members() == Elements(items)
      ensures Valid() <==> Distinct(items)
    {
      keys := Sort(items);
      SameElements(items);
      if Distinct(items) {
        SortOfDistinct(items);
      } else if StrictlySorted(Sort(items)) {
        DistinctMeansEachOnce(Sort(items));
        EachOnceMeansDistinct(items);
      }
    }

    method Insert(key: PeerPubkey) returns (inserted: bool)
      requires Valid()
      modifies this
      ensures Valid() && Members() == old(Members()) + {key}
      ensures inserted <==> key !in old(Members())
      ensures !inserted ==> keys == old(keys)
    {
      var found := BinarySearch(keys, key);
      if found.Some? {
        return false;
      }
      var pushed := keys + [key];
      SortOfDistinct(pushed);
      keys := Sort(pushed);
      return true;
    }

    method Remove(key: PeerPubkey) returns (removed: bool)
      requires Valid()
      modifies this
      ensures Valid() && Members() == old(Members()) - {key}
      ensures removed <==> key in old(Members())
      ensures !removed ==> keys == old(keys)
    {
      var found := BinarySearch(keys, key);
      if found.None? {
        return false;
      }
      var last := |keys| - 1;
      var rest := keys[found.value := keys[last]][..last];
      SwapRemoveDropsOne(keys, found.value);
      SortOfDistinct(rest);
      keys := Sort(rest);
      return true;
    }

    /** The position of a key is its peer index. */
    method FindPeerIdx(key: PeerPubkey) returns (idx: Option<nat>)
      requires Valid()
      ensures idx.None? <==> key !in keys
      ensures idx.Some? ==> idx.value < |keys| && keys[idx.value] == key
    {
      for i := 0 to |keys|
        invariant key !in keys[..i]
      {
        if keys[i] == key {
          return Some(i);
        }
      }
      return None;
    }
  }

  lemma SameElements(items: seq<PeerPubkey>)
    ensures Elements(Sort(items)) == Elements(items)
  {
    assert forall x :: x in Sort(items) <==> x in multiset(Sort(items));
    assert forall x :: x in items <==> x in multiset(items);
  }

  /** Moving the last key into the freed place and dropping the tail removes exactly one key. */
  lemma SwapRemoveDropsOne(keys: seq<PeerPubkey>, i: nat)
    requires i < |keys| && Distinct(keys)
    ensures var rest := keys[i := keys[|keys| - 1]][..|keys| - 1];
            Distinct(rest) && forall x :: x in rest <==> x in keys && x != keys[i]
  {
    var last := |keys| - 1;
    var rest := keys[i := keys[last]][..last];
    forall x | x in keys && x != keys[i]
      ensures x in rest
    {
      var k :| 0 <= k < |keys| && keys[k] == x;
      assert rest[if k == last then i else k] == x;
    }
    assert forall k | 0 <= k < last :: rest[k] == if k == i then keys[last] else keys[k];
  }
}
