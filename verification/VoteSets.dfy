/** The set of peer indices that a vote bitmap of 32 bytes stands for. */
module VoteSets {

  predicate Bit(b: bv8, k: nat)
    requires k < 8
  {
    b & (1 << k) != 0
  }

  function WithBit(b: bv8, k: nat): bv8
    requires k < 8
  {
    b | (1 << k)
  }

  function WithoutBit(b: bv8, k: nat): bv8
    requires k < 8
  {
    b & !(1 << k)
  }

  /** The bits of a byte can be set, cleared and joined independently. */
  lemma SetBit(b: bv8, k: nat, j: nat)
    requires k < 8 && j < 8
    ensures Bit(WithBit(b, k), j) <==> j == k || Bit(b, j)
  {
    OneBit(k);
    OneBit(j);
  }

  lemma ClearBit(b: bv8, k: nat, j: nat)
    requires k < 8 && j < 8
    ensures Bit(WithoutBit(b, k), j) <==> j != k && Bit(b, j)
  {
    OneBit(k);
    OneBit(j);
  }

  lemma JoinBits(a: bv8, b: bv8, j: nat)
    requires j < 8
    ensures Bit(a | b, j) <==> Bit(a, j) || Bit(b, j)
  {
    OneBit(j);
  }

  lemma OneBit(k: nat)
    requires k < 8
    ensures var one: bv8 := 1 << k;
            one == if k == 0 then 1 else if k == 1 then 2 else if k == 2 then 4 else if k == 3 then 8
                   else if k == 4 then 16 else if k == 5 then 32 else if k == 6 then 64 else 128
  {}

  /** The bits that are set, as numbers below 8. */
  function Ones(b: bv8): set<nat> {
    set k: nat | k < 8 && Bit(b, k)
  }

  // Bitmaps

  predicate Has(bytes: seq<bv8>, i: nat)
    requires |bytes| == 32 && i < 256
  {
    Bit(bytes[31 - i / 8], i % 8)
  }

  ghost function Members(bytes: seq<bv8>): set<nat>
    requires |bytes| == 32
  {
    set i: nat | i < 256 && Has(bytes, i)
  }

  ghost function MembersFrom(bytes: seq<bv8>, low: nat): set<nat>
    requires |bytes| == 32
  {
    set i: nat | low <= i < 256 && Has(bytes, i)
  }

  lemma {:induction false} ShiftedSize(s: set<nat>, shift: nat)
    ensures |(set k | k in s :: k + shift)| == |s|
  {
    var shifted := set k | k in s :: k + shift;
    if s == {} {
      assert shifted == {};
    } else {
      var x :| x in s;
      ShiftedSize(s - {x}, shift);
      var rest := set k | k in s - {x} :: k + shift;
      forall y
        ensures y in shifted <==> y in rest + {x + shift}
      {
        assert y in rest ==> y - shift in s - {x};
        assert y in shifted ==> y - shift == x || y - shift in s - {x};
      }
      assert shifted == rest + {x + shift};
    }
  }

  lemma Position(i: nat, k: nat)
    requires i < 32 && k < 8
    ensures (8 * (31 - i) + k) / 8 == 31 - i && (8 * (31 - i) + k) % 8 == k
  {}

  /** Byte `i` holds the eight indices from `8 * (31 - i)` on. */
  lemma BitOfByte(bytes: seq<bv8>, i: nat, k: nat)
    requires |bytes| == 32 && i < 32 && k < 8
    ensures Has(bytes, 8 * (31 - i) + k) == Bit(bytes[i], k)
  {
    hide Bit;
    Position(i, k);
  }

  lemma OneMoreByte(bytes: seq<bv8>, i: nat, low: nat)
    requires |bytes| == 32 && i < 32 && low == 8 * (31 - i)
    ensures |MembersFrom(bytes, low)| == |MembersFrom(bytes, low + 8)| + |Ones(bytes[i])|
  {
    hide Bit, Has;
    var here := set k | k in Ones(bytes[i]) :: k + low;
    ShiftedSize(Ones(bytes[i]), low);
    forall j: nat | j < 256
      ensures j in here <==> low <= j < low + 8 && Has(bytes, j)
    {
      if low <= j < low + 8 {
        BitOfByte(bytes, i, j - low);
        assert j in here <==> j - low in Ones(bytes[i]);
      }
    }
    assert MembersFrom(bytes, low) == MembersFrom(bytes, low + 8) + here;
  }

  class VoteSet {
    const bytes: array<bv8>

    ghost predicate Valid()
      reads this
    {
      bytes.Length == 32
    }

    /** The set of peer indices. */
    ghost function Set(): (s: set<nat>)
      requires Valid()
      reads this, bytes
      ensures forall i | i in s :: i < 256
    {
      Members(bytes[..])
    }

    constructor ()
      ensures Valid() && fresh(bytes) && Set() == {}
    {
      bytes := new bv8[32](_ => 0);
      new;
      forall i: nat | i < 256
        ensures !Has(bytes[..], i)
      {
        OneBit(i % 8);
      }
    }

    method Insert(peerIdx: nat)
      requires Valid() && peerIdx < 256
      modifies bytes
      ensures Set() == old(Set()) + {peerIdx}
    {
      ghost var before := bytes[..];
      bytes[31 - peerIdx / 8] := WithBit(bytes[31 - peerIdx / 8], peerIdx % 8);
      forall i: nat | i < 256
        ensures Has(bytes[..], i) <==> i == peerIdx || Has(before, i)
      {
        SetBit(before[31 - peerIdx / 8], peerIdx % 8, i % 8);
      }
    }

    method Remove(peerIdx: nat)
      requires Valid() && peerIdx < 256
      modifies bytes
      ensures Set() == old(Set()) - {peerIdx}
    {
      ghost var before := bytes[..];
      bytes[31 - peerIdx / 8] := WithoutBit(bytes[31 - peerIdx / 8], peerIdx % 8);
      forall i: nat | i < 256
        ensures Has(bytes[..], i) <==> i != peerIdx && Has(before, i)
      {
        ClearBit(before[31 - peerIdx / 8], peerIdx % 8, i % 8);
      }
    }

    method Contains(peerIdx: nat) returns (r: bool)
      requires Valid() && peerIdx < 256
      ensures r <==> peerIdx in Set()
    {
      r := Bit(bytes[31 - peerIdx / 8], peerIdx % 8);
      assert r == Has(bytes[..], peerIdx);
    }

    /** The number of peers in the set. */
    method Len() returns (n: nat)
      requires Valid()
      ensures n == |Set()|
    {
      n := 0;
      assert MembersFrom(bytes[..], 256) == {};
      for i := 0 to 32
        invariant n == |MembersFrom(bytes[..], 8 * (32 - i))|
      {
        OneMoreByte(bytes[..], i, 8 * (31 - i));
        n := n + |Ones(bytes[i])|;
      }
      assert MembersFrom(bytes[..], 0) == Members(bytes[..]);
    }

    method IsEmpty() returns (r: bool)
      requires Valid()
      ensures r <==> Set() == {}
    {
      var n := Len();
      return n == 0;
    }

    method BitOr(rhs: VoteSet) returns (res: VoteSet)
      requires Valid() && rhs.Valid()
      ensures res.Valid() && fresh(res) && fresh(res.bytes)
      ensures res.Set() == Set() + rhs.Set()
    {
      res := new VoteSet();
      for i := 0 to 32
        invariant res.Valid() && fresh(res) && fresh(res.bytes)
        invariant forall j | 0 <= j < i :: res.bytes[j] == bytes[j] | rhs.bytes[j]
      {
        res.bytes[i] := bytes[i] | rhs.bytes[i];
      }
      forall i: nat | i < 256
        ensures Has(res.bytes[..], i) <==> Has(bytes[..], i) || Has(rhs.bytes[..], i)
      {
        JoinBits(bytes[31 - i / 8], rhs.bytes[31 - i / 8], i % 8);
      }
    }
  }
}
