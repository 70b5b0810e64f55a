/** The table of notarized blocks read as a hash-linked chain. */
module Chains {
  import opened Wrappers
  import opened OrderedTables
  import opened Blocks

  type BlockTable = map<nat, BlockHeader>

  /** The stored block before a round, if any. */
  function PrevBlock(table: BlockTable, round: nat): (p: Option<BlockHeader>) {
    match Prev(table, round)
    case Some(k) => Some(table[k])
    case None => None
  }

  ghost predicate Above(table: BlockTable, round: nat) {
    forall k | k in table :: k < round
  }

  /** The block stands at its own round and extends the one stored before it. */
  ghost predicate LinkAt(table: BlockTable, r: nat)
    requires r in table
  {
    table[r].round == r && DirectlyExtends(table[r], PrevBlock(table, r))
  }

  ghost predicate Linked(table: BlockTable) {
    forall r {:trigger LinkAt(table, r)} | r in table :: LinkAt(table, r)
  }

  /** The part of the table before a round. */
  function Below(table: BlockTable, r: nat): BlockTable {
    map k | k in table && k < r :: table[k]
  }

  lemma BelowIsLinked(table: BlockTable, r: nat)
    requires Linked(table)
    ensures Linked(Below(table, r))
  {
    var part := Below(table, r);
    forall k | k in part
      ensures LinkAt(part, k)
    {
      assert LinkAt(table, k);
      PrevDependsOnKeysBelow(part, table, k);
    }
  }

  lemma PrevBlockOfPrefix(table: BlockTable, cut: nat, r: nat)
    requires cut in table && Above(table, cut + 1)
    requires r <= cut
    ensures PrevBlock(table - {cut}, r) == PrevBlock(table, r)
  {
    PrevDependsOnKeysBelow(table - {cut}, table, r);
  }

  /** Dropping the last block leaves a chain. */
  lemma LinkedPrefix(table: BlockTable, last: nat)
    requires Linked(table) && last in table && Above(table, last + 1)
    ensures Linked(table - {last}) && Above(table - {last}, last)
  {
    forall r | r in table - {last}
      ensures LinkAt(table - {last}, r)
    {
      assert LinkAt(table, r);
      PrevBlockOfPrefix(table, last, r);
    }
  }

  /** A block that extends the last one can be appended. */
  lemma LinkedAppend(table: BlockTable, block: BlockHeader)
    requires Linked(table) && Above(table, block.round)
    requires DirectlyExtends(block, PrevBlock(table, block.round))
    ensures Linked(table[block.round := block])
  {
    var more := table[block.round := block];
    assert more - {block.round} == table;
    forall r | r in more
      ensures LinkAt(more, r)
    {
      assert r in table ==> LinkAt(table, r);
      PrevBlockOfPrefix(more, block.round, r);
    }
  }

  /** In a table whose rounds are all below `round`, the block before `round` is the last one. */
  lemma PrevBlockAboveAll(table: BlockTable, low: nat, high: nat)
    requires Above(table, low) && low <= high
    ensures PrevBlock(table, high) == PrevBlock(table, low)
    ensures Prev(table, high) == Highest(table)
  {
    if table != map[] {
      PrevIs(table, low, Highest(table).value);
      PrevIs(table, high, Highest(table).value);
    }
  }

  function RoundsBelow(table: BlockTable, round: nat): set<nat> {
    set k | k in table && k < round
  }

  lemma NextSeqOfCount(n: nat)
    ensures NextSeq(n % HEADER_SEQ_MODULUS) == (n + 1) % HEADER_SEQ_MODULUS
  {}

  /** Sequence numbers count the blocks of the chain, modulo the width of the field. */
  lemma {:induction false} SeqNumbersCountBlocks(table: BlockTable, r: nat)
    requires Linked(table) && r in table
    ensures table[r].seqNo == |RoundsBelow(table, r)| % HEADER_SEQ_MODULUS
    decreases r
  {
    assert LinkAt(table, r);
    var prev := Prev(table, r);
    if prev.None? {
      assert RoundsBelow(table, r) == {};
    } else {
      var p := prev.value;
      SeqNumbersCountBlocks(table, p);
      assert RoundsBelow(table, r) == RoundsBelow(table, p) + {p};
      NextSeqOfCount(|RoundsBelow(table, p)|);
    }
  }

  /** Two chains whose last blocks have the same hash are the same chain, block for block. */
  lemma {:induction false} SameTipSameChain(a: BlockTable, b: BlockTable, last: nat)
    requires Linked(a) && last in a && Above(a, last + 1)
    requires Linked(b) && last in b && Above(b, last + 1)
    requires a[last] == b[last]
    ensures a == b
    decreases last
  {
    var restA, restB := a - {last}, b - {last};
    LinkedPrefix(a, last);
    LinkedPrefix(b, last);
    assert a == restA[last := a[last]] && b == restB[last := b[last]];
    assert LinkAt(a, last) && LinkAt(b, last);
    var i, j := Prev(a, last), Prev(b, last);
    if i.None? {
      assert j.None?;
      assert restA == map[] && restB == map[];
    } else {
      assert LinkAt(a, i.value) && LinkAt(b, j.value);
      SameTipSameChain(restA, restB, i.value);
    }
  }

  lemma SameTipHashSameChain(a: BlockTable, b: BlockTable, lastA: nat, lastB: nat)
    requires Linked(a) && lastA in a && Above(a, lastA + 1)
    requires Linked(b) && lastB in b && Above(b, lastB + 1)
    requires Digest(a[lastA]) == Digest(b[lastB])
    ensures a == b
  {
    assert LinkAt(a, lastA) && LinkAt(b, lastB);
    SameTipSameChain(a, b, lastA);
  }
}
