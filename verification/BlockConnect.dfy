/** What connecting a block means for a pool that fitted the chain below it. */
module BlockConnect {
  import opened Ledger
  import opened Validation
  import opened PoolIndex

  /** `block` is a coinbase followed by transactions that may be mined in that order. */
  ghost predicate BlockExtends(before: Chain, block: seq<Tx>, height: int) {
    && ChainValid(before)
    && BlockApplies(before, block, height)
    && block != [] && IsCoinBase(block[0])
    && forall i :: 1 <= i < |block| ==> !IsCoinBase(block[i])
  }

  lemma FitsBlockStart(before: Chain, block: seq<Tx>, height: int, pool: Pool)
    requires BlockExtends(before, block, height) && PoolOk(pool) && Fits(before, pool, [])
    ensures Fits(ApplyBlock(before, block, height), pool, block[1..])
  {
    var chain := ApplyBlock(before, block, height);
    forall h | h in pool && h in chain ensures h.TxId? && h.tx in block[1..] {
      PooledInBlock(before, block, height, pool, h);
    }
    hide BlockExtends, PoolOk, ApplyBlock, Unspent;
    forall h, o | h in pool && o in pool[h].tx.ins
      ensures Unspent(chain, o) || o.hash in pool || SpentIn(block[1..], o)
    {
      if Unspent(before, o) {
        StaysOrSpent(before, block, height, o);
      }
    }
  }

  lemma PooledFacts(before: Chain, pool: Pool, h: Hash)
    requires PoolOk(pool) && Fits(before, pool, []) && h in pool
    ensures h.TxId? && !IsCoinBase(h.tx) && h !in before
  {
    assert PoolTxOk(pool[h]);
  }

  lemma BlockParts(before: Chain, block: seq<Tx>, height: int)
    requires BlockExtends(before, block, height)
    ensures ChainValid(before) && BlockApplies(before, block, height)
    ensures block != [] && IsCoinBase(block[0]) && block[..1] + block[1..] == block
  {
  }

  /** Whatever is pooled and mined now is one of the non-coinbase transactions of the block. */
  lemma PooledInBlock(before: Chain, block: seq<Tx>, height: int, pool: Pool, h: Hash)
    requires BlockExtends(before, block, height) && PoolOk(pool) && Fits(before, pool, [])
    requires h in pool && h in ApplyBlock(before, block, height)
    ensures h.TxId? && h.tx in block[1..]
  {
    hide *;
    BlockParts(before, block, height);
    PooledFacts(before, pool, h);
    ApplyBlockGrows(before, block, height);
    InBlock(block, h);
    assert h.tx in block[..1] + block[1..];
    assert h.tx != block[0];
  }

  lemma InBlock(txs: seq<Tx>, h: Hash)
    ensures h in Shas(txs) ==> h.TxId? && h.tx in txs
  {
  }

  /** In a pool that fits the chain nothing mined is pooled, and nothing pooled spends what a
      mined transaction spends. */
  lemma MinedIsSettled(chain: Chain, pool: Pool, t: Tx)
    requires ChainValid(chain) && Keyed(pool) && Fits(chain, pool, []) && Sha(t) in chain && !IsCoinBase(t)
    ensures Settled(pool, t)
  {
    assert forall o :: o in t.ins ==> Spent(chain, o);
  }

  /** Neither the transaction nor anything that conflicts with it is pooled. */
  ghost predicate Settled(pool: Pool, t: Tx) {
    && Sha(t) !in pool
    && forall h, o :: h in pool && o in pool[h].tx.ins ==> o !in t.ins
  }

  ghost predicate NoneKept(orphans: map<Hash, Tx>, txs: seq<Tx>) {
    forall t :: t in txs ==> Sha(t) !in orphans
  }

  lemma NoneKeptStart(orphans: map<Hash, Tx>)
    ensures NoneKept(orphans, [])
  {
  }

  lemma NoneKeptStep(before: map<Hash, Tx>, orphans: map<Hash, Tx>, block: seq<Tx>, i: nat)
    requires 1 <= i < |block| && NoneKept(before, block[1..i])
    requires orphans.Keys <= before.Keys && Sha(block[i]) !in orphans
    ensures NoneKept(orphans, block[1..i + 1])
  {
    assert block[1..i + 1] == block[1..i] + [block[i]];
  }

  lemma BlockSettled(before: Chain, block: seq<Tx>, height: int, pool: Pool)
    requires BlockExtends(before, block, height)
    requires Keyed(pool) && Fits(ApplyBlock(before, block, height), pool, [])
    ensures forall t :: t in block[1..] ==> Settled(pool, t)
  {
    assert block != [];
    hide BlockExtends, Fits, ApplyBlock, Keyed, ChainValid, Settled, IsCoinBase;
    BlockChainValid(before, block, height);
    forall t | t in block[1..] ensures Settled(pool, t) {
      BlockTxMined(before, block, height, t);
      MinedIsSettled(ApplyBlock(before, block, height), pool, t);
    }
  }

  /** An output unspent below the block is unspent above it or spent by a non-coinbase transaction in it. */
  lemma StaysOrSpent(before: Chain, block: seq<Tx>, height: int, o: OutPoint)
    requires BlockExtends(before, block, height) && Unspent(before, o)
    ensures Unspent(ApplyBlock(before, block, height), o) || SpentIn(block[1..], o)
  {
    assert block[..0] == [];
    UnspentSurvives(before, block, height, 0, o);
    if j :| 0 <= j < |block| && o in block[j].ins {
      assert block[1..][j - 1] == block[j];
    }
  }

  lemma PendingClosedAt(before: Chain, block: seq<Tx>, height: int, i: nat)
    requires BlockExtends(before, block, height) && i <= |block|
    ensures PendingClosed(ApplyBlock(before, block, height), block[i..])
  {
    var chain := ApplyBlock(before, block, height);
    forall c: Tx, p: Tx | Sha(c) in chain && p in block[i..] && SpendsFrom(c, Sha(p)) ensures c in block[i..] {
      var k :| i <= k < |block| && block[k] == p;
      SpendersComeLater(before, block, height, k, c);
      var j :| k < j < |block| && c == block[j];
      assert block[i..][j - i] == c;
    }
  }

  /** An output of the i-th block transaction is unspent on the new chain or spent later in the block. */
  lemma MinedOrSpentLater(before: Chain, block: seq<Tx>, height: int, i: nat, o: OutPoint)
    requires BlockExtends(before, block, height) && i < |block|
    requires o.hash == Sha(block[i]) && InRange(o)
    ensures Unspent(ApplyBlock(before, block, height), o) || SpentIn(block[i + 1..], o)
  {
    MinedOutputs(before, block, height, i, o);
    if j :| i + 1 <= j < |block| && o in block[j].ins {
      assert block[i + 1..][j - i - 1] == block[j];
    }
  }

  /** Taking the next block transaction out of the pool, together with everything that
      conflicts with it, settles that transaction. */
  lemma FitsNext(before: Chain, block: seq<Tx>, height: int, i: nat, pool: Pool, middle: Pool, rest: Pool)
    requires BlockExtends(before, block, height) && 1 <= i < |block|
    requires PoolOk(pool) && Fits(ApplyBlock(before, block, height), pool, block[i..])
    requires middle == pool - {Sha(block[i])} && rest == middle - Ousted(middle, block[i], |block[i].ins|)
    ensures Fits(ApplyBlock(before, block, height), rest, block[i + 1..])
  {
    hide BlockExtends, PoolTxOk, Ousted, ApplyBlock, Unspent;
    var chain, b := ApplyBlock(before, block, height), block[i];
    OustedIsClean(middle, b, |b.ins|);
    assert block[i..] == [b] + block[i + 1..];
    forall h, o | h in rest && o in rest[h].tx.ins
      ensures Unspent(chain, o) || o.hash in rest || SpentIn(block[i + 1..], o)
    {
      if o.hash == Sha(b) {
        PooledInRange(pool, h, o);
        MinedOrSpentLater(before, block, height, i, o);
      } else if o in b.ins {
        OustedLeavesNoRival(middle, b, h, o);
      }
    }
  }

  lemma PooledInRange(pool: Pool, h: Hash, o: OutPoint)
    requires PoolOk(pool) && h in pool && o in pool[h].tx.ins
    ensures InRange(o)
  {
    assert PoolTxOk(pool[h]);
  }

  /** The orphans a block can complete spend from one of its transactions. */
  lemma SaturatedBlockStart(before: Chain, block: seq<Tx>, height: int, pool: set<Hash>, orphans: map<Hash, Tx>,
                            excused: set<Hash>)
    requires BlockExtends(before, block, height) && Saturated(before, pool, orphans, excused)
    ensures Saturated(ApplyBlock(before, block, height), pool, orphans, excused + Shas(block))
  {
    var chain := ApplyBlock(before, block, height);
    forall h | h in orphans
      ensures Lacks(chain, pool, orphans[h]) || SpendsAny(orphans[h], excused + Shas(block))
    {
      if Lacks(before, pool, orphans[h]) {
        var o :| o in orphans[h].ins && IsMissing(before, pool, o.hash);
        StaysMissing(before, block, height, o.hash);
        if o.hash !in Shas(block) {
          assert IsMissing(chain, pool, o.hash);
        }
      } else {
        var o :| o in orphans[h].ins && o.hash in excused;
        assert o.hash in excused + Shas(block);
      }
    }
  }

  /** A block makes no other transaction available than its own. */
  lemma StaysMissing(before: Chain, block: seq<Tx>, height: int, h: Hash)
    requires BlockExtends(before, block, height) && !OnChain(before, h)
    ensures !OnChain(ApplyBlock(before, block, height), h) || h in Shas(block)
  {
    var chain := ApplyBlock(before, block, height);
    ApplyBlockGrows(before, block, height);
    ApplyBlockValid(before, block, height);
    if h in before && h.TxId? && h !in Shas(block) {
      forall i | 0 <= i < |chain[h].spent| ensures chain[h].spent[i] {
        var o := OutPoint(h, i);
        assert before[h].spent[i] && Spent(before, o);
        assert block[..0] == [];
        SpentStays(before, block, height, 0, o);
      }
    }
  }

  lemma BlockChainValid(before: Chain, block: seq<Tx>, height: int)
    requires BlockExtends(before, block, height)
    ensures ChainValid(ApplyBlock(before, block, height))
  {
    ApplyBlockValid(before, block, height);
  }

  lemma BlockTxMined(before: Chain, block: seq<Tx>, height: int, t: Tx)
    requires BlockExtends(before, block, height) && t in block[1..]
    ensures Sha(t) in ApplyBlock(before, block, height) && !IsCoinBase(t)
  {
    ApplyBlockGrows(before, block, height);
    assert t in block;
  }

  lemma ShasSplit(excused: set<Hash>, block: seq<Tx>, i: nat)
    requires 1 <= i <= |block|
    ensures i < |block| ==> excused + Shas(block[i..]) == excused + Shas(block[i + 1..]) + {Sha(block[i])}
    ensures excused + Shas(block) == excused + {Sha(block[0])} + Shas(block[1..])
    ensures excused + Shas(block[|block|..]) == excused
  {
    assert block == [block[0]] + block[1..];
    if i < |block| {
      assert block[i..] == [block[i]] + block[i + 1..];
    }
  }

  // ---------- Who stays pooled ----------

  /** Pooled transactions that spend an input of one of the block transactions without being it. */
  ghost function Conflicting(pool: Pool, txs: seq<Tx>): set<Hash> {
    set h | h in pool && exists t, o :: t in txs && o in t.ins && o in pool[h].tx.ins && h != Sha(t)
  }

  /** Not in the block, and neither in conflict with it nor relying on anything that is. */
  ghost predicate Survives(pool: Pool, txs: seq<Tx>, h: Hash) {
    h in pool && h !in Shas(txs) && h !in DoomedAll(pool.Keys, Conflicting(pool, txs))
  }

  /** What taking one block transaction out leaves in the pool. */
  ghost function Evicted(pool: Pool, t: Tx): Pool {
    var middle := pool - {Sha(t)};
    middle - Ousted(middle, t, |t.ins|)
  }

  lemma EvictedIsLess(pool: Pool, t: Tx)
    ensures Evicted(pool, t).Keys <= pool.Keys && forall h :: h in Evicted(pool, t) ==> Evicted(pool, t)[h] == pool[h]
  {
  }

  /** A parent of a block transaction is mined. */
  lemma BlockParentMined(before: Chain, block: seq<Tx>, height: int, j: nat, o: OutPoint)
    requires BlockExtends(before, block, height) && 1 <= j < |block| && o in block[j].ins
    ensures o.hash in before || o.hash in Shas(block)
    ensures o.hash in ApplyBlock(before, block, height)
  {
    BlockInputs(before, block, height, j, o);
    ApplyBlockGrows(before, block, height);
    if i :| 0 <= i < j && o.hash == Sha(block[i]) && InRange(o) {
      assert block[i] in block;
    }
  }

  /** Two block transactions never spend the same output. */
  lemma BlockNoRivals(before: Chain, block: seq<Tx>, height: int, a: Tx, b: Tx, o: OutPoint)
    requires BlockExtends(before, block, height) && a in block[1..] && b in block[1..]
    requires o in a.ins && o in b.ins
    ensures a == b
  {
    var i :| 1 <= i < |block| && block[i] == a;
    var j :| 1 <= j < |block| && block[j] == b;
    if i != j {
      BlockInputs(before, block, height, i, o);
    }
  }

  /** A pool under way: it fits the new chain with the rest of the block pending, and still holds
      all of `was` that survives the block. */
  ghost predicate UnderWay(before: Chain, block: seq<Tx>, height: int, i: nat, was: Pool, pool: Pool) {
    && BlockExtends(before, block, height) && 1 <= i <= |block|
    && PoolOk(was) && Fits(before, was, [])
    && PoolOk(pool) && Fits(ApplyBlock(before, block, height), pool, block[i..])
    && forall h :: Survives(was, block[1..], h) ==> h in pool && pool[h] == was[h]
  }

  /** In the block, or surviving it. */
  ghost predicate Innocent(block: seq<Tx>, was: Pool, h: Hash)
    requires block != []
  {
    Survives(was, block[1..], h) || h in Shas(block[1..])
  }

  lemma MinedPooledInBlock(before: Chain, block: seq<Tx>, height: int, i: nat, was: Pool, pool: Pool, h: Hash)
    requires UnderWay(before, block, height, i, was, pool)
    requires h in pool && h in ApplyBlock(before, block, height)
    ensures h in Shas(block[1..])
  {
    assert h.TxId? && h.tx in block[i..];
    assert block[1..][i - 1..] == block[i..];
  }

  lemma MinedStays(before: Chain, block: seq<Tx>, height: int, h: Hash)
    requires h in before
    ensures h in ApplyBlock(before, block, height)
  {
    ApplyBlockGrows(before, block, height);
  }

  lemma UnderWayFacts(before: Chain, block: seq<Tx>, height: int, i: nat, was: Pool, pool: Pool)
    requires UnderWay(before, block, height, i, was, pool)
    ensures BlockExtends(before, block, height) && block != [] && PoolOk(was) && Keyed(was) && Fits(before, was, [])
    ensures PoolOk(pool) && Keyed(pool) && Fits(ApplyBlock(before, block, height), pool, block[i..])
  {
  }

  /** What a block transaction spends from and is still pooled is in the block too. */
  lemma BlockTxParent(before: Chain, block: seq<Tx>, height: int, i: nat, was: Pool, pool: Pool, h: Hash, o: OutPoint)
    requires UnderWay(before, block, height, i, was, pool)
    requires h in Shas(block[1..]) && o in h.tx.ins && o.hash in pool
    ensures o.hash in Shas(block[1..])
  {
    var j :| 0 <= j < |block| - 1 && block[1..][j] == h.tx;
    assert BlockExtends(before, block, height);
    hide UnderWay, BlockExtends, ApplyBlock, Shas;
    BlockParentMined(before, block, height, j + 1, o);
    MinedPooledInBlock(before, block, height, i, was, pool, o.hash);
  }

  lemma SurvivorPooled(pool: Pool, txs: seq<Tx>, h: Hash)
    requires Keyed(pool) && Survives(pool, txs, h)
    ensures h in pool && h == Sha(pool[h].tx)
  {
  }

  /** A pooled parent of an innocent transaction is innocent. */
  lemma InnocentParent(before: Chain, block: seq<Tx>, height: int, i: nat, was: Pool, pool: Pool, h: Hash, o: OutPoint)
    requires UnderWay(before, block, height, i, was, pool)
    requires Innocent(block, was, h) && h.TxId? && o in h.tx.ins && o.hash in pool
    ensures Innocent(block, was, o.hash)
  {
    UnderWayFacts(before, block, height, i, was, pool);
    hide UnderWay, BlockExtends, ApplyBlock, Shas, Survives, PoolOk, Keyed, Fits;
    if h in Shas(block[1..]) {
      BlockTxParent(before, block, height, i, was, pool, h, o);
    } else {
      SurvivorPooled(was, block[1..], h);
      if o.hash in was {
        SurvivorParent(was, block[1..], h, o);
      } else {
        PooledInput(before, was, h, o);
        MinedStays(before, block, height, o.hash);
        MinedPooledInBlock(before, block, height, i, was, pool, o.hash);
      }
    }
  }

  lemma SurvivorParent(was: Pool, txs: seq<Tx>, h: Hash, o: OutPoint)
    requires Keyed(was) && Survives(was, txs, h) && o in was[h].tx.ins && o.hash in was
    ensures Survives(was, txs, o.hash) || o.hash in Shas(txs)
  {
    if r :| r in Conflicting(was, txs) && o.hash in Doomed(was.Keys, r) {
      DoomedClosed(was, r, h, o);
    }
  }

  lemma ConflictDies(pool: Pool, txs: seq<Tx>, r: Hash, t: Tx, o: OutPoint)
    requires r in pool && t in txs && o in t.ins && o in pool[r].tx.ins && r != Sha(t)
    ensures r in Conflicting(pool, txs) && !Survives(pool, txs, r)
  {
    assert r in Doomed(pool.Keys, r);
  }

  lemma StillHeld(before: Chain, block: seq<Tx>, height: int, i: nat, was: Pool, pool: Pool, h: Hash)
    requires UnderWay(before, block, height, i, was, pool) && Survives(was, block[1..], h)
    ensures h in was && h in pool && pool[h] == was[h]
  {
  }

  /** No rival of a block transaction is innocent. */
  lemma RivalNotInnocent(before: Chain, block: seq<Tx>, height: int, i: nat, was: Pool, pool: Pool, r: Hash,
                         o: OutPoint)
    requires UnderWay(before, block, height, i, was, pool) && i < |block|
    requires r in pool && r != Sha(block[i]) && o in pool[r].tx.ins && o in block[i].ins
    ensures !Innocent(block, was, r)
  {
    var t := block[i];
    UnderWayFacts(before, block, height, i, was, pool);
    assert r == Sha(pool[r].tx) && 1 <= i;
    assert block[1..][i - 1] == t && t in block[1..];
    hide UnderWay, BlockExtends, ApplyBlock, PoolOk, Keyed, Fits, Survives;
    if r in Shas(block[1..]) {
      BlockNoRivals(before, block, height, r.tx, t, o);
    }
    if Survives(was, block[1..], r) {
      StillHeld(before, block, height, i, was, pool, r);
      ConflictDies(was, block[1..], r, t, o);
    }
  }

  lemma {:induction false} InnocentNotDescending(before: Chain, block: seq<Tx>, height: int, i: nat, was: Pool,
                                                 pool: Pool, h: Hash, r: Hash)
    requires UnderWay(before, block, height, i, was, pool) && block != []
    requires Innocent(block, was, h) && r in pool && !Innocent(block, was, r)
    ensures !Descends(pool.Keys, h, r)
    decreases h
  {
    hide *;
    if Descends(pool.Keys, h, r) {
      var o := DescendsStep(pool.Keys, h, r);
      InnocentParent(before, block, height, i, was, pool, h, o);
      if o.hash != r {
        InnocentNotDescending(before, block, height, i, was, pool, o.hash, r);
      }
    }
  }

  /** Taking a block transaction out spares every survivor. */
  lemma SurvivorSpared(before: Chain, block: seq<Tx>, height: int, i: nat, was: Pool, pool: Pool, h: Hash)
    requires UnderWay(before, block, height, i, was, pool) && i < |block| && Survives(was, block[1..], h)
    ensures h in Evicted(pool, block[i])
  {
    var t := block[i];
    UnderWayFacts(before, block, height, i, was, pool);
    StillHeld(before, block, height, i, was, pool, h);
    assert 1 <= i && block[1..][i - 1] == t;
    assert h != Sha(t);
    hide UnderWay, BlockExtends, ApplyBlock, PoolOk, Keyed, Fits, Survives, Descends;
    var middle := pool - {Sha(t)};
    if h in Ousted(middle, t, |t.ins|) {
      var r :| r in Rivals(middle, t, |t.ins|) && h in Doomed(middle.Keys, r);
      var o :| o in t.ins && o in middle[r].tx.ins;
      RivalNotInnocent(before, block, height, i, was, pool, r, o);
      InnocentNotDescending(before, block, height, i, was, pool, h, r);
      if Descends(middle.Keys, h, r) {
        DescendsGrows(middle.Keys, pool.Keys, h, r);
      }
    }
  }

  /** Ancestors of a block transaction within the old pool are block transactions. */
  lemma {:induction false} BlockAncestors(before: Chain, block: seq<Tx>, height: int, was: Pool, h: Hash, r: Hash)
    requires BlockExtends(before, block, height) && block != [] && PoolOk(was) && Fits(before, was, [])
    requires h in Shas(block[1..]) && r in was && Descends(was.Keys, h, r)
    ensures r in Shas(block[1..])
    decreases h
  {
    var j :| 0 <= j < |block| - 1 && block[1..][j] == h.tx;
    hide BlockExtends, ApplyBlock, PoolOk, Fits, Descends;
    var o := DescendsStep(was.Keys, h, r);
    BlockParentMined(before, block, height, j + 1, o);
    PooledInBlock(before, block, height, was, o.hash);
    if o.hash != r {
      BlockAncestors(before, block, height, was, o.hash, r);
    }
  }

  /** A conflicting transaction is not in the block, and neither is anything that relies on it. */
  lemma ConflictOutside(before: Chain, block: seq<Tx>, height: int, was: Pool, p: Hash, r: Hash)
    requires BlockExtends(before, block, height) && block != [] && PoolOk(was) && Fits(before, was, [])
    requires r in Conflicting(was, block[1..]) && p in was && (p == r || Descends(was.Keys, p, r))
    ensures p !in ApplyBlock(before, block, height)
  {
    var t, o :| t in block[1..] && o in t.ins && o in was[r].tx.ins && r != Sha(t);
    assert r == Sha(was[r].tx);
    hide BlockExtends, ApplyBlock, PoolOk, Fits, Descends;
    if p in ApplyBlock(before, block, height) {
      PooledInBlock(before, block, height, was, p);
      if p != r {
        BlockAncestors(before, block, height, was, p, r);
      }
      BlockNoRivals(before, block, height, r.tx, t, o);
    }
  }

  lemma SettledAtEnd(before: Chain, block: seq<Tx>, height: int, was: Pool, pool: Pool)
    requires UnderWay(before, block, height, |block|, was, pool)
    ensures forall t :: t in block[1..] ==> Settled(pool, t)
    ensures Fits(ApplyBlock(before, block, height), pool, [])
  {
    UnderWayFacts(before, block, height, |block|, was, pool);
    hide UnderWay, BlockExtends, ApplyBlock, PoolOk, Keyed, Fits;
    assert block[|block|..] == [];
    BlockSettled(before, block, height, pool);
  }

  lemma ConflictGone(was: Pool, pool: Pool, txs: seq<Tx>, r: Hash)
    requires Keyed(was) && Keyed(pool) && r in Conflicting(was, txs) && forall t :: t in txs ==> Settled(pool, t)
    ensures r !in pool
  {
    var t, o :| t in txs && o in t.ins && o in was[r].tx.ins && r != Sha(t);
    assert Settled(pool, t) && r == Sha(was[r].tx);
  }

  /** Once the block is connected nothing is left that conflicted with it or relied on what did. */
  lemma {:induction false} NoneLeftDescends(before: Chain, block: seq<Tx>, height: int, was: Pool, pool: Pool, h: Hash,
                                            r: Hash)
    requires UnderWay(before, block, height, |block|, was, pool) && block != []
    requires r in Conflicting(was, block[1..]) && h in was && h in pool
    ensures h != r && !Descends(was.Keys, h, r)
    decreases h
  {
    hide *;
    UnderWayFacts(before, block, height, |block|, was, pool);
    SettledAtEnd(before, block, height, was, pool);
    ConflictGone(was, pool, block[1..], r);
    if Descends(was.Keys, h, r) {
      var o := DescendsStep(was.Keys, h, r);
      ConflictPooled(was, block[1..], r);
      KeyedAt(pool, h);
      PooledInput(ApplyBlock(before, block, height), pool, h, o);
      ConflictOutside(before, block, height, was, o.hash, r);
      UnspentMined(ApplyBlock(before, block, height), o);
      if o.hash in pool {
        NoneLeftDescends(before, block, height, was, pool, o.hash, r);
      }
    }
  }

  lemma ConflictPooled(pool: Pool, txs: seq<Tx>, r: Hash)
    requires r in Conflicting(pool, txs)
    ensures r in pool
  {
  }

  lemma KeyedAt(pool: Pool, h: Hash)
    requires Keyed(pool) && h in pool
    ensures h.TxId? && h.tx == pool[h].tx
  {
  }

  lemma UnspentMined(chain: Chain, o: OutPoint)
    ensures Unspent(chain, o) ==> o.hash in chain
  {
  }

  lemma SettledNotPooled(pool: Pool, txs: seq<Tx>, h: Hash)
    requires h in pool && forall t :: t in txs ==> Settled(pool, t)
    ensures h !in Shas(txs)
  {
  }

  lemma UnderWayStep(before: Chain, block: seq<Tx>, height: int, i: nat, was: Pool, pool: Pool, next: Pool)
    requires UnderWay(before, block, height, i, was, pool) && i < |block|
    requires PoolOk(next) && Fits(ApplyBlock(before, block, height), next, block[i + 1..])
    requires forall h :: h in Evicted(pool, block[i]) ==> h in next && next[h] == pool[h]
    ensures UnderWay(before, block, height, i + 1, was, next)
  {
    forall h | Survives(was, block[1..], h) ensures h in next && next[h] == was[h] {
      SurvivorSpared(before, block, height, i, was, pool, h);
    }
    hide BlockExtends, ApplyBlock, PoolOk, Fits, Survives, Evicted;
  }

  lemma UnderWayStart(before: Chain, block: seq<Tx>, height: int, pool: Pool)
    requires BlockExtends(before, block, height) && PoolOk(pool) && Fits(before, pool, [])
    ensures block != [] && UnderWay(before, block, height, 1, pool, pool)
  {
    FitsBlockStart(before, block, height, pool);
    assert block != [];
    hide BlockExtends, ApplyBlock, PoolOk, Fits;
  }

  /** After the block exactly the survivors of the old pool are left of it. */
  lemma LeftAreSurvivors(before: Chain, block: seq<Tx>, height: int, was: Pool, pool: Pool, h: Hash)
    requires UnderWay(before, block, height, |block|, was, pool) && block != [] && h in was
    ensures h in pool <==> Survives(was, block[1..], h)
  {
    if Survives(was, block[1..], h) {
      StillHeld(before, block, height, |block|, was, pool, h);
    }
    hide UnderWay, BlockExtends, ApplyBlock, PoolOk, Keyed, Fits, Descends;
    if h in pool {
      SettledAtEnd(before, block, height, was, pool);
      SettledNotPooled(pool, block[1..], h);
      forall r | r in Conflicting(was, block[1..]) ensures h !in Doomed(was.Keys, r) {
        NoneLeftDescends(before, block, height, was, pool, h, r);
      }
    }
  }
}
