/** What the pool's invariant is worth: nothing pooled depends on anything unavailable, and
    the whole pool could be mined. */
module PoolTheorems {
  import opened Ledger
  import opened Validation
  import opened PoolIndex

  // ---------- Removal ----------

  /** Removal with redeemers is a clean cut. */
  lemma DoomedIsClean(pool: Pool, root: Hash)
    requires Keyed(pool)
    ensures CleanCut(pool, Doomed(pool.Keys, root))
  {
    forall h, o | h in pool && o in pool[h].tx.ins && o.hash in Doomed(pool.Keys, root)
      ensures h in Doomed(pool.Keys, root)
    {
      DoomedClosed(pool, root, h, o);
    }
  }

  /** Removing a transaction with its redeemers leaves a pool that still fits, and so does
      removing everything that conflicts with a transaction. */
  lemma RemovalKeepsFit(chain: Chain, pool: Pool, pending: seq<Tx>, tx: Tx)
    requires Keyed(pool) && Fits(chain, pool, pending)
    ensures Fits(chain, pool - Doomed(pool.Keys, Sha(tx)), pending)
    ensures Fits(chain, pool - Ousted(pool, tx, |tx.ins|), pending)
  {
    DoomedIsClean(pool, Sha(tx));
    OustedIsClean(pool, tx, |tx.ins|);
    FitsCut(chain, pool, pending, Doomed(pool.Keys, Sha(tx)));
    FitsCut(chain, pool, pending, Ousted(pool, tx, |tx.ins|));
  }

  // ---------- Ancestors ----------

  /** Following the inputs of `h` back through the pool always ends on the chain. */
  ghost predicate Grounded(chain: Chain, pool: set<Hash>, h: Hash)
    decreases h
  {
    h in pool && h.TxId? && forall i :: 0 <= i < |h.tx.ins| ==> GroundedInput(chain, pool, h, i)
  }

  ghost predicate GroundedInput(chain: Chain, pool: set<Hash>, h: Hash, i: nat)
    requires h.TxId? && i < |h.tx.ins|
    decreases h, 0
  {
    h.tx.ins[i].hash in chain || Grounded(chain, pool, h.tx.ins[i].hash)
  }

  lemma {:induction false} AncestorsAvailable(chain: Chain, pool: Pool, h: Hash)
    requires Keyed(pool) && Fits(chain, pool, []) && h in pool
    ensures Grounded(chain, pool.Keys, h)
    decreases h
  {
    assert h == Sha(pool[h].tx);
    forall i | 0 <= i < |h.tx.ins| ensures GroundedInput(chain, pool.Keys, h, i) {
      var o := h.tx.ins[i];
      assert o in pool[h].tx.ins;
      if o.hash in pool {
        AncestorsAvailable(chain, pool, o.hash);
      }
    }
  }

  // ---------- Minability ----------

  /** Different pooled transactions, each after the pooled transactions it spends from. */
  ghost predicate MiningOrder(pool: Pool, txs: seq<Tx>) {
    && Distinct(txs)
    && (forall t :: t in txs ==> Sha(t) in pool)
    && forall i, o :: 0 <= i < |txs| && o in txs[i].ins && o.hash in pool ==> o.hash in Shas(txs[..i])
  }

  lemma OrderPrefix(pool: Pool, txs: seq<Tx>)
    requires MiningOrder(pool, txs) && txs != []
    ensures MiningOrder(pool, txs[..|txs| - 1])
  {
    var front := txs[..|txs| - 1];
    forall i, o | 0 <= i < |front| && o in front[i].ins && o.hash in pool ensures o.hash in Shas(front[..i]) {
      assert front[..i] == txs[..i];
    }
  }

  /** Any such order is a sequence of transactions that can be mined on the current chain:
      the pool as a whole never contradicts itself or the chain. */
  lemma {:induction false} PoolIsMinable(chain: Chain, pool: Pool, outpoints: map<OutPoint, Tx>, txs: seq<Tx>,
                                         height: int)
    requires ChainValid(chain) && PoolOk(pool) && OutpointIndex(pool, outpoints) && Fits(chain, pool, [])
    requires MiningOrder(pool, txs)
    ensures BlockApplies(chain, txs, height)
  {
    if txs != [] {
      OrderPrefix(pool, txs);
      PoolIsMinable(chain, pool, outpoints, txs[..|txs| - 1], height);
      LastCanBeMined(chain, pool, outpoints, txs, height);
    }
  }

  lemma LastCanBeMined(chain: Chain, pool: Pool, outpoints: map<OutPoint, Tx>, txs: seq<Tx>, height: int)
    requires ChainValid(chain) && PoolOk(pool) && OutpointIndex(pool, outpoints) && Fits(chain, pool, [])
    requires MiningOrder(pool, txs) && txs != []
    requires BlockApplies(chain, txs[..|txs| - 1], height)
    ensures CanApply(ApplyBlock(chain, txs[..|txs| - 1], height), txs[|txs| - 1])
  {
    var front, last := txs[..|txs| - 1], txs[|txs| - 1];
    assert last in txs && pool[Sha(last)].tx == last;
    PooledTx(pool, last);
    ApplyBlockGrows(chain, front, height);
    assert Sha(last) !in chain && last !in front;
    hide ChainValid, PoolOk, OutpointIndex, Fits, MiningOrder, BlockApplies, ApplyBlock;
    forall o | o in last.ins ensures Unspent(ApplyBlock(chain, front, height), o) {
      InputCanBeMined(chain, pool, outpoints, txs, height, o);
    }
  }

  lemma PooledSelf(pool: Pool, t: Tx)
    requires PoolOk(pool) && Sha(t) in pool
    ensures pool[Sha(t)].tx == t
  {
    assert Sha(t) == Sha(pool[Sha(t)].tx);
  }

  lemma PooledTx(pool: Pool, t: Tx)
    requires PoolOk(pool) && Sha(t) in pool
    ensures t.ins != [] && Distinct(t.ins) && forall o :: o in t.ins ==> InRange(o)
  {
    assert PoolTxOk(pool[Sha(t)]);
  }

  /** No transaction of the sequence spends the output. */
  ghost predicate Untouched(txs: seq<Tx>, o: OutPoint) {
    forall j :: 0 <= j < |txs| ==> o !in txs[j].ins
  }

  lemma UntouchedStays(chain: Chain, txs: seq<Tx>, height: int, o: OutPoint)
    requires BlockApplies(chain, txs, height) && Untouched(txs, o)
    requires Unspent(chain, o) || (InRange(o) && o.hash in Shas(txs))
    ensures Unspent(ApplyBlock(chain, txs, height), o)
  {
    if Unspent(chain, o) {
      assert txs[..0] == [];
      UnspentSurvives(chain, txs, height, 0, o);
    } else {
      var j :| 0 <= j < |txs| && Sha(txs[j]) == o.hash;
      MinedOutputs(chain, txs, height, j, o);
    }
  }

  lemma OrderedInput(chain: Chain, pool: Pool, txs: seq<Tx>, o: OutPoint)
    requires PoolOk(pool) && Fits(chain, pool, []) && MiningOrder(pool, txs)
    requires txs != [] && o in txs[|txs| - 1].ins
    ensures Unspent(chain, o) || (InRange(o) && o.hash in Shas(txs[..|txs| - 1]))
  {
    var last := txs[|txs| - 1];
    hide *;
    OrderedLast(pool, txs, o);
    PooledTx(pool, last);
    PooledSelf(pool, last);
    PooledInput(chain, pool, Sha(last), o);
  }

  lemma OrderedLast(pool: Pool, txs: seq<Tx>, o: OutPoint)
    requires MiningOrder(pool, txs) && txs != [] && o in txs[|txs| - 1].ins
    ensures Sha(txs[|txs| - 1]) in pool
    ensures o.hash in pool ==> o.hash in Shas(txs[..|txs| - 1])
  {
    assert txs[|txs| - 1] in txs;
    hide Distinct, Shas;
  }

  lemma InputCanBeMined(chain: Chain, pool: Pool, outpoints: map<OutPoint, Tx>, txs: seq<Tx>, height: int, o: OutPoint)
    requires PoolOk(pool) && OutpointIndex(pool, outpoints) && Fits(chain, pool, [])
    requires MiningOrder(pool, txs) && txs != [] && o in txs[|txs| - 1].ins
    requires BlockApplies(chain, txs[..|txs| - 1], height)
    ensures Unspent(ApplyBlock(chain, txs[..|txs| - 1], height), o)
  {
    hide OutpointIndex, BlockApplies, ApplyBlock, Keyed, Distinct, Shas, Fits, MiningOrder, PoolTxOk, Unspent,
      Untouched;
    OrderedInput(chain, pool, txs, o);
    NotSpentEarlier(pool, outpoints, txs, o);
    UntouchedStays(chain, txs[..|txs| - 1], height, o);
  }

  /** Two pooled transactions never spend the same output. */
  lemma NotSpentEarlier(pool: Pool, outpoints: map<OutPoint, Tx>, txs: seq<Tx>, o: OutPoint)
    requires Keyed(pool) && OutpointIndex(pool, outpoints) && MiningOrder(pool, txs) && txs != []
    requires o in txs[|txs| - 1].ins
    ensures Untouched(txs[..|txs| - 1], o)
  {
    var last := txs[|txs| - 1];
    assert last in txs && pool[Sha(last)].tx == last;
    forall j | 0 <= j < |txs| - 1 ensures o !in txs[j].ins {
      assert txs[j] in txs && pool[Sha(txs[j])].tx == txs[j];
      if o in txs[j].ins {
        NoDoubleSpendInPool(pool, outpoints, Sha(last), Sha(txs[j]), o);
      }
    }
  }

  /** Every pool has a mining order: take the transactions by the depth of their history. */
  lemma MiningOrderExists(pool: Pool, todo: set<Hash>) returns (txs: seq<Tx>)
    requires Keyed(pool) && todo <= pool.Keys
    requires forall h, o :: h in todo && o in pool[h].tx.ins && o.hash in pool ==> o.hash in todo
    ensures MiningOrder(pool, txs) && Shas(txs) == todo
    decreases todo
  {
    if todo == {} {
      return [];
    }
    var h := Deepest(todo);
    forall k, o | k in todo && o in pool[k].tx.ins ensures o.hash != h {
      var i :| 0 <= i < |k.tx.ins| && k.tx.ins[i] == o;
      ParentIsShallower(k, i, |k.tx.ins|);
    }
    var front := MiningOrderExists(pool, todo - {h});
    txs := front + [pool[h].tx];
    assert Shas(txs) == Shas(front) + {Sha(pool[h].tx)};
    forall i, o | 0 <= i < |txs| && o in txs[i].ins && o.hash in pool ensures o.hash in Shas(txs[..i]) {
      if i < |front| {
        assert txs[..i] == front[..i];
      } else {
        assert txs[..i] == front;
      }
    }
  }

  lemma Deepest(hs: set<Hash>) returns (h: Hash)
    requires hs != {}
    ensures h in hs && forall k :: k in hs ==> Depth(k) <= Depth(h)
    decreases hs
  {
    h :| h in hs;
    if hs != {h} {
      var k := Deepest(hs - {h});
      if Depth(h) < Depth(k) {
        h := k;
      }
    }
  }
}
