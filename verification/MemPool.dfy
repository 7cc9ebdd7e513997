/** The memory pool: transactions waiting to be mined, orphans waiting for their parents. */
module MemPool {
  import opened Ledger
  import opened Validation
  import opened PoolIndex
  import opened BlockConnect
  import opened RelayMeter
  import opened PoolRules

  datatype Reason =
    | AlreadyHave | Insane | LoneCoinBase | LockTimeTooFar | NonStandard | PoolDoubleSpend
    | AlreadyMined | BadInputs | NonStandardInputs | TooManySigOps | FeeTooLow | PriorityTooLow
    | RateLimited | BadScripts | OrphanNotAllowed | OrphanTooLarge

  datatype Outcome = Accepted(desc: TxDesc) | MissingParents(parents: set<Hash>) | Rejected(reason: Reason)

  class TxMemPool {
    const cfg: Config
    var pool: Pool
    var outpoints: map<OutPoint, Tx>
    var orphans: map<Hash, Tx>
    var orphansByPrev: map<Hash, map<Hash, Tx>>
    var addrindex: AddrIndex
    var pennyTotal: real
    var lastPennyUnix: int
    /** Every run of the rate limiter so far. */
    ghost var attempts: seq<Attempt>
    /** The random source has failed at least once. */
    ghost var randomFailed: bool

    ghost predicate PoolValid()
      reads `pool, `outpoints, `addrindex
    {
      && PoolOk(pool)
      && OutpointIndex(pool, outpoints)
      && (if cfg.enableAddrIndex then AddrIndexOk(pool, addrindex) else addrindex == map[])
    }

    ghost predicate OrphansValid()
      reads `orphans, `orphansByPrev, `randomFailed
    {
      && OrphanIndex(orphans, orphansByPrev)
      && (!randomFailed && 0 < cfg.maxOrphanTxs ==> |orphans| <= cfg.maxOrphanTxs)
    }

    ghost predicate MeterValid()
      reads `pennyTotal, `lastPennyUnix, `attempts
    {
      && Meter(pennyTotal, lastPennyUnix) == Replay(cfg.freeTxRelayLimit * 10000.0, attempts)
      && ChargesBounded(attempts)
    }

    ghost predicate Valid()
      reads this
    {
      && PoolValid()
      && OrphansValid()
      && MeterValid()
      && pool.Keys !! orphans.Keys
    }

    constructor (cfg: Config)
      ensures Valid() && this.cfg == cfg
      ensures pool == map[] && orphans == map[] && attempts == [] && !randomFailed
    {
      this.cfg := cfg;
      pool, outpoints, orphans, orphansByPrev, addrindex := map[], map[], map[], map[], map[];
      pennyTotal, lastPennyUnix := 0.0, 0;
      attempts, randomFailed := [], false;
    }

    // ---------- Fetching ----------

    method FetchInputTransactions(chain: Chain, tx: Tx) returns (store: TxStore)
      ensures IsStoreFor(chain, pool, tx, store)
    {
      var fetched := FetchTransactionStore(chain, tx);
      store := fetched;
      var todo := fetched.Keys;
      while todo != {}
        invariant todo <= fetched.Keys == store.Keys
        invariant forall h :: h in todo ==> store[h] == fetched[h]
        invariant forall h :: h in store && h !in todo ==>
          store[h] == if OnChain(chain, h) then Found(h.tx, chain[h].height, chain[h].spent)
                      else if h in pool then Found(pool[h].tx, MEMPOOL_HEIGHT, seq(|pool[h].tx.outs|, _ => false))
                      else Missing
      {
        var h :| h in todo;
        if store[h].Missing? && h in pool {
          store := store[h := Found(pool[h].tx, MEMPOOL_HEIGHT, seq(|pool[h].tx.outs|, _ => false))];
        }
        todo := todo - {h};
      }
    }

    /** The outputs behind the inputs of `tx`, as far as they can still be looked up. */
    method FetchReferencedOutputScripts(chain: Chain, tx: Tx) returns (scripts: seq<TxOut>)
      requires Keyed(pool)
      requires forall o :: o in tx.ins ==> InRange(o)
      ensures forall out :: out in scripts ==>
                exists o :: o in tx.ins && !IsMissing(chain, pool.Keys, o.hash) && out == PrevOut(o)
      ensures forall o :: o in tx.ins && !IsMissing(chain, pool.Keys, o.hash) ==> PrevOut(o) in scripts
    {
      var store := FetchInputTransactions(chain, tx);
      scripts := [];
      for i := 0 to |tx.ins|
        invariant forall out :: out in scripts ==>
                  exists o :: o in tx.ins && !IsMissing(chain, pool.Keys, o.hash) && out == PrevOut(o)
        invariant forall j :: 0 <= j < i && !IsMissing(chain, pool.Keys, tx.ins[j].hash) ==>
                  PrevOut(tx.ins[j]) in scripts
      {
        var o := tx.ins[i];
        assert o in tx.ins;
        if store[o.hash].Found? {
          scripts := scripts + [store[o.hash].tx.outs[o.index]];
        }
      }
    }

    // ---------- Address index ----------

    method IndexScriptAddressToTx(script: TxOut, h: Hash)
      modifies `addrindex
      ensures addrindex == Indexed(old(addrindex), AsSet(script.payees), h)
    {
      hide *;
      var payees := script.payees;
      IndexedNone(addrindex, h);
      AsSetNone(payees);
      for j := 0 to |payees|
        invariant addrindex == Indexed(old(addrindex), AsSet(payees[..j]), h)
      {
        var a := payees[j];
        IndexedStep(old(addrindex), AsSet(payees[..j]), a, h);
        AsSetStep(payees, j);
        if a !in addrindex {
          addrindex := addrindex[a := {}];
        }
        addrindex := addrindex[a := addrindex[a] + {h}];
      }
      assert payees[..|payees|] == payees;
    }

    method RemoveScriptFromAddrIndex(script: TxOut, h: Hash)
      modifies `addrindex
      ensures addrindex == Unindexed(old(addrindex), AsSet(script.payees), h)
    {
      hide *;
      var payees := script.payees;
      IndexedNone(addrindex, h);
      AsSetNone(payees);
      for j := 0 to |payees|
        invariant addrindex == Unindexed(old(addrindex), AsSet(payees[..j]), h)
      {
        var a := payees[j];
        UnindexedStep(old(addrindex), AsSet(payees[..j]), a, h);
        AsSetStep(payees, j);
        if a in addrindex {
          addrindex := addrindex[a := addrindex[a] - {h}];
        }
      }
      assert payees[..|payees|] == payees;
    }

    method IndexScripts(scripts: seq<TxOut>, h: Hash)
      modifies `addrindex
      ensures addrindex == Indexed(old(addrindex), PayeesOf(scripts), h)
    {
      IndexedNone(addrindex, h);
      for i := 0 to |scripts|
        invariant addrindex == Indexed(old(addrindex), PayeesOf(scripts[..i]), h)
      {
        PayeesOfStep(scripts, i);
        IndexedUnion(old(addrindex), PayeesOf(scripts[..i]), AsSet(scripts[i].payees), h);
        IndexScriptAddressToTx(scripts[i], h);
      }
      assert scripts[..|scripts|] == scripts;
    }

    method UnindexScripts(scripts: seq<TxOut>, h: Hash)
      modifies `addrindex
      ensures addrindex == Unindexed(old(addrindex), PayeesOf(scripts), h)
    {
      IndexedNone(addrindex, h);
      for i := 0 to |scripts|
        invariant addrindex == Unindexed(old(addrindex), PayeesOf(scripts[..i]), h)
      {
        PayeesOfStep(scripts, i);
        UnindexedUnion(old(addrindex), PayeesOf(scripts[..i]), AsSet(scripts[i].payees), h);
        RemoveScriptFromAddrIndex(scripts[i], h);
      }
      assert scripts[..|scripts|] == scripts;
    }

    /** Dissociates the transaction from the addresses of its outputs and from those of
        its inputs that can still be looked up. */
    method RemoveTransactionFromAddrIndex(chain: Chain, tx: Tx) returns (ghost addrs: set<Address>)
      requires Keyed(pool)
      requires forall o :: o in tx.ins ==> InRange(o)
      modifies `addrindex
      ensures addrindex == Unindexed(old(addrindex), addrs, Sha(tx))
      ensures forall a :: a in addrs <==> Tells(chain, pool.Keys, tx, a)
    {
      var scripts := FetchReferencedOutputScripts(chain, tx);
      UnindexedUnion(addrindex, PayeesOf(scripts), PayeesOf(tx.outs), Sha(tx));
      UnindexScripts(scripts, Sha(tx));
      UnindexScripts(tx.outs, Sha(tx));
      addrs := PayeesOf(scripts) + PayeesOf(tx.outs);
      forall a | Tells(chain, pool.Keys, tx, a) ensures a in addrs {
      }
    }

    method AddTransactionToAddrIndex(chain: Chain, tx: Tx) returns (ghost addrs: set<Address>)
      requires Keyed(pool)
      requires Resolved(chain, pool.Keys, tx)
      modifies `addrindex
      ensures addrindex == Indexed(old(addrindex), addrs, Sha(tx))
      ensures forall a :: a in addrs <==> Touches(tx, a)
    {
      var scripts := FetchReferencedOutputScripts(chain, tx);
      IndexedUnion(addrindex, PayeesOf(scripts), PayeesOf(tx.outs), Sha(tx));
      IndexScripts(scripts, Sha(tx));
      IndexScripts(tx.outs, Sha(tx));
      addrs := PayeesOf(scripts) + PayeesOf(tx.outs);
      forall a | Touches(tx, a) ensures a in addrs {
      }
    }

    method FreeOutpoints(ins: seq<OutPoint>)
      modifies `outpoints
      ensures outpoints == old(outpoints) - InSet(ins)
    {
      for i := 0 to |ins|
        invariant outpoints == old(outpoints) - InSet(ins[..i])
      {
        assert ins[..i + 1] == ins[..i] + [ins[i]];
        assert InSet(ins[..i + 1]) == InSet(ins[..i]) + {ins[i]};
        outpoints := outpoints - {ins[i]};
      }
      assert ins[..|ins|] == ins;
    }

    /** Takes one transaction out and frees the outpoints it spends. */
    method Detach(chain: Chain, tx: Tx)
      requires PoolValid() && Sha(tx) in pool
      modifies `pool, `outpoints, `addrindex
      ensures PoolValid()
      ensures pool == old(pool) - {Sha(tx)}
      ensures outpoints == old(outpoints) - InSet(tx.ins)
      ensures Cleared(chain, old(pool).Keys, {Sha(tx)}, old(addrindex), addrindex)
    {
      ClearedNothing(chain, pool.Keys, addrindex);
      assert forall o :: o in tx.ins ==> InRange(o) by {
        PoolTxInputs(pool, tx);
      }
      hide Cleared, Tells, PoolTxOk;
      if cfg.enableAddrIndex {
        ghost var addrs := RemoveTransactionFromAddrIndex(chain, tx);
        UnindexedOk(pool, old(addrindex), addrs, Sha(tx));
        UnindexedCleared(chain, pool.Keys, tx, old(addrindex), addrs);
      }
      OutpointsWithout(pool, outpoints, Sha(tx));
      FreeOutpoints(pool[Sha(tx)].tx.ins);
      PoolOkWithout(pool, {Sha(tx)});
      pool := pool - {Sha(tx)};
    }

    /** With `removeRedeemers`, takes out exactly the transaction and every pooled transaction
        that transitively spends its outputs; the transaction itself need not be pooled. */
    method RemoveTransaction(chain: Chain, tx: Tx, removeRedeemers: bool)
      requires PoolValid()
      modifies `pool, `outpoints, `addrindex
      ensures PoolValid()
      ensures pool == old(pool) - if removeRedeemers then Doomed(old(pool).Keys, Sha(tx)) else {Sha(tx)}
      ensures outpoints.Keys <= old(outpoints).Keys
      ensures Cleared(chain, old(pool).Keys, old(pool).Keys - pool.Keys, old(addrindex), addrindex)
      decreases Descendants(pool.Keys, Sha(tx)), 1
    {
      hide PoolTxOk, AddrIndexOk, OutpointIndex, Cleared, Descends;
      DoomedSplit(pool, Sha(tx));
      ClearedNothing(chain, pool.Keys, addrindex);
      ghost var was, index, gone := pool, addrindex, {};
      assert was - gone == was;
      if removeRedeemers {
        RemoveRedeemers(chain, tx);
        gone := Descendants(was.Keys, Sha(tx));
        DescendantsClosed(was, Sha(tx));
      }
      ghost var mid := addrindex;
      if Sha(tx) in pool {
        Detach(chain, tx);
        ClearedMore(chain, was, gone, {Sha(tx)}, index, mid, addrindex);
        assert gone + {Sha(tx)} == was.Keys - pool.Keys;
      } else {
        assert gone == was.Keys - pool.Keys;
      }
    }

    method RemoveRedeemers(chain: Chain, tx: Tx)
      requires PoolValid()
      modifies `pool, `outpoints, `addrindex
      ensures PoolValid()
      ensures pool == old(pool) - Descendants(old(pool).Keys, Sha(tx))
      ensures outpoints.Keys <= old(outpoints).Keys
      ensures Cleared(chain, old(pool).Keys, Descendants(old(pool).Keys, Sha(tx)), old(addrindex), addrindex)
      decreases Descendants(pool.Keys, Sha(tx)), 0
    {
      hide Cleared, Pruned, NoneSpent, PoolTxOk, AddrIndexOk, OutpointIndex, Descends;
      ClearedNothing(chain, pool.Keys, addrindex);
      PruneStart(pool, outpoints, Sha(tx));
      ghost var root, gone := Sha(tx), {};
      for i := 0 to |tx.outs|
        invariant PoolValid()
        invariant Pruned(old(pool), pool, gone, root)
        invariant outpoints.Keys <= old(outpoints).Keys
        invariant NoneSpent(outpoints, root, i)
        invariant Cleared(chain, old(pool).Keys, gone, old(addrindex), addrindex)
      {
        var outpoint := OutPoint(Sha(tx), i);
        ghost var spenders := outpoints;
        if outpoint in outpoints {
          var redeemer := outpoints[outpoint];
          RedeemerSpends(pool, outpoints, outpoint);
          PrunedIs(old(pool), pool, gone, root);
          DescendantsShrink(pool.Keys, old(pool).Keys, redeemer, root);
          PruneChild(old(pool), pool, gone, root, redeemer);
          ghost var before, doomed, index := pool, Doomed(pool.Keys, Sha(redeemer)), addrindex;
          RemoveTransaction(chain, redeemer, true);
          SurvivingRedeemer(before, spenders, doomed, outpoints, outpoint);
          assert before.Keys - pool.Keys == doomed;
          ClearedMore(chain, old(pool), gone, doomed, old(addrindex), index, addrindex);
          gone := gone + doomed;
        }
        NoneSpentStep(spenders, outpoints, root, i);
      }
      NoRedeemerLeft(pool, outpoints, tx);
      PrunedIs(old(pool), pool, gone, root);
      PruneComplete(old(pool), pool, gone, root);
    }

    /** Removes the pooled transactions that spend what `tx` spends, with everything that
        relies on them. */
    method RemoveDoubleSpends(chain: Chain, tx: Tx)
      requires PoolValid()
      modifies `pool, `outpoints, `addrindex
      ensures PoolValid()
      ensures pool == old(pool) - Ousted(old(pool), tx, |tx.ins|)
      ensures Cleared(chain, old(pool).Keys, Ousted(old(pool), tx, |tx.ins|), old(addrindex), addrindex)
    {
      hide PoolTxOk, AddrIndexOk, OutpointIndex, Cleared, Descends;
      ClearedNothing(chain, pool.Keys, addrindex);
      assert Ousted(pool, tx, 0) == {} && pool - {} == pool;
      for i := 0 to |tx.ins|
        invariant PoolValid()
        invariant pool == old(pool) - Ousted(old(pool), tx, i)
        invariant Cleared(chain, old(pool).Keys, Ousted(old(pool), tx, i), old(addrindex), addrindex)
      {
        var o := tx.ins[i];
        OustedStep(old(pool), old(outpoints), pool, outpoints, tx, i);
        if o in outpoints && Sha(outpoints[o]) != Sha(tx) {
          ghost var before, index, doomed := pool, addrindex, Doomed(pool.Keys, Sha(outpoints[o]));
          RemoveTransaction(chain, outpoints[o], true);
          assert before.Keys - pool.Keys == doomed;
          OustedIsClean(old(pool), tx, i);
          ClearedMore(chain, old(pool), Ousted(old(pool), tx, i), doomed, old(addrindex), index, addrindex);
        }
      }
    }

    /** Puts a validated transaction into the pool. */
    method AddTransaction(chain: Chain, store: TxStore, tx: Tx, height: int, fee: int) returns (desc: TxDesc)
      requires PoolValid() && Sha(tx) !in pool
      requires PoolTxOk(TxDesc(tx, height, fee, 0.0))
      requires Resolved(chain, pool.Keys, tx) && Unclaimed(outpoints, tx)
      modifies `pool, `outpoints, `addrindex
      ensures PoolValid()
      ensures desc == TxDesc(tx, height, fee, cfg.checks.priority(tx, store, height))
      ensures pool == old(pool)[Sha(tx) := desc]
      ensures forall a, h :: ListedUnder(addrindex, a, h) <==>
                ListedUnder(old(addrindex), a, h) || (cfg.enableAddrIndex && h == Sha(tx) && Touches(tx, a))
    {
      ghost var indexBefore := addrindex;
      desc := TxDesc(tx, height, fee, cfg.checks.priority(tx, store, height));
      PoolOkWith(chain, pool, desc);
      hide PoolTxOk, AddrIndexOk, OutpointIndex, Resolved, Unclaimed;
      pool := pool[Sha(tx) := desc];
      SpendOutpoints(tx);
      OutpointsWith(old(pool), old(outpoints), outpoints, desc);
      if cfg.enableAddrIndex {
        ghost var addrs := AddTransactionToAddrIndex(chain, tx);
        IndexedOk(old(pool), indexBefore, addrs, desc);
        IndexedListed(indexBefore, addrs, Sha(tx));
      }
    }

    method SpendOutpoints(tx: Tx)
      modifies `outpoints
      ensures outpoints.Keys == old(outpoints).Keys + InSet(tx.ins)
      ensures forall o :: o in outpoints ==> outpoints[o] == if o in tx.ins then tx else old(outpoints)[o]
    {
      for i := 0 to |tx.ins|
        invariant outpoints.Keys == old(outpoints).Keys + InSet(tx.ins[..i])
        invariant forall o :: o in outpoints ==> outpoints[o] == if o in tx.ins[..i] then tx else old(outpoints)[o]
      {
        assert tx.ins[..i + 1] == tx.ins[..i] + [tx.ins[i]];
        outpoints := outpoints[tx.ins[i] := tx];
      }
      assert tx.ins[..|tx.ins|] == tx.ins;
    }

    method CheckPoolDoubleSpend(tx: Tx) returns (conflict: bool)
      ensures conflict <==> !Unclaimed(outpoints, tx)
    {
      for i := 0 to |tx.ins|
        invariant forall j :: 0 <= j < i ==> tx.ins[j] !in outpoints
      {
        if tx.ins[i] in outpoints {
          return true;
        }
      }
      return false;
    }

    // ---------- Orphans ----------

    method RemoveOrphan(h: Hash)
      requires OrphansValid()
      modifies `orphans, `orphansByPrev
      ensures OrphansValid()
      ensures orphans == old(orphans) - {h}
      ensures |orphans| == |old(orphans)| - if h in old(orphans) then 1 else 0
    {
      hide OrphanIndex;
      if h !in orphans {
        return;
      }
      var tx := orphans[h];
      OrphanIsKeyed(orphans, orphansByPrev, h);
      UnlinkedOk(orphans, orphansByPrev, h);
      Unlink(tx);
      orphans := orphans - {h};
    }

    /** Takes the orphan out of its parents' buckets, dropping buckets that become empty. */
    method Unlink(tx: Tx)
      modifies `orphansByPrev
      ensures orphansByPrev == Unlinked(old(orphansByPrev), Parents(tx.ins), Sha(tx))
    {
      UnlinkedNone(orphansByPrev, Sha(tx), tx);
      for i := 0 to |tx.ins|
        invariant orphansByPrev == Unlinked(old(orphansByPrev), Parents(tx.ins[..i]), Sha(tx))
      {
        ParentsStep(tx.ins, i);
        UnlinkedStep(old(orphansByPrev), Parents(tx.ins[..i]), tx.ins[i].hash, Sha(tx));
        var origin := tx.ins[i].hash;
        if origin in orphansByPrev {
          var bucket := orphansByPrev[origin] - {Sha(tx)};
          if |bucket| == 0 {
            orphansByPrev := orphansByPrev - {origin};
          } else {
            orphansByPrev := orphansByPrev[origin := bucket];
          }
        }
      }
      assert tx.ins[..|tx.ins|] == tx.ins;
    }

    method Link(tx: Tx)
      modifies `orphansByPrev
      ensures orphansByPrev == Linked(old(orphansByPrev), Parents(tx.ins), tx)
    {
      UnlinkedNone(orphansByPrev, Sha(tx), tx);
      for i := 0 to |tx.ins|
        invariant orphansByPrev == Linked(old(orphansByPrev), Parents(tx.ins[..i]), tx)
      {
        ParentsStep(tx.ins, i);
        LinkedStep(old(orphansByPrev), Parents(tx.ins[..i]), tx.ins[i].hash, tx);
        var origin := tx.ins[i].hash;
        if origin !in orphansByPrev {
          orphansByPrev := orphansByPrev[origin := map[]];
        }
        orphansByPrev := orphansByPrev[origin := orphansByPrev[origin][Sha(tx) := tx]];
      }
      assert tx.ins[..|tx.ins|] == tx.ins;
    }

    /** Makes room for one more orphan.  Which orphan goes depends on a random hash and on
        map order, so any may; when the random source fails none does. */
    method LimitNumOrphans() returns (ok: bool, ghost victim: Option<Hash>)
      requires OrphansValid()
      modifies `orphans, `orphansByPrev, `randomFailed
      ensures OrphansValid()
      ensures randomFailed == (old(randomFailed) || !ok)
      ensures orphans == Less(old(orphans), victim) && Evicts(cfg, old(orphans), victim)
      ensures victim.Some? <==> ok && |old(orphans)| + 1 > cfg.maxOrphanTxs > 0
      ensures !ok ==> |old(orphans)| + 1 > cfg.maxOrphanTxs > 0
      ensures !randomFailed && 0 < cfg.maxOrphanTxs ==> |orphans| + 1 <= cfg.maxOrphanTxs
      ensures |orphans| <= |old(orphans)|
    {
      victim := None;
      if |orphans| + 1 > cfg.maxOrphanTxs && cfg.maxOrphanTxs > 0 {
        var readable: bool := *;
        if !readable {
          randomFailed := true;
          return false, victim;
        }
        assert |orphans.Keys| > 0;
        var chosen :| chosen in orphans.Keys;
        victim := Some(chosen);
        RemoveOrphan(chosen);
      }
      return true, victim;
    }

    method AddOrphan(tx: Tx) returns (ghost victim: Option<Hash>)
      requires OrphansValid() && Sha(tx) !in orphans
      modifies `orphans, `orphansByPrev, `randomFailed
      ensures OrphansValid()
      ensures orphans == Less(old(orphans), victim)[Sha(tx) := tx] && Evicts(cfg, old(orphans), victim)
      ensures |old(orphans)| <= |orphans| <= |old(orphans)| + 1
      ensures old(randomFailed) ==> randomFailed
      ensures |old(orphans)| + 1 > cfg.maxOrphanTxs > 0 ==> victim.Some? || randomFailed
    {
      var ok;
      ok, victim := LimitNumOrphans();
      LinkedOk(orphans, orphansByPrev, tx);
      orphans := orphans[Sha(tx) := tx];
      Link(tx);
    }

    /** Keeps an orphan unless it is too large. */
    method MaybeAddOrphan(tx: Tx) returns (kept: bool, ghost victim: Option<Hash>)
      requires OrphansValid() && Sha(tx) !in orphans
      modifies `orphans, `orphansByPrev, `randomFailed
      ensures OrphansValid()
      ensures kept <==> tx.size <= 5000
      ensures old(randomFailed) ==> randomFailed
      ensures Evicts(cfg, old(orphans), victim)
      ensures orphans == if kept then Less(old(orphans), victim)[Sha(tx) := tx] else old(orphans)
    {
      victim := None;
      if tx.size > MAX_ORPHAN_TX_SIZE {
        return false, victim;
      }
      victim := AddOrphan(tx);
      return true, victim;
    }

    // ---------- Acceptance ----------

    /** What the pool's decisions depend on. */
    ghost function State(): Stage
      reads `pool, `orphans, `attempts
    {
      Stage(pool, orphans, attempts)
    }

    /** Brings the decaying byte count up to date and charges the transaction to it. */
    method RateLimit(size: nat) returns (ok: bool, ghost now: int)
      requires MeterValid() && size < MAX_CHARGE
      modifies `pennyTotal, `lastPennyUnix, `attempts
      ensures MeterValid()
      ensures attempts == old(attempts) + [Attempt(now, size)]
      ensures ok <==> LetThrough(cfg, old(attempts), now)
    {
      var nowUnix: int := *;
      now := nowUnix;
      attempts := attempts + [Attempt(nowUnix, size)];
      assert attempts[..|attempts| - 1] == old(attempts);
      var decayed := Decayed(Meter(pennyTotal, lastPennyUnix), nowUnix);
      pennyTotal, lastPennyUnix := decayed.total, nowUnix;
      if pennyTotal >= cfg.freeTxRelayLimit * 10000.0 {
        return false, now;
      }
      pennyTotal := pennyTotal + size as real;
      return true, now;
    }

    /** Policy tests on a transaction whose inputs are fine. */
    method CheckPolicy(tx: Tx, store: TxStore, height: int, fee: int, isNew: bool, rateLimit: bool)
        returns (verdict: Option<Reason>, ghost now: int)
      requires MeterValid()
      modifies `pennyTotal, `lastPennyUnix, `attempts
      ensures MeterValid()
      ensures attempts == old(attempts) +
                if Asks(cfg, tx, store, height, fee, isNew, rateLimit) then [Attempt(now, tx.size)] else []
      ensures verdict.None? <==> PolicyOk(cfg, tx, store, height, fee, isNew, rateLimit,
                                          LetThrough(cfg, old(attempts), now))
    {
      hide LetThrough;
      now := 0;
      if !cfg.relayNonStdTxs && !cfg.checks.inputsStandard(tx, store) {
        return Some(NonStandardInputs), now;
      }
      var p2sh := cfg.checks.p2shSigOps(tx, store);
      if p2sh.None? {
        return Some(BadScripts), now;
      }
      if p2sh.value + cfg.checks.sigOps(tx) > MAX_SIG_OPS_PER_TX {
        return Some(TooManySigOps), now;
      }
      var minFee := MinRequiredTxRelayFee(tx.size, cfg.minRelayTxFee);
      if tx.size >= DEFAULT_BLOCK_PRIORITY_SIZE - 1000 && fee < minFee {
        return Some(FeeTooLow), now;
      }
      if isNew && !cfg.disableRelayPriority && fee < minFee {
        if cfg.checks.priority(tx, store, height + 1) <= MIN_HIGH_PRIORITY {
          return Some(PriorityTooLow), now;
        }
      }
      if rateLimit && fee < minFee {
        var ok;
        ok, now := RateLimit(tx.size);
        if !ok {
          return Some(RateLimited), now;
        }
      }
      if !cfg.checks.scriptsValid(tx, store) {
        return Some(BadScripts), now;
      }
      return None, now;
    }

    /** Tries to put `tx` into the pool; orphans are reported, not stored. */
    method MaybeAcceptTransaction(chain: Chain, height: int, tx: Tx, isNew: bool, rateLimit: bool)
        returns (r: Outcome, ghost now: int)
      requires Valid() && ChainValid(chain)
      modifies `pool, `outpoints, `addrindex, `pennyTotal, `lastPennyUnix, `attempts
      ensures Valid()
      ensures State() == Judged(cfg, chain, height, old(State()), tx, isNew, rateLimit, now)
      ensures r.Accepted? <==> Accepts(cfg, chain, height, old(State()), tx, isNew, rateLimit, now)
      ensures r.Accepted? ==>
        && InputsAccepted(chain, old(pool).Keys, tx)
        && r.desc == Described(cfg, chain, old(pool), height, tx) && pool == old(pool)[Sha(tx) := r.desc]
      ensures r.MissingParents? <==> Orphaned(cfg, chain, height, old(State()), tx)
      ensures r.MissingParents? ==>
        && Sha(tx) !in pool && Sha(tx) !in orphans && Lacks(chain, pool.Keys, tx)
        && r.parents == MissingSet(chain, old(pool).Keys, tx)
      ensures !r.Accepted? ==> pool == old(pool) && outpoints == old(outpoints) && addrindex == old(addrindex)
    {
      hide PoolValid, OrphansValid, MeterValid, PoolOk, Keyed, OutpointIndex, ChainValid, Plausible, Screens, Orphaned,
        Accepts, Judged, Sane, IsCoinBase, OnChain, Lacks, IsStoreFor, HasUnspent, MissingIn, MissingSet, Unclaimed,
        InputsAccepted, Described, PolicyOk, Asks, InputsPass, LetThrough, Fee, Marked, ParentStore;
      ghost var st := State();
      now := 0;
      var reason := CheckAlone(height, tx);
      if reason.Some? {
        NotPlausible(cfg, chain, height, st, tx);
        StoppedEarly(cfg, chain, height, st, tx, isNew, rateLimit, now);
        return Rejected(reason.value), now;
      }
      var store := FetchInputTransactions(chain, tx);
      PlausibleFacts(cfg, height, st, tx);
      PoolIsKeyed();
      StoreForParents(chain, pool, tx, store);
      OnChainFails(cfg, chain, height, st, tx);
      if HasUnspent(store[Sha(tx)]) {
        StoppedEarly(cfg, chain, height, st, tx, isNew, rateLimit, now);
        return Rejected(AlreadyMined), now;
      }
      var parents := store - {Sha(tx)};
      var missing := MissingIn(parents);
      if |missing| > 0 {
        StoppedEarly(cfg, chain, height, st, tx, isNew, rateLimit, now);
        return MissingParents(missing), now;
      }
      var desc, why;
      desc, why, now := AcceptResolved(chain, height, tx, store, isNew, rateLimit);
      JudgedInputs(cfg, chain, height, st, tx, isNew, rateLimit, now);
      NotLacking(cfg, chain, height, st, tx);
      r := if desc.Some? then Accepted(desc.value) else Rejected(why);
    }

    lemma PoolIsKeyed()
      requires PoolValid()
      ensures PoolOk(pool) && Keyed(pool) && OutpointIndex(pool, outpoints)
    {
    }

    /** The tests that look at the transaction and the pool alone. */
    method CheckAlone(height: int, tx: Tx) returns (reason: Option<Reason>)
      requires PoolValid()
      ensures reason.None? <==> Plausible(cfg, height, State(), tx)
      ensures reason.None? ==> Unclaimed(outpoints, tx)
    {
      hide Sane, PoolTxOk, AddrIndexOk, OutpointIndex, Unclaimed;
      if Sha(tx) in pool || Sha(tx) in orphans {
        return Some(AlreadyHave);
      }
      var sane := CheckTransactionSanity(tx);
      if !sane {
        return Some(Insane);
      }
      if IsCoinBase(tx) {
        return Some(LoneCoinBase);
      }
      if tx.lockTime > MAX_INT32 {
        return Some(LockTimeTooFar);
      }
      if !cfg.relayNonStdTxs && !cfg.checks.isStandard(tx, height + 1) {
        return Some(NonStandard);
      }
      UnclaimedMeans(pool, outpoints, tx);
      var conflict := CheckPoolDoubleSpend(tx);
      if conflict {
        return Some(PoolDoubleSpend);
      }
      return None;
    }

    /** The second half of acceptance, once every parent has been found. */
    method AcceptResolved(chain: Chain, height: int, tx: Tx, store: TxStore, isNew: bool,
                          rateLimit: bool) returns (desc: Option<TxDesc>, reason: Reason, ghost now: int)
      requires PoolValid() && MeterValid() && ChainValid(chain)
      requires IsStoreFor(chain, pool, tx, store)
      requires Sha(tx) !in pool && Sane(tx) && !IsCoinBase(tx) && Unclaimed(outpoints, tx)
      modifies `pool, `outpoints, `addrindex, `pennyTotal, `lastPennyUnix, `attempts
      ensures PoolValid() && MeterValid()
      ensures var parents := Marked(ParentStore(chain, old(pool), tx), tx.ins);
        && (desc.Some? <==>
              InputsPass(chain, old(pool), height, tx) &&
              PolicyOk(cfg, tx, parents, height, Fee(tx), isNew, rateLimit, LetThrough(cfg, old(attempts), now)))
        && (desc.Some? ==> desc.value == TxDesc(tx, height, Fee(tx), cfg.checks.priority(tx, parents, height)))
        && attempts == old(attempts) +
             if InputsPass(chain, old(pool), height, tx) && Asks(cfg, tx, parents, height, Fee(tx), isNew, rateLimit)
             then [Attempt(now, tx.size)] else []
      ensures desc.Some? ==> InputsAccepted(chain, old(pool).Keys, tx) && pool == old(pool)[Sha(tx) := desc.value]
      ensures desc.None? ==> pool == old(pool) && outpoints == old(outpoints) && addrindex == old(addrindex)
    {
      hide PoolOk, AddrIndexOk, OutpointIndex, Sane, PoolTxOk, InputsAccepted, Resolved, IsStoreFor, ChainValid,
        Replay, IsCoinBase, Unclaimed, PolicyOk, Asks, InputsPass, LetThrough, Fee, Marked, ParentStore;
      var verdict, fee, marked;
      verdict, fee, marked, now := ValidateResolved(chain, height, tx, store, isNew, rateLimit);
      if verdict.Some? {
        return None, verdict.value, now;
      }
      var entered := AddTransaction(chain, marked, tx, height, fee);
      return Some(entered), AlreadyHave, now;
    }

    method ValidateResolved(chain: Chain, height: int, tx: Tx, store: TxStore, isNew: bool, rateLimit: bool)
        returns (verdict: Option<Reason>, fee: int, marked: TxStore, ghost now: int)
      requires PoolOk(pool) && MeterValid() && ChainValid(chain)
      requires IsStoreFor(chain, pool, tx, store) && Sane(tx) && !IsCoinBase(tx)
      modifies `pennyTotal, `lastPennyUnix, `attempts
      ensures MeterValid()
      ensures verdict.None? ==>
        && InputsAccepted(chain, pool.Keys, tx) && Resolved(chain, pool.Keys, tx)
        && PoolTxOk(TxDesc(tx, height, fee, 0.0))
        && fee == Fee(tx) && marked == Marked(ParentStore(chain, pool, tx), tx.ins)
      ensures var parents := Marked(ParentStore(chain, pool, tx), tx.ins);
        && (verdict.None? <==>
              InputsPass(chain, pool, height, tx) &&
              PolicyOk(cfg, tx, parents, height, Fee(tx), isNew, rateLimit, LetThrough(cfg, old(attempts), now)))
        && attempts == old(attempts) +
             if InputsPass(chain, pool, height, tx) && Asks(cfg, tx, parents, height, Fee(tx), isNew, rateLimit)
             then [Attempt(now, tx.size)] else []
    {
      hide PoolTxOk, Keyed, Sane, InputsOk, InputsAccepted, Resolved, IsStoreFor, ChainValid, StoreOk, MissingIn,
        MissingSet, HasUnspent, Lacks, Replay, MinRequiredTxRelayFee, Fee, Marked, PolicyOk, Asks, LetThrough;
      StoreForOk(chain, pool, tx, store);
      StoreIsFor(chain, pool, tx, store);
      var parents := store - {Sha(tx)};
      var paid;
      now := 0;
      paid, marked := CheckTransactionInputs(tx, height + 1, parents);
      if paid.None? {
        return Some(BadInputs), 0, marked, now;
      }
      fee := paid.value;
      StoreForAccepted(chain, pool, tx, store, height);
      verdict, now := CheckPolicy(tx, marked, height, fee, isNew, rateLimit);
    }

    /** Takes an orphan out and offers it to the pool; it goes back while parents are missing. */
    method Reconsider(chain: Chain, height: int, tx: Tx) returns (r: Outcome, ghost e: Offer)
      requires Valid() && ChainValid(chain)
      requires Sha(tx) in orphans && orphans[Sha(tx)] == tx
      modifies this
      ensures Valid()
      ensures e.tx == tx && OfferOk(cfg, old(State()), e)
      ensures State() == AfterOffer(cfg, chain, height, old(State()), e)
      ensures r.Accepted? <==> Welcome(cfg, chain, height, old(State()), e)
      ensures r.MissingParents? <==> Homeless(cfg, chain, height, old(State()), tx)
      ensures r.Accepted? ==>
        && InputsAccepted(chain, old(pool).Keys, tx)
        && r.desc.tx == tx && r.desc.height == height && pool == old(pool)[Sha(tx) := r.desc]
        && orphans == old(orphans) - {Sha(tx)} && |orphans| == |old(orphans)| - 1
      ensures !r.Accepted? ==> pool == old(pool)
      ensures r.Rejected? ==> orphans == old(orphans) - {Sha(tx)} && |orphans| == |old(orphans)| - 1
      ensures r.MissingParents? ==>
        && Lacks(chain, pool.Keys, tx)
        && orphans.Keys <= old(orphans).Keys && |orphans| <= |old(orphans)|
      ensures forall h :: h in orphans ==> orphans[h] == old(orphans)[h]
      ensures old(attempts) <= attempts && (old(randomFailed) ==> randomFailed)
    {
      hide PoolValid, OrphansValid, MeterValid, InputsAccepted, Lacks, ChainValid, MissingSet, Accepts, Orphaned,
        Judged, Described;
      ghost var st := State();
      TakeOut(tx);
      ghost var out := State();
      ghost var now, victim := 0, None;
      r, now := MaybeAcceptTransaction(chain, height, tx, true, true);
      JudgedMeans(cfg, chain, height, out, tx, true, true, now);
      DescribedIs(cfg, chain, pool, height, tx);
      DescribedIs(cfg, chain, old(pool), height, tx);
      if r.MissingParents? {
        victim := PutBack(tx);
      }
      e := Offer(tx, now, victim);
    }

    method TakeOut(tx: Tx)
      requires Valid() && Sha(tx) in orphans
      modifies `orphans, `orphansByPrev
      ensures Valid() && State() == TakenOut(old(State()), tx) && |orphans| == |old(orphans)| - 1
    {
      hide PoolValid, OrphansValid, MeterValid;
      RemoveOrphan(Sha(tx));
    }

    method PutBack(tx: Tx) returns (ghost victim: Option<Hash>)
      requires Valid() && Sha(tx) !in pool && Sha(tx) !in orphans
      modifies `orphans, `orphansByPrev, `randomFailed
      ensures Valid()
      ensures orphans == Less(old(orphans), victim)[Sha(tx) := tx] && Evicts(cfg, old(orphans), victim)
      ensures |orphans| <= |old(orphans)| + 1 && (old(randomFailed) ==> randomFailed)
    {
      hide PoolValid, OrphansValid, MeterValid;
      victim := AddOrphan(tx);
    }

    lemma OrphansKeyed()
      requires OrphansValid()
      ensures forall h :: h in orphans ==> h == Sha(orphans[h])
    {
    }

    /** A pool fit for the chain that only moved orphans of `before` into `was`. */
    ghost predicate Settling(chain: Chain, was: Pool, before: map<Hash, Tx>, pending: seq<Tx>)
      reads this
    {
      && Valid()
      && Fits(chain, pool, pending)
      && Grown(was, before, pool, orphans)
    }

    lemma OrphanEntry(p: Hash, k: Hash)
      requires Valid() && k.TxId? && SpendsFrom(k.tx, p)
      ensures k in orphans <==> p in orphansByPrev && k in orphansByPrev[p]
      ensures k in orphans ==> orphansByPrev[p][k] == orphans[k] && k == Sha(orphans[k]) && k !in pool
    {
      BucketEntry(orphans, orphansByPrev, p, k);
    }

    /** What a range over the orphans of `p` starts from. */
    lemma RangeStart(chain: Chain, p: Hash, excused: set<Hash>)
      requires Valid()
      ensures p in orphansByPrev ==> forall h :: h in orphansByPrev[p] ==> h.TxId? && SpendsFrom(h.tx, p)
      ensures Saturated(chain, pool.Keys, orphans, excused + {p}) ==>
        SaturatedBut(chain, pool.Keys, orphans, excused, if p in orphansByPrev then orphansByPrev[p].Keys else {})
    {
      if p in orphansByPrev {
        BucketSpends(orphans, orphansByPrev, p);
      }
      if Saturated(chain, pool.Keys, orphans, excused + {p}) {
        SaturatedStart(chain, pool.Keys, orphans, orphansByPrev, excused, p);
      }
    }

    /** One turn of the range: an entry evicted before being reached is skipped. */
    method OfferDependent(chain: Chain, height: int, processHash: Hash, k: Hash, ghost pending: seq<Tx>,
                          ghost excused: set<Hash>, ghost todo: set<Hash>, ghost was: Pool, ghost before: map<Hash, Tx>)
        returns (accepted: bool, putBack: bool, ghost log: seq<Offer>)
      requires ChainValid(chain) && PendingClosed(chain, pending)
      requires Settling(chain, was, before, pending)
      requires k.TxId? && SpendsFrom(k.tx, processHash)
      modifies this
      ensures Settling(chain, was, before, pending)
      ensures old(SaturatedBut(chain, pool.Keys, orphans, excused, todo)) ==>
        SaturatedBut(chain, pool.Keys, orphans, if accepted then excused + {k} else excused, todo - {k})
      ensures k !in orphans || Lacks(chain, pool.Keys, k.tx)
      ensures Offered(cfg, chain, height, old(State()), log, State())
      ensures if old(k in orphans) then |log| == 1 && log[0].tx == k.tx else log == []
      ensures accepted <==>
        old(k in orphans) && Accepts(cfg, chain, height, TakenOut(old(State()), k.tx), k.tx, true, true, log[0].now)
      ensures putBack <==> old(k in orphans) && Orphaned(cfg, chain, height, TakenOut(old(State()), k.tx), k.tx)
      ensures putBack ==> k in orphans
      ensures old(pool).Keys <= pool.Keys && (accepted ==> k in pool && k !in old(pool))
      ensures |orphans| + (if accepted then 1 else 0) <= |old(orphans)|
      ensures old(attempts) <= attempts && (old(randomFailed) ==> randomFailed)
    {
      hide PoolValid, OrphansValid, MeterValid, Fits, SaturatedBut, InputsAccepted, Lacks, ChainValid, PendingClosed,
        Grown, SpendsFrom, Accepts, Orphaned, AfterOffer, OfferOk, Offered;
      OrphanEntry(processHash, k);
      NothingOffered(cfg, chain, height, State());
      ghost var start := SaturatedBut(chain, pool.Keys, orphans, excused, todo);
      if processHash !in orphansByPrev || k !in orphansByPrev[processHash] {
        if start {
          SaturatedDropped(chain, pool.Keys, orphans, excused, todo, orphans, k);
        }
        return false, false, [];
      }
      ghost var st, e := State(), Offer(k.tx, 0, None);
      var r;
      r, e := Reconsider(chain, height, orphansByPrev[processHash][k]);
      OfferedOne(cfg, chain, height, st, e, State());
      if r.MissingParents? {
        AfterHomeless(cfg, chain, height, st, e);
      }
      if r.Accepted? {
        FitsWith(chain, old(pool), pending, r.desc);
        GrownWith(was, before, old(pool), old(orphans), r.desc);
        assert pool.Keys == old(pool).Keys + {k};
        if start {
          SaturatedAccepted(chain, old(pool).Keys, old(orphans), excused, todo, k);
        }
      } else {
        GrownFewer(was, before, pool, old(orphans), orphans);
        if start {
          SaturatedDropped(chain, pool.Keys, old(orphans), excused, todo, orphans, k);
        }
      }
      return r.Accepted?, r.MissingParents?, [e];
    }

    /** Offers the orphans in `dependents` to the pool, each at least once unless it is evicted
        meanwhile.  A Go map may produce an entry again that was put back while it is being
        ranged over, though only finitely often. */
    method OfferAll(chain: Chain, height: int, processHash: Hash, dependents: set<Hash>, ghost pending: seq<Tx>,
                    ghost excused: set<Hash>, ghost was: Pool, ghost before: map<Hash, Tx>)
        returns (accepted: seq<Hash>, ghost log: seq<Offer>)
      requires ChainValid(chain) && PendingClosed(chain, pending)
      requires Settling(chain, was, before, pending)
      requires forall k :: k in dependents ==> k.TxId? && SpendsFrom(k.tx, processHash)
      modifies this
      ensures Settling(chain, was, before, pending)
      ensures old(SaturatedBut(chain, pool.Keys, orphans, excused, dependents)) ==>
        SaturatedBut(chain, pool.Keys, orphans, excused + AsHashSet(accepted), {})
      ensures Offered(cfg, chain, height, old(State()), log, State()) && AllSpend(log, processHash)
      ensures old(pool).Keys <= pool.Keys && AsHashSet(accepted) <= pool.Keys - old(pool).Keys
      ensures |orphans| + |accepted| <= |old(orphans)|
      ensures old(attempts) <= attempts && (old(randomFailed) ==> randomFailed)
    {
      hide *;
      accepted, log := [], [];
      AsHashSetNone(excused);
      AsHashSetNone({});
      NoneSpend(processHash);
      NothingOffered(cfg, chain, height, State());
      ghost var start := SaturatedBut(chain, pool.Keys, orphans, excused, dependents);
      var todo := dependents;
      var repeats: nat := *;
      while todo != {}
        invariant Settling(chain, was, before, pending)
        invariant todo <= dependents && Offered(cfg, chain, height, old(State()), log, State())
        invariant AllSpend(log, processHash)
        invariant old(pool).Keys <= pool.Keys && AsHashSet(accepted) <= pool.Keys - old(pool).Keys
        invariant start ==> SaturatedBut(chain, pool.Keys, orphans, excused + AsHashSet(accepted), todo)
        invariant |orphans| + |accepted| <= |old(orphans)|
        invariant old(attempts) <= attempts && (old(randomFailed) ==> randomFailed)
        decreases repeats, todo
      {
        var k :| k in todo;
        ghost var excuse := excused + AsHashSet(accepted);
        ghost var mid, more := State(), [];
        var entered, putBack;
        entered, putBack, more := OfferDependent(chain, height, processHash, k, pending, excuse, todo, was, before);
        OfferedMore(cfg, chain, height, old(State()), log, mid, more, State());
        MoreSpend(log, more, k, processHash);
        log := log + more;
        todo := todo - {k};
        var again: bool := *;
        if entered {
          AsHashSetSnoc(excused, accepted, k);
          AsHashSetSnoc({}, accepted, k);
          accepted := accepted + [k];
        } else if putBack && again && repeats > 0 {
          SaturatedMore(chain, pool.Keys, orphans, excuse, todo, k);
          todo, repeats := todo + {k}, repeats - 1;
        }
      }
    }

    /** Offers every orphan that spends from `processHash` to the pool. */
    method ProcessDependents(chain: Chain, height: int, processHash: Hash, ghost pending: seq<Tx>,
                             ghost excused: set<Hash>, ghost was: Pool, ghost before: map<Hash, Tx>)
        returns (accepted: seq<Hash>, ghost log: seq<Offer>)
      requires ChainValid(chain) && PendingClosed(chain, pending)
      requires Settling(chain, was, before, pending)
      modifies this
      ensures Settling(chain, was, before, pending)
      ensures Offered(cfg, chain, height, old(State()), log, State()) && AllSpend(log, processHash)
      ensures old(pool).Keys <= pool.Keys && AsHashSet(accepted) <= pool.Keys - old(pool).Keys
      ensures old(Saturated(chain, pool.Keys, orphans, excused + {processHash})) ==>
        Saturated(chain, pool.Keys, orphans, excused + AsHashSet(accepted))
      ensures |orphans| + |accepted| <= |old(orphans)|
      ensures old(attempts) <= attempts && (old(randomFailed) ==> randomFailed)
    {
      hide ChainValid, PendingClosed, Lacks, SpendsAny, SpendsFrom, Saturated, SaturatedBut, AsHashSet, OrphansValid,
        PoolValid, MeterValid, Fits, Grown;
      RangeStart(chain, processHash, excused);
      if processHash !in orphansByPrev {
        AsHashSetNone(excused);
        AsHashSetNone({});
        SaturatedEnd(chain, pool.Keys, orphans, excused);
        NothingOffered(cfg, chain, height, State());
        return [], [];
      }
      var dependents := orphansByPrev[processHash].Keys;
      accepted, log := OfferAll(chain, height, processHash, dependents, pending, excused, was, before);
      SaturatedEnd(chain, pool.Keys, orphans, excused + AsHashSet(accepted));
    }

    /** Offers the orphans that spend from `hash` to the pool, then those that spend from what
        was accepted, until nothing more is accepted. */
    method ProcessOrphans(chain: Chain, height: int, hash: Hash, ghost pending: seq<Tx>, ghost excused: set<Hash>)
        returns (ghost log: seq<Offer>)
      requires Valid() && ChainValid(chain)
      requires Fits(chain, pool, pending) && PendingClosed(chain, pending)
      modifies this
      ensures Valid() && Fits(chain, pool, pending)
      ensures Grown(old(pool), old(orphans), pool, orphans)
      ensures OfferedFrom(cfg, chain, height, hash, old(State()), log, State())
      ensures old(Saturated(chain, pool.Keys, orphans, excused + {hash})) ==>
        Saturated(chain, pool.Keys, orphans, excused)
      ensures old(attempts) <= attempts && (old(randomFailed) ==> randomFailed)
    {
      hide PoolValid, OrphansValid, MeterValid, Fits, Saturated, PendingClosed, ChainValid, Tracing, OfferedFrom,
        AsHashSet, Grown;
      ghost var start := Saturated(chain, pool.Keys, orphans, excused + {hash});
      var processHashes := [hash];
      log := [];
      AsHashSetOne(excused, hash);
      AsHashSetOne({}, hash);
      GrownStart(pool, orphans);
      TraceStart(cfg, chain, height, hash, State());
      assert Settling(chain, pool, orphans, pending);
      ghost var was, before, st := pool, orphans, State();
      while processHashes != []
        invariant Settling(chain, was, before, pending)
        invariant start ==> Saturated(chain, pool.Keys, orphans, excused + AsHashSet(processHashes))
        invariant Tracing(cfg, chain, height, hash, st, log, State(), {} + AsHashSet(processHashes))
        invariant old(attempts) <= attempts && (old(randomFailed) ==> randomFailed)
        decreases 2 * |orphans| + |processHashes|
      {
        hide *;
        var processHash := processHashes[0];
        ghost var excuse := excused + AsHashSet(processHashes[1..]);
        AsHashSetCons(excused, processHashes);
        AsHashSetCons({}, processHashes);
        ghost var mid, more := State(), [];
        StateIs();
        var accepted;
        accepted, more := ProcessDependents(chain, height, processHash, pending, excuse, was, before);
        StateIs();
        ghost var todo := {} + AsHashSet(processHashes[1..]);
        TraceMore(cfg, chain, height, hash, st, log, mid, todo, processHash, more, State(), AsHashSet(accepted));
        AsHashSetConcat(excused, processHashes[1..], accepted);
        AsHashSetConcat({}, processHashes[1..], accepted);
        log := log + more;
        processHashes := processHashes[1..] + accepted;
      }
      TraceEnd(cfg, chain, height, hash, st, log, State(), {} + AsHashSet(processHashes));
      AsHashSetNone(excused);
    }

    lemma StateIs()
      ensures State() == Stage(pool, orphans, attempts)
    {
    }

    /** What follows acceptance: the orphans that were waiting for the transaction. */
    method AcceptDependents(chain: Chain, height: int, desc: TxDesc, ghost without: Pool, ghost excused: set<Hash>)
        returns (ghost log: seq<Offer>)
      requires Valid() && ChainValid(chain) && pool == without[Sha(desc.tx) := desc]
      requires Fits(chain, without, []) && InputsAccepted(chain, without.Keys, desc.tx)
      modifies this
      ensures Valid() && Fits(chain, pool, [])
      ensures Saturated(chain, without.Keys, old(orphans), excused) ==> Saturated(chain, pool.Keys, orphans, excused)
      ensures old(pool).Keys <= pool.Keys && orphans.Keys <= old(orphans).Keys
      ensures OfferedFrom(cfg, chain, height, Sha(desc.tx), old(State()), log, State())
      ensures old(attempts) <= attempts && (old(randomFailed) ==> randomFailed)
    {
      hide *;
      NothingPending(chain);
      FitsWith(chain, without, [], desc);
      assert pool.Keys == without.Keys + {Sha(desc.tx)};
      if Saturated(chain, without.Keys, orphans, excused) {
        SaturatedWith(chain, without.Keys, orphans, excused, Sha(desc.tx));
      }
      log := ProcessOrphans(chain, height, Sha(desc.tx), [], excused);
      GrownKeeps(old(pool), old(orphans), pool, orphans);
    }

    /** Orphans are unaffected by what only concerns the pool. */
    lemma KeptSaturated(chain: Chain, before: map<Hash, Tx>, excused: set<Hash>, tx: Tx)
      requires OrphansValid() && forall h :: h in before ==> h == Sha(before[h])
      requires orphans.Keys <= before.Keys + {Sha(tx)} && Lacks(chain, pool.Keys, tx)
      ensures Saturated(chain, pool.Keys, before, excused) ==> Saturated(chain, pool.Keys, orphans, excused)
    {
      OrphansKeyed();
      hide OrphansValid, Lacks, Saturated;
      if Saturated(chain, pool.Keys, before, excused) {
        SaturatedOrphan(chain, pool.Keys, before, excused, orphans, Sha(tx));
      }
    }

    method KeepOrphan(chain: Chain, tx: Tx, ghost excused: set<Hash>) returns (kept: bool, ghost victim: Option<Hash>)
      requires Valid() && Sha(tx) !in pool && Sha(tx) !in orphans && Lacks(chain, pool.Keys, tx)
      modifies `orphans, `orphansByPrev, `randomFailed
      ensures Valid()
      ensures Saturated(chain, pool.Keys, old(orphans), excused) ==> Saturated(chain, pool.Keys, orphans, excused)
      ensures kept <==> tx.size <= 5000
      ensures Evicts(cfg, old(orphans), victim)
      ensures orphans == if kept then Less(old(orphans), victim)[Sha(tx) := tx] else old(orphans)
      ensures old(randomFailed) ==> randomFailed
    {
      hide PoolValid, MeterValid, OrphansValid, Saturated, Lacks;
      OrphansKeyed();
      kept, victim := MaybeAddOrphan(tx);
      KeptSaturated(chain, old(orphans), excused, tx);
    }

    /** Accepts the transaction and whatever orphans it completes, or keeps it as an orphan. */
    method ProcessTransaction(chain: Chain, height: int, tx: Tx, allowOrphan: bool, rateLimit: bool,
                              ghost excused: set<Hash>)
        returns (r: Outcome, ghost now: int, ghost log: seq<Offer>, ghost victim: Option<Hash>)
      requires Valid() && ChainValid(chain) && Fits(chain, pool, [])
      modifies this
      ensures Valid() && Fits(chain, pool, [])
      ensures old(Saturated(chain, pool.Keys, orphans, excused)) ==> Saturated(chain, pool.Keys, orphans, excused)
      ensures r.Accepted? <==> Accepts(cfg, chain, height, old(State()), tx, true, rateLimit, now)
      ensures r.Accepted? ==>
        && OfferedFrom(cfg, chain, height, Sha(tx), Judged(cfg, chain, height, old(State()), tx, true, rateLimit, now),
                       log, State())
        && Sha(tx) in pool && old(pool).Keys <= pool.Keys && orphans.Keys <= old(orphans).Keys
        && r.desc == Described(cfg, chain, old(pool), height, tx)
      ensures r.MissingParents? <==>
        Orphaned(cfg, chain, height, old(State()), tx) && allowOrphan && tx.size <= 5000
      ensures r.MissingParents? ==>
        && Lacks(chain, pool.Keys, tx) && Evicts(cfg, old(orphans), victim)
        && State() == old(State()).(orphans := Less(old(orphans), victim)[Sha(tx) := tx])
      ensures r.Rejected? ==> State() == Judged(cfg, chain, height, old(State()), tx, true, rateLimit, now)
      ensures !r.Accepted? ==> pool == old(pool)
      ensures old(attempts) <= attempts && (old(randomFailed) ==> randomFailed)
    {
      hide Valid, PoolValid, OrphansValid, MeterValid, Fits, Saturated, ChainValid, Accepts, Orphaned, Judged, Lacks,
        OfferedFrom, Described, InputsAccepted, Evicts, MissingSet;
      log, victim := [], None;
      r, now := MaybeAcceptTransaction(chain, height, tx, true, rateLimit);
      JudgedMeans(cfg, chain, height, old(State()), tx, true, rateLimit, now);
      DescribedIs(cfg, chain, old(pool), height, tx);
      match r
      case Accepted(desc) =>
        log := AcceptDependents(chain, height, desc, old(pool), excused);
      case MissingParents(_) =>
        if !allowOrphan {
          r := Rejected(OrphanNotAllowed);
          return;
        }
        var kept;
        kept, victim := KeepOrphan(chain, tx, excused);
        if !kept {
          r := Rejected(OrphanTooLarge);
          return;
        }
      case Rejected(_) =>
    }

    // ---------- Connected blocks ----------

    /** Takes the transactions of a block that has just been connected out of the pool, along
        with what now double spends, and lets in the orphans that waited for them. */
    method BlockConnected(chain: Chain, height: int, block: seq<Tx>, ghost before: Chain, ghost excused: set<Hash>)
        returns (ghost logs: seq<seq<Offer>>)
      requires Valid() && Fits(before, pool, [])
      requires BlockExtends(before, block, height) && chain == ApplyBlock(before, block, height)
      modifies this
      ensures Valid() && Fits(chain, pool, [])
      ensures block != [] && Connected(cfg, chain, height, old(State()), block[1..], logs, State())
      ensures forall h :: h in old(pool) ==> (h in pool <==> Survives(old(pool), block[1..], h))
      ensures forall h :: h in old(pool) && h in pool ==> pool[h] == old(pool)[h]
      ensures forall t :: t in block[1..] ==> Settled(pool, t)
      ensures NoneKept(orphans, block[1..])
      ensures Within(pool, orphans, old(pool), old(orphans))
      ensures old(Saturated(before, pool.Keys, orphans, excused)) ==>
        Saturated(chain, pool.Keys, orphans, excused + {Sha(block[0])})
      ensures old(attempts) <= attempts && (old(randomFailed) ==> randomFailed)
    {
      StateIs();
      ghost var excuse := excused + {Sha(block[0])};
      hide *;
      ghost var start, was := Saturated(before, pool.Keys, orphans, excused), State();
      logs := [];
      ConnectStart(before, block, height, excused, was);
      for i := 1 to |block|
        invariant Connecting(chain, height, block, i, before, start, excuse, was, logs)
        invariant old(randomFailed) ==> randomFailed
      {
        ghost var log := ConnectOne(chain, height, block, i, before, start, excuse, was, logs);
        logs := logs + [log];
      }
      ConnectEnd(before, block, height, start, excuse, was, logs);
      StateIs();
      assert was == old(State());
    }

    /** The block transactions before the i-th are settled, the rest is pending; the logs tell
        how it came to that from `was`. */
    ghost predicate Connecting(chain: Chain, height: int, block: seq<Tx>, i: nat, before: Chain, start: bool,
                               excused: set<Hash>, was: Stage, logs: seq<seq<Offer>>)
      requires 1 <= i <= |block|
      reads this
    {
      && Valid()
      && UnderWay(before, block, height, i, was.pool, pool) && chain == ApplyBlock(before, block, height)
      && Fits(chain, pool, block[i..])
      && NoneKept(orphans, block[1..i])
      && Within(pool, orphans, was.pool, was.orphans)
      && was.attempts <= attempts
      && Connected(cfg, chain, height, was, block[1..i], logs, State())
      && (start ==> Saturated(chain, pool.Keys, orphans, excused + Shas(block[i..])))
    }

    /** Takes one block transaction out, with what it double spends, and drops its orphan copy. */
    method EvictMined(chain: Chain, height: int, block: seq<Tx>, i: nat, ghost before: Chain)
      requires BlockExtends(before, block, height) && chain == ApplyBlock(before, block, height)
      requires 1 <= i < |block| && Valid() && Fits(chain, pool, block[i..])
      modifies `pool, `outpoints, `addrindex, `orphans, `orphansByPrev
      ensures Valid() && Fits(chain, pool, block[i + 1..])
      ensures State() == AfterMined(old(State()), block[i])
    {
      hide *;
      StateIs();
      ghost var st := State();
      EvictConflicts(chain, height, block, i, before);
      DropOrphan(Sha(block[i]));
      StateIs();
      AfterMinedIs(st, block[i], pool, orphans, attempts);
    }

    /** Drops the orphan, if it is one. */
    method DropOrphan(h: Hash)
      requires Valid()
      modifies `orphans, `orphansByPrev
      ensures Valid() && orphans == old(orphans) - {h}
    {
      hide PoolValid, OrphansValid, MeterValid;
      RemoveOrphan(h);
    }

    method EvictConflicts(chain: Chain, height: int, block: seq<Tx>, i: nat, ghost before: Chain)
      requires BlockExtends(before, block, height) && chain == ApplyBlock(before, block, height)
      requires 1 <= i < |block| && Valid() && Fits(chain, pool, block[i..])
      modifies `pool, `outpoints, `addrindex
      ensures Valid() && Fits(chain, pool, block[i + 1..])
      ensures pool == Evicted(old(pool), block[i])
    {
      hide PoolValid, OrphansValid, MeterValid, ApplyBlock, Fits, BlockExtends, Evicted;
      EvictedIsLess(pool, block[i]);
      EvictFromPool(chain, height, block, i, before);
    }

    method EvictFromPool(chain: Chain, height: int, block: seq<Tx>, i: nat, ghost before: Chain)
      requires BlockExtends(before, block, height) && chain == ApplyBlock(before, block, height)
      requires 1 <= i < |block| && PoolValid() && Fits(chain, pool, block[i..])
      modifies `pool, `outpoints, `addrindex
      ensures PoolValid() && Fits(chain, pool, block[i + 1..])
      ensures pool == Evicted(old(pool), block[i])
    {
      hide ApplyBlock, PoolOk, AddrIndexOk, OutpointIndex, Ousted, Fits, BlockExtends;
      var tx := block[i];
      RemoveTransaction(chain, tx, false);
      ghost var middle := pool;
      RemoveDoubleSpends(chain, tx);
      FitsNext(before, block, height, i, old(pool), middle, pool);
    }

    /** One turn of the loop over the block transactions. */
    method ConnectOne(chain: Chain, height: int, block: seq<Tx>, i: nat, ghost before: Chain, ghost start: bool,
                      ghost excused: set<Hash>, ghost was: Stage, ghost logs: seq<seq<Offer>>)
        returns (ghost log: seq<Offer>)
      requires 1 <= i < |block| && Connecting(chain, height, block, i, before, start, excused, was, logs)
      modifies this
      ensures Connecting(chain, height, block, i + 1, before, start, excused, was, logs + [log])
      ensures OfferedFrom(cfg, chain, height, Sha(block[i]), AfterMined(old(State()), block[i]), log, State())
      ensures old(randomFailed) ==> randomFailed
    {
      hide ChainValid, PendingClosed, Saturated, Fits, ApplyBlock, BlockExtends, NoneKept, Shas, Valid, UnderWay,
        OfferedFrom, Evicted, Connected, Within;
      ghost var rest, st := excused + Shas(block[i + 1..]), State();
      UnderWayFacts(before, block, height, i, was.pool, pool);
      BlockChainValid(before, block, height);
      PendingClosedAt(before, block, height, i + 1);
      EvictMined(chain, height, block, i, before);
      EvictedIsLess(st.pool, block[i]);
      ShasSplit(excused, block, i);
      if start {
        SaturatedShrinks(chain, st.pool.Keys, st.orphans, rest + {Sha(block[i])}, pool.Keys, orphans);
      }
      ghost var mid, left := pool, orphans;
      log := ProcessOrphans(chain, height, Sha(block[i]), block[i + 1..], rest);
      GrownKeeps(mid, left, pool, orphans);
      NoneKeptStep(st.orphans, orphans, block, i);
      PoolIsOk();
      UnderWayStep(before, block, height, i, was.pool, st.pool, pool);
      WithinLess(mid, left, st.pool, st.orphans);
      WithinTrans(pool, orphans, mid, left, st.pool, st.orphans);
      WithinTrans(pool, orphans, st.pool, st.orphans, was.pool, was.orphans);
      ConnectedMore(cfg, chain, height, was, block[1..i], logs, st, block[i], log, State());
      assert block[1..i] + [block[i]] == block[1..i + 1];
    }

    lemma PoolIsOk()
      requires Valid()
      ensures PoolOk(pool)
    {
    }

    lemma ConnectStart(before: Chain, block: seq<Tx>, height: int, excused: set<Hash>, was: Stage)
      requires Valid() && Fits(before, pool, []) && BlockExtends(before, block, height) && was == State()
      ensures block != []
      ensures Connecting(ApplyBlock(before, block, height), height, block, 1, before,
                Saturated(before, pool.Keys, orphans, excused), excused + {Sha(block[0])}, was, [])
    {
      hide Valid, UnderWay, BlockExtends, Fits, ApplyBlock, Saturated, Shas, Connected, NoneKept, Within, PoolOk;
      PoolIsOk();
      UnderWayStart(before, block, height, pool);
      FitsBlockStart(before, block, height, pool);
      ShasSplit(excused, block, 1);
      ConnectedNone(cfg, ApplyBlock(before, block, height), height, was);
      if Saturated(before, pool.Keys, orphans, excused) {
        SaturatedBlockStart(before, block, height, pool.Keys, orphans, excused);
      }
      NoneKeptStart(orphans);
      WithinLess(pool, orphans, pool, orphans);
      assert block[1..1] == [];
    }

    lemma ConnectEnd(before: Chain, block: seq<Tx>, height: int, start: bool, excused: set<Hash>, was: Stage,
                     logs: seq<seq<Offer>>)
      requires block != []
      requires Connecting(ApplyBlock(before, block, height), height, block, |block|, before, start, excused, was, logs)
      ensures Valid() && Fits(ApplyBlock(before, block, height), pool, [])
      ensures Connected(cfg, ApplyBlock(before, block, height), height, was, block[1..], logs, State())
      ensures forall h :: h in was.pool ==> (h in pool <==> Survives(was.pool, block[1..], h))
      ensures forall h :: h in was.pool && h in pool ==> pool[h] == was.pool[h]
      ensures forall t :: t in block[1..] ==> Settled(pool, t)
      ensures NoneKept(orphans, block[1..]) && Within(pool, orphans, was.pool, was.orphans)
      ensures was.attempts <= attempts
      ensures start ==> Saturated(ApplyBlock(before, block, height), pool.Keys, orphans, excused)
    {
      hide BlockExtends, Fits, ApplyBlock, Settled, PoolTxOk, AddrIndexOk, OutpointIndex, OrphanIndex, Saturated,
        Shas, NoneKept, UnderWay, Survives, Connected, Within;
      ShasSplit(excused, block, |block|);
      assert block[|block|..] == [] && block[1..|block|] == block[1..];
      SettledAtEnd(before, block, height, was.pool, pool);
      forall h | h in was.pool
        ensures h in pool <==> Survives(was.pool, block[1..], h)
        ensures h in pool ==> pool[h] == was.pool[h]
      {
        LeftAreSurvivors(before, block, height, was.pool, pool, h);
        if h in pool {
          StillHeld(before, block, height, |block|, was.pool, pool, h);
        }
      }
    }

    // ---------- The rate limiter over a whole run ----------

    /** As long as the clock never went back, the decaying byte count stays below the limit plus
        one maximal charge. */
    lemma PennyTotalBounded()
      requires Valid() && ClockMonotone(attempts) && 0.0 <= cfg.freeTxRelayLimit
      ensures 0.0 <= pennyTotal < cfg.freeTxRelayLimit * 10000.0 + 49000.0
    {
      hide PoolValid, OrphansValid, Replay;
      TotalBounded(cfg.freeTxRelayLimit * 10000.0, attempts);
    }

    /** And so do the free bytes let through within any `seconds`, weighed with their fading. */
    lemma FreeBytesBounded(i: nat, j: nat, seconds: nat, relayed: real, p: real)
      requires Valid() && ClockMonotone(attempts) && 0.0 <= cfg.freeTxRelayLimit
      requires i < j <= |attempts| && attempts[j - 1].now - attempts[i].now <= seconds
      requires relayed == Relayed(cfg.freeTxRelayLimit * 10000.0, attempts, i, j) && p == Pow(seconds)
      ensures relayed * p < cfg.freeTxRelayLimit * 10000.0 + 49000.0
    {
      hide PoolValid, OrphansValid, Relayed, Replay;
      WindowBounded(cfg.freeTxRelayLimit * 10000.0, attempts, i, j, seconds, relayed, p);
    }

    // ---------- Lookups ----------

    /** The pooled transactions that pay the address or spend an output that paid it. */
    method FilterTransactionsByAddress(addr: Address) returns (r: Option<seq<Tx>>)
      requires PoolValid()
      ensures r.Some? ==> Distinct(r.value) && forall t :: t in r.value <==> Sha(t) in pool && Touches(t, addr)
      ensures r.None? && cfg.enableAddrIndex ==> forall h :: h in pool ==> !Touches(pool[h].tx, addr)
      ensures r.None? <==> addr !in addrindex
      ensures !cfg.enableAddrIndex ==> r.None?
    {
      if addr !in addrindex {
        return None;
      }
      var todo := addrindex[addr];
      var found: seq<Tx> := [];
      while todo != {}
        invariant todo <= addrindex[addr]
        invariant Distinct(found)
        invariant forall t :: t in found ==> Sha(t) !in todo
        invariant forall t :: t in found <==> Sha(t) in addrindex[addr] - todo && Sha(t) in pool
      {
        var h :| h in todo;
        todo := todo - {h};
        if h in pool {
          found := found + [pool[h].tx];
        }
      }
      return Some(found);
    }
  }
}
