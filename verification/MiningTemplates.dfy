/** What can be read off a finished template: the order in which items were taken, and that each
    transaction is final and spends nothing immature. */
module MiningTemplates {
  import opened Ledger
  import opened Validation
  import opened PoolIndex
  import opened Mining
  import opened MiningTheorems
  import opened MiningDependents

  /** At each turn no queued item beats the one taken: before the change of ordering none has a higher
      priority, or the same and a higher fee rate; after it the two count the other way round. */
  lemma BestFirst(s: Setting, isFinal: Tx -> bool, source: seq<TxDesc>, run: seq<Moment>, turns: seq<PrioItem>,
                  t: Template, k: nat, other: PrioItem)
    requires s.coinbase.outs != [] && Made(s, isFinal, source, run, turns, t) && k < |turns|
    requires |run| == |turns| + 1 && other in run[k].queue
    ensures turns[k] in run[k].queue
    ensures run[k].p.sortedByFee ==>
              && other.feePerKB <= turns[k].feePerKB
              && (other.feePerKB == turns[k].feePerKB ==> other.priority <= turns[k].priority)
    ensures !run[k].p.sortedByFee ==>
              && other.priority <= turns[k].priority
              && (other.priority == turns[k].priority ==> other.feePerKB <= turns[k].feePerKB)
  {
    MadeParts(s, isFinal, source, run, turns, t);
    hide Made, StartsAt, Steady, Next, QueueAfter;
    assert Turn(s, run[k], turns[k], run[k + 1]);
  }

  /** The ordering starts by fee only without a priority area, and changes to it at the first turn of an item
      that fits the block but fills the priority area or has no high priority; it never changes back. */
  lemma OrderingChanges(s: Setting, isFinal: Tx -> bool, source: seq<TxDesc>, run: seq<Moment>, turns: seq<PrioItem>,
                        t: Template, k: nat)
    requires s.coinbase.outs != [] && Made(s, isFinal, source, run, turns, t) && k < |turns|
    ensures |run| == |turns| + 1
    ensures run[0].p.sortedByFee <==> s.policy.blockPrioritySize == 0
    ensures var p, item := run[k].p, turns[k];
      run[k + 1].p.sortedByFee <==>
        || p.sortedByFee
        || (Fit(s.policy, s.checks, p.b, item.tx) &&
            (p.b.size + item.tx.size >= s.policy.blockPrioritySize || item.priority <= 57_600_000.0))
  {
    MadeParts(s, isFinal, source, run, turns, t);
    StartAt(s, isFinal, source, run, turns);
    TurnAt(s, isFinal, source, run, turns, k);
    NextOrder(s, run[k].p, turns[k]);
    hide Made, Chose, Building, Fit, QueueAfter, InitialQueue, Next, Items, Needs, Lists, Stores;
  }

  lemma NextOrder(s: Setting, p: Progress, item: PrioItem)
    ensures Next(s, p, item).sortedByFee <==>
            || p.sortedByFee
            || (Fit(s.policy, s.checks, p.b, item.tx) &&
                (p.b.size + item.tx.size >= s.policy.blockPrioritySize || item.priority <= 57_600_000.0))
  {
    hide Fit, Passes, SpentStore, Passing, Shortened;
  }

  /** Each template transaction was taken at some turn. */
  lemma TakenAt(s: Setting, isFinal: Tx -> bool, source: seq<TxDesc>, run: seq<Moment>, turns: seq<PrioItem>,
                t: Template, i: nat) returns (k: nat)
    requires s.coinbase.outs != [] && Made(s, isFinal, source, run, turns, t) && 1 <= i < |t.txs|
    ensures |run| == |turns| + 1 && Chose(s, isFinal, source, run, turns)
    ensures k < |turns| && turns[k].tx == t.txs[i] && Takes(s, run[k].p, turns[k])
  {
    hide *;
    MadeParts(s, isFinal, source, run, turns, t);
    assert t.txs[1..][i - 1] == t.txs[i];
    k := InWasTaken(s, isFinal, source, run, turns, t.txs[i], |turns|);
  }

  /** Every template transaction is final, and none but the first is a coinbase. */
  lemma TemplateFinal(s: Setting, isFinal: Tx -> bool, source: seq<TxDesc>, run: seq<Moment>, turns: seq<PrioItem>,
                      t: Template, i: nat)
    requires s.coinbase.outs != [] && Made(s, isFinal, source, run, turns, t) && 1 <= i < |t.txs|
    ensures isFinal(t.txs[i]) && t.txs[i].ins != [OutPoint(RawHash(0), 0xffff_ffff)]
  {
    var k := TakenAt(s, isFinal, source, run, turns, t, i);
    StartAt(s, isFinal, source, run, turns);
    TurnAt(s, isFinal, source, run, turns, k);
    hide Made, Chose, Building, Next, QueueAfter, InitialQueue, Takes, Items, Needs, Lists, Stores;
    var n := ItemSource(s.chain, s.height, s.checks, isFinal, s.have, source, Sha(turns[k].tx));
    assert source[n].tx == turns[k].tx;
  }

  /** No template transaction spends a coinbase output of the chain that is fewer than 100 blocks below
      the block. */
  lemma TemplateMature(s: Setting, isFinal: Tx -> bool, source: seq<TxDesc>, run: seq<Moment>, turns: seq<PrioItem>,
                       t: Template, i: nat, o: OutPoint)
    requires SettingOk(s) && s.coinbase.outs != [] && Made(s, isFinal, source, run, turns, t)
    requires 1 <= i < |t.txs| && o in t.txs[i].ins && o.hash in s.chain && o.hash.TxId?
    requires o.hash.tx.ins == [OutPoint(RawHash(0), 0xffff_ffff)]
    ensures s.chain[o.hash].height + 100 <= s.height
  {
    hide *;
    var k := TakenAt(s, isFinal, source, run, turns, t, i);
    TurnAt(s, isFinal, source, run, turns, k);
    TakesInput(s, run[k].p, turns[k], o);
    StartsFetched(s, isFinal, source, run, turns);
    StoreAt(s, isFinal, source, run, turns, k);
    IncludedAreNew(s, run[k].p);
    ShownHeight(s, run[0].p.b.store, run[k].p.b, Marks(s, run, turns, k), o);
  }

  /** The store shows a mined transaction at the height it was mined at. */
  lemma ShownHeight(s: Setting, start: TxStore, b: Block, marks: seq<OutPoint>, o: OutPoint)
    requires StoreIs(s, start, b, marks) && InputOk(b.store, s.height, o)
    requires forall h :: h in start ==> start[h] == FetchOne(s.chain, h)
    requires forall h :: h in Shas(b.txs) ==> h !in s.chain
    requires o.hash in s.chain && o.hash.TxId? && o.hash.tx.ins == [OutPoint(RawHash(0), 0xffff_ffff)]
    ensures s.chain[o.hash].height + 100 <= s.height
  {
    assert b.store[o.hash] == MarkData(o.hash, Clean(s.height, start, b.txs, o.hash), marks);
  }
}
