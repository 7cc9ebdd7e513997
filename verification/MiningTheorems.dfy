/** What a run of the template builder means: its simulated store is exact, every candidate is
    judged fairly, and no ready candidate is forgotten. */
module MiningTheorems {
  import opened Ledger
  import opened Validation
  import opened PoolIndex
  import opened Supply
  import opened Mining

  // ---------- The simulated store ----------

  /** The inputs that a turn marks spent. */
  ghost function TurnMarks(s: Setting, p: Progress, item: PrioItem): seq<OutPoint> {
    if Tried(s, p, item) then Passing(p.b.store, s.height, item.tx.ins) else []
  }

  /** All inputs marked in the first `n` turns. */
  ghost function Marks(s: Setting, run: seq<Moment>, turns: seq<PrioItem>, n: nat): seq<OutPoint>
    requires |run| == |turns| + 1 && n <= |turns|
  {
    if n == 0 then [] else Marks(s, run, turns, n - 1) + TurnMarks(s, run[n - 1].p, turns[n - 1])
  }

  /** A transaction as the store shows it before anything is marked. */
  function Clean(height: int, start: TxStore, txs: seq<Tx>, h: Hash): TxData {
    if h.TxId? && h in Shas(txs) then FreshData(h.tx, height)
    else if h in start then start[h]
    else Missing
  }

  /** The store holds what it held at the start and the block's outputs, with exactly the given
      outputs marked on top of what the chain has spent. */
  ghost predicate StoreIs(s: Setting, start: TxStore, b: Block, marks: seq<OutPoint>) {
    && b.store.Keys == start.Keys + Shas(b.txs)
    && forall h :: h in b.store ==> b.store[h] == MarkData(h, Clean(s.height, start, b.txs, h), marks)
  }

  /** Only outputs that exist by then are marked. */
  ghost predicate MarksExist(s: Setting, b: Block, marks: seq<OutPoint>) {
    forall o :: o in marks ==> o.hash in s.chain || o.hash in Shas(b.txs)
  }

  lemma MarkTwice(h: Hash, d: TxData, a: seq<OutPoint>, b: seq<OutPoint>)
    ensures MarkData(h, MarkData(h, d, a), b) == MarkData(h, d, a + b)
    ensures MarkData(h, MarkData(h, MarkData(h, d, a), b), b) == MarkData(h, d, a + b)
  {
    if d.Found? {
      assert MarkSpent(h, MarkSpent(h, d.spent, a), b) == MarkSpent(h, d.spent, a + b);
    }
  }

  lemma MarkElsewhere(h: Hash, d: TxData, marks: seq<OutPoint>)
    requires forall o :: o in marks ==> o.hash != h
    ensures MarkData(h, d, marks) == d
  {
    if d.Found? {
      assert MarkSpent(h, d.spent, marks) == d.spent;
    }
  }

  /** What gets through the input check exists. */
  lemma PassingExist(s: Setting, b: Block, ins: seq<OutPoint>)
    requires Sound(s.chain, s.height, b)
    ensures MarksExist(s, b, Passing(b.store, s.height, ins))
  {
    var passing := Passing(b.store, s.height, ins);
    assert ins[..0] == [];
    PassingIsOk(b.store, s.height, ins, 0);
    ApplyBlockGrows(s.chain, b.txs, s.height);
    forall o | o in passing ensures o.hash in s.chain || o.hash in Shas(b.txs) {
      assert InputOk(b.store, s.height, o);
    }
  }

  /** A transaction that passes is new, and nothing can be marked about it yet. */
  lemma PassingIsNew(s: Setting, b: Block, tx: Tx)
    requires Sound(s.chain, s.height, b) && InputsOk(b.store, s.height, tx) && tx.ins != [] && !IsCoinBase(tx)
    ensures Sha(tx) !in s.chain && Sha(tx) !in Shas(b.txs)
  {
    BlockApplyValid(s.chain, b.txs, s.height);
    PassingCanBeMined(ApplyBlock(s.chain, b.txs, s.height), b.store, tx, s.height);
    ApplyBlockGrows(s.chain, b.txs, s.height);
  }

  lemma StoreMarked(s: Setting, start: TxStore, b: Block, marks: seq<OutPoint>, more: seq<OutPoint>)
    requires StoreIs(s, start, b, marks)
    ensures StoreIs(s, start, b.(store := Marked(b.store, more)), marks + more)
  {
    hide Clean;
    forall h | h in b.store
      ensures Marked(b.store, more)[h] == MarkData(h, Clean(s.height, start, b.txs, h), marks + more)
    {
      MarkTwice(h, Clean(s.height, start, b.txs, h), marks, more);
    }
  }

  lemma StoreSpent(s: Setting, start: TxStore, b: Block, marks: seq<OutPoint>, item: PrioItem, numSigOps: int)
    requires StoreIs(s, start, b, marks) && MarksExist(s, b, marks)
    requires Sha(item.tx) !in s.chain && Sha(item.tx) !in Shas(b.txs)
    ensures StoreIs(s, start, Extend(b, item, numSigOps, SpentStore(b.store, item.tx, s.height)), marks + item.tx.ins)
  {
    var tx, after := item.tx, SpentStore(b.store, item.tx, s.height);
    ShasSnoc(b.txs, tx);
    NotOwnParent(tx);
    hide Shas;
    forall h | h in after
      ensures after[h] == MarkData(h, Clean(s.height, start, b.txs + [tx], h), marks + tx.ins)
    {
      if h == Sha(tx) {
        MarkElsewhere(h, FreshData(tx, s.height), marks + tx.ins);
      } else {
        MarkTwice(h, Clean(s.height, start, b.txs, h), marks, tx.ins);
      }
    }
  }

  /** A turn adds exactly its marks. */
  lemma StoreStep(s: Setting, start: TxStore, p: Progress, item: PrioItem, marks: seq<OutPoint>)
    requires Building(s, p) && item.tx.ins != [] && !IsCoinBase(item.tx)
    requires StoreIs(s, start, p.b, marks) && MarksExist(s, p.b, marks)
    ensures StoreIs(s, start, Next(s, p, item).b, marks + TurnMarks(s, p, item))
    ensures MarksExist(s, Next(s, p, item).b, marks + TurnMarks(s, p, item))
  {
    NextBlock(s, p, item);
    hide StoreIs, Building, Tried, Passes, InputsOk, Passing, SpentStore, Next, IsCoinBase;
    assert Sound(s.chain, s.height, p.b) by {
      BuildingIsSound(s, p);
    }
    hide Sound;
    assert marks + [] == marks;
    if Tried(s, p, item) {
      var passing := Passing(p.b.store, s.height, item.tx.ins);
      PassingExist(s, p.b, item.tx.ins);
      if Passes(s, p, item) {
        PassesInputs(s, p, item);
        PassingIsAll(p.b.store, s.height, item.tx);
        PassingIsNew(s, p.b, item.tx);
        ShasSnoc(p.b.txs, item.tx);
        StoreSpent(s, start, p.b, marks, item, SigOpsOf(s.checks, p.b, item.tx));
      } else {
        StoreMarked(s, start, p.b, marks, passing);
      }
    }
  }

  lemma PassesInputs(s: Setting, p: Progress, item: PrioItem)
    requires Passes(s, p, item)
    ensures InputsOk(p.b.store, s.height, item.tx)
  {
  }

  /** What a turn makes of the block. */
  lemma NextBlock(s: Setting, p: Progress, item: PrioItem)
    ensures var b, spent := Next(s, p, item).b, SpentStore(p.b.store, item.tx, s.height);
      if !Tried(s, p, item) then b == p.b
      else if Passes(s, p, item) then b == Extend(p.b, item, SigOpsOf(s.checks, p.b, item.tx), spent)
      else b == p.b.(store := Marked(p.b.store, Passing(p.b.store, s.height, item.tx.ins)))
  {
    hide Fit, Passes, SpentStore, Passing, Shortened;
  }

  lemma BuildingIsSound(s: Setting, p: Progress)
    requires Building(s, p)
    ensures Sound(s.chain, s.height, p.b)
  {
  }

  lemma PassingIsAll(store: TxStore, height: int, tx: Tx)
    requires InputsOk(store, height, tx)
    ensures Passing(store, height, tx.ins) == tx.ins
  {
    PassingAll(store, height, tx.ins, 0);
  }

  /** What a run says of each of its turns. */
  lemma TurnAt(s: Setting, isFinal: Tx -> bool, source: seq<TxDesc>, run: seq<Moment>, turns: seq<PrioItem>, i: nat)
    requires Chose(s, isFinal, source, run, turns) && i < |turns|
    ensures |run| == |turns| + 1 && Building(s, run[i].p) && run[i + 1].p == Next(s, run[i].p, turns[i])
    ensures turns[i] in run[i].queue
    ensures run[i + 1].queue == QueueAfter(s, run[i].p, run[i].queue - multiset{turns[i]}, turns[i])
    ensures var h := Sha(turns[i].tx); h in s.items && s.items[h] == turns[i]
  {
    hide StartsAt, Building, Next, QueueAfter;
    assert Turn(s, run[i], turns[i], run[i + 1]) && Steady(s, run[i]);
  }

  lemma StartAt(s: Setting, isFinal: Tx -> bool, source: seq<TxDesc>, run: seq<Moment>, turns: seq<PrioItem>)
    requires Chose(s, isFinal, source, run, turns)
    ensures |run| == |turns| + 1 && StartsAt(s, isFinal, source, run[0]) && run[0].p.b.txs == []
  {
    hide Steady, Turn, InitialQueue;
  }

  /** The item of a turn is one of those set up. */
  lemma TurnItem(s: Setting, isFinal: Tx -> bool, source: seq<TxDesc>, run: seq<Moment>, turns: seq<PrioItem>, i: nat)
    requires SettingOk(s) && Chose(s, isFinal, source, run, turns) && i < |turns|
    ensures var h := Sha(turns[i].tx); h in s.pool && s.pool[h].tx == turns[i].tx
    ensures turns[i].tx.ins != [] && !IsCoinBase(turns[i].tx)
  {
    hide SettingOk, Chose, IsCoinBase;
    TurnAt(s, isFinal, source, run, turns, i);
    ItemFacts(s, Sha(turns[i].tx));
    PoolKeyed(s, Sha(turns[i].tx));
  }

  lemma PoolKeyed(s: Setting, h: Hash)
    requires SettingOk(s) && h in s.pool
    ensures h == Sha(s.pool[h].tx)
  {
    hide ItemsOk, ChainValid;
  }

  /** At every moment of a run the store is exact. */
  lemma {:induction false} StoreAt(s: Setting, isFinal: Tx -> bool, source: seq<TxDesc>, run: seq<Moment>,
                                   turns: seq<PrioItem>, n: nat)
    requires SettingOk(s) && Chose(s, isFinal, source, run, turns) && n <= |turns|
    ensures StoreIs(s, run[0].p.b.store, run[n].p.b, Marks(s, run, turns, n))
    ensures MarksExist(s, run[n].p.b, Marks(s, run, turns, n))
  {
    hide *;
    StartAt(s, isFinal, source, run, turns);
    if n == 0 {
      StoreAtStart(s, run[0].p.b);
      MarksNone(s, run, turns);
    } else {
      StoreAt(s, isFinal, source, run, turns, n - 1);
      TurnAt(s, isFinal, source, run, turns, n - 1);
      TurnItem(s, isFinal, source, run, turns, n - 1);
      StoreStep(s, run[0].p.b.store, run[n - 1].p, turns[n - 1], Marks(s, run, turns, n - 1));
      MarksStep(s, run, turns, n);
    }
  }

  lemma MarksNone(s: Setting, run: seq<Moment>, turns: seq<PrioItem>)
    requires |run| == |turns| + 1
    ensures Marks(s, run, turns, 0) == []
  {
  }

  lemma MarksStep(s: Setting, run: seq<Moment>, turns: seq<PrioItem>, n: nat)
    requires |run| == |turns| + 1 && 0 < n <= |turns|
    ensures Marks(s, run, turns, n) == Marks(s, run, turns, n - 1) + TurnMarks(s, run[n - 1].p, turns[n - 1])
  {
  }

  lemma StoreAtStart(s: Setting, b: Block)
    requires b.txs == []
    ensures StoreIs(s, b.store, b, []) && MarksExist(s, b, [])
  {
    forall h | h in b.store ensures b.store[h] == MarkData(h, Clean(s.height, b.store, b.txs, h), []) {
      MarkElsewhere(h, b.store[h], []);
    }
  }

  // ---------- What the store starts from ----------

  /** The database's answer about one transaction. */
  function FetchOne(chain: Chain, h: Hash): TxData {
    if OnChain(chain, h) then Found(h.tx, chain[h].height, chain[h].spent) else Missing
  }

  /** Everything the store starts with is the database's answer. */
  lemma {:induction false} StoresAreFetched(chain: Chain, isFinal: Tx -> bool, have: set<Hash>, source: seq<TxDesc>)
    ensures var store := Stores(chain, isFinal, have, source);
      forall h :: h in store ==> store[h] == FetchOne(chain, h)
  {
    if source != [] {
      StoresAreFetched(chain, isFinal, have, source[..|source| - 1]);
    }
  }

  /** All that a candidate refers to is there, unless it was abandoned. */
  lemma {:induction false} StoresHave(chain: Chain, isFinal: Tx -> bool, have: set<Hash>, source: seq<TxDesc>, i: nat)
    requires i < |source| && Candidate(isFinal, source[i].tx) && !Stuck(chain, have, source[i].tx)
    ensures Wanted(source[i].tx) <= Stores(chain, isFinal, have, source).Keys
  {
    hide Stuck, Candidate;
    var front := source[..|source| - 1];
    if i < |front| {
      assert front[i] == source[i];
      StoresHave(chain, isFinal, have, front, i);
    }
  }

  /** Every item was noted down for a candidate of the source. */
  lemma {:induction false} ItemSource(chain: Chain, height: int, checks: Checks, isFinal: Tx -> bool, have: set<Hash>,
                                      source: seq<TxDesc>, h: Hash) returns (i: nat)
    requires h in Items(chain, height, checks, isFinal, have, source)
    ensures i < |source| && h == Sha(source[i].tx) && Candidate(isFinal, source[i].tx)
    ensures Items(chain, height, checks, isFinal, have, source)[h] == Noted(chain, height, checks, have, source[i])
  {
    hide Noted, Candidate;
    i := |source| - 1;
    var front := source[..i];
    if !(Candidate(isFinal, source[i].tx) && h == Sha(source[i].tx)) {
      i := ItemSource(chain, height, checks, isFinal, have, front, h);
      assert front[i] == source[i];
    }
  }

  lemma NotedTx(chain: Chain, height: int, checks: Checks, have: set<Hash>, desc: TxDesc)
    ensures Noted(chain, height, checks, have, desc).tx == desc.tx
  {
  }

  // ---------- The store, exactly ----------

  /** At any moment of a run an output of a mined or included transaction is shown spent if and
      only if the chain has spent it or some turn so far has marked it. */
  lemma SpentExactly(s: Setting, isFinal: Tx -> bool, source: seq<TxDesc>, run: seq<Moment>, turns: seq<PrioItem>,
                     n: nat, o: OutPoint)
    requires SettingOk(s) && Chose(s, isFinal, source, run, turns) && n <= |turns|
    requires o.hash in run[n].p.b.store && run[n].p.b.store[o.hash].Found?
    requires o.index < |run[n].p.b.store[o.hash].spent|
    ensures run[n].p.b.store[o.hash].spent[o.index] <==>
            || (o.hash !in Shas(run[n].p.b.txs) && Spent(s.chain, o))
            || exists j :: 0 <= j < n && o in TurnMarks(s, run[j].p, turns[j])
  {
    hide *;
    StoreAt(s, isFinal, source, run, turns, n);
    StartsFetched(s, isFinal, source, run, turns);
    MarkedWhen(s, run, turns, n, o);
    ShownSpent(s, run[0].p.b.store, run[n].p.b, Marks(s, run, turns, n), o);
  }

  lemma StartsFetched(s: Setting, isFinal: Tx -> bool, source: seq<TxDesc>, run: seq<Moment>, turns: seq<PrioItem>)
    requires Chose(s, isFinal, source, run, turns)
    ensures |run| == |turns| + 1
    ensures forall h :: h in run[0].p.b.store ==> run[0].p.b.store[h] == FetchOne(s.chain, h)
  {
    StartAt(s, isFinal, source, run, turns);
    hide Chose, Stores, FetchOne, InitialQueue, Items, Needs, Lists;
    StoresAreFetched(s.chain, isFinal, s.have, source);
  }

  lemma ShownSpent(s: Setting, start: TxStore, b: Block, marks: seq<OutPoint>, o: OutPoint)
    requires StoreIs(s, start, b, marks) && o.hash in b.store && b.store[o.hash].Found?
    requires forall h :: h in start ==> start[h] == FetchOne(s.chain, h)
    requires o.index < |b.store[o.hash].spent|
    ensures b.store[o.hash].spent[o.index] <==> (o.hash !in Shas(b.txs) && Spent(s.chain, o)) || o in marks
  {
    assert OutPoint(o.hash, o.index) == o;
  }

  lemma {:induction false} MarkedWhen(s: Setting, run: seq<Moment>, turns: seq<PrioItem>, n: nat, o: OutPoint)
    requires |run| == |turns| + 1 && n <= |turns|
    ensures o in Marks(s, run, turns, n) <==> exists j :: 0 <= j < n && o in TurnMarks(s, run[j].p, turns[j])
  {
    hide TurnMarks;
    if n > 0 {
      MarkedWhen(s, run, turns, n - 1, o);
    }
  }

  // ---------- Fair turns ----------

  /** No two pooled transactions spend the same output. */
  ghost predicate NoConflict(pool: Pool) {
    forall a, b, o :: a in pool && b in pool && o in pool[a].tx.ins && o in pool[b].tx.ins ==> a == b
  }

  lemma IndexedPoolHasNoConflict(pool: Pool, outpoints: map<OutPoint, Tx>)
    requires Keyed(pool) && OutpointIndex(pool, outpoints)
    ensures NoConflict(pool)
  {
    forall a, b, o | a in pool && b in pool && o in pool[a].tx.ins && o in pool[b].tx.ins ensures a == b {
      NoDoubleSpendInPool(pool, outpoints, a, b, o);
    }
  }

  /** What a transaction spends from, as the chain and the block have it and nothing else. */
  function Unmarked(s: Setting, txs: seq<Tx>, tx: Tx): TxStore {
    map h | h in Wanted(tx) :: if h.TxId? && h in Shas(txs) then FreshData(h.tx, s.height) else FetchOne(s.chain, h)
  }

  /** The item was not tried at an earlier turn. */
  ghost predicate FirstTry(s: Setting, run: seq<Moment>, turns: seq<PrioItem>, j: nat)
    requires |run| == |turns| + 1 && j < |turns|
  {
    forall k :: 0 <= k < j && turns[k] == turns[j] ==> !Tried(s, run[k].p, turns[k])
  }

  /** A turn marks inputs of its own item, if it tries it; two items that spend the same are one. */
  lemma MarkerIsSpender(s: Setting, isFinal: Tx -> bool, source: seq<TxDesc>, run: seq<Moment>, turns: seq<PrioItem>,
                        k: nat, j: nat, o: OutPoint)
    requires SettingOk(s) && Chose(s, isFinal, source, run, turns) && NoConflict(s.pool) && |run| == |turns| + 1
    requires k < |turns| && j < |turns| && o in turns[j].tx.ins && o in TurnMarks(s, run[k].p, turns[k])
    ensures turns[k] == turns[j] && Tried(s, run[k].p, turns[k])
  {
    hide SettingOk, Chose, Tried;
    TurnAt(s, isFinal, source, run, turns, k);
    TurnAt(s, isFinal, source, run, turns, j);
    TurnItem(s, isFinal, source, run, turns, k);
    TurnItem(s, isFinal, source, run, turns, j);
    assert o in turns[k].tx.ins;
  }

  /** Nobody else marks the inputs of an item before its first try. */
  lemma InputsUntouched(s: Setting, isFinal: Tx -> bool, source: seq<TxDesc>, run: seq<Moment>, turns: seq<PrioItem>,
                        j: nat, o: OutPoint)
    requires SettingOk(s) && Chose(s, isFinal, source, run, turns) && NoConflict(s.pool) && |run| == |turns| + 1
    requires j < |turns| && FirstTry(s, run, turns, j) && o in turns[j].tx.ins
    ensures o !in Marks(s, run, turns, j)
  {
    hide SettingOk, Chose, Tried, TurnMarks, NoConflict;
    MarkedWhen(s, run, turns, j, o);
    if k :| 0 <= k < j && o in TurnMarks(s, run[k].p, turns[k]) {
      MarkerIsSpender(s, isFinal, source, run, turns, k, j, o);
    }
  }

  /** One input is judged as if nothing had been marked. */
  lemma FairInput(s: Setting, start: TxStore, b: Block, marks: seq<OutPoint>, tx: Tx, o: OutPoint)
    requires StoreIs(s, start, b, marks) && o in tx.ins && o !in marks && o.hash in b.store
    requires forall h :: h in start ==> start[h] == FetchOne(s.chain, h)
    ensures InputOk(b.store, s.height, o) <==> InputOk(Unmarked(s, b.txs, tx), s.height, o)
  {
    hide OnChain;
    assert o.hash in Wanted(tx);
    assert Unmarked(s, b.txs, tx)[o.hash] == Clean(s.height, start, b.txs, o.hash);
    assert OutPoint(o.hash, o.index) == o;
  }

  /** At its first try an item is judged by the chain and the block alone: marks that other
      candidates left in the store never count against it. */
  lemma FirstTryIsFair(s: Setting, isFinal: Tx -> bool, source: seq<TxDesc>, run: seq<Moment>, turns: seq<PrioItem>,
                       j: nat)
    requires SettingOk(s) && Chose(s, isFinal, source, run, turns) && NoConflict(s.pool)
    requires j < |turns| && FirstTry(s, run, turns, j)
    ensures InputsOk(run[j].p.b.store, s.height, turns[j].tx) <==>
            InputsOk(Unmarked(s, run[j].p.b.txs, turns[j].tx), s.height, turns[j].tx)
  {
    hide *;
    if Stuck(s.chain, s.have, turns[j].tx) {
      TurnAt(s, isFinal, source, run, turns, j);
      StuckFailsBoth(s, run[j].p, turns[j].tx);
    } else {
      CompleteIsFair(s, isFinal, source, run, turns, j);
    }
  }

  /** An abandoned item passes neither way. */
  lemma StuckFailsBoth(s: Setting, p: Progress, tx: Tx)
    requires SettingOk(s) && Building(s, p) && Stuck(s.chain, s.have, tx)
    ensures !InputsOk(p.b.store, s.height, tx) && !InputsOk(Unmarked(s, p.b.txs, tx), s.height, tx)
  {
    if InputsOk(p.b.store, s.height, tx) {
      NotStuck(s, p, tx);
    }
    if InputsOk(Unmarked(s, p.b.txs, tx), s.height, tx) {
      UnmarkedNotStuck(s, p, tx);
    }
  }

  lemma UnmarkedNotStuck(s: Setting, p: Progress, tx: Tx)
    requires SettingOk(s) && Building(s, p) && InputsOk(Unmarked(s, p.b.txs, tx), s.height, tx)
    ensures !Stuck(s.chain, s.have, tx)
  {
    BlockFromPool(s, p);
    hide Building, PoolOk, ItemsOk;
    forall o | o in tx.ins ensures !Unavailable(s.chain, s.have, o) {
      assert InputOk(Unmarked(s, p.b.txs, tx), s.height, o);
    }
  }

  lemma BlockFromPool(s: Setting, p: Progress)
    requires Building(s, p)
    ensures Shas(p.b.txs) <= s.pool.Keys
  {
    hide Sound, Accounted, StoreFrom, Complete, Phases;
  }

  lemma CompleteIsFair(s: Setting, isFinal: Tx -> bool, source: seq<TxDesc>, run: seq<Moment>, turns: seq<PrioItem>,
                       j: nat)
    requires SettingOk(s) && Chose(s, isFinal, source, run, turns) && NoConflict(s.pool)
    requires j < |turns| && FirstTry(s, run, turns, j) && !Stuck(s.chain, s.have, turns[j].tx)
    ensures InputsOk(run[j].p.b.store, s.height, turns[j].tx) <==>
            InputsOk(Unmarked(s, run[j].p.b.txs, turns[j].tx), s.height, turns[j].tx)
  {
    var tx, b := turns[j].tx, run[j].p.b;
    hide SettingOk, Chose, Stuck, NoConflict, FirstTry, Unmarked;
    forall o | o in tx.ins ensures InputOk(b.store, s.height, o) <==> InputOk(Unmarked(s, b.txs, tx), s.height, o) {
      InputIsFair(s, isFinal, source, run, turns, j, o);
    }
  }

  lemma InputIsFair(s: Setting, isFinal: Tx -> bool, source: seq<TxDesc>, run: seq<Moment>, turns: seq<PrioItem>,
                    j: nat, o: OutPoint)
    requires SettingOk(s) && Chose(s, isFinal, source, run, turns) && NoConflict(s.pool) && |run| == |turns| + 1
    requires j < |turns| && FirstTry(s, run, turns, j) && !Stuck(s.chain, s.have, turns[j].tx) && o in turns[j].tx.ins
    ensures InputOk(run[j].p.b.store, s.height, o) <==>
            InputOk(Unmarked(s, run[j].p.b.txs, turns[j].tx), s.height, o)
  {
    hide *;
    StartsFetched(s, isFinal, source, run, turns);
    StoreAt(s, isFinal, source, run, turns, j);
    ItemStored(s, isFinal, source, run, turns, j);
    InputsUntouched(s, isFinal, source, run, turns, j, o);
    FairInput(s, run[0].p.b.store, run[j].p.b, Marks(s, run, turns, j), turns[j].tx, o);
  }

  lemma ItemStored(s: Setting, isFinal: Tx -> bool, source: seq<TxDesc>, run: seq<Moment>, turns: seq<PrioItem>, j: nat)
    requires SettingOk(s) && Chose(s, isFinal, source, run, turns)
    requires j < |turns| && !Stuck(s.chain, s.have, turns[j].tx)
    ensures forall o :: o in turns[j].tx.ins ==> o.hash in run[j].p.b.store
  {
    StoreAt(s, isFinal, source, run, turns, j);
    StartAt(s, isFinal, source, run, turns);
    TurnAt(s, isFinal, source, run, turns, j);
    hide SettingOk, Chose, InitialQueue, Building, Stuck, Items, Stores, Next, QueueAfter;
    var i := ItemSource(s.chain, s.height, s.checks, isFinal, s.have, source, Sha(turns[j].tx));
    NotedTx(s.chain, s.height, s.checks, s.have, source[i]);
    StoresHave(s.chain, isFinal, s.have, source, i);
    assert forall o :: o in turns[j].tx.ins ==> o.hash in Wanted(turns[j].tx);
  }

  /** An item whose transaction is in the block fails whenever it has another turn. */
  lemma IncludedNeverPasses(s: Setting, p: Progress, item: PrioItem)
    requires Building(s, p) && item.tx in p.b.txs && item.tx.ins != [] && !IsCoinBase(item.tx)
    ensures !Takes(s, p, item)
  {
    BuildingIsSound(s, p);
    assert Sha(item.tx) in Shas(p.b.txs);
    hide Shas, Building, Sound, InputsOk;
    if InputsOk(p.b.store, s.height, item.tx) {
      PassingIsNew(s, p.b, item.tx);
    }
  }

  // ---------- Counters ----------

  /** At every moment of a run size, signature operations and fees are the true sums: none of
      the fixed-width counters has wrapped around. */
  lemma CountersExact(s: Setting, isFinal: Tx -> bool, source: seq<TxDesc>, run: seq<Moment>, turns: seq<PrioItem>,
                      n: nat)
    requires SettingOk(s) && Chose(s, isFinal, source, run, turns) && n <= |turns|
    requires AtMost(s.chain, MAX_SATOSHI)
    ensures var b := run[n].p.b;
      && b.size == 89 + s.coinbase.size + TotalSize(b.txs) < TWO_32
      && b.totalSigOps == s.checks.sigOps(s.coinbase) + Sum(b.sigOps) < TWO_63
      && b.totalFees == Sum(b.fees) == Fees(b.txs) && 0 <= b.totalFees <= MAX_SATOSHI
  {
    assert Building(s, run[n].p) && run[n].p.b.size == BaseSize(s.coinbase) + TotalSize(run[n].p.b.txs) by {
      hide SettingOk, StartsAt, Turn, Sound, StoreFrom, Chosen, Phases, AtMost, TotalSize, Sum;
      assert Steady(s, run[n]);
    }
    hide SettingOk, Chose, Sound, StoreFrom, Chosen, Phases, AtMost, TotalSize, Sum;
    FeeCounterExact(s, run[n].p);
  }

  // ---------- No ready candidate is forgotten ----------

  lemma {:induction false} EntriesAre(ins: seq<OutPoint>, p: Hash, h: Hash, x: Hash)
    requires x in Entries(ins, p, h)
    ensures x == h && exists o :: o in ins && o.hash == p
  {
    var front, last := ins[..|ins| - 1], ins[|ins| - 1];
    assert last in ins;
    if x in Entries(front, p, h) {
      EntriesAre(front, p, h, x);
      assert forall o :: o in front ==> o in ins;
    }
  }

  /** Only candidates that spend from `p`, and `p` being unmined, are listed as waiting for it. */
  lemma {:induction false} ListedWaits(chain: Chain, isFinal: Tx -> bool, have: set<Hash>, source: seq<TxDesc>,
                                       p: Hash, h: Hash) returns (i: nat)
    requires h in Lists(chain, isFinal, have, source, p)
    ensures i < |source| && h == Sha(source[i].tx) && p in Waits(chain, source[i].tx.ins)
  {
    hide Candidate, OnChain, Lead, Entries;
    i := |source| - 1;
    var front, tx := source[..i], source[i].tx;
    if h in Lists(chain, isFinal, have, front, p) {
      i := ListedWaits(chain, isFinal, have, front, p, h);
      assert front[i] == source[i];
    } else {
      EntriesAre(Lead(chain, have, tx.ins), p, Sha(tx), h);
      var o :| o in Lead(chain, have, tx.ins) && o.hash == p;
      assert o in tx.ins;
    }
  }

  ghost predicate NeverListed(p: Progress, h: Hash) {
    forall parent :: h !in ListOf(p.dependers, parent)
  }

  lemma ReadyIsNotListed(s: Setting, isFinal: Tx -> bool, source: seq<TxDesc>, m: Moment, i: nat)
    requires StartsAt(s, isFinal, source, m) && IsSource(s.pool, source)
    requires i < |source| && Ready(s.chain, isFinal, s.have, source[i].tx)
    ensures NeverListed(m.p, Sha(source[i].tx))
  {
    hide InitialQueue, Items, Needs, Stores, Lists, ListOf, Stuck, Candidate;
    forall parent ensures Sha(source[i].tx) !in ListOf(m.p.dependers, parent) {
      assert ListOf(m.p.dependers, parent) == Lists(s.chain, isFinal, s.have, source, parent);
      if Sha(source[i].tx) in Lists(s.chain, isFinal, s.have, source, parent) {
        var k := ListedWaits(s.chain, isFinal, s.have, source, parent, Sha(source[i].tx));
      }
    }
  }

  lemma NextLists(s: Setting, p: Progress, item: PrioItem, h: Hash)
    requires NeverListed(p, h)
    ensures NeverListed(Next(s, p, item), h)
  {
    hide Fit, Passes, Tried, Returns, SpentStore, Passing, Shortened;
    var next := Next(s, p, item);
    assert next.dependers == p.dependers - {Sha(item.tx)};
    forall parent ensures h !in ListOf(next.dependers, parent) {
      assert h !in ListOf(p.dependers, parent);
    }
  }

  lemma NotFreed(s: Setting, p: Progress, item: PrioItem, c: PrioItem)
    requires SettingOk(s) && NeverListed(p, Sha(c.tx))
    ensures c !in Freed(s, p, item)
  {
    var deps := ListOf(p.dependers, Sha(item.tx));
    var released := Released(s.items, p.dependsOn, deps, Sha(item.tx));
    ItemsKeyed(s);
    ReleasedAre(s.items, p.dependsOn, deps, Sha(item.tx));
    hide SettingOk, Released, ListOf;
    forall x | x in released ensures x != c {
      var k :| k in deps && k in s.items && s.items[k] == x && WaitsOf(p.dependsOn, k) <= {Sha(item.tx)};
      assert Sha(s.items[k].tx) == k;
    }
    InQueue(released, c);
  }

  /** Once an item that nobody lists was taken off the queue for good, it stays off. */
  lemma CountStep(s: Setting, p: Progress, queue: multiset<PrioItem>, item: PrioItem, c: PrioItem)
    requires SettingOk(s) && NeverListed(p, Sha(c.tx)) && item in queue
    ensures QueueAfter(s, p, queue - multiset{item}, item)[c] ==
            queue[c] - if item == c && !Returns(s, p, item) then 1 else 0
  {
    NotFreed(s, p, item, c);
    hide SettingOk, Returns, Takes, Freed, NeverListed;
  }

  /** The turn of an item at which it was not put back, and what had happened to it by moment `n`. */
  ghost predicate Decided(s: Setting, run: seq<Moment>, turns: seq<PrioItem>, c: PrioItem, j: nat, n: nat)
    requires |run| == |turns| + 1 && n <= |turns|
  {
    && j < n && turns[j] == c && !Returns(s, run[j].p, c)
    && (forall k :: 0 <= k < j && turns[k] == c ==> Returns(s, run[k].p, c))
    && (c.tx in run[n].p.b.txs <==> Takes(s, run[j].p, c))
  }

  /** A ready item is queued until the turn that decides on it, and nothing happens to it later. */
  ghost predicate Pursued(s: Setting, run: seq<Moment>, turns: seq<PrioItem>, c: PrioItem, n: nat)
    requires |run| == |turns| + 1 && n <= |turns|
  {
    && NeverListed(run[n].p, Sha(c.tx))
    && if c in run[n].queue then
         && run[n].queue[c] == 1 && c.tx !in run[n].p.b.txs
         && forall k :: 0 <= k < n && turns[k] == c ==> Returns(s, run[k].p, c)
       else exists j :: Decided(s, run, turns, c, j, n)
  }

  lemma NextTxs(s: Setting, p: Progress, item: PrioItem)
    ensures Next(s, p, item).b.txs == if Takes(s, p, item) then p.b.txs + [item.tx] else p.b.txs
  {
    NextBlock(s, p, item);
    hide Tried, Passes, SpentStore, Passing, Next;
  }

  lemma PursuedStep(s: Setting, isFinal: Tx -> bool, source: seq<TxDesc>, run: seq<Moment>, turns: seq<PrioItem>,
                    c: PrioItem, n: nat)
    requires SettingOk(s) && Chose(s, isFinal, source, run, turns) && |run| == |turns| + 1 && n < |turns|
    requires Sha(c.tx) in s.items && s.items[Sha(c.tx)] == c && Pursued(s, run, turns, c, n)
    ensures Pursued(s, run, turns, c, n + 1)
  {
    hide *;
    TurnAt(s, isFinal, source, run, turns, n);
    var p, item := run[n].p, turns[n];
    PursuedLists(s, run, turns, c, n);
    CountStep(s, p, run[n].queue, item, c);
    NextLists(s, p, item, Sha(c.tx));
    NextTxs(s, p, item);
    SameItem(item, c);
    PursuedNext(s, run, turns, c, n);
  }

  lemma SameItem(a: PrioItem, b: PrioItem)
    ensures Sha(a.tx) == Sha(b.tx) <==> a.tx == b.tx
  {
  }

  lemma PursuedLists(s: Setting, run: seq<Moment>, turns: seq<PrioItem>, c: PrioItem, n: nat)
    requires |run| == |turns| + 1 && n <= |turns| && Pursued(s, run, turns, c, n)
    ensures NeverListed(run[n].p, Sha(c.tx))
  {
  }

  lemma PursuedNext(s: Setting, run: seq<Moment>, turns: seq<PrioItem>, c: PrioItem, n: nat)
    requires |run| == |turns| + 1 && n < |turns| && Pursued(s, run, turns, c, n)
    requires turns[n] in run[n].queue && (turns[n] != c ==> turns[n].tx != c.tx)
    requires NeverListed(run[n + 1].p, Sha(c.tx))
    requires run[n + 1].queue[c] == run[n].queue[c] - if turns[n] == c && !Returns(s, run[n].p, turns[n]) then 1 else 0
    requires run[n + 1].p.b.txs ==
             if Takes(s, run[n].p, turns[n]) then run[n].p.b.txs + [turns[n].tx] else run[n].p.b.txs
    ensures Pursued(s, run, turns, c, n + 1)
  {
    hide NeverListed, Returns, Takes;
    ReturnsIsNotTakes(s, run[n].p, turns[n]);
    if c in run[n].queue {
      if turns[n] == c && !Returns(s, run[n].p, c) {
        assert Decided(s, run, turns, c, n, n + 1);
      }
    } else {
      var j :| Decided(s, run, turns, c, j, n);
      assert Decided(s, run, turns, c, j, n + 1);
    }
  }

  lemma ReturnsIsNotTakes(s: Setting, p: Progress, item: PrioItem)
    ensures !(Returns(s, p, item) && Takes(s, p, item))
  {
  }

  lemma {:induction false} PursuedAt(s: Setting, isFinal: Tx -> bool, source: seq<TxDesc>, run: seq<Moment>,
                                     turns: seq<PrioItem>, i: nat, n: nat)
    requires SettingOk(s) && IsSource(s.pool, source) && Chose(s, isFinal, source, run, turns)
    requires |run| == |turns| + 1 && n <= |turns|
    requires i < |source| && Ready(s.chain, isFinal, s.have, source[i].tx)
    ensures var c := ItemOf(s.chain, s.height, s.checks, source[i]);
      && Sha(c.tx) in s.items && s.items[Sha(c.tx)] == c
      && Pursued(s, run, turns, c, n)
  {
    hide *;
    var c := ItemOf(s.chain, s.height, s.checks, source[i]);
    ItemOfTx(s.chain, s.height, s.checks, source[i]);
    if n == 0 {
      StartAt(s, isFinal, source, run, turns);
      ReadyIsNotListed(s, isFinal, source, run[0], i);
      QueuedAtStart(s, isFinal, source, run, turns, i);
      PursuedStart(s, run, turns, c);
    } else {
      PursuedAt(s, isFinal, source, run, turns, i, n - 1);
      PursuedStep(s, isFinal, source, run, turns, c, n - 1);
    }
  }

  lemma ItemOfTx(chain: Chain, height: int, checks: Checks, desc: TxDesc)
    ensures ItemOf(chain, height, checks, desc).tx == desc.tx
  {
  }

  lemma PursuedStart(s: Setting, run: seq<Moment>, turns: seq<PrioItem>, c: PrioItem)
    requires |run| == |turns| + 1 && run[0].p.b.txs == [] && NeverListed(run[0].p, Sha(c.tx)) && run[0].queue[c] == 1
    ensures Pursued(s, run, turns, c, 0)
  {
    hide NeverListed;
    assert c in run[0].queue;
  }

  lemma QueuedAtStart(s: Setting, isFinal: Tx -> bool, source: seq<TxDesc>, run: seq<Moment>, turns: seq<PrioItem>,
                      i: nat)
    requires Chose(s, isFinal, source, run, turns)
    requires i < |source| && Ready(s.chain, isFinal, s.have, source[i].tx)
    ensures |run| == |turns| + 1 && run[0].p.b.txs == []
    ensures var c := ItemOf(s.chain, s.height, s.checks, source[i]);
      run[0].queue[c] == 1 && Sha(c.tx) in s.items && s.items[Sha(c.tx)] == c
  {
    StartAt(s, isFinal, source, run, turns);
    var c := ItemOf(s.chain, s.height, s.checks, source[i]);
    assert ReadyItem(s.chain, s.height, s.checks, isFinal, s.have, source, c);
    assert run[0].queue[c] == 1 && c in run[0].queue;
    assert Steady(s, run[0]);
  }

  /** Every candidate that could go into the block right away has one turn at which it is not
      put back.  It is in the template if and only if at that turn it fits the block, pays enough
      or finds it below its minimum size, passes the input check on what the database returned for
      it alone, and passes the script check. */
  lemma ReadyDecided(s: Setting, isFinal: Tx -> bool, source: seq<TxDesc>, run: seq<Moment>, turns: seq<PrioItem>,
                     t: Template, i: nat) returns (j: nat)
    requires SettingOk(s) && IsSource(s.pool, source) && NoConflict(s.pool)
    requires s.coinbase.outs != [] && Made(s, isFinal, source, run, turns, t)
    requires i < |source| && Ready(s.chain, isFinal, s.have, source[i].tx)
    ensures |run| == |turns| + 1 && j < |turns| && turns[j] == ItemOf(s.chain, s.height, s.checks, source[i])
    ensures var c, p := turns[j], run[j].p;
      && !Returns(s, p, c)
      && (c.tx in t.txs[1..] <==>
            && Fit(s.policy, s.checks, p.b, c.tx)
            && !(p.sortedByFee && c.feePerKB < s.policy.txMinFreeFee && p.b.size + c.tx.size >= s.policy.blockMinSize)
            && InputsOk(FetchTransactionStore(s.chain, c.tx), s.height, c.tx)
            && s.checks.scriptsValid(c.tx, Marked(p.b.store, c.tx.ins)))
  {
    hide *;
    var c := ItemOf(s.chain, s.height, s.checks, source[i]);
    ItemOfTx(s.chain, s.height, s.checks, source[i]);
    MadeParts(s, isFinal, source, run, turns, t);
    PursuedAt(s, isFinal, source, run, turns, i, |turns|);
    j := PursuedEnd(s, run, turns, c);
    ReadyIsFair(s, isFinal, source, run, turns, i, j);
    TakesMeans(s, run[j].p, c);
  }

  lemma MadeParts(s: Setting, isFinal: Tx -> bool, source: seq<TxDesc>, run: seq<Moment>, turns: seq<PrioItem>,
                  t: Template)
    requires s.coinbase.outs != [] && Made(s, isFinal, source, run, turns, t)
    ensures Chose(s, isFinal, source, run, turns) && |run| == |turns| + 1 && run[|turns|].queue == multiset{}
    ensures t.txs != [] && t.txs[1..] == run[|turns|].p.b.txs
  {
    hide StartsAt, Turn, Steady, WithFees;
  }

  lemma PursuedEnd(s: Setting, run: seq<Moment>, turns: seq<PrioItem>, c: PrioItem) returns (j: nat)
    requires |run| == |turns| + 1 && Pursued(s, run, turns, c, |turns|) && run[|turns|].queue == multiset{}
    ensures Decided(s, run, turns, c, j, |turns|)
    ensures j < |turns| && turns[j] == c && !Returns(s, run[j].p, c) && FirstTry(s, run, turns, j)
    ensures c.tx in run[|turns|].p.b.txs <==> Takes(s, run[j].p, c)
  {
    hide Takes, Fit, NeverListed;
    j :| Decided(s, run, turns, c, j, |turns|);
  }

  lemma TakesMeans(s: Setting, p: Progress, c: PrioItem)
    requires !Returns(s, p, c)
    ensures Takes(s, p, c) <==>
            && Fit(s.policy, s.checks, p.b, c.tx)
            && !(p.sortedByFee && c.feePerKB < s.policy.txMinFreeFee && p.b.size + c.tx.size >= s.policy.blockMinSize)
            && InputsOk(p.b.store, s.height, c.tx)
            && s.checks.scriptsValid(c.tx, Marked(p.b.store, c.tx.ins))
  {
  }

  /** For a ready candidate the fair store is what the database returned for it alone. */
  lemma ReadyIsFair(s: Setting, isFinal: Tx -> bool, source: seq<TxDesc>, run: seq<Moment>, turns: seq<PrioItem>,
                    i: nat, j: nat)
    requires SettingOk(s) && Chose(s, isFinal, source, run, turns) && NoConflict(s.pool) && |run| == |turns| + 1
    requires i < |source| && Ready(s.chain, isFinal, s.have, source[i].tx)
    requires j < |turns| && turns[j].tx == source[i].tx && FirstTry(s, run, turns, j)
    ensures InputsOk(run[j].p.b.store, s.height, turns[j].tx) <==>
            InputsOk(FetchTransactionStore(s.chain, turns[j].tx), s.height, turns[j].tx)
  {
    hide *;
    ReadyMeans(s, isFinal, source[i].tx);
    FirstTryIsFair(s, isFinal, source, run, turns, j);
    TurnAt(s, isFinal, source, run, turns, j);
    IncludedAreNew(s, run[j].p);
    FetchedIsUnmarked(s, run[j].p.b.txs, turns[j].tx);
  }

  lemma ReadyMeans(s: Setting, isFinal: Tx -> bool, tx: Tx)
    requires Ready(s.chain, isFinal, s.have, tx)
    ensures !Stuck(s.chain, s.have, tx) && Waits(s.chain, tx.ins) == {}
  {
  }

  lemma FetchedIsUnmarked(s: Setting, txs: seq<Tx>, tx: Tx)
    requires Waits(s.chain, tx.ins) == {} && forall h :: h in Shas(txs) ==> h !in s.chain
    ensures InputsOk(Unmarked(s, txs, tx), s.height, tx) <==> InputsOk(FetchTransactionStore(s.chain, tx), s.height, tx)
  {
    var a, b := Unmarked(s, txs, tx), FetchTransactionStore(s.chain, tx);
    forall o | o in tx.ins ensures InputOk(a, s.height, o) <==> InputOk(b, s.height, o) {
      assert !OnChain(s.chain, o.hash) ==> o.hash in Waits(s.chain, tx.ins);
      assert o.hash in Wanted(tx) && o.hash !in Shas(txs);
      assert a[o.hash] == b[o.hash];
    }
  }

  lemma IncludedAreNew(s: Setting, p: Progress)
    requires Building(s, p)
    ensures forall h :: h in Shas(p.b.txs) ==> h !in s.chain
  {
    BlockDistinct(s.chain, p.b.txs, s.height);
  }
}
