/** The block template builder: a greedy scheduler over the pooled transactions that
    simulates spending on a private copy of the unspent outputs. */
module Mining {
  import opened Ledger
  import opened Validation
  import opened PoolIndex
  import opened BlockConnect
  import opened Supply
  import Heap

  const BLOCK_HEADER_OVERHEAD := 80 + 9
  const TWO_32 := 0x1_0000_0000

  function WrapU32(n: nat): nat { n % TWO_32 }

  datatype Policy = Policy(blockMinSize: nat, blockMaxSize: nat, blockPrioritySize: nat, txMinFreeFee: int)

  // ---------- Priority queue ----------

  datatype PrioItem = PrioItem(tx: Tx, fee: int, priority: real, feePerKB: int)

  /** The fee for a thousand bytes, as 64-bit arithmetic has it. */
  function FeeRate(fee: int, size: ByteCount): int {
    Quotient(WrapI64(fee * 1000), size)
  }

  /** No fee that the pool records is so large that its rate would wrap around. */
  lemma FeeRateExact(pool: Pool, h: Hash)
    requires PoolOk(pool) && h in pool
    ensures FeeRate(pool[h].fee, pool[h].tx.size) == pool[h].fee * 1000 / pool[h].tx.size
  {
    assert PoolTxOk(pool[h]);
    WrapI64Exact(pool[h].fee * 1000);
  }

  predicate ByPriority(a: PrioItem, b: PrioItem) {
    if a.priority == b.priority then a.feePerKB > b.feePerKB else a.priority > b.priority
  }

  predicate ByFee(a: PrioItem, b: PrioItem) {
    if a.feePerKB == b.feePerKB then a.priority > b.priority else a.feePerKB > b.feePerKB
  }

  lemma BothAreOrders()
    ensures Heap.StrictWeakOrder(ByPriority) && Heap.StrictWeakOrder(ByFee)
  {
  }

  class TxPriorityQueue {
    var lessFunc: (PrioItem, PrioItem) -> bool
    var items: seq<PrioItem>

    ghost predicate Valid()
      reads this
    {
      Heap.StrictWeakOrder(lessFunc) && Heap.IsHeap(lessFunc, items)
    }

    constructor (sortByFee: bool)
      ensures Valid() && items == []
      ensures lessFunc == if sortByFee then ByFee else ByPriority
    {
      BothAreOrders();
      items := [];
      if sortByFee {
        lessFunc := ByFee;
      } else {
        lessFunc := ByPriority;
      }
    }

    /** Changes the ordering and re-establishes the heap under it. */
    method SetLessFunc(less: (PrioItem, PrioItem) -> bool)
      requires Heap.StrictWeakOrder(less)
      modifies this
      ensures Valid() && lessFunc == less
      ensures multiset(items) == multiset(old(items))
    {
      lessFunc := less;
      items := Heap.Init(less, items);
    }

    method Push(item: PrioItem)
      requires Valid()
      modifies `items
      ensures Valid()
      ensures multiset(items) == multiset(old(items)) + multiset{item}
    {
      items := Heap.Push(lessFunc, items, item);
    }

    /** Takes out an item that no queued item should come before. */
    method Pop() returns (item: PrioItem)
      requires Valid() && items != []
      modifies `items
      ensures Valid()
      ensures multiset(old(items)) == multiset(items) + multiset{item}
      ensures forall other :: other in old(items) ==> !lessFunc(other, item)
    {
      item, items := Heap.Pop(lessFunc, items);
    }
  }

  lemma SameMembers(a: seq<PrioItem>, b: seq<PrioItem>, x: PrioItem)
    requires multiset(a) == multiset(b) + multiset{x}
    ensures |a| == |b| + 1 && x in a
    ensures forall y :: y in a <==> y in b || y == x
  {
    assert |multiset(a)| == |a| && |multiset(b) + multiset{x}| == |b| + 1;
    assert forall y :: y in a <==> y in multiset(a);
    assert forall y :: y in b <==> y in multiset(b);
  }

  // ---------- Transaction stores ----------

  function Merged(a: TxStore, b: TxStore): TxStore {
    map h | h in a.Keys + b.Keys ::
      if h !in a || (h in b && a[h].Missing? && b[h].Found?) then b[h] else a[h]
  }

  method MergeTxStore(a: TxStore, b: TxStore) returns (m: TxStore)
    ensures m == Merged(a, b)
  {
    m := a;
    var todo := b.Keys;
    while todo != {}
      invariant todo <= b.Keys && m.Keys == a.Keys + (b.Keys - todo)
      invariant forall h :: h in m ==> m[h] == if h in b && h !in todo then Merged(a, b)[h] else a[h]
    {
      var h :| h in todo;
      if h !in m || (m[h].Missing? && !b[h].Missing?) {
        m := m[h := b[h]];
      }
      todo := todo - {h};
    }
  }

  /** The store entry of a transaction the template has just taken in. */
  function FreshData(tx: Tx, height: int): TxData {
    Found(tx, height, seq(|tx.outs|, _ => false))
  }

  /** The store once `tx`, whose inputs were checked, is spent: inputs marked, outputs available. */
  function Spend(store: TxStore, tx: Tx, height: int): TxStore {
    Marked(store, tx.ins)[Sha(tx) := FreshData(tx, height)]
  }

  lemma MarkedAbsent(store: TxStore, ins: seq<OutPoint>, k: nat)
    requires k < |ins| && ins[k].hash !in store
    ensures Marked(store, ins[..k + 1]) == Marked(store, ins[..k])
  {
    assert ins[..k + 1] == ins[..k] + [ins[k]];
    forall h | h in store && store[h].Found?
      ensures MarkSpent(h, store[h].spent, ins[..k + 1]) == MarkSpent(h, store[h].spent, ins[..k])
    {
    }
  }

  /** Marks the inputs spent and makes the outputs available to later transactions.  Inputs of
      transactions the store does not know are skipped. */
  method SpendTransaction(store: TxStore, tx: Tx, height: int) returns (r: TxStore)
    requires forall o :: o in tx.ins && o.hash in store ==> store[o.hash].Found? && o.index < |store[o.hash].spent|
    ensures r == Spend(store, tx, height)
  {
    r := store;
    MarkedNothing(store);
    assert tx.ins[..0] == [];
    for i := 0 to |tx.ins|
      invariant r == Marked(store, tx.ins[..i])
    {
      var o := tx.ins[i];
      assert o in tx.ins;
      if o.hash in r {
        MarkedStep(store, tx.ins, i);
        r := MarkOne(r, o);
      } else {
        MarkedAbsent(store, tx.ins, i);
      }
    }
    assert tx.ins[..|tx.ins|] == tx.ins;
    r := r[Sha(tx) := FreshData(tx, height)];
  }

  /** The store never shows an output unspent that the simulated chain has spent. */
  ghost predicate StoreSound(c: Chain, store: TxStore) {
    forall h :: h in store && store[h].Found? ==>
      && h in c && h == Sha(store[h].tx)
      && |store[h].spent| == |c[h].spent| == |store[h].tx.outs|
      && forall i :: 0 <= i < |c[h].spent| ==> c[h].spent[i] ==> store[h].spent[i]
  }

  lemma MarkedSound(c: Chain, store: TxStore, ins: seq<OutPoint>)
    requires StoreSound(c, store)
    ensures StoreSound(c, Marked(store, ins)) && StoreOk(store)
  {
  }

  lemma MergedSound(c: Chain, a: TxStore, b: TxStore)
    requires StoreSound(c, a) && StoreSound(c, b)
    ensures StoreSound(c, Merged(a, b))
  {
  }

  lemma FetchedSound(c: Chain, tx: Tx)
    requires ChainValid(c)
    ensures StoreSound(c, FetchTransactionStore(c, tx))
  {
  }

  /** Passing the input checks against a sound store means the transaction can be mined next. */
  lemma PassingCanBeMined(c: Chain, store: TxStore, tx: Tx, height: int)
    requires ChainValid(c) && StoreSound(c, store)
    requires tx.ins != [] && !IsCoinBase(tx) && InputsOk(store, height, tx)
    ensures CanApply(c, tx)
  {
    forall o | o in tx.ins ensures Unspent(c, o) {
      assert InputOk(store, height, o);
    }
    assert tx.ins[0] in tx.ins;
    assert Sha(tx) in c ==> Spent(c, tx.ins[0]);
  }

  lemma SpendSound(c: Chain, store: TxStore, tx: Tx, height: int)
    requires StoreSound(c, store) && CanApply(c, tx)
    ensures StoreSound(ApplyTx(c, tx, height), Spend(store, tx, height))
  {
  }

  // ---------- The block under construction ----------

  /** The transactions taken in so far, without the coinbase, and the running totals. */
  datatype Block = Block(txs: seq<Tx>, fees: seq<int>, sigOps: seq<int>, size: int, totalSigOps: int, totalFees: int,
                         store: TxStore)

  function Sum(xs: seq<int>): int {
    if xs == [] then 0 else Sum(xs[..|xs| - 1]) + xs[|xs| - 1]
  }

  function TotalSize(txs: seq<Tx>): nat {
    if txs == [] then 0 else TotalSize(txs[..|txs| - 1]) + txs[|txs| - 1].size
  }

  /** What is in the block can be mined in this order on the chain, and the store knows about it. */
  ghost predicate Sound(chain: Chain, height: int, b: Block) {
    && ChainValid(chain)
    && BlockApplies(chain, b.txs, height)
    && StoreSound(ApplyBlock(chain, b.txs, height), b.store)
    && forall t :: t in b.txs ==> !IsCoinBase(t)
  }

  /** The counters are the true sums, and within the limits once anything was taken in. */
  ghost predicate Accounted(policy: Policy, coinbaseSize: nat, coinbaseSigOps: nat, b: Block) {
    && |b.fees| == |b.sigOps| == |b.txs|
    && b.size == 89 + coinbaseSize + TotalSize(b.txs) < TWO_32
    && b.totalSigOps == coinbaseSigOps + Sum(b.sigOps) < TWO_63
    && 0 <= b.totalSigOps
    && b.totalFees == WrapI64(Sum(b.fees))
    && (b.txs != [] ==> b.size < policy.blockMaxSize && b.totalSigOps <= MAX_SIG_OPS_PER_BLOCK)
  }

  lemma WrapI64Adds(a: int, b: int)
    ensures WrapI64(WrapI64(a) + b) == WrapI64(a + b)
  {
    var q := (a + TWO_63) / TWO_64;
    assert WrapI64(a) == a - q * TWO_64;
    assert (WrapI64(a) + b + TWO_63) == (a + b + TWO_63) - q * TWO_64;
    ModShift(a + b + TWO_63, q);
  }

  lemma ModShift(x: int, q: int)
    ensures (x - q * TWO_64) % TWO_64 == x % TWO_64
  {
    var r, d := x % TWO_64, x / TWO_64;
    assert x - q * TWO_64 == (d - q) * TWO_64 + r;
  }

  /** Adding with the source's overflow test: either the exact sum within the limit, or refused. */
  method AddSigOps(total: int, more: int) returns (ok: bool)
    requires 0 <= total < TWO_63 && -TWO_63 <= more < TWO_63
    ensures ok <==> 0 <= more && total + more <= MAX_SIG_OPS_PER_BLOCK
  {
    if total + more < TWO_63 {
      WrapI64Exact(total + more);
    } else {
      WrapI64Over(total + more);
    }
    ok := !(WrapI64(total + more) < total || WrapI64(total + more) > MAX_SIG_OPS_PER_BLOCK);
  }

  /** Within the limits, as the true sums go. */
  ghost predicate Fit(policy: Policy, checks: Checks, b: Block, tx: Tx) {
    && b.size + tx.size < policy.blockMaxSize
    && checks.p2shSigOps(tx, b.store).Some?
    && b.totalSigOps + checks.sigOps(tx) + checks.p2shSigOps(tx, b.store).value <= 20_000
  }

  /** The size and signature operation limits, with the fixed-width overflow tests. */
  method FitsBlock(policy: Policy, checks: Checks, b: Block, tx: Tx) returns (fits: bool, plus: nat, numSigOps: int)
    requires 0 <= b.size < TWO_32 && 0 <= b.totalSigOps < TWO_63 && tx.size < TWO_32
    ensures fits <==> Fit(policy, checks, b, tx) && b.size + tx.size < TWO_32
    ensures fits ==> plus == b.size + tx.size && numSigOps == checks.sigOps(tx) + checks.p2shSigOps(tx, b.store).value
  {
    plus := WrapU32(b.size + WrapU32(tx.size));
    if plus < b.size || plus >= policy.blockMaxSize {
      return false, plus, 0;
    }
    numSigOps := checks.sigOps(tx);
    var ok := AddSigOps(b.totalSigOps, numSigOps);
    if !ok {
      return false, plus, numSigOps;
    }
    var p2sh := checks.p2shSigOps(tx, b.store);
    if p2sh.None? {
      return false, plus, numSigOps;
    }
    var sum := numSigOps + p2sh.value;
    if sum < TWO_63 {
      WrapI64Exact(sum);
    } else {
      WrapI64Over(sum);
    }
    numSigOps := WrapI64(sum);
    ok := AddSigOps(b.totalSigOps, numSigOps);
    return ok, plus, numSigOps;
  }

  lemma SumSnoc(xs: seq<int>, x: int)
    ensures Sum(xs + [x]) == Sum(xs) + x
  {
    assert (xs + [x])[..|xs|] == xs;
  }

  lemma TotalSizeSnoc(txs: seq<Tx>, t: Tx)
    ensures TotalSize(txs + [t]) == TotalSize(txs) + t.size
  {
    assert (txs + [t])[..|txs|] == txs;
  }

  lemma BlockSnoc(chain: Chain, txs: seq<Tx>, t: Tx, height: int)
    requires BlockApplies(chain, txs, height) && CanApply(ApplyBlock(chain, txs, height), t)
    ensures BlockApplies(chain, txs + [t], height)
    ensures ApplyBlock(chain, txs + [t], height) == ApplyTx(ApplyBlock(chain, txs, height), t, height)
  {
    assert (txs + [t])[..|txs|] == txs;
  }

  /** The block with one more transaction. */
  function Extend(b: Block, item: PrioItem, numSigOps: int, store: TxStore): Block {
    Block(b.txs + [item.tx], b.fees + [item.fee], b.sigOps + [numSigOps], b.size + item.tx.size,
          b.totalSigOps + numSigOps, WrapI64(b.totalFees + item.fee), store)
  }

  lemma ExtendAccounted(policy: Policy, coinbaseSize: nat, coinbaseSigOps: nat, b: Block, item: PrioItem,
                        numSigOps: int, store: TxStore)
    requires Accounted(policy, coinbaseSize, coinbaseSigOps, b) && 0 <= numSigOps
    requires b.size + item.tx.size < policy.blockMaxSize && b.size + item.tx.size < TWO_32
    requires b.totalSigOps + numSigOps <= MAX_SIG_OPS_PER_BLOCK
    ensures Accounted(policy, coinbaseSize, coinbaseSigOps, Extend(b, item, numSigOps, store))
  {
    hide WrapI64, Sum, TotalSize;
    SumSnoc(b.fees, item.fee);
    SumSnoc(b.sigOps, numSigOps);
    TotalSizeSnoc(b.txs, item.tx);
    WrapI64Adds(Sum(b.fees), item.fee);
  }

  /** The input and script checks, and taking the transaction in.  The marks left by a failed
      input check stay in the store. */
  method TryInclude(chain: Chain, height: int, checks: Checks, b: Block, item: PrioItem, numSigOps: int)
      returns (included: bool, r: Block)
    requires Sound(chain, height, b) && item.tx.ins != [] && !IsCoinBase(item.tx)
    ensures Sound(chain, height, r)
    ensures included <==>
              InputsOk(b.store, height, item.tx) && checks.scriptsValid(item.tx, Marked(b.store, item.tx.ins))
    ensures included ==> r == Extend(b, item, numSigOps, SpentStore(b.store, item.tx, height))
    ensures !included ==> r == b.(store := Marked(b.store, Passing(b.store, height, item.tx.ins)))
    ensures included ==> r.store.Keys == b.store.Keys + {Sha(item.tx)}
    ensures !included ==> r.store.Keys == b.store.Keys
    ensures !included ==> forall h :: h in r.store ==> r.store[h].Found? == b.store[h].Found?
    ensures forall h :: h in b.store && h != Sha(item.tx) ==> r.store[h].Found? == b.store[h].Found?
  {
    SoundStore(chain, height, b);
    hide Sound, InputsOk, IsCoinBase, ChainValid, Marked, Passing;
    var fee, marked := CheckTransactionInputs(item.tx, height, b.store);
    r := b.(store := marked);
    FailedSound(chain, height, b, Passing(b.store, height, item.tx.ins));
    if fee.None? || !checks.scriptsValid(item.tx, marked) {
      return false, r;
    }
    StillThere(b.store, height, item.tx);
    var spent := SpendTransaction(marked, item.tx, height);
    SpentSound(chain, height, b, item, numSigOps, marked, spent);
    return true, Extend(b, item, numSigOps, spent);
  }

  /** What the input check followed by spending leaves in the store. */
  function SpentStore(store: TxStore, tx: Tx, height: int): TxStore {
    Spend(Marked(store, tx.ins), tx, height)
  }

  lemma SoundStore(chain: Chain, height: int, b: Block)
    requires Sound(chain, height, b)
    ensures StoreOk(b.store)
  {
    MarkedSound(ApplyBlock(chain, b.txs, height), b.store, []);
  }

  /** Marking only, as a failed check leaves it behind. */
  lemma FailedSound(chain: Chain, height: int, b: Block, ins: seq<OutPoint>)
    requires Sound(chain, height, b)
    ensures var marked := Marked(b.store, ins);
      && Sound(chain, height, b.(store := marked)) && marked.Keys == b.store.Keys
      && forall h :: h in marked ==> marked[h].Found? == b.store[h].Found?
  {
    MarkedSound(ApplyBlock(chain, b.txs, height), b.store, ins);
  }

  lemma SpentSound(chain: Chain, height: int, b: Block, item: PrioItem, numSigOps: int, marked: TxStore, spent: TxStore)
    requires Sound(chain, height, b) && item.tx.ins != [] && !IsCoinBase(item.tx) && InputsOk(b.store, height, item.tx)
    requires marked == Marked(b.store, item.tx.ins)
    requires spent == Spend(marked, item.tx, height)
    ensures Sound(chain, height, Extend(b, item, numSigOps, spent))
    ensures spent.Keys == b.store.Keys + {Sha(item.tx)}
    ensures forall h :: h in b.store && h != Sha(item.tx) ==> spent[h].Found? == b.store[h].Found?
  {
    var c := ApplyBlock(chain, b.txs, height);
    MarkedSound(c, b.store, item.tx.ins);
    BlockApplyValid(chain, b.txs, height);
    PassingCanBeMined(c, b.store, item.tx, height);
    SpendSound(c, marked, item.tx, height);
    BlockSnoc(chain, b.txs, item.tx, height);
    hide StoreSound, BlockApplies, ApplyBlock, InputsOk, ChainValid, CanApply, ApplyTx;
  }

  lemma BlockApplyValid(chain: Chain, txs: seq<Tx>, height: int)
    requires ChainValid(chain) && BlockApplies(chain, txs, height)
    ensures ChainValid(ApplyBlock(chain, txs, height))
  {
    ApplyBlockValid(chain, txs, height);
  }

  lemma StillThere(store: TxStore, height: int, tx: Tx)
    requires InputsOk(store, height, tx)
    ensures forall o :: o in tx.ins ==>
      && o.hash in Marked(store, tx.ins)
      && Marked(store, tx.ins)[o.hash].Found? && o.index < |Marked(store, tx.ins)[o.hash].spent|
  {
    forall o | o in tx.ins ensures InputOk(store, height, o) {
    }
  }

  // ---------- Setting up ----------

  /** Everything known about the candidates.  An item is identified by its transaction, so
      an item that waits in several lists or sits in the queue twice is one and the same. */
  datatype Plan = Plan(items: map<Hash, PrioItem>, dependsOn: map<Hash, set<Hash>>, dependers: map<Hash, seq<Hash>>,
                       store: TxStore)

  /** The item as the source pool and the priority formula define it. */
  function ItemOf(chain: Chain, height: int, checks: Checks, desc: TxDesc): PrioItem {
    PrioItem(desc.tx, desc.fee, checks.priority(desc.tx, FetchTransactionStore(chain, desc.tx), height),
             FeeRate(desc.fee, desc.tx.size))
  }

  ghost predicate Complete(chain: Chain, height: int, checks: Checks, desc: TxDesc, item: PrioItem) {
    item == ItemOf(chain, height, checks, desc)
  }

  /** The output's transaction is neither unspent on the chain nor anywhere in the pool, or does
      not have the output. */
  ghost predicate Unavailable(chain: Chain, have: set<Hash>, o: OutPoint) {
    if OnChain(chain, o.hash) then o.index > |o.hash.tx.outs| else o.hash !in have
  }

  /** An input that can never be satisfied. */
  ghost predicate Stuck(chain: Chain, have: set<Hash>, tx: Tx) {
    exists o :: o in tx.ins && Unavailable(chain, have, o)
  }

  /** How far setting up gets, given that the first `k` inputs are available. */
  ghost function LeadFrom(chain: Chain, have: set<Hash>, ins: seq<OutPoint>, k: nat): (n: nat)
    requires k <= |ins|
    ensures k <= n <= |ins|
    decreases |ins| - k
  {
    if k < |ins| && !Unavailable(chain, have, ins[k]) then LeadFrom(chain, have, ins, k + 1) else k
  }

  /** The inputs before the first that is not available. */
  ghost function Lead(chain: Chain, have: set<Hash>, ins: seq<OutPoint>): (r: seq<OutPoint>)
    ensures r <= ins
  {
    ins[..LeadFrom(chain, have, ins, 0)]
  }

  lemma {:induction false} LeadIsAll(chain: Chain, have: set<Hash>, tx: Tx, k: nat)
    requires k <= |tx.ins| && !Stuck(chain, have, tx)
    ensures LeadFrom(chain, have, tx.ins, k) == |tx.ins|
    decreases |tx.ins| - k
  {
    if k < |tx.ins| {
      assert tx.ins[k] in tx.ins;
      LeadIsAll(chain, have, tx, k + 1);
    }
  }

  /** The parents that are not mined yet. */
  function Waits(chain: Chain, ins: seq<OutPoint>): set<Hash> {
    set o | o in ins && !OnChain(chain, o.hash) :: o.hash
  }

  function WaitsOf(dependsOn: map<Hash, set<Hash>>, h: Hash): set<Hash> {
    if h in dependsOn then dependsOn[h] else {}
  }

  function ListOf(dependers: map<Hash, seq<Hash>>, p: Hash): seq<Hash> {
    if p in dependers then dependers[p] else []
  }

  /** One entry in the list of `p` for each input that spends from it. */
  function Entries(ins: seq<OutPoint>, p: Hash, h: Hash): seq<Hash> {
    if ins == [] then []
    else Entries(ins[..|ins| - 1], p, h) + if ins[|ins| - 1].hash == p then [h] else []
  }

  /** Each parent that is not mined lists the transaction once for every input that spends from it. */
  ghost predicate Enlisted(chain: Chain, before: map<Hash, seq<Hash>>, after: map<Hash, seq<Hash>>,
                           ins: seq<OutPoint>, h: Hash)
  {
    forall p :: ListOf(after, p) == ListOf(before, p) + if OnChain(chain, p) then [] else Entries(ins, p, h)
  }

  lemma EnlistedStep(chain: Chain, before: map<Hash, seq<Hash>>, mid: map<Hash, seq<Hash>>, ins: seq<OutPoint>,
                     i: nat, h: Hash)
    requires i < |ins| && Enlisted(chain, before, mid, ins[..i], h)
    ensures OnChain(chain, ins[i].hash) ==> Enlisted(chain, before, mid, ins[..i + 1], h)
    ensures !OnChain(chain, ins[i].hash) ==>
              Enlisted(chain, before, mid[ins[i].hash := ListOf(mid, ins[i].hash) + [h]], ins[..i + 1], h)
  {
    hide OnChain, Entries, ListOf;
    var q := ins[i].hash;
    var after := if OnChain(chain, q) then mid else mid[q := ListOf(mid, q) + [h]];
    forall p
      ensures ListOf(after, p) == ListOf(before, p) + if OnChain(chain, p) then [] else Entries(ins[..i + 1], p, h)
    {
      EntriesStep(ins, i, p, h);
      ListOfUpdate(mid, q, ListOf(mid, q) + [h], p);
      if !OnChain(chain, p) {
        Regrouped(ListOf(before, p), Entries(ins[..i], p, h), if q == p then [h] else []);
      }
    }
  }

  lemma EntriesStep(ins: seq<OutPoint>, i: nat, p: Hash, h: Hash)
    requires i < |ins|
    ensures Entries(ins[..i + 1], p, h) == Entries(ins[..i], p, h) + if ins[i].hash == p then [h] else []
  {
    assert ins[..i + 1][..i] == ins[..i];
  }

  lemma ListOfUpdate(dependers: map<Hash, seq<Hash>>, q: Hash, list: seq<Hash>, p: Hash)
    ensures ListOf(dependers[q := list], p) == if p == q then list else ListOf(dependers, p)
  {
  }

  lemma Regrouped(a: seq<Hash>, b: seq<Hash>, c: seq<Hash>)
    ensures (a + b) + c == a + (b + c) && a + [] == a
  {
  }

  /** A candidate abandoned half way keeps its empty fee and priority, but it is stuck. */
  ghost predicate ItemOk(chain: Chain, height: int, checks: Checks, pool: Pool, have: set<Hash>, h: Hash,
                         item: PrioItem) {
    && h == Sha(item.tx) && h in pool
    && (Complete(chain, height, checks, pool[h], item) || Stuck(chain, have, item.tx))
  }

  ghost predicate ItemsOk(chain: Chain, height: int, checks: Checks, pool: Pool, have: set<Hash>,
                          items: map<Hash, PrioItem>) {
    forall h :: h in items ==> ItemOk(chain, height, checks, pool, have, h, items[h])
  }

  ghost predicate QueueOk(items: map<Hash, PrioItem>, queue: seq<PrioItem>) {
    forall item :: item in queue ==> Sha(item.tx) in items && items[Sha(item.tx)] == item
  }

  ghost predicate WaitersOk(known: set<Hash>, dependers: map<Hash, seq<Hash>>) {
    forall p, k :: p in dependers && k in dependers[p] ==> k in known
  }

  /** Found entries come from the chain. */
  ghost predicate StoreFrom(chain: Chain, known: set<Hash>, store: TxStore) {
    forall h :: h in store && store[h].Found? ==> OnChain(chain, h) || h in known
  }

  lemma StuckNeverPasses(chain: Chain, have: set<Hash>, known: set<Hash>, c: Chain, store: TxStore, tx: Tx, height: int)
    requires StoreFrom(chain, known, store) && known <= have && StoreSound(c, store)
    requires InputsOk(store, height, tx)
    ensures !Stuck(chain, have, tx)
  {
    forall o | o in tx.ins
      ensures OnChain(chain, o.hash) || o.hash in have
      ensures OnChain(chain, o.hash) ==> o.index <= |o.hash.tx.outs|
    {
      assert InputOk(store, height, o);
    }
  }

  lemma SetUpStart(chain: Chain, plan: Plan, known: set<Hash>)
    requires WaitersOk(plan.items.Keys, plan.dependers) && plan.items.Keys <= known
    ensures WaitersOk(known, plan.dependers) && Waits(chain, []) == {}
    ensures forall h :: Enlisted(chain, plan.dependers, plan.dependers, [], h)
  {
  }

  lemma WaitsStep(chain: Chain, have: set<Hash>, tx: Tx, i: nat)
    requires i < |tx.ins|
    ensures var o, store := tx.ins[i], FetchTransactionStore(chain, tx);
      && o in tx.ins && o.hash in store
      && (store[o.hash].Missing? <==> !OnChain(chain, o.hash))
      && Waits(chain, tx.ins[..i + 1]) == Waits(chain, tx.ins[..i]) + (if store[o.hash].Missing? then {o.hash} else {})
      && (Unavailable(chain, have, o) <==>
          if store[o.hash].Missing? then o.hash !in have else o.index > |store[o.hash].tx.outs|)
  {
    var o := tx.ins[i];
    assert o.hash in Wanted(tx) && tx.ins[..i + 1] == tx.ins[..i] + [o];
    assert forall x :: x in tx.ins[..i + 1] <==> x in tx.ins[..i] || x == o;
  }

  lemma WaitersOkWith(known: set<Hash>, dependers: map<Hash, seq<Hash>>, p: Hash, h: Hash)
    requires WaitersOk(known, dependers) && h in known
    ensures WaitersOk(known, dependers[p := ListOf(dependers, p) + [h]])
  {
  }

  /** Sets up the dependencies of one candidate.  False means it was abandoned: an input is
      not available, though earlier inputs may already be waited for. */
  method SetUpDependencies(chain: Chain, have: set<Hash>, txStore: TxStore, tx: Tx, plan: Plan)
      returns (ok: bool, waits: set<Hash>, dependers: map<Hash, seq<Hash>>)
    requires txStore == FetchTransactionStore(chain, tx)
    requires WaitersOk(plan.items.Keys, plan.dependers)
    ensures WaitersOk(plan.items.Keys + {Sha(tx)}, dependers)
    ensures ok <==> !Stuck(chain, have, tx)
    ensures ok ==> Lead(chain, have, tx.ins) == tx.ins && waits == Waits(chain, tx.ins)
    ensures waits == Waits(chain, Lead(chain, have, tx.ins))
    ensures Enlisted(chain, plan.dependers, dependers, Lead(chain, have, tx.ins), Sha(tx))
  {
    hide WaitersOk, Waits, Enlisted, Unavailable, ListOf;
    dependers := plan.dependers;
    waits := {};
    ghost var known := plan.items.Keys + {Sha(tx)};
    SetUpStart(chain, plan, known);
    for i := 0 to |tx.ins|
      invariant WaitersOk(known, dependers)
      invariant waits == Waits(chain, tx.ins[..i])
      invariant forall j :: 0 <= j < i ==> !Unavailable(chain, have, tx.ins[j])
      invariant LeadFrom(chain, have, tx.ins, 0) == LeadFrom(chain, have, tx.ins, i)
      invariant Enlisted(chain, plan.dependers, dependers, tx.ins[..i], Sha(tx))
    {
      var o := tx.ins[i];
      WaitsStep(chain, have, tx, i);
      EnlistedStep(chain, plan.dependers, dependers, tx.ins, i, Sha(tx));
      if txStore[o.hash].Missing? {
        if o.hash !in have {
          return false, waits, dependers;
        }
        WaitersOkWith(known, dependers, o.hash, Sha(tx));
        dependers := dependers[o.hash := ListOf(dependers, o.hash) + [Sha(tx)]];
        waits := waits + {o.hash};
      } else if o.index > |txStore[o.hash].tx.outs| {
        return false, waits, dependers;
      }
    }
    assert tx.ins[..|tx.ins|] == tx.ins;
    ok := true;
  }

  ghost predicate Candidate(isFinal: Tx -> bool, tx: Tx) {
    !IsCoinBase(tx) && isFinal(tx)
  }

  /** What is noted down about a candidate; one abandoned half way keeps empty fee and priority. */
  ghost function Noted(chain: Chain, height: int, checks: Checks, have: set<Hash>, desc: TxDesc): PrioItem {
    if Stuck(chain, have, desc.tx) then PrioItem(desc.tx, 0, 0.0, 0) else ItemOf(chain, height, checks, desc)
  }

  /** A candidate that can go into the block right away. */
  ghost predicate Ready(chain: Chain, isFinal: Tx -> bool, have: set<Hash>, tx: Tx) {
    Candidate(isFinal, tx) && !Stuck(chain, have, tx) && Waits(chain, tx.ins) == {}
  }

  /** Decides what to do with one transaction of the source pool. */
  method ConsiderSource(chain: Chain, height: int, checks: Checks, isFinal: Tx -> bool, pool: Pool, have: set<Hash>,
                        desc: TxDesc, queue: TxPriorityQueue, plan: Plan) returns (next: Plan)
    requires ChainValid(chain) && StoreSound(chain, plan.store) && StoreFrom(chain, {}, plan.store)
    requires Sha(desc.tx) in pool && pool[Sha(desc.tx)] == desc && Sha(desc.tx) !in plan.items
    requires ItemsOk(chain, height, checks, pool, have, plan.items) && WaitersOk(plan.items.Keys, plan.dependers)
    requires queue.Valid() && QueueOk(plan.items, queue.items)
    modifies queue`items
    ensures queue.Valid() && QueueOk(next.items, queue.items)
    ensures StoreSound(chain, next.store) && StoreFrom(chain, {}, next.store)
    ensures ItemsOk(chain, height, checks, pool, have, next.items) && WaitersOk(next.items.Keys, next.dependers)
    ensures next.items.Keys <= plan.items.Keys + {Sha(desc.tx)}
    ensures !Candidate(isFinal, desc.tx) ==> next == plan
    ensures Candidate(isFinal, desc.tx) ==>
              && next.items == plan.items[Sha(desc.tx) := Noted(chain, height, checks, have, desc)]
              && next.dependsOn == plan.dependsOn[Sha(desc.tx) := Waits(chain, Lead(chain, have, desc.tx.ins))]
              && Enlisted(chain, plan.dependers, next.dependers, Lead(chain, have, desc.tx.ins), Sha(desc.tx))
              && next.store == if Stuck(chain, have, desc.tx) then plan.store
                               else Merged(plan.store, FetchTransactionStore(chain, desc.tx))
    ensures multiset(queue.items) == multiset(old(queue.items)) +
              if Ready(chain, isFinal, have, desc.tx) then multiset{ItemOf(chain, height, checks, desc)} else multiset{}
  {
    hide *;
    var tx := desc.tx;
    NotedIs(chain, height, checks, isFinal, have, desc);
    if IsCoinBase(tx) || !isFinal(tx) {
      return plan;
    }
    var txStore := FetchTransactionStore(chain, tx);
    var ok, waits, dependers := SetUpDependencies(chain, have, txStore, tx, plan);
    if !ok {
      var unset := PrioItem(tx, 0, 0.0, 0);
      next := Plan(plan.items[Sha(tx) := unset], plan.dependsOn[Sha(tx) := waits], dependers, plan.store);
      AbandonedOk(chain, height, checks, pool, have, plan.items, desc, unset);
      QueueGrows(plan.items, queue.items, unset);
      assert next.items.Keys == plan.items.Keys + {Sha(tx)};
      return;
    }
    var item := PrioItem(tx, desc.fee, checks.priority(tx, txStore, height), FeeRate(desc.fee, tx.size));
    var store := MergeTxStore(plan.store, txStore);
    next := Plan(plan.items[Sha(tx) := item], plan.dependsOn[Sha(tx) := waits], dependers, store);
    assert next.items.Keys == plan.items.Keys + {Sha(tx)};
    CompleteOk(chain, height, checks, pool, have, plan.items, desc, item);
    MergedFetch(chain, plan.store, tx);
    QueueGrows(plan.items, queue.items, item);
    if waits == {} {
      ghost var before := queue.items;
      queue.Push(item);
      QueuePushed(next.items, before, queue.items, item);
    }
  }

  lemma NotedIs(chain: Chain, height: int, checks: Checks, isFinal: Tx -> bool, have: set<Hash>, desc: TxDesc)
    ensures var tx, noted := desc.tx, Noted(chain, height, checks, have, desc);
      && (Stuck(chain, have, tx) ==> noted == PrioItem(tx, 0, 0.0, 0))
      && ItemOf(chain, height, checks, desc) ==
           PrioItem(tx, desc.fee, checks.priority(tx, FetchTransactionStore(chain, tx), height),
                    FeeRate(desc.fee, tx.size))
      && (!Stuck(chain, have, tx) ==> noted == ItemOf(chain, height, checks, desc))
      && (Candidate(isFinal, tx) <==> !IsCoinBase(tx) && isFinal(tx))
      && (Ready(chain, isFinal, have, tx) <==>
            Candidate(isFinal, tx) && !Stuck(chain, have, tx) && Waits(chain, tx.ins) == {})
  {
  }

  lemma AbandonedOk(chain: Chain, height: int, checks: Checks, pool: Pool, have: set<Hash>, items: map<Hash, PrioItem>,
                    desc: TxDesc, item: PrioItem)
    requires ItemsOk(chain, height, checks, pool, have, items) && Sha(desc.tx) in pool
    requires item.tx == desc.tx && Stuck(chain, have, desc.tx)
    ensures ItemsOk(chain, height, checks, pool, have, items[Sha(desc.tx) := item])
  {
  }

  lemma CompleteOk(chain: Chain, height: int, checks: Checks, pool: Pool, have: set<Hash>, items: map<Hash, PrioItem>,
                   desc: TxDesc, item: PrioItem)
    requires ItemsOk(chain, height, checks, pool, have, items) && Sha(desc.tx) in pool && pool[Sha(desc.tx)] == desc
    requires var store := FetchTransactionStore(chain, desc.tx);
      item == PrioItem(desc.tx, desc.fee, checks.priority(desc.tx, store, height),
                       FeeRate(desc.fee, desc.tx.size))
    ensures ItemsOk(chain, height, checks, pool, have, items[Sha(desc.tx) := item])
  {
  }

  lemma MergedFetch(chain: Chain, store: TxStore, tx: Tx)
    requires ChainValid(chain) && StoreSound(chain, store) && StoreFrom(chain, {}, store)
    ensures StoreSound(chain, Merged(store, FetchTransactionStore(chain, tx)))
    ensures StoreFrom(chain, {}, Merged(store, FetchTransactionStore(chain, tx)))
  {
    FetchedSound(chain, tx);
    MergedSound(chain, store, FetchTransactionStore(chain, tx));
  }

  lemma QueueGrows(items: map<Hash, PrioItem>, queue: seq<PrioItem>, item: PrioItem)
    requires QueueOk(items, queue) && Sha(item.tx) !in items
    ensures QueueOk(items[Sha(item.tx) := item], queue)
  {
  }

  lemma QueuePushed(items: map<Hash, PrioItem>, before: seq<PrioItem>, after: seq<PrioItem>, item: PrioItem)
    requires QueueOk(items, before) && multiset(after) == multiset(before) + multiset{item}
    requires Sha(item.tx) in items && items[Sha(item.tx)] == item
    ensures QueueOk(items, after) && |after| == |before| + 1
  {
    SameMembers(after, before, item);
  }

  lemma QueuePopped(items: map<Hash, PrioItem>, before: seq<PrioItem>, after: seq<PrioItem>, item: PrioItem)
    requires QueueOk(items, before) && multiset(before) == multiset(after) + multiset{item}
    ensures QueueOk(items, after) && |after| == |before| - 1
    ensures Sha(item.tx) in items && items[Sha(item.tx)] == item
  {
    SameMembers(before, after, item);
  }

  lemma QueueReordered(items: map<Hash, PrioItem>, before: seq<PrioItem>, after: seq<PrioItem>)
    requires QueueOk(items, before) && multiset(after) == multiset(before)
    ensures QueueOk(items, after) && |after| == |before|
  {
    assert forall x :: x in after ==> x in multiset(after);
    assert |multiset(after)| == |multiset(before)|;
  }

  // ---------- Dependents ----------

  /** What a candidate is noted to wait for covers its parents that are neither mined nor in the block. */
  ghost predicate WaitingOk(chain: Chain, have: set<Hash>, items: map<Hash, PrioItem>, included: set<Hash>,
                            dependsOn: map<Hash, set<Hash>>)
  {
    forall k :: k in items ==>
      Stuck(chain, have, items[k].tx) || Waits(chain, items[k].tx.ins) - included <= WaitsOf(dependsOn, k)
  }

  /** Every queued candidate has all its parents mined or in the block. */
  ghost predicate ReadyQueue(chain: Chain, have: set<Hash>, included: set<Hash>, queue: seq<PrioItem>) {
    forall item :: item in queue ==> Stuck(chain, have, item.tx) || Waits(chain, item.tx.ins) <= included
  }

  lemma WaitingStep(chain: Chain, height: int, checks: Checks, have: set<Hash>, desc: TxDesc, was: Plan, plan: Plan)
    requires WaitingOk(chain, have, was.items, {}, was.dependsOn) && Sha(desc.tx) !in was.items
    requires || plan == was
             || (plan.items == was.items[Sha(desc.tx) := Noted(chain, height, checks, have, desc)] &&
                 plan.dependsOn == was.dependsOn[Sha(desc.tx) := Waits(chain, Lead(chain, have, desc.tx.ins))])
    ensures WaitingOk(chain, have, plan.items, {}, plan.dependsOn)
  {
    if !Stuck(chain, have, desc.tx) {
      LeadIsAll(chain, have, desc.tx, 0);
    }
    hide Stuck, Waits, Lead;
    forall k | k in plan.items
      ensures Stuck(chain, have, plan.items[k].tx) ||
              Waits(chain, plan.items[k].tx.ins) - {} <= WaitsOf(plan.dependsOn, k)
    {
      assert k != Sha(desc.tx) ==> k in was.items && plan.items[k] == was.items[k] &&
                                   WaitsOf(plan.dependsOn, k) == WaitsOf(was.dependsOn, k);
    }
  }

  /** How many entries wait in all dependency lists together. */
  ghost function TotalWaiting(dependers: map<Hash, seq<Hash>>): nat {
    if dependers == map[] then 0
    else var p :| p in dependers; |dependers[p]| + TotalWaiting(dependers - {p})
  }

  lemma {:induction false} TotalWaitingWithout(dependers: map<Hash, seq<Hash>>, p: Hash)
    requires p in dependers
    ensures TotalWaiting(dependers) == |dependers[p]| + TotalWaiting(dependers - {p})
    decreases |dependers|
  {
    var q :| q in dependers && TotalWaiting(dependers) == |dependers[q]| + TotalWaiting(dependers - {q});
    if q != p {
      TotalWaitingWithout(dependers - {q}, p);
      assert dependers - {q} - {p} == dependers - {p} - {q};
      assert q in dependers - {p};
      TotalWaitingWithout(dependers - {p}, q);
    }
  }

  /** What those who wait still wait for once `parent` is in the block. */
  function Shortened(dependsOn: map<Hash, set<Hash>>, deps: seq<Hash>, parent: Hash): map<Hash, set<Hash>> {
    map k | k in dependsOn.Keys + (set d | d in deps) :: WaitsOf(dependsOn, k) - if k in deps then {parent} else {}
  }

  /** The items that wait for `parent` alone, as often as they are listed. */
  function Released(items: map<Hash, PrioItem>, dependsOn: map<Hash, set<Hash>>, deps: seq<Hash>,
                    parent: Hash): seq<PrioItem>
  {
    if deps == [] then []
    else
      var k := deps[|deps| - 1];
      var freed := if k in items && WaitsOf(dependsOn, k) - {parent} == {} then [items[k]] else [];
      Released(items, dependsOn, deps[..|deps| - 1], parent) + freed
  }

  lemma ReleasedNone(items: map<Hash, PrioItem>, dependsOn: map<Hash, set<Hash>>, deps: seq<Hash>, parent: Hash)
    ensures Shortened(dependsOn, deps[..0], parent) == dependsOn && Released(items, dependsOn, deps[..0], parent) == []
  {
    assert deps[..0] == [];
    assert forall k :: k in dependsOn ==> WaitsOf(dependsOn, k) - {} == dependsOn[k];
  }

  lemma ReleasedStep(items: map<Hash, PrioItem>, dependsOn: map<Hash, set<Hash>>, deps: seq<Hash>, parent: Hash, i: nat)
    requires i < |deps| && forall k :: k in deps ==> k in items
    ensures var k, left := deps[i], Shortened(dependsOn, deps[..i], parent);
      && WaitsOf(left, k) - {parent} == WaitsOf(dependsOn, k) - {parent}
      && Shortened(dependsOn, deps[..i + 1], parent) == left[k := WaitsOf(left, k) - {parent}]
      && Released(items, dependsOn, deps[..i + 1], parent) == Released(items, dependsOn, deps[..i], parent) +
           if WaitsOf(dependsOn, k) - {parent} == {} then [items[k]] else []
  {
    assert deps[..i + 1] == deps[..i] + [deps[i]];
  }

  /** Each of them is listed and waits for nothing else. */
  lemma {:induction false} ReleasedAre(items: map<Hash, PrioItem>, dependsOn: map<Hash, set<Hash>>, deps: seq<Hash>,
                                       parent: Hash)
    ensures |Released(items, dependsOn, deps, parent)| <= |deps|
    ensures forall item :: item in Released(items, dependsOn, deps, parent) ==>
              exists k :: k in deps && k in items && items[k] == item && WaitsOf(dependsOn, k) <= {parent}
  {
    if deps != [] {
      var front, k := deps[..|deps| - 1], deps[|deps| - 1];
      ReleasedAre(items, dependsOn, front, parent);
      assert forall d :: d in front ==> d in deps;
    }
  }

  /** Queues the waiting transactions whose last missing parent has just been included; one
      that waits in the list twice is queued twice. */
  method ReleaseDependents(queue: TxPriorityQueue, deps: seq<Hash>, parent: Hash, items: map<Hash, PrioItem>,
                           dependsOn: map<Hash, set<Hash>>) returns (left: map<Hash, set<Hash>>)
    requires queue.Valid() && QueueOk(items, queue.items)
    requires forall k :: k in deps ==> k in items && Sha(items[k].tx) == k
    modifies queue`items
    ensures queue.Valid() && QueueOk(items, queue.items)
    ensures left == Shortened(dependsOn, deps, parent)
    ensures multiset(queue.items) == multiset(old(queue.items)) + multiset(Released(items, dependsOn, deps, parent))
    ensures |queue.items| <= |old(queue.items)| + |deps|
  {
    hide *;
    left := dependsOn;
    ReleasedNone(items, dependsOn, deps, parent);
    for i := 0 to |deps|
      invariant queue.Valid() && QueueOk(items, queue.items)
      invariant |queue.items| <= |old(queue.items)| + i
      invariant forall k :: k in deps[..i] ==> k in items
      invariant left == Shortened(dependsOn, deps[..i], parent)
      invariant multiset(queue.items) ==
                multiset(old(queue.items)) + multiset(Released(items, dependsOn, deps[..i], parent))
    {
      var k := deps[i];
      ReleasedStep(items, dependsOn, deps, parent, i);
      var waits := WaitsOf(left, k) - {parent};
      left := left[k := waits];
      if waits == {} {
        ghost var before := queue.items;
        queue.Push(items[k]);
        QueuePushed(items, before, queue.items, items[k]);
      }
    }
    assert deps[..|deps|] == deps;
  }

  // ---------- The template ----------

  /** The finished template; `fees` and `sigOps` run parallel to `txs`. */
  datatype Template = Template(txs: seq<Tx>, fees: seq<int>, sigOps: seq<int>)

  function BaseSize(coinbase: Tx): nat {
    BLOCK_HEADER_OVERHEAD + coinbase.size
  }

  /** Size of the block up to and including the i-th transaction. */
  function SizeThrough(base: nat, txs: seq<Tx>, i: nat): nat
    requires i < |txs|
  {
    base + TotalSize(txs[..i + 1])
  }

  /** Up to the k-th item everything has high priority and fits the priority area; after that
      everything pays the minimum fee or the block was below its minimum size. */
  ghost predicate PhaseAt(policy: Policy, base: nat, chosen: seq<PrioItem>, txs: seq<Tx>, k: nat, i: nat)
    requires i < |chosen| == |txs|
  {
    if i < k then chosen[i].priority >= MIN_HIGH_PRIORITY && SizeThrough(base, txs, i) <= policy.blockPrioritySize
    else chosen[i].feePerKB >= policy.txMinFreeFee || SizeThrough(base, txs, i) < policy.blockMinSize
  }

  ghost predicate Phases(policy: Policy, base: nat, chosen: seq<PrioItem>, txs: seq<Tx>, k: nat) {
    && |chosen| == |txs| && k <= |chosen|
    && forall i :: 0 <= i < |chosen| ==> PhaseAt(policy, base, chosen, txs, k, i)
  }

  lemma PhasesSnoc(policy: Policy, base: nat, chosen: seq<PrioItem>, txs: seq<Tx>, k: nat, item: PrioItem, k': nat)
    requires Phases(policy, base, chosen, txs, k)
    requires k' == k || (k == |chosen| && k' == k + 1)
    requires if k' == k
             then item.feePerKB >= policy.txMinFreeFee || base + TotalSize(txs) + item.tx.size < policy.blockMinSize
             else item.priority >= MIN_HIGH_PRIORITY && base + TotalSize(txs) + item.tx.size <= policy.blockPrioritySize
    ensures Phases(policy, base, chosen + [item], txs + [item.tx], k')
  {
    var longer := txs + [item.tx];
    TotalSizeSnoc(txs, item.tx);
    hide TotalSize;
    assert longer[..|txs| + 1] == longer;
    forall i | 0 <= i < |chosen| + 1 ensures PhaseAt(policy, base, chosen + [item], longer, k', i) {
      if i < |chosen| {
        assert PhaseAt(policy, base, chosen, txs, k, i);
        assert longer[..i + 1] == txs[..i + 1];
      }
    }
  }

  /** What was taken in comes from the pool, at the fee the pool recorded, each item complete. */
  ghost predicate Chosen(chain: Chain, height: int, checks: Checks, pool: Pool, chosen: seq<PrioItem>, b: Block) {
    && |chosen| == |b.txs| == |b.fees|
    && forall i :: 0 <= i < |chosen| ==>
         && Sha(b.txs[i]) in pool && chosen[i].tx == b.txs[i]
         && b.fees[i] == pool[Sha(b.txs[i])].fee
         && Complete(chain, height, checks, pool[Sha(b.txs[i])], chosen[i])
  }

  lemma ChosenSnoc(chain: Chain, height: int, checks: Checks, pool: Pool, chosen: seq<PrioItem>, b: Block,
                   item: PrioItem,
                   numSigOps: int, store: TxStore)
    requires PoolOk(pool) && Chosen(chain, height, checks, pool, chosen, b)
    requires Sha(item.tx) in pool && Complete(chain, height, checks, pool[Sha(item.tx)], item)
    ensures Chosen(chain, height, checks, pool, chosen + [item], Extend(b, item, numSigOps, store))
  {
    var next := Extend(b, item, numSigOps, store);
    forall i | 0 <= i < |chosen| + 1
      ensures Sha(next.txs[i]) in pool && (chosen + [item])[i].tx == next.txs[i]
      ensures next.fees[i] == pool[Sha(next.txs[i])].fee
      ensures Complete(chain, height, checks, pool[Sha(next.txs[i])], (chosen + [item])[i])
    {
    }
  }

  /** What stays fixed while transactions are chosen. */
  datatype Setting = Setting(chain: Chain, height: int, policy: Policy, checks: Checks, pool: Pool, have: set<Hash>,
                             coinbase: Tx, items: map<Hash, PrioItem>)

  /** The state of the choosing loop; `chosen` lists the items taken in and `highPriority`
      counts those taken in before the switch to ordering by fee. */
  datatype Progress = Progress(b: Block, dependers: map<Hash, seq<Hash>>, dependsOn: map<Hash, set<Hash>>,
                               sortedByFee: bool,
                               chosen: seq<PrioItem>, highPriority: nat)

  ghost predicate SettingOk(s: Setting) {
    && ChainValid(s.chain) && PoolOk(s.pool) && s.pool.Keys <= s.have
    && ItemsOk(s.chain, s.height, s.checks, s.pool, s.have, s.items)
    && s.coinbase.size <= MAX_BLOCK_PAYLOAD
    && s.policy.blockMaxSize < TWO_32
  }

  ghost predicate Building(s: Setting, p: Progress) {
    && Sound(s.chain, s.height, p.b)
    && Accounted(s.policy, s.coinbase.size, s.checks.sigOps(s.coinbase), p.b)
    && StoreFrom(s.chain, s.pool.Keys, p.b.store)
    && Chosen(s.chain, s.height, s.checks, s.pool, p.chosen, p.b)
    && Phases(s.policy, BaseSize(s.coinbase), p.chosen, p.b.txs, p.highPriority)
    && (!p.sortedByFee ==> p.highPriority == |p.chosen|)
  }

  ghost predicate Queued(s: Setting, p: Progress, queue: TxPriorityQueue)
    reads queue
  {
    && queue.Valid() && QueueOk(s.items, queue.items) && WaitersOk(s.items.Keys, p.dependers)
    && queue.lessFunc == if p.sortedByFee then ByFee else ByPriority
  }

  /** Bounds the turns left: queued items, waiting entries, and the one switch of ordering. */
  ghost function Remaining(p: Progress, queue: TxPriorityQueue): nat
    reads queue
  {
    |queue.items| + TotalWaiting(p.dependers) + if p.sortedByFee then 0 else 1
  }

  lemma ItemFacts(s: Setting, h: Hash)
    requires SettingOk(s) && h in s.items
    ensures var tx := s.items[h].tx;
      && Sha(tx) == h && h in s.pool
      && tx.ins != [] && !IsCoinBase(tx) && tx.size < TWO_32
      && (Complete(s.chain, s.height, s.checks, s.pool[h], s.items[h]) || Stuck(s.chain, s.have, tx))
  {
    assert ItemOk(s.chain, s.height, s.checks, s.pool, s.have, h, s.items[h]);
    assert PoolTxOk(s.pool[h]) && h == Sha(s.pool[h].tx);
  }

  lemma CountersInRange(s: Setting, p: Progress)
    requires Building(s, p)
    ensures 0 <= p.b.size < TWO_32 && 0 <= p.b.totalSigOps < TWO_63
    ensures p.b.size == BaseSize(s.coinbase) + TotalSize(p.b.txs)
  {
  }

  /** A failed attempt only leaves marks in the store. */
  lemma SkippedBuilding(s: Setting, p: Progress, b: Block, dependers: map<Hash, seq<Hash>>, sortedByFee: bool)
    requires Building(s, p) && Sound(s.chain, s.height, b) && b == p.b.(store := b.store)
    requires b.store.Keys == p.b.store.Keys && forall h :: h in b.store ==> b.store[h].Found? == p.b.store[h].Found?
    requires p.sortedByFee ==> sortedByFee
    ensures Building(s, p.(b := b, dependers := dependers, sortedByFee := sortedByFee))
  {
    hide Sound, Phases;
  }

  lemma ItemsKeyed(s: Setting)
    requires SettingOk(s)
    ensures forall k :: k in s.items ==> Sha(s.items[k].tx) == k
  {
    forall k | k in s.items ensures Sha(s.items[k].tx) == k {
      ItemFacts(s, k);
    }
  }

  lemma IncludedBuilding(s: Setting, p: Progress, b: Block, item: PrioItem, numSigOps: int, sorted: bool, q: Progress)
    requires SettingOk(s) && Building(s, p) && Sound(s.chain, s.height, b)
    requires Sha(item.tx) in s.items && s.items[Sha(item.tx)] == item
    requires InputsOk(p.b.store, s.height, item.tx) && b == Extend(p.b, item, numSigOps, b.store)
    requires b.store.Keys == p.b.store.Keys + {Sha(item.tx)}
    requires forall h :: h in p.b.store && h != Sha(item.tx) ==> b.store[h].Found? == p.b.store[h].Found?
    requires 0 <= numSigOps && p.b.totalSigOps + numSigOps <= MAX_SIG_OPS_PER_BLOCK
    requires p.b.size + item.tx.size < s.policy.blockMaxSize
    requires p.sortedByFee ==> sorted
    requires if p.sortedByFee
             then item.feePerKB >= s.policy.txMinFreeFee || p.b.size + item.tx.size < s.policy.blockMinSize
             else item.priority >= MIN_HIGH_PRIORITY && p.b.size + item.tx.size <= s.policy.blockPrioritySize
    requires q == p.(b := b, sortedByFee := sorted, chosen := p.chosen + [item],
                     highPriority := if p.sortedByFee then p.highPriority else p.highPriority + 1,
                     dependers := q.dependers, dependsOn := q.dependsOn)
    ensures Building(s, q)
  {
    hide InputsOk, PoolOk, ItemsOk, ChainValid, Stuck, Complete, IsCoinBase;
    CountersInRange(s, p);
    ItemFacts(s, Sha(item.tx));
    NotStuck(s, p, item.tx);
    ExtendAccounted(s.policy, s.coinbase.size, s.checks.sigOps(s.coinbase), p.b, item, numSigOps, b.store);
    ChosenSnoc(s.chain, s.height, s.checks, s.pool, p.chosen, p.b, item, numSigOps, b.store);
    PhasesSnoc(s.policy, BaseSize(s.coinbase), p.chosen, p.b.txs, p.highPriority, item, q.highPriority);
    StoreFromMore(s.chain, s.pool.Keys, p.b.store, b.store, Sha(item.tx));
    hide Sound, Accounted, Chosen, Phases, StoreFrom;
  }

  lemma NotStuck(s: Setting, p: Progress, tx: Tx)
    requires SettingOk(s) && Building(s, p) && InputsOk(p.b.store, s.height, tx)
    ensures !Stuck(s.chain, s.have, tx)
  {
    StuckNeverPasses(s.chain, s.have, s.pool.Keys, ApplyBlock(s.chain, p.b.txs, s.height), p.b.store, tx, s.height);
  }

  lemma StoreFromMore(chain: Chain, known: set<Hash>, store: TxStore, more: TxStore, h: Hash)
    requires StoreFrom(chain, known, store) && h in known && more.Keys == store.Keys + {h}
    requires forall k :: k in store && k != h ==> more[k].Found? == store[k].Found?
    ensures StoreFrom(chain, known, more)
  {
  }

  /** Takes the best queued item and the list of those waiting for it. */
  method TakeBest(s: Setting, p: Progress, queue: TxPriorityQueue)
      returns (item: PrioItem, deps: seq<Hash>, dependers: map<Hash, seq<Hash>>)
    requires SettingOk(s) && Queued(s, p, queue) && queue.items != []
    modifies queue`items
    ensures Queued(s, p.(dependers := dependers), queue)
    ensures Sha(item.tx) in s.items && s.items[Sha(item.tx)] == item
    ensures forall other :: other in old(queue.items) ==> NoBetter(p.sortedByFee, other, item)
    ensures forall k :: k in deps ==> k in s.items
    ensures item in old(queue.items) && multiset(old(queue.items)) == multiset(queue.items) + multiset{item}
    ensures deps == ListOf(p.dependers, Sha(item.tx)) && dependers == p.dependers - {Sha(item.tx)}
    ensures |queue.items| + |deps| + TotalWaiting(dependers) == old(|queue.items|) - 1 + TotalWaiting(p.dependers)
  {
    hide SettingOk, QueueOk, WaitersOk, Heap.IsHeap, Heap.StrictWeakOrder, TotalWaiting;
    ghost var queued := queue.items;
    item := queue.Pop();
    QueuePopped(s.items, queued, queue.items, item);
    assert item in multiset(queued);
    QueuedMeans(s, p, queue);
    hide Before, NoBetter;
    forall other | other in queued ensures NoBetter(p.sortedByFee, other, item) {
      BeforeMeans(p.sortedByFee, other, item);
    }
    deps, dependers := Unlist(p.dependers, Sha(item.tx), s.items);
  }

  /** Switches the ordering when the high-priority area ends.  The item goes back when it does
      not belong to that area itself. */
  method EndPriorityArea(s: Setting, p: Progress, item: PrioItem, plus: nat, queue: TxPriorityQueue)
      returns (q: Progress, requeued: bool)
    requires Queued(s, p, queue) && Sha(item.tx) in s.items && s.items[Sha(item.tx)] == item
    modifies queue
    ensures Queued(s, q, queue) && q == p.(sortedByFee := q.sortedByFee)
    ensures q.sortedByFee <==> p.sortedByFee || plus >= s.policy.blockPrioritySize || item.priority <= MIN_HIGH_PRIORITY
    ensures requeued <==> !p.sortedByFee && (plus > s.policy.blockPrioritySize || item.priority < MIN_HIGH_PRIORITY)
    ensures multiset(queue.items) == multiset(old(queue.items)) + if requeued then multiset{item} else multiset{}
    ensures |queue.items| == old(|queue.items|) + if requeued then 1 else 0
  {
    hide QueueOk, WaitersOk, Heap.IsHeap, Heap.StrictWeakOrder;
    q, requeued := p, false;
    if !p.sortedByFee && (plus >= s.policy.blockPrioritySize || item.priority <= MIN_HIGH_PRIORITY) {
      q := p.(sortedByFee := true);
      BothAreOrders();
      ghost var before := queue.items;
      queue.SetLessFunc(ByFee);
      QueueReordered(s.items, before, queue.items);
      if plus > s.policy.blockPrioritySize || item.priority < MIN_HIGH_PRIORITY {
        before := queue.items;
        queue.Push(item);
        QueuePushed(s.items, before, queue.items, item);
        requeued := true;
      }
    }
  }

  /** The item is put back, for the ordering to change. */
  ghost predicate Returns(s: Setting, p: Progress, item: PrioItem) {
    && Fit(s.policy, s.checks, p.b, item.tx) && !p.sortedByFee
    && (p.b.size + item.tx.size > s.policy.blockPrioritySize || item.priority < 57_600_000.0)
  }

  /** The item gets as far as the input and script checks at its turn. */
  ghost predicate Tried(s: Setting, p: Progress, item: PrioItem) {
    && Fit(s.policy, s.checks, p.b, item.tx) && !Returns(s, p, item)
    && !(p.sortedByFee && item.feePerKB < s.policy.txMinFreeFee && p.b.size + item.tx.size >= s.policy.blockMinSize)
  }

  /** The item passes the input and script checks on the store as it is. */
  ghost predicate Passes(s: Setting, p: Progress, item: PrioItem) {
    && InputsOk(p.b.store, s.height, item.tx)
    && s.checks.scriptsValid(item.tx, Marked(p.b.store, item.tx.ins))
  }

  /** The item goes into the block at its turn. */
  ghost predicate Takes(s: Setting, p: Progress, item: PrioItem) {
    Tried(s, p, item) && Passes(s, p, item)
  }

  function SigOpsOf(checks: Checks, b: Block, tx: Tx): int {
    var p2sh := checks.p2shSigOps(tx, b.store);
    checks.sigOps(tx) + if p2sh.Some? then p2sh.value else 0
  }

  /** What the checks make of an item that gets to them; `now` is the progress with its
      dependents taken out and the ordering decided. */
  ghost function Settled(s: Setting, p: Progress, now: Progress, item: PrioItem, deps: seq<Hash>): Progress {
    if Passes(s, p, item) then
      Progress(Extend(p.b, item, SigOpsOf(s.checks, p.b, item.tx), SpentStore(p.b.store, item.tx, s.height)),
               now.dependers, Shortened(now.dependsOn, deps, Sha(item.tx)), now.sortedByFee, now.chosen + [item],
               if p.sortedByFee then p.highPriority else p.highPriority + 1)
    else
      now.(b := p.b.(store := Marked(p.b.store, Passing(p.b.store, s.height, item.tx.ins))))
  }

  ghost predicate EndsPriority(s: Setting, p: Progress, item: PrioItem) {
    p.sortedByFee || p.b.size + item.tx.size >= s.policy.blockPrioritySize || item.priority <= 57_600_000.0
  }

  /** The progress after the item's turn. */
  ghost function Next(s: Setting, p: Progress, item: PrioItem): Progress {
    var now := p.(dependers := p.dependers - {Sha(item.tx)});
    if Returns(s, p, item) then now.(sortedByFee := true)
    else if !Tried(s, p, item) then now
    else Settled(s, p, now.(sortedByFee := EndsPriority(s, p, item)), item, ListOf(p.dependers, Sha(item.tx)))
  }

  /** The items queued because this one goes into the block. */
  ghost function Freed(s: Setting, p: Progress, item: PrioItem): multiset<PrioItem> {
    multiset(Released(s.items, p.dependsOn, ListOf(p.dependers, Sha(item.tx)), Sha(item.tx)))
  }

  /** The queue after the turn, given what else was queued. */
  ghost function QueueAfter(s: Setting, p: Progress, rest: multiset<PrioItem>, item: PrioItem): multiset<PrioItem> {
    if Returns(s, p, item) then rest + multiset{item}
    else if Takes(s, p, item) then rest + Freed(s, p, item)
    else rest
  }

  function Before(sortedByFee: bool): (PrioItem, PrioItem) -> bool {
    if sortedByFee then ByFee else ByPriority
  }

  /** The item pays at least as well as the other, and on a tie has at least its priority; before the
      change of ordering it is the other way round. */
  ghost predicate NoBetter(sortedByFee: bool, other: PrioItem, item: PrioItem) {
    if sortedByFee then
      other.feePerKB <= item.feePerKB && (other.feePerKB == item.feePerKB ==> other.priority <= item.priority)
    else
      other.priority <= item.priority && (other.priority == item.priority ==> other.feePerKB <= item.feePerKB)
  }

  lemma BeforeMeans(sortedByFee: bool, other: PrioItem, item: PrioItem)
    ensures Before(sortedByFee)(other, item) <==> !NoBetter(sortedByFee, other, item)
  {
  }

  /** A moment of the choosing loop, and the turn from one to the next: a maximal queued item. */
  datatype Moment = Moment(p: Progress, queue: multiset<PrioItem>)

  ghost predicate Turn(s: Setting, m: Moment, item: PrioItem, n: Moment) {
    && item in m.queue
    && (forall other :: other in m.queue ==> NoBetter(m.p.sortedByFee, other, item))
    && n.p == Next(s, m.p, item)
    && n.queue == QueueAfter(s, m.p, m.queue - multiset{item}, item)
  }

  /** The moment at which choosing starts is the one the source makes. */
  ghost predicate StartsAt(s: Setting, isFinal: Tx -> bool, source: seq<TxDesc>, m: Moment) {
    && s.items == Items(s.chain, s.height, s.checks, isFinal, s.have, source)
    && m.p.b == Block([], [], [], BaseSize(s.coinbase), s.checks.sigOps(s.coinbase), 0,
                      Stores(s.chain, isFinal, s.have, source))
    && (forall p :: ListOf(m.p.dependers, p) == Lists(s.chain, isFinal, s.have, source, p))
    && m.p.dependsOn == Needs(s.chain, isFinal, s.have, source)
    && m.p.sortedByFee == (s.policy.blockPrioritySize == 0) && m.p.chosen == [] && m.p.highPriority == 0
    && InitialQueue(s.chain, s.height, s.checks, isFinal, s.have, source, m.queue)
  }

  /** The turns that led from one moment to the next; item `turns[i]` had its turn at `run[i]`. */
  ghost predicate InTurns(s: Setting, run: seq<Moment>, turns: seq<PrioItem>) {
    && |run| == |turns| + 1
    && forall i :: 0 <= i < |turns| ==> Turn(s, run[i], turns[i], run[i + 1])
  }

  ghost predicate Steady(s: Setting, m: Moment) {
    && Building(s, m.p)
    && forall item :: item in m.queue ==> Sha(item.tx) in s.items && s.items[Sha(item.tx)] == item
  }

  /** A run of the choosing loop, up to the moment it is at. */
  ghost predicate Chose(s: Setting, isFinal: Tx -> bool, source: seq<TxDesc>, run: seq<Moment>, turns: seq<PrioItem>) {
    && InTurns(s, run, turns)
    && StartsAt(s, isFinal, source, run[0])
    && forall i :: 0 <= i < |run| ==> Steady(s, run[i])
  }

  lemma ChoseStart(s: Setting, isFinal: Tx -> bool, source: seq<TxDesc>, m: Moment)
    requires StartsAt(s, isFinal, source, m) && Steady(s, m)
    ensures Chose(s, isFinal, source, [m], [])
  {
  }

  lemma ChoseMore(s: Setting, isFinal: Tx -> bool, source: seq<TxDesc>, run: seq<Moment>, turns: seq<PrioItem>,
                  item: PrioItem, n: Moment)
    requires Chose(s, isFinal, source, run, turns) && Turn(s, run[|turns|], item, n) && Steady(s, n)
    ensures Chose(s, isFinal, source, run + [n], turns + [item])
  {
    hide Turn, StartsAt, Steady;
    var longer, more := run + [n], turns + [item];
    forall i | 0 <= i < |more| ensures Turn(s, longer[i], more[i], longer[i + 1]) {
      if i < |turns| {
        assert Turn(s, run[i], turns[i], run[i + 1]);
      }
    }
  }

  /** Candidates wait for their parents, and those in the queue wait for nothing. */
  ghost predicate Scheduled(s: Setting, p: Progress, queue: seq<PrioItem>) {
    && WaitingOk(s.chain, s.have, s.items, Shas(p.b.txs), p.dependsOn)
    && ReadyQueue(s.chain, s.have, Shas(p.b.txs), queue)
  }

  lemma ScheduledLess(s: Setting, p: Progress, before: seq<PrioItem>, q: Progress, after: seq<PrioItem>)
    requires Scheduled(s, p, before) && q.b.txs == p.b.txs && q.dependsOn == p.dependsOn
    requires multiset(after) <= multiset(before)
    ensures Scheduled(s, q, after)
  {
    hide Stuck, Waits;
    forall item | item in after ensures item in before {
      assert item in multiset(after) && multiset(after)[item] <= multiset(before)[item];
    }
  }

  lemma ScheduledMore(s: Setting, p: Progress, now: Progress, before: seq<PrioItem>, item: PrioItem, deps: seq<Hash>,
                      q: Progress, after: seq<PrioItem>)
    requires Scheduled(s, p, before) && now.dependsOn == p.dependsOn && q.b.txs == p.b.txs + [item.tx]
    requires forall k :: k in deps ==> k in s.items
    requires q.dependsOn == Shortened(now.dependsOn, deps, Sha(item.tx))
    requires multiset(after) == multiset(before) + multiset(Released(s.items, now.dependsOn, deps, Sha(item.tx)))
    ensures Scheduled(s, q, after)
  {
    hide Stuck, Waits, Released;
    var released, was, included := Released(s.items, now.dependsOn, deps, Sha(item.tx)), Shas(p.b.txs), Shas(q.b.txs);
    ReleasedAre(s.items, now.dependsOn, deps, Sha(item.tx));
    ShasSnoc(p.b.txs, item.tx);
    hide Shas;
    forall x | x in after ensures Stuck(s.chain, s.have, x.tx) || Waits(s.chain, x.tx.ins) <= included {
      assert x in multiset(after);
      if x in released {
        var k :| k in deps && s.items[k] == x && WaitsOf(now.dependsOn, k) <= {Sha(item.tx)};
        assert Stuck(s.chain, s.have, x.tx) || Waits(s.chain, x.tx.ins) - was <= WaitsOf(p.dependsOn, k);
      } else {
        assert x !in multiset(released) && x in before;
      }
    }
    forall k | k in s.items
      ensures || Stuck(s.chain, s.have, s.items[k].tx)
              || Waits(s.chain, s.items[k].tx.ins) - included <= WaitsOf(q.dependsOn, k)
    {
      var tx := s.items[k].tx;
      assert WaitsOf(q.dependsOn, k) >= WaitsOf(p.dependsOn, k) - {Sha(item.tx)};
      assert Stuck(s.chain, s.have, tx) || Waits(s.chain, tx.ins) - was <= WaitsOf(p.dependsOn, k);
    }
  }

  lemma ShasSnoc(txs: seq<Tx>, t: Tx)
    ensures Shas(txs + [t]) == Shas(txs) + {Sha(t)}
  {
    var longer := txs + [t];
    assert forall x :: x in longer <==> x in txs || x == t;
  }

  /** One turn of the choosing loop: takes the best item and includes it, skips it, or puts it
      back because the ordering changes. */
  method SelectNext(s: Setting, p: Progress, queue: TxPriorityQueue) returns (q: Progress, item: PrioItem)
    requires SettingOk(s) && Building(s, p) && Queued(s, p, queue) && Scheduled(s, p, queue.items) && queue.items != []
    modifies queue
    ensures Building(s, q) && Queued(s, q, queue) && Scheduled(s, q, queue.items)
    ensures Remaining(q, queue) < old(Remaining(p, queue))
    ensures Turn(s, Moment(p, multiset(old(queue.items))), item, Moment(q, multiset(queue.items)))
    ensures p.sortedByFee ==> q.sortedByFee && q.highPriority == p.highPriority
  {
    hide *;
    QueuedMeans(s, p, queue);
    ghost var queued := queue.items;
    var deps, dependers;
    item, deps, dependers := TakeBest(s, p, queue);
    Taken(queued, queue.items, item);
    SkippedBuildingAs(s, p, dependers, p.sortedByFee);
    ScheduledLess(s, p, queued, p.(dependers := dependers), queue.items);
    ScheduledLess(s, p, queued, p.(dependers := dependers), queue.items + [item]);
    q := Decide(s, p, p.(dependers := dependers), item, deps, queue);
    QueuedMeans(s, q, queue);
    TurnMade(s, p, queued, item, q, queue.items);
  }

  lemma QueuedMeans(s: Setting, p: Progress, queue: TxPriorityQueue)
    requires Queued(s, p, queue)
    ensures queue.lessFunc == Before(p.sortedByFee)
    ensures Remaining(p, queue) == |queue.items| + TotalWaiting(p.dependers) + if p.sortedByFee then 0 else 1
  {
  }

  lemma Taken(before: seq<PrioItem>, after: seq<PrioItem>, item: PrioItem)
    requires multiset(before) == multiset(after) + multiset{item}
    ensures multiset(after) == multiset(before) - multiset{item}
    ensures multiset(after) <= multiset(before) && multiset(after + [item]) <= multiset(before)
  {
    assert multiset(after + [item]) == multiset(after) + multiset{item};
  }

  lemma TurnMade(s: Setting, p: Progress, before: seq<PrioItem>, item: PrioItem, q: Progress, after: seq<PrioItem>)
    requires item in before && forall other :: other in before ==> NoBetter(p.sortedByFee, other, item)
    requires q == Next(s, p, item) && multiset(after) == QueueAfter(s, p, multiset(before) - multiset{item}, item)
    ensures Turn(s, Moment(p, multiset(before)), item, Moment(q, multiset(after)))
  {
    hide Next, QueueAfter, NoBetter;
    InQueue(before, item);
  }

  lemma InQueue(queue: seq<PrioItem>, item: PrioItem)
    ensures item in multiset(queue) <==> item in queue
    ensures forall other :: other in multiset(queue) <==> other in queue
  {
  }

  /** What becomes of the item whose turn it is; `now` is the progress without its dependents. */
  method Decide(s: Setting, ghost p: Progress, now: Progress, item: PrioItem, deps: seq<Hash>, queue: TxPriorityQueue)
      returns (q: Progress)
    requires SettingOk(s) && Building(s, p) && Building(s, now)
    requires now == p.(dependers := p.dependers - {Sha(item.tx)}) && deps == ListOf(p.dependers, Sha(item.tx))
    requires Queued(s, now, queue) && Scheduled(s, now, queue.items)
    requires Scheduled(s, now, queue.items + [item])
    requires Sha(item.tx) in s.items && s.items[Sha(item.tx)] == item && forall k :: k in deps ==> k in s.items
    modifies queue
    ensures Building(s, q) && Queued(s, q, queue) && Scheduled(s, q, queue.items)
    ensures q == Next(s, p, item)
    ensures multiset(queue.items) == QueueAfter(s, p, multiset(old(queue.items)), item)
    ensures |queue.items| + (if q.sortedByFee then 0 else 1) <=
            old(|queue.items|) + |deps| + if p.sortedByFee then 0 else 1
    ensures q.dependers == now.dependers
    ensures p.sortedByFee ==> q.sortedByFee && q.highPriority == p.highPriority
  {
    hide SettingOk, Building, Queued, IsCoinBase, Complete, Stuck, Sound, Scheduled, Fit, Passes, Shortened, Released,
      ListOf, Settled, Freed, Next, QueueAfter, Tried, Returns, Takes, SigOpsOf, EndsPriority;
    ghost var queued := queue.items;
    TurnCases(s, p, now, multiset(queued), item, deps);
    ItemFacts(s, Sha(item.tx));
    CountersInRange(s, now);
    q := now;
    var fits, plus, numSigOps := FitsBlock(s.policy, s.checks, now.b, item.tx);
    if Fit(s.policy, s.checks, now.b, item.tx) {
      FitsWidth(s, now, item.tx);
    }
    if !fits || (now.sortedByFee && item.feePerKB < s.policy.txMinFreeFee && plus >= s.policy.blockMinSize) {
      return;
    }
    var requeued;
    q, requeued := EndPriorityArea(s, now, item, plus, queue);
    SkippedBuildingAs(s, now, now.dependers, q.sortedByFee);
    if requeued {
      ScheduledLess(s, now, queued + [item], q, queue.items);
      return;
    }
    ScheduledLess(s, now, queued, q, queue.items);
    q := Settle(s, now, q, item, numSigOps, deps, queue);
  }

  /** The cases of a turn. */
  lemma TurnCases(s: Setting, p: Progress, now: Progress, rest: multiset<PrioItem>, item: PrioItem, deps: seq<Hash>)
    requires now == p.(dependers := p.dependers - {Sha(item.tx)}) && deps == ListOf(p.dependers, Sha(item.tx))
    ensures var fit, plus := Fit(s.policy, s.checks, p.b, item.tx), p.b.size + item.tx.size;
      var back := !p.sortedByFee && (plus > s.policy.blockPrioritySize || item.priority < MIN_HIGH_PRIORITY);
      var sorted := p.sortedByFee || plus >= s.policy.blockPrioritySize || item.priority <= MIN_HIGH_PRIORITY;
      var next, after := Next(s, p, item), QueueAfter(s, p, rest, item);
      if fit && back then
        next == now.(sortedByFee := true) && after == rest + multiset{item}
      else if !fit || (p.sortedByFee && item.feePerKB < s.policy.txMinFreeFee && plus >= s.policy.blockMinSize) then
        next == now && after == rest
      else
        && next == Settled(s, now, now.(sortedByFee := sorted), item, deps)
        && after == rest + if Passes(s, now, item)
                           then multiset(Released(s.items, now.dependsOn, deps, Sha(item.tx))) else multiset{}
  {
    hide Fit, Released, Shortened;
  }

  /** The last tests, and the inclusion of an item that passes them. */
  method Settle(s: Setting, p: Progress, now: Progress, item: PrioItem, numSigOps: int, deps: seq<Hash>,
                queue: TxPriorityQueue)
      returns (q: Progress)
    requires SettingOk(s) && Building(s, p) && Building(s, now)
    requires Queued(s, now, queue) && Scheduled(s, now, queue.items)
    requires now == p.(sortedByFee := now.sortedByFee) && (p.sortedByFee ==> now.sortedByFee)
    requires Sha(item.tx) in s.items && s.items[Sha(item.tx)] == item && forall k :: k in deps ==> k in s.items
    requires numSigOps == SigOpsOf(s.checks, p.b, item.tx)
    requires 0 <= numSigOps && p.b.totalSigOps + numSigOps <= MAX_SIG_OPS_PER_BLOCK
    requires p.b.size + item.tx.size < s.policy.blockMaxSize
    requires if p.sortedByFee
             then item.feePerKB >= s.policy.txMinFreeFee || p.b.size + item.tx.size < s.policy.blockMinSize
             else item.priority >= MIN_HIGH_PRIORITY && p.b.size + item.tx.size <= s.policy.blockPrioritySize
    modifies queue`items
    ensures Building(s, q) && Queued(s, q, queue) && Scheduled(s, q, queue.items)
    ensures q == Settled(s, p, now, item, deps)
    ensures q.dependers == now.dependers && q.sortedByFee == now.sortedByFee
    ensures |queue.items| <= old(|queue.items|) + |deps|
    ensures multiset(queue.items) == multiset(old(queue.items)) +
              if Passes(s, p, item) then multiset(Released(s.items, p.dependsOn, deps, Sha(item.tx))) else multiset{}
    ensures p.sortedByFee ==> q.highPriority == p.highPriority
  {
    hide SettingOk, Building, Queued, IsCoinBase, InputsOk, Complete, Stuck, Sound, Scheduled, Marked, Shortened,
      Released, SpentStore, Passing, SigOpsOf;
    ItemFacts(s, Sha(item.tx));
    ghost var queued := queue.items;
    var included, b := TryIncludeItem(s, p, item, numSigOps);
    if included {
      q := IncludeItem(s, p, now, b, item, numSigOps, deps, queue);
      ScheduledMore(s, now, now, queued, item, deps, q, queue.items);
    } else {
      SkippedBuilding(s, p, b, now.dependers, now.sortedByFee);
      q := now.(b := b);
      SameQueue(s, now, q, queue);
      ScheduledLess(s, now, queued, q, queued);
    }
  }

  lemma FitsWidth(s: Setting, p: Progress, tx: Tx)
    requires SettingOk(s) && Fit(s.policy, s.checks, p.b, tx)
    ensures p.b.size + tx.size < TWO_32 && p.b.size + tx.size < s.policy.blockMaxSize
    ensures var p2sh := s.checks.p2shSigOps(tx, p.b.store);
      && p2sh.Some? && SigOpsOf(s.checks, p.b, tx) == s.checks.sigOps(tx) + p2sh.value
      && p.b.totalSigOps + s.checks.sigOps(tx) + p2sh.value <= MAX_SIG_OPS_PER_BLOCK
  {
  }

  lemma SameQueue(s: Setting, p: Progress, q: Progress, queue: TxPriorityQueue)
    requires Queued(s, p, queue) && q.dependers == p.dependers && q.sortedByFee == p.sortedByFee
    ensures Queued(s, q, queue)
  {
  }

  /** Records an included transaction and queues those that waited for it. */
  method IncludeItem(s: Setting, p: Progress, now: Progress, b: Block, item: PrioItem, numSigOps: int, deps: seq<Hash>,
                     queue: TxPriorityQueue) returns (q: Progress)
    requires SettingOk(s) && Building(s, p) && Queued(s, now, queue) && Sound(s.chain, s.height, b)
    requires now == p.(dependers := now.dependers, sortedByFee := now.sortedByFee) &&
             (p.sortedByFee ==> now.sortedByFee)
    requires Sha(item.tx) in s.items && s.items[Sha(item.tx)] == item && forall k :: k in deps ==> k in s.items
    requires InputsOk(p.b.store, s.height, item.tx) && b == Extend(p.b, item, numSigOps, b.store)
    requires b.store.Keys == p.b.store.Keys + {Sha(item.tx)}
    requires forall h :: h in p.b.store && h != Sha(item.tx) ==> b.store[h].Found? == p.b.store[h].Found?
    requires 0 <= numSigOps && p.b.totalSigOps + numSigOps <= MAX_SIG_OPS_PER_BLOCK
    requires p.b.size + item.tx.size < s.policy.blockMaxSize
    requires if p.sortedByFee
             then item.feePerKB >= s.policy.txMinFreeFee || p.b.size + item.tx.size < s.policy.blockMinSize
             else item.priority >= MIN_HIGH_PRIORITY && p.b.size + item.tx.size <= s.policy.blockPrioritySize
    modifies queue`items
    ensures Building(s, q) && Queued(s, q, queue)
    ensures q == Progress(b, now.dependers, Shortened(now.dependsOn, deps, Sha(item.tx)), now.sortedByFee,
                          now.chosen + [item], if p.sortedByFee then p.highPriority else p.highPriority + 1)
    ensures multiset(queue.items) ==
            multiset(old(queue.items)) + multiset(Released(s.items, now.dependsOn, deps, Sha(item.tx)))
    ensures |queue.items| <= old(|queue.items|) + |deps|
  {
    hide SettingOk, Building, QueueOk, WaitersOk, Heap.IsHeap, Heap.StrictWeakOrder, InputsOk, Sound;
    ItemsKeyed(s);
    var left := ReleaseDependents(queue, deps, Sha(item.tx), s.items, now.dependsOn);
    q := Progress(b, now.dependers, left, now.sortedByFee, now.chosen + [item],
                  if p.sortedByFee then p.highPriority else p.highPriority + 1);
    IncludedBuilding(s, p, b, item, numSigOps, now.sortedByFee, q);
  }

  lemma SkippedBuildingAs(s: Setting, p: Progress, dependers: map<Hash, seq<Hash>>, sortedByFee: bool)
    requires Building(s, p) && (p.sortedByFee ==> sortedByFee)
    ensures Building(s, p.(dependers := dependers, sortedByFee := sortedByFee))
  {
  }

  method TryIncludeItem(s: Setting, p: Progress, item: PrioItem, numSigOps: int) returns (included: bool, b: Block)
    requires SettingOk(s) && Building(s, p) && item.tx.ins != [] && !IsCoinBase(item.tx)
    ensures Sound(s.chain, s.height, b)
    ensures included <==>
              InputsOk(p.b.store, s.height, item.tx) && s.checks.scriptsValid(item.tx, Marked(p.b.store, item.tx.ins))
    ensures included ==> b == Extend(p.b, item, numSigOps, SpentStore(p.b.store, item.tx, s.height))
    ensures !included ==> b == p.b.(store := Marked(p.b.store, Passing(p.b.store, s.height, item.tx.ins)))
    ensures included ==> b.store.Keys == p.b.store.Keys + {Sha(item.tx)}
    ensures !included ==> b.store.Keys == p.b.store.Keys
    ensures !included ==> forall h :: h in b.store ==> b.store[h].Found? == p.b.store[h].Found?
    ensures forall h :: h in p.b.store && h != Sha(item.tx) ==> b.store[h].Found? == p.b.store[h].Found?
  {
    included, b := TryInclude(s.chain, s.height, s.checks, p.b, item, numSigOps);
  }

  /** Takes the list of those waiting for `h` out of the map. */
  method Unlist(dependers: map<Hash, seq<Hash>>, h: Hash, items: map<Hash, PrioItem>)
      returns (deps: seq<Hash>, rest: map<Hash, seq<Hash>>)
    requires WaitersOk(items.Keys, dependers)
    ensures WaitersOk(items.Keys, rest) && forall k :: k in deps ==> k in items
    ensures deps == ListOf(dependers, h) && rest == dependers - {h}
    ensures TotalWaiting(rest) + |deps| == TotalWaiting(dependers)
  {
    deps := ListOf(dependers, h);
    rest := dependers - {h};
    if h in dependers {
      TotalWaitingWithout(dependers, h);
    } else {
      assert rest == dependers;
    }
  }

  // ---------- NewBlockTemplate ----------

  /** The descriptors of pooled transactions, each at most once. */
  ghost predicate IsSource(pool: Pool, source: seq<TxDesc>) {
    && (forall i :: 0 <= i < |source| ==> Sha(source[i].tx) in pool && pool[Sha(source[i].tx)] == source[i])
    && forall i, j :: 0 <= i < j < |source| ==> source[i].tx != source[j].tx
  }

  /** The coinbase paying the fees out as well, in 64-bit arithmetic. */
  function WithFees(coinbase: Tx, fees: int): Tx
    requires coinbase.outs != []
  {
    coinbase.(outs := coinbase.outs[0 := coinbase.outs[0].(value := WrapI64(coinbase.outs[0].value + fees))])
  }

  ghost predicate OnlyFrom(source: seq<TxDesc>, n: nat, keys: set<Hash>)
    requires n <= |source|
  {
    forall h :: h in keys ==> exists i :: 0 <= i < n && h == Sha(source[i].tx)
  }

  lemma SourceAt(pool: Pool, source: seq<TxDesc>, n: nat, keys: set<Hash>)
    requires IsSource(pool, source) && n < |source| && OnlyFrom(source, n, keys)
    ensures Sha(source[n].tx) in pool && pool[Sha(source[n].tx)] == source[n] && Sha(source[n].tx) !in keys
  {
  }

  lemma OnlyFromStep(source: seq<TxDesc>, n: nat, keys: set<Hash>, more: set<Hash>)
    requires n < |source| && OnlyFrom(source, n, keys) && more <= keys + {Sha(source[n].tx)}
    ensures OnlyFrom(source, n + 1, more)
  {
  }

  /** The items that the candidates of the source make. */
  ghost function Items(chain: Chain, height: int, checks: Checks, isFinal: Tx -> bool, have: set<Hash>,
                       source: seq<TxDesc>): map<Hash, PrioItem>
  {
    if source == [] then map[]
    else
      var desc := source[|source| - 1];
      var rest := Items(chain, height, checks, isFinal, have, source[..|source| - 1]);
      if Candidate(isFinal, desc.tx) then rest[Sha(desc.tx) := Noted(chain, height, checks, have, desc)] else rest
  }

  /** What each of them waits for at first. */
  ghost function Needs(chain: Chain, isFinal: Tx -> bool, have: set<Hash>, source: seq<TxDesc>): map<Hash, set<Hash>> {
    if source == [] then map[]
    else
      var tx := source[|source| - 1].tx;
      var rest := Needs(chain, isFinal, have, source[..|source| - 1]);
      if Candidate(isFinal, tx) then rest[Sha(tx) := Waits(chain, Lead(chain, have, tx.ins))] else rest
  }

  /** Who waits for `p` at first, in the order of the source. */
  ghost function Lists(chain: Chain, isFinal: Tx -> bool, have: set<Hash>, source: seq<TxDesc>, p: Hash): seq<Hash> {
    if source == [] then []
    else
      var tx := source[|source| - 1].tx;
      var rest := Lists(chain, isFinal, have, source[..|source| - 1], p);
      if Candidate(isFinal, tx) && !OnChain(chain, p) then rest + Entries(Lead(chain, have, tx.ins), p, Sha(tx))
      else rest
  }

  /** The transactions fetched for the candidates that are not abandoned. */
  ghost function Stores(chain: Chain, isFinal: Tx -> bool, have: set<Hash>, source: seq<TxDesc>): TxStore {
    if source == [] then map[]
    else
      var tx := source[|source| - 1].tx;
      var rest := Stores(chain, isFinal, have, source[..|source| - 1]);
      if Candidate(isFinal, tx) && !Stuck(chain, have, tx) then Merged(rest, FetchTransactionStore(chain, tx)) else rest
  }

  /** The plan is the one the source makes. */
  ghost predicate Planned(chain: Chain, height: int, checks: Checks, isFinal: Tx -> bool, have: set<Hash>,
                          source: seq<TxDesc>, plan: Plan)
  {
    && plan.items == Items(chain, height, checks, isFinal, have, source)
    && plan.dependsOn == Needs(chain, isFinal, have, source)
    && plan.store == Stores(chain, isFinal, have, source)
    && forall p :: ListOf(plan.dependers, p) == Lists(chain, isFinal, have, source, p)
  }

  lemma PlannedStep(chain: Chain, height: int, checks: Checks, isFinal: Tx -> bool, have: set<Hash>,
                    source: seq<TxDesc>, n: nat, was: Plan, plan: Plan)
    requires n < |source| && Planned(chain, height, checks, isFinal, have, source[..n], was)
    requires !Candidate(isFinal, source[n].tx) ==> plan == was
    requires Candidate(isFinal, source[n].tx) ==>
               var tx := source[n].tx;
               && plan.items == was.items[Sha(tx) := Noted(chain, height, checks, have, source[n])]
               && plan.dependsOn == was.dependsOn[Sha(tx) := Waits(chain, Lead(chain, have, tx.ins))]
               && Enlisted(chain, was.dependers, plan.dependers, Lead(chain, have, tx.ins), Sha(tx))
               && plan.store == if Stuck(chain, have, tx) then was.store
                                else Merged(was.store, FetchTransactionStore(chain, tx))
    ensures Planned(chain, height, checks, isFinal, have, source[..n + 1], plan)
  {
    hide Noted, Candidate, Stuck, Waits, Lead, Merged, OnChain, Entries, FetchTransactionStore, ListOf;
    var longer := source[..n + 1];
    assert longer[|longer| - 1] == source[n] && longer[..|longer| - 1] == source[..n];
    forall p ensures ListOf(plan.dependers, p) == Lists(chain, isFinal, have, longer, p) {
      assert ListOf(was.dependers, p) == Lists(chain, isFinal, have, source[..n], p);
    }
  }

  /** The first loop: candidates without open dependencies are queued, the others wait. */
  method Prepare(chain: Chain, height: int, checks: Checks, isFinal: Tx -> bool, pool: Pool, have: set<Hash>,
                 source: seq<TxDesc>, queue: TxPriorityQueue) returns (plan: Plan)
    requires ChainValid(chain) && IsSource(pool, source)
    requires queue.Valid() && queue.items == []
    modifies queue`items
    ensures queue.Valid() && QueueOk(plan.items, queue.items)
    ensures StoreSound(chain, plan.store) && StoreFrom(chain, {}, plan.store)
    ensures ItemsOk(chain, height, checks, pool, have, plan.items) && WaitersOk(plan.items.Keys, plan.dependers)
    ensures InitialQueue(chain, height, checks, isFinal, have, source, multiset(queue.items))
    ensures WaitingOk(chain, have, plan.items, {}, plan.dependsOn)
    ensures Planned(chain, height, checks, isFinal, have, source, plan)
  {
    plan := Plan(map[], map[], map[], map[]);
    for i := 0 to |source|
      invariant queue.Valid() && QueueOk(plan.items, queue.items)
      invariant StoreSound(chain, plan.store) && StoreFrom(chain, {}, plan.store)
      invariant ItemsOk(chain, height, checks, pool, have, plan.items) && WaitersOk(plan.items.Keys, plan.dependers)
      invariant OnlyFrom(source, i, plan.items.Keys)
      invariant InitialQueue(chain, height, checks, isFinal, have, source[..i], multiset(queue.items))
      invariant WaitingOk(chain, have, plan.items, {}, plan.dependsOn)
      invariant Planned(chain, height, checks, isFinal, have, source[..i], plan)
    {
      hide *;
      ghost var before, was := multiset(queue.items), plan;
      SourceAt(pool, source, i, plan.items.Keys);
      plan := ConsiderSource(chain, height, checks, isFinal, pool, have, source[i], queue, plan);
      OnlyFromStep(source, i, was.items.Keys, plan.items.Keys);
      InitialQueueStep(chain, height, checks, isFinal, have, pool, source, i, before,
        multiset(queue.items));
      WaitingStep(chain, height, checks, have, source[i], was, plan);
      PlannedStep(chain, height, checks, isFinal, have, source, i, was, plan);
    }
    assert source[..|source|] == source;
  }

  /** The item of a candidate that can go into the block right away. */
  ghost predicate ReadyItem(chain: Chain, height: int, checks: Checks, isFinal: Tx -> bool, have: set<Hash>,
                            source: seq<TxDesc>, item: PrioItem)
  {
    exists i :: 0 <= i < |source| && Ready(chain, isFinal, have, source[i].tx) &&
      item == ItemOf(chain, height, checks, source[i])
  }

  /** Exactly those are queued, each once. */
  ghost predicate InitialQueue(chain: Chain, height: int, checks: Checks, isFinal: Tx -> bool, have: set<Hash>,
                               source: seq<TxDesc>, queue: multiset<PrioItem>)
  {
    forall item :: queue[item] == if ReadyItem(chain, height, checks, isFinal, have, source, item) then 1 else 0
  }

  lemma ReadyItemStep(chain: Chain, height: int, checks: Checks, isFinal: Tx -> bool, have: set<Hash>, pool: Pool,
                      source: seq<TxDesc>, n: nat, item: PrioItem)
    requires IsSource(pool, source) && n < |source|
    ensures ReadyItem(chain, height, checks, isFinal, have, source[..n + 1], item) <==>
            || ReadyItem(chain, height, checks, isFinal, have, source[..n], item)
            || (Ready(chain, isFinal, have, source[n].tx) && item == ItemOf(chain, height, checks, source[n]))
    ensures item == ItemOf(chain, height, checks, source[n]) ==>
            !ReadyItem(chain, height, checks, isFinal, have, source[..n], item)
  {
    hide Ready;
    var shorter, longer := source[..n], source[..n + 1];
    assert longer == shorter + [source[n]];
    if ReadyItem(chain, height, checks, isFinal, have, shorter, item) {
      var i :| 0 <= i < n && Ready(chain, isFinal, have, shorter[i].tx) &&
               item == ItemOf(chain, height, checks, shorter[i]);
      assert longer[i] == shorter[i] == source[i];
    }
    assert longer[n] == source[n];
  }

  lemma InitialQueueStep(chain: Chain, height: int, checks: Checks, isFinal: Tx -> bool, have: set<Hash>, pool: Pool,
                         source: seq<TxDesc>, n: nat, before: multiset<PrioItem>, after: multiset<PrioItem>)
    requires IsSource(pool, source) && n < |source|
    requires InitialQueue(chain, height, checks, isFinal, have, source[..n], before)
    requires var item := ItemOf(chain, height, checks, source[n]);
      after == before + if Ready(chain, isFinal, have, source[n].tx) then multiset{item} else multiset{}
    ensures InitialQueue(chain, height, checks, isFinal, have, source[..n + 1], after)
  {
    hide Ready, ReadyItem, ItemOf;
    forall item
      ensures after[item] ==
              if ReadyItem(chain, height, checks, isFinal, have, source[..n + 1], item) then 1 else 0
    {
      ReadyItemStep(chain, height, checks, isFinal, have, pool, source, n, item);
    }
  }

  lemma InitialMembers(chain: Chain, height: int, checks: Checks, isFinal: Tx -> bool, have: set<Hash>,
                       source: seq<TxDesc>, queue: seq<PrioItem>)
    requires InitialQueue(chain, height, checks, isFinal, have, source, multiset(queue))
    ensures ReadyQueue(chain, have, {}, queue)
  {
    forall item | item in queue ensures ReadyItem(chain, height, checks, isFinal, have, source, item) {
      assert item in multiset(queue) && multiset(queue)[item] != 0;
    }
  }

  lemma StartBuilding(s: Setting, store: TxStore, p: Progress)
    requires SettingOk(s) && StoreSound(s.chain, store) && StoreFrom(s.chain, {}, store)
    requires p.b == Block([], [], [], BaseSize(s.coinbase), s.checks.sigOps(s.coinbase), 0, store)
    requires p.chosen == [] && p.highPriority == 0
    ensures Building(s, p)
  {
    assert WrapI64(0) == 0;
  }

  lemma CoinbaseStep(small: Chain, big: Chain, coinbase: Tx, last: Tx, height: int)
    requires CanApply(small, last) && !IsCoinBase(last) && IsCoinBase(coinbase)
    requires big.Keys == small.Keys + {Sha(coinbase)}
    requires forall o :: Unspent(small, o) ==> Unspent(big, o)
    ensures CanApply(big, last)
    ensures forall o :: Unspent(ApplyTx(small, last, height), o) ==> Unspent(ApplyTx(big, last, height), o)
  {
    hide Unspent, IsCoinBase, ApplyTx;
    assert CanApply(big, last);
    forall o | Unspent(ApplyTx(small, last, height), o) ensures Unspent(ApplyTx(big, last, height), o) {
      ApplyTxUnspent(small, last, height, o);
      ApplyTxUnspent(big, last, height, o);
    }
  }

  lemma CoinbaseAlone(chain: Chain, coinbase: Tx, height: int)
    requires ChainValid(chain) && IsCoinBase(coinbase) && Sha(coinbase) !in chain
    ensures BlockApplies(chain, [coinbase], height)
    ensures Covers(ApplyBlock(chain, [coinbase], height), ApplyBlock(chain, [], height), coinbase)
  {
    BlockSnoc(chain, [], coinbase, height);
    assert [] + [coinbase] == [coinbase];
    forall o | Unspent(chain, o) ensures Unspent(ApplyTx(chain, coinbase, height), o) {
      ApplyTxUnspent(chain, coinbase, height, o);
    }
  }

  /** Whatever is unspent without the coinbase is unspent with it. */
  ghost predicate Covers(big: Chain, small: Chain, coinbase: Tx) {
    && big.Keys == small.Keys + {Sha(coinbase)}
    && forall o :: Unspent(small, o) ==> Unspent(big, o)
  }

  lemma BlockLast(chain: Chain, front: seq<Tx>, last: Tx, height: int)
    ensures BlockApplies(chain, front + [last], height) <==>
            BlockApplies(chain, front, height) && CanApply(ApplyBlock(chain, front, height), last)
    ensures ApplyBlock(chain, front + [last], height) == ApplyTx(ApplyBlock(chain, front, height), last, height)
  {
    assert (front + [last])[..|front|] == front;
  }

  lemma CoinbaseNext(chain: Chain, coinbase: Tx, front: seq<Tx>, last: Tx, height: int)
    requires BlockApplies(chain, front + [last], height) && !IsCoinBase(last) && IsCoinBase(coinbase)
    requires BlockApplies(chain, [coinbase] + front, height)
    requires Covers(ApplyBlock(chain, [coinbase] + front, height), ApplyBlock(chain, front, height), coinbase)
    ensures BlockApplies(chain, [coinbase] + front + [last], height)
    ensures Covers(ApplyBlock(chain, [coinbase] + front + [last], height), ApplyBlock(chain, front + [last], height),
                   coinbase)
  {
    hide BlockApplies, ApplyBlock, CanApply, Unspent, IsCoinBase;
    BlockLast(chain, front, last, height);
    BlockLast(chain, [coinbase] + front, last, height);
    CoinbaseStep(ApplyBlock(chain, front, height), ApplyBlock(chain, [coinbase] + front, height), coinbase, last,
                 height);
  }

  /** A coinbase in front changes nothing for the transactions behind it. */
  lemma {:induction false} CoinbaseFirst(chain: Chain, coinbase: Tx, txs: seq<Tx>, height: int)
    requires ChainValid(chain) && BlockApplies(chain, txs, height)
    requires IsCoinBase(coinbase) && Sha(coinbase) !in chain && forall t :: t in txs ==> !IsCoinBase(t)
    ensures BlockApplies(chain, [coinbase] + txs, height)
    ensures Covers(ApplyBlock(chain, [coinbase] + txs, height), ApplyBlock(chain, txs, height), coinbase)
  {
    hide BlockApplies, ApplyBlock, ChainValid, IsCoinBase, Covers;
    if txs == [] {
      CoinbaseAlone(chain, coinbase, height);
      assert [coinbase] + txs == [coinbase];
    } else {
      var front, last := txs[..|txs| - 1], txs[|txs| - 1];
      assert txs == front + [last] && last in txs;
      BlockLast(chain, front, last, height);
      CoinbaseFirst(chain, coinbase, front, height);
      CoinbaseNext(chain, coinbase, front, last, height);
      assert [coinbase] + txs == [coinbase] + front + [last];
    }
  }

  /** `fees` and `sigOps` run parallel to the transactions; entry 0 is the coinbase. */
  ghost predicate Parallel(t: Template, n: nat) {
    |t.txs| == |t.fees| == |t.sigOps| == n + 1
  }

  /** The transactions behind the coinbase can be mined in this order on the chain. */
  ghost predicate TemplateValid(s: Setting, t: Template)
    requires t.txs != []
  {
    && BlockApplies(s.chain, t.txs[1..], s.height)
    && forall i :: 1 <= i < |t.txs| ==> !IsCoinBase(t.txs[i])
  }

  /** Each comes from the pool, at the fee the pool recorded and with its true priority. */
  ghost predicate TemplateSource(s: Setting, t: Template, chosen: seq<PrioItem>)
    requires Parallel(t, |chosen|)
  {
    forall i :: 0 <= i < |chosen| ==>
      && chosen[i].tx == t.txs[i + 1] && Sha(t.txs[i + 1]) in s.pool
      && t.fees[i + 1] == s.pool[Sha(t.txs[i + 1])].fee
      && Complete(s.chain, s.height, s.checks, s.pool[Sha(t.txs[i + 1])], chosen[i])
  }

  ghost predicate TemplateTotals(s: Setting, t: Template, n: nat)
    requires s.coinbase.outs != [] && Parallel(t, n)
  {
    && (0 < n ==> 89 + s.coinbase.size + TotalSize(t.txs[1..]) < s.policy.blockMaxSize)
    && t.sigOps[0] == s.checks.sigOps(s.coinbase)
    && (0 < n ==> t.sigOps[0] + Sum(t.sigOps[1..]) <= 20_000)
    && t.fees[0] == WrapI64(-WrapI64(Sum(t.fees[1..])))
    && t.txs[0] == WithFees(s.coinbase, WrapI64(Sum(t.fees[1..])))
  }

  /** What the finished template promises. */
  ghost predicate TemplateOk(s: Setting, t: Template, chosen: seq<PrioItem>, highPriority: nat)
    requires s.coinbase.outs != []
  {
    && Parallel(t, |chosen|)
    && TemplateValid(s, t)
    && TemplateSource(s, t, chosen)
    && Phases(s.policy, BaseSize(s.coinbase), chosen, t.txs[1..], highPriority)
    && (s.policy.blockPrioritySize == 0 ==> highPriority == 0)
    && TemplateTotals(s, t, |chosen|)
  }

  lemma FinishTemplate(s: Setting, p: Progress, t: Template)
    requires Building(s, p) && s.coinbase.outs != []
    requires s.policy.blockPrioritySize == 0 ==> p.highPriority == 0
    requires t == Template([WithFees(s.coinbase, p.b.totalFees)] + p.b.txs, [WrapI64(-p.b.totalFees)] + p.b.fees,
                           [s.checks.sigOps(s.coinbase)] + p.b.sigOps)
    ensures TemplateOk(s, t, p.chosen, p.highPriority)
  {
    hide Phases, StoreFrom, BlockApplies, ApplyBlock, IsCoinBase, Complete, WithFees, WrapI64, Sum, TotalSize,
      StoreSound, ChainValid;
    assert t.txs[1..] == p.b.txs && t.fees[1..] == p.b.fees && t.sigOps[1..] == p.b.sigOps;
    assert Parallel(t, |p.chosen|);
    FinishSource(s, p, t);
    FinishTotals(s, p, t);
    hide Accounted, Chosen, TemplateSource, TemplateTotals;
    assert forall i :: 1 <= i < |t.txs| ==> t.txs[i] == p.b.txs[i - 1];
  }

  lemma FinishSource(s: Setting, p: Progress, t: Template)
    requires Building(s, p) && Parallel(t, |p.chosen|) && t.txs[1..] == p.b.txs && t.fees[1..] == p.b.fees
    ensures TemplateSource(s, t, p.chosen)
  {
    hide Phases, Accounted, StoreFrom, Complete, Sound;
    forall i | 0 <= i < |p.chosen| ensures t.txs[i + 1] == p.b.txs[i] && t.fees[i + 1] == p.b.fees[i] {
      assert t.txs[1..][i] == t.txs[i + 1] && t.fees[1..][i] == t.fees[i + 1];
    }
  }

  lemma FinishTotals(s: Setting, p: Progress, t: Template)
    requires Building(s, p) && s.coinbase.outs != [] && Parallel(t, |p.chosen|)
    requires t.txs[1..] == p.b.txs && t.fees[1..] == p.b.fees && t.sigOps[1..] == p.b.sigOps
    requires t.txs[0] == WithFees(s.coinbase, p.b.totalFees) && t.fees[0] == WrapI64(-p.b.totalFees)
    requires t.sigOps[0] == s.checks.sigOps(s.coinbase)
    ensures TemplateTotals(s, t, |p.chosen|)
  {
    hide Phases, Chosen, StoreFrom, Sound, WithFees, WrapI64, Sum, TotalSize;
  }

  /** The template that a finished choice makes. */
  function TemplateOf(s: Setting, p: Progress): Template
    requires s.coinbase.outs != []
  {
    Template([WithFees(s.coinbase, p.b.totalFees)] + p.b.txs, [WrapI64(-p.b.totalFees)] + p.b.fees,
             [s.checks.sigOps(s.coinbase)] + p.b.sigOps)
  }

  /** Choosing went on until nothing was queued, and the template holds what was chosen. */
  ghost predicate Made(s: Setting, isFinal: Tx -> bool, source: seq<TxDesc>, run: seq<Moment>, turns: seq<PrioItem>,
                       t: Template)
    requires s.coinbase.outs != []
  {
    && Chose(s, isFinal, source, run, turns)
    && run[|turns|].queue == multiset{}
    && t == TemplateOf(s, run[|turns|].p)
  }

  /** Builds a block template from the pool: candidates that only spend mined outputs are
      queued, the others wait for their parents, and the queue is emptied greedily.  The turns
      that were taken are reported along with it. */
  method NewBlockTemplate(chain: Chain, height: int, policy: Policy, checks: Checks, isFinal: Tx -> bool, pool: Pool,
                          have: set<Hash>, source: seq<TxDesc>, coinbase: Tx)
      returns (t: Template, chosen: seq<PrioItem>, highPriority: nat, ghost s: Setting, ghost run: seq<Moment>,
        ghost turns: seq<PrioItem>)
    requires ChainValid(chain) && PoolOk(pool) && pool.Keys <= have && IsSource(pool, source)
    requires IsCoinBase(coinbase) && coinbase.outs != [] && coinbase.size <= MAX_BLOCK_PAYLOAD
    requires policy.blockMaxSize < TWO_32
    ensures s == Setting(chain, height, policy, checks, pool, have, coinbase,
                         Items(chain, height, checks, isFinal, have, source))
    ensures SettingOk(s) && TemplateOk(s, t, chosen, highPriority)
    ensures Sha(t.txs[0]) !in chain ==> BlockExtends(chain, t.txs, height)
    ensures Made(s, isFinal, source, run, turns, t)
    ensures AtMost(chain, MAX_SATOSHI) && AmountOk(coinbase.outs[0].value) ==> TrueAmounts(s, t)
  {
    hide *;
    var sortedByFee := policy.blockPrioritySize == 0;
    var queue := new TxPriorityQueue(sortedByFee);
    var plan := Prepare(chain, height, checks, isFinal, pool, have, source, queue);
    var setting := Setting(chain, height, policy, checks, pool, have, coinbase, plan.items);
    s := setting;
    var p := Progress(Block([], [], [], BaseSize(coinbase), checks.sigOps(coinbase), 0, plan.store), plan.dependers,
                      plan.dependsOn, sortedByFee, [], 0);
    run, turns := [Moment(p, multiset(queue.items))], [];
    Start(s, isFinal, source, plan, p, queue);
    while queue.items != []
      invariant fresh(queue) && Building(s, p) && Queued(s, p, queue) && Scheduled(s, p, queue.items)
      invariant |run| == |turns| + 1 && Chose(s, isFinal, source, run, turns)
      invariant run[|turns|] == Moment(p, multiset(queue.items))
      invariant sortedByFee ==> p.sortedByFee && p.highPriority == 0
      decreases Remaining(p, queue)
    {
      var item;
      p, item := SelectNext(setting, p, queue);
      SteadyAt(s, p, queue);
      ChoseMore(s, isFinal, source, run, turns, item, Moment(p, multiset(queue.items)));
      run, turns := run + [Moment(p, multiset(queue.items))], turns + [item];
    }
    t := TemplateOf(setting, p);
    chosen, highPriority := p.chosen, p.highPriority;
    MadeAtEnd(s, isFinal, source, run, turns, p, t);
    FinishTemplate(s, p, t);
    TemplateExtends(s, t, chosen, highPriority);
    if AtMost(chain, MAX_SATOSHI) && AmountOk(coinbase.outs[0].value) {
      ExactAmounts(s, t, chosen, highPriority);
    }
  }

  lemma MadeAtEnd(s: Setting, isFinal: Tx -> bool, source: seq<TxDesc>, run: seq<Moment>, turns: seq<PrioItem>,
                  p: Progress, t: Template)
    requires s.coinbase.outs != [] && Chose(s, isFinal, source, run, turns)
    requires run[|turns|] == Moment(p, multiset([])) && t == TemplateOf(s, p)
    ensures Made(s, isFinal, source, run, turns, t)
    ensures t.txs == [WithFees(s.coinbase, p.b.totalFees)] + p.b.txs && |t.txs| > 0
    ensures t == Template([WithFees(s.coinbase, p.b.totalFees)] + p.b.txs, [WrapI64(-p.b.totalFees)] + p.b.fees,
                          [s.checks.sigOps(s.coinbase)] + p.b.sigOps)
  {
    hide Chose;
  }

  lemma SteadyAt(s: Setting, p: Progress, queue: TxPriorityQueue)
    requires Building(s, p) && Queued(s, p, queue)
    ensures Steady(s, Moment(p, multiset(queue.items)))
  {
    hide Building;
    InQueue(queue.items, PrioItem(s.coinbase, 0, 0.0, 0));
  }

  /** The state that the first loop leaves is where choosing starts. */
  lemma Start(s: Setting, isFinal: Tx -> bool, source: seq<TxDesc>, plan: Plan, p: Progress, queue: TxPriorityQueue)
    requires ChainValid(s.chain) && PoolOk(s.pool) && s.pool.Keys <= s.have && s.items == plan.items
    requires s.coinbase.size <= MAX_BLOCK_PAYLOAD && s.policy.blockMaxSize < TWO_32
    requires ItemsOk(s.chain, s.height, s.checks, s.pool, s.have, plan.items)
    requires StoreSound(s.chain, plan.store) && StoreFrom(s.chain, {}, plan.store)
    requires WaitersOk(plan.items.Keys, plan.dependers) && queue.Valid() && QueueOk(plan.items, queue.items)
    requires queue.lessFunc == if p.sortedByFee then ByFee else ByPriority
    requires InitialQueue(s.chain, s.height, s.checks, isFinal, s.have, source, multiset(queue.items))
    requires WaitingOk(s.chain, s.have, plan.items, {}, plan.dependsOn)
    requires Planned(s.chain, s.height, s.checks, isFinal, s.have, source, plan)
    requires p == Progress(Block([], [], [], BaseSize(s.coinbase), s.checks.sigOps(s.coinbase), 0, plan.store),
                           plan.dependers, plan.dependsOn, s.policy.blockPrioritySize == 0, [], 0)
    ensures SettingOk(s) && Building(s, p) && Queued(s, p, queue) && Scheduled(s, p, queue.items)
    ensures Chose(s, isFinal, source, [Moment(p, multiset(queue.items))], [])
    ensures s.items == Items(s.chain, s.height, s.checks, isFinal, s.have, source)
  {
    StartBuilding(s, plan.store, p);
    InitialMembers(s.chain, s.height, s.checks, isFinal, s.have, source, queue.items);
    assert Shas([]) == {};
    SteadyAt(s, p, queue);
    hide Building, Steady, InitialQueue, ItemsOk, StoreSound, StoreFrom, PoolOk, ChainValid, Items, Needs, Lists,
      Stores;
    ChoseStart(s, isFinal, source, Moment(p, multiset(queue.items)));
  }

  lemma TemplateExtends(s: Setting, t: Template, chosen: seq<PrioItem>, highPriority: nat)
    requires s.coinbase.outs != [] && TemplateOk(s, t, chosen, highPriority)
    requires ChainValid(s.chain) && IsCoinBase(s.coinbase)
    ensures Sha(t.txs[0]) !in s.chain ==> BlockExtends(s.chain, t.txs, s.height)
  {
    hide Phases, TemplateSource, WrapI64, Sum, TotalSize, ChainValid, BlockApplies, ApplyBlock;
    assert t.txs[0].ins == s.coinbase.ins;
    assert t.txs == [t.txs[0]] + t.txs[1..];
    if Sha(t.txs[0]) !in s.chain {
      assert forall x :: x in t.txs[1..] ==> !IsCoinBase(x);
      CoinbaseFirst(s.chain, t.txs[0], t.txs[1..], s.height);
    }
  }

  lemma NoInputTwice(chain: Chain, txs: seq<Tx>, height: int, j: nat)
    requires j < |txs| && BlockApplies(chain, txs, height) && !IsCoinBase(txs[j])
    ensures Distinct(txs[j].ins)
  {
    PrefixKeys(chain, txs, height, j);
  }

  /** What a template that can be mined in order looks like from outside. */
  lemma TemplateInputs(s: Setting, t: Template, chosen: seq<PrioItem>, highPriority: nat)
    requires s.coinbase.outs != [] && TemplateOk(s, t, chosen, highPriority)
    ensures Distinct(t.txs[1..]) && forall i :: 1 <= i < |t.txs| ==> Sha(t.txs[i]) !in s.chain
    ensures forall j, o :: 1 <= j < |t.txs| && o in t.txs[j].ins ==>
              Unspent(s.chain, o) || exists i :: 1 <= i < j && o.hash == Sha(t.txs[i]) && InRange(o)
    ensures forall i, j, o :: 1 <= i < j < |t.txs| && o in t.txs[i].ins ==> o !in t.txs[j].ins
    ensures forall j :: 1 <= j < |t.txs| ==> Distinct(t.txs[j].ins)
  {
    hide Phases, TemplateSource, TemplateTotals, BlockApplies, Unspent, InRange, Distinct, CanApply, IsCoinBase;
    var txs := t.txs[1..];
    assert forall i :: 1 <= i < |t.txs| ==> t.txs[i] == txs[i - 1] && txs[i - 1] in txs;
    BlockDistinct(s.chain, txs, s.height);
    forall j, o | 1 <= j < |t.txs| && o in t.txs[j].ins
      ensures Unspent(s.chain, o) || exists i :: 1 <= i < j && o.hash == Sha(t.txs[i]) && InRange(o)
    {
      BlockInputs(s.chain, txs, s.height, j - 1, o);
      if !Unspent(s.chain, o) {
        var i :| 0 <= i < j - 1 && o.hash == Sha(txs[i]) && InRange(o);
        assert t.txs[i + 1] == txs[i];
      }
    }
    forall j | 1 <= j < |t.txs| ensures Distinct(t.txs[j].ins) {
      NoInputTwice(s.chain, txs, s.height, j - 1);
    }
    forall i, j, o | 1 <= i < j < |t.txs| && o in t.txs[i].ins ensures o !in t.txs[j].ins {
      BlockInputs(s.chain, txs, s.height, i - 1, o);
      assert t.txs[j] == txs[j - 1];
    }
  }

  // ---------- Amounts ----------

  lemma PooledFee(pool: Pool, tx: Tx)
    requires PoolOk(pool) && Sha(tx) in pool
    ensures pool[Sha(tx)].fee == Fee(tx) >= 0 && NoNegativeOutput(tx)
  {
    assert Sha(tx) == Sha(pool[Sha(tx)].tx) && PoolTxOk(pool[Sha(tx)]);
  }

  /** Fees that the pool recorded are true ones, and what is chosen has no negative output. */
  lemma {:induction false} RecordedFees(pool: Pool, txs: seq<Tx>, fees: seq<int>)
    requires PoolOk(pool) && |txs| == |fees|
    requires forall i :: 0 <= i < |txs| ==> Sha(txs[i]) in pool && fees[i] == pool[Sha(txs[i])].fee
    ensures Sum(fees) == Fees(txs) >= 0
    ensures forall tx :: tx in txs ==> NoNegativeOutput(tx)
  {
    hide PoolOk, NoNegativeOutput, Fee;
    forall tx | tx in txs ensures NoNegativeOutput(tx) {
      PooledFee(pool, tx);
    }
    if txs != [] {
      PooledFee(pool, txs[|txs| - 1]);
      RecordedFees(pool, txs[..|txs| - 1], fees[..|txs| - 1]);
    }
  }

  /** While no more money is on the chain than there can be, the fee counter is the true sum:
      all that is taken in could be mined, so its fees come out of that money. */
  lemma FeeCounterExact(s: Setting, p: Progress)
    requires SettingOk(s) && Building(s, p) && AtMost(s.chain, MAX_SATOSHI)
    ensures p.b.totalFees == Sum(p.b.fees) == Fees(p.b.txs) && 0 <= Sum(p.b.fees) <= MAX_SATOSHI
  {
    hide AtMost, ItemsOk, PoolOk, Phases, StoreFrom, Complete, StoreSound, ChainValid, IsCoinBase, WrapI64, Sum,
      BlockApplies, Fees, NoNegativeOutput;
    RecordedFees(s.pool, p.b.txs, p.b.fees);
    FeesBounded(s.chain, p.b.txs, s.height, MAX_SATOSHI);
    WrapI64Exact(Sum(p.b.fees));
  }

  /** The coinbase pays its own value and the fees, and the entry for it is what the others pay. */
  ghost predicate TrueAmounts(s: Setting, t: Template)
    requires s.coinbase.outs != []
  {
    && t.txs != [] && t.fees != []
    && Sum(t.fees[1..]) == Fees(t.txs[1..]) && 0 <= Sum(t.fees[1..]) <= MAX_SATOSHI
    && t.fees[0] == -Sum(t.fees[1..])
    && var paid := s.coinbase.outs[0].(value := s.coinbase.outs[0].value + Sum(t.fees[1..]));
       t.txs[0] == s.coinbase.(outs := s.coinbase.outs[0 := paid])
  }

  lemma TemplateFees(s: Setting, t: Template, chosen: seq<PrioItem>)
    requires PoolOk(s.pool) && Parallel(t, |chosen|) && TemplateSource(s, t, chosen)
    ensures Sum(t.fees[1..]) == Fees(t.txs[1..]) >= 0
    ensures forall tx :: tx in t.txs[1..] ==> NoNegativeOutput(tx)
  {
    hide PoolOk, NoNegativeOutput, Complete, Sum, Fees;
    var txs, fees := t.txs[1..], t.fees[1..];
    forall i | 0 <= i < |txs| ensures Sha(txs[i]) in s.pool && fees[i] == s.pool[Sha(txs[i])].fee {
      assert txs[i] == t.txs[i + 1] && fees[i] == t.fees[i + 1] && chosen[i].tx == t.txs[i + 1];
    }
    RecordedFees(s.pool, txs, fees);
  }

  lemma ExactAmounts(s: Setting, t: Template, chosen: seq<PrioItem>, highPriority: nat)
    requires SettingOk(s) && s.coinbase.outs != [] && TemplateOk(s, t, chosen, highPriority)
    requires AtMost(s.chain, MAX_SATOSHI) && AmountOk(s.coinbase.outs[0].value)
    ensures TrueAmounts(s, t)
  {
    hide AtMost, ItemsOk, PoolOk, Phases, Complete, ChainValid, IsCoinBase, WrapI64, Sum, TotalSize, BlockApplies,
      Fees, NoNegativeOutput;
    TemplateFees(s, t, chosen);
    FeesBounded(s.chain, t.txs[1..], s.height, MAX_SATOSHI);
    var total := Sum(t.fees[1..]);
    WrapI64Exact(total);
    WrapI64Exact(-total);
    WrapI64Exact(s.coinbase.outs[0].value + total);
  }

  lemma {:induction false} FirstOutput(outs: seq<TxOut>, value: int)
    requires outs != []
    ensures SumOuts(outs[0 := outs[0].(value := value)]) == SumOuts(outs) - outs[0].value + value
  {
    var changed := outs[0 := outs[0].(value := value)];
    if |outs| == 1 {
      assert changed[..0] == outs[..0];
    } else {
      assert changed[..|outs| - 1] == outs[..|outs| - 1][0 := outs[0].(value := value)];
      FirstOutput(outs[..|outs| - 1], value);
    }
  }

  /** A template takes for the coinbase exactly what it was given and the fees, so that mining it
      adds to the money on the chain what the coinbase was given. */
  lemma TemplateKeepsSupply(s: Setting, t: Template, chosen: seq<PrioItem>, highPriority: nat, supply: int)
    requires SettingOk(s) && s.coinbase.outs != [] && TemplateOk(s, t, chosen, highPriority)
    requires AtMost(s.chain, supply) && supply <= MAX_SATOSHI && AmountOk(s.coinbase.outs[0].value)
    requires IsCoinBase(s.coinbase) && NoNegativeOutput(s.coinbase) && Sha(t.txs[0]) !in s.chain
    ensures SumOuts(t.txs[0].outs) == SumOuts(s.coinbase.outs) + Fees(t.txs[1..])
    ensures AtMost(ApplyBlock(s.chain, t.txs, s.height), supply + SumOuts(s.coinbase.outs))
  {
    hide TemplateOk, TrueAmounts, AtMost, ItemsOk, PoolOk, Fees, SumOuts, ApplyBlock, BlockApplies, ChainValid,
      IsCoinBase, NoNegativeOutput;
    MoreSupply(s.chain, supply, MAX_SATOSHI);
    ExactAmounts(s, t, chosen, highPriority);
    TemplateExtends(s, t, chosen, highPriority);
    TemplateOutputs(s, t, chosen, highPriority);
    SupplyGrows(s.chain, t.txs[0], t.txs[1..], s.height, supply, SumOuts(s.coinbase.outs));
  }

  lemma MoreSupply(chain: Chain, supply: int, more: int)
    requires AtMost(chain, supply) && supply <= more
    ensures AtMost(chain, more)
  {
  }

  lemma TemplateOutputs(s: Setting, t: Template, chosen: seq<PrioItem>, highPriority: nat)
    requires SettingOk(s) && s.coinbase.outs != [] && TemplateOk(s, t, chosen, highPriority) && TrueAmounts(s, t)
    requires AmountOk(s.coinbase.outs[0].value) && NoNegativeOutput(s.coinbase)
    ensures t.txs == [t.txs[0]] + t.txs[1..] && forall tx :: tx in t.txs ==> NoNegativeOutput(tx)
    ensures SumOuts(t.txs[0].outs) == SumOuts(s.coinbase.outs) + Fees(t.txs[1..])
  {
    FirstOutput(s.coinbase.outs, s.coinbase.outs[0].value + Sum(t.fees[1..]));
    TemplateFees(s, t, chosen);
    assert t.txs == [t.txs[0]] + t.txs[1..];
  }
}
