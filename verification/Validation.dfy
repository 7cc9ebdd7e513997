/** The transaction store and the context-free and input checks that the memory pool
    and the block template builder share. */
module Validation {
  import opened Ledger

  const MEMPOOL_HEIGHT := 0x7fff_ffff

  datatype TxData = Missing | Found(tx: Tx, height: int, spent: seq<bool>)
  type TxStore = map<Hash, TxData>

  /** Found entries hold the transaction their key names, with one flag per output. */
  ghost predicate StoreOk(store: TxStore) {
    forall h :: h in store && store[h].Found? ==>
      h == Sha(store[h].tx) && |store[h].spent| == |store[h].tx.outs|
  }

  /** A signature operation count, a Go int. */
  type Count = n: nat | n < TWO_63

  /** Verdicts of the script engine, of the standardness policy and of the priority formula. */
  datatype Checks = Checks(
    isStandard: (Tx, int) -> bool,
    inputsStandard: (Tx, TxStore) -> bool,
    sigOps: Tx -> Count,
    p2shSigOps: (Tx, TxStore) -> Option<Count>,
    scriptsValid: (Tx, TxStore) -> bool,
    priority: (Tx, TxStore, int) -> real)

  const MAX_SIG_OPS_PER_BLOCK := MAX_BLOCK_PAYLOAD / 50
  const MIN_HIGH_PRIORITY: real := 100_000_000.0 * 144.0 / 250.0

  // ---------- Fetching ----------

  function Wanted(tx: Tx): set<Hash> {
    {Sha(tx)} + set o | o in tx.ins :: o.hash
  }

  /** The database answers for mined transactions that still have an unspent output. */
  predicate OnChain(chain: Chain, h: Hash) {
    h in chain && h.TxId? && !FullySpent(chain[h])
  }

  function FetchTransactionStore(chain: Chain, tx: Tx): TxStore {
    map h | h in Wanted(tx) ::
      if OnChain(chain, h) then Found(h.tx, chain[h].height, chain[h].spent) else Missing
  }

  // ---------- Amounts ----------

  const TWO_63 := 0x8000_0000_0000_0000
  const TWO_64 := 0x1_0000_0000_0000_0000

  /** What an `int64` keeps of a number. */
  function WrapI64(n: int): int { (n + TWO_63) % TWO_64 - TWO_63 }

  lemma WrapI64Exact(n: int)
    requires -TWO_63 <= n < TWO_63
    ensures WrapI64(n) == n
  {
  }

  lemma WrapI64Over(n: int)
    requires TWO_63 <= n < TWO_63 + TWO_64
    ensures WrapI64(n) == n - TWO_64
  {
  }

  /** Integer division that truncates toward zero. */
  function Quotient(a: int, b: int): int
    requires b > 0
  {
    if a < 0 then -(-a / b) else a / b
  }

  function SumOuts(outs: seq<TxOut>): int {
    if outs == [] then 0 else SumOuts(outs[..|outs| - 1]) + outs[|outs| - 1].value
  }

  lemma {:induction false} SumOutsNonNegative(outs: seq<TxOut>)
    requires forall out :: out in outs ==> 0 <= out.value
    ensures 0 <= SumOuts(outs)
  {
    if outs != [] {
      SumOutsNonNegative(outs[..|outs| - 1]);
    }
  }

  /** The value an input brings in, read off the transaction its hash commits to. */
  function InValue(o: OutPoint): int {
    if InRange(o) then o.hash.tx.outs[o.index].value else 0
  }

  function SumIns(ins: seq<OutPoint>): int {
    if ins == [] then 0 else SumIns(ins[..|ins| - 1]) + InValue(ins[|ins| - 1])
  }

  function Fee(tx: Tx): int {
    SumIns(tx.ins) - SumOuts(tx.outs)
  }

  predicate AmountOk(v: int) { 0 <= v <= MAX_SATOSHI }

  // ---------- Sanity ----------

  /** Inputs and outputs, a size and amounts in bounds, no input twice, and only a coinbase names
      the null output. */
  ghost predicate Sane(tx: Tx) {
    && tx.ins != [] && tx.outs != []
    && tx.size <= 1_000_000
    && EachAmount(tx.outs)
    && SumOuts(tx.outs) <= 2_100_000_000_000_000
    && Distinct(tx.ins)
    && (tx.ins != [OutPoint(RawHash(0), 0xffff_ffff)] ==> OutPoint(RawHash(0), 0xffff_ffff) !in tx.ins)
  }

  lemma SumOutsStep(outs: seq<TxOut>, k: nat)
    requires k < |outs|
    ensures SumOuts(outs[..k + 1]) == SumOuts(outs[..k]) + outs[k].value
  {
    assert outs[..k + 1][..k] == outs[..k];
  }

  lemma {:induction false} SumOutsPrefix(outs: seq<TxOut>, k: nat)
    requires k <= |outs| && forall out :: out in outs ==> 0 <= out.value
    ensures SumOuts(outs[..k]) <= SumOuts(outs)
  {
    if k < |outs| {
      assert outs[..|outs| - 1][..k] == outs[..k];
      SumOutsPrefix(outs[..|outs| - 1], k);
    } else {
      assert outs[..k] == outs;
    }
  }

  ghost predicate EachAmount(outs: seq<TxOut>) {
    forall out :: out in outs ==> 0 <= out.value <= 2_100_000_000_000_000
  }

  lemma EachAmountStep(outs: seq<TxOut>, k: nat)
    requires k < |outs|
    ensures EachAmount(outs[..k + 1]) <==> EachAmount(outs[..k]) && 0 <= outs[k].value <= 2_100_000_000_000_000
    ensures EachAmount(outs) ==> EachAmount(outs[..k + 1])
    ensures EachAmount(outs[..0]) && outs[..|outs|] == outs
  {
    assert outs[..k + 1] == outs[..k] + [outs[k]];
  }

  lemma AmountsTooHigh(outs: seq<TxOut>, k: nat)
    requires k <= |outs| && EachAmount(outs) && SumOuts(outs[..k]) > 2_100_000_000_000_000
    ensures SumOuts(outs) > 2_100_000_000_000_000
  {
    SumOutsPrefix(outs, k);
  }

  /** The amounts of the outputs, one by one and in total. */
  method CheckAmounts(outs: seq<TxOut>) returns (ok: bool)
    ensures ok <==> EachAmount(outs) && SumOuts(outs) <= 2_100_000_000_000_000
  {
    assert EachAmount(outs[..0]) && SumOuts(outs[..0]) == 0;
    hide EachAmount, SumOuts;
    var total := 0;
    for i := 0 to |outs|
      invariant EachAmount(outs[..i])
      invariant total == SumOuts(outs[..i]) <= 2_100_000_000_000_000
    {
      var satoshi := outs[i].value;
      EachAmountStep(outs, i);
      if satoshi < 0 || satoshi > MAX_SATOSHI {
        return false;
      }
      SumOutsStep(outs, i);
      total := total + satoshi;
      if total > MAX_SATOSHI {
        if EachAmount(outs) {
          AmountsTooHigh(outs, i + 1);
        }
        return false;
      }
    }
    assert outs[..|outs|] == outs;
    return true;
  }

  method HasDuplicates(ins: seq<OutPoint>) returns (found: bool)
    ensures found <==> !Distinct(ins)
  {
    var existing: set<OutPoint> := {};
    for i := 0 to |ins|
      invariant existing == set o | o in ins[..i]
      invariant Distinct(ins[..i])
    {
      if ins[i] in existing {
        return true;
      }
      assert ins[..i + 1] == ins[..i] + [ins[i]];
      existing := existing + {ins[i]};
    }
    assert ins[..|ins|] == ins;
    return false;
  }

  method CheckTransactionSanity(tx: Tx) returns (ok: bool)
    ensures ok <==> Sane(tx)
  {
    if |tx.ins| == 0 || |tx.outs| == 0 || tx.size > MAX_BLOCK_PAYLOAD {
      return false;
    }
    var amounts := CheckAmounts(tx.outs);
    if !amounts {
      return false;
    }
    var duplicates := HasDuplicates(tx.ins);
    if duplicates {
      return false;
    }
    return IsCoinBase(tx) || NULL_OUTPOINT !in tx.ins;
  }

  // ---------- Inputs ----------

  /** One input passes on its own: present, mature, in bounds, unspent, sane amount. */
  ghost predicate InputOk(store: TxStore, height: int, o: OutPoint) {
    && o.hash in store && store[o.hash].Found?
    && (IsCoinBase(store[o.hash].tx) ==> store[o.hash].height + 100 <= height)
    && o.index < |store[o.hash].spent| && !store[o.hash].spent[o.index]
    && 0 <= InValue(o) <= 2_100_000_000_000_000
  }

  /** The value of an input that passes. */
  method CheckInput(store: TxStore, height: int, o: OutPoint) returns (satoshi: Option<int>)
    requires o.hash in store && store[o.hash].Found? ==>
               o.hash == Sha(store[o.hash].tx) && |store[o.hash].spent| == |store[o.hash].tx.outs|
    ensures satoshi == if InputOk(store, height, o) then Some(InValue(o)) else None
  {
    if o.hash !in store || store[o.hash].Missing? {
      return None;
    }
    var originTx := store[o.hash];
    if IsCoinBase(originTx.tx) {
      var blocksSincePrev := height - originTx.height;
      if blocksSincePrev < COINBASE_MATURITY {
        return None;
      }
    }
    if o.index >= |originTx.spent| || originTx.spent[o.index] {
      return None;
    }
    var value := originTx.tx.outs[o.index].value;
    if value < 0 || value > MAX_SATOSHI {
      return None;
    }
    return Some(value);
  }

  ghost predicate EachInputOk(store: TxStore, height: int, ins: seq<OutPoint>) {
    && Distinct(ins)
    && forall o :: o in ins ==> InputOk(store, height, o)
  }

  /** All inputs pass together. */
  ghost predicate InputsOk(store: TxStore, height: int, tx: Tx) {
    && EachInputOk(store, height, tx.ins)
    && SumIns(tx.ins) <= 2_100_000_000_000_000
    && 0 <= Fee(tx)
  }

  /** The same without naming what one input must meet. */
  lemma InputsOkMeans(store: TxStore, height: int, tx: Tx)
    ensures InputsOk(store, height, tx) <==>
            && (forall i, j :: 0 <= i < j < |tx.ins| ==> tx.ins[i] != tx.ins[j])
            && (forall o :: o in tx.ins ==>
                  && o.hash in store && store[o.hash].Found?
                  && o.index < |store[o.hash].spent| && !store[o.hash].spent[o.index]
                  && 0 <= InValue(o) <= 2_100_000_000_000_000
                  && (store[o.hash].tx.ins == [OutPoint(RawHash(0), 0xffff_ffff)] ==>
                        height - store[o.hash].height >= 100))
            && SumOuts(tx.outs) <= SumIns(tx.ins) <= 2_100_000_000_000_000
  {
  }

  function MarkData(h: Hash, d: TxData, ins: seq<OutPoint>): TxData {
    if d.Found? then d.(spent := MarkSpent(h, d.spent, ins)) else d
  }

  /** The store with the given outpoints marked spent. */
  function Marked(store: TxStore, ins: seq<OutPoint>): TxStore {
    map h | h in store :: MarkData(h, store[h], ins)
  }

  lemma {:induction false} SumInsPrefix(ins: seq<OutPoint>, k: nat)
    requires k <= |ins| && forall o :: o in ins ==> AmountOk(InValue(o))
    ensures 0 <= SumIns(ins[..k]) <= SumIns(ins)
  {
    if k < |ins| {
      assert ins[..|ins| - 1][..k] == ins[..k];
      SumInsPrefix(ins[..|ins| - 1], k);
    } else if k > 0 {
      assert ins[..k] == ins;
      SumInsPrefix(ins[..k - 1], k - 1);
      assert ins[..k - 1][..k - 1] == ins[..k - 1];
    }
  }

  lemma SumInsStep(ins: seq<OutPoint>, k: nat)
    requires k < |ins|
    ensures SumIns(ins[..k + 1]) == SumIns(ins[..k]) + InValue(ins[k])
  {
    assert ins[..k + 1][..k] == ins[..k];
  }

  function MarkOne(store: TxStore, o: OutPoint): TxStore
    requires o.hash in store && store[o.hash].Found? && o.index < |store[o.hash].spent|
  {
    store[o.hash := store[o.hash].(spent := store[o.hash].spent[o.index := true])]
  }

  lemma MarkedStep(store: TxStore, ins: seq<OutPoint>, k: nat)
    requires k < |ins|
    requires ins[k].hash in store && store[ins[k].hash].Found? && ins[k].index < |store[ins[k].hash].spent|
    ensures Marked(store, ins[..k + 1]) == MarkOne(Marked(store, ins[..k]), ins[k])
  {
    assert ins[..k + 1] == ins[..k] + [ins[k]];
    var after := Marked(store, ins[..k + 1]);
    var step := MarkOne(Marked(store, ins[..k]), ins[k]);
    forall h | h in store ensures after[h] == step[h] {
      if store[h].Found? {
        forall i | 0 <= i < |store[h].spent| ensures after[h].spent[i] == step[h].spent[i] {
          assert OutPoint(h, i) == ins[k] <==> h == ins[k].hash && i == ins[k].index;
        }
        assert after[h].spent == step[h].spent;
      }
    }
  }

  /** Marking makes exactly the marked inputs fail. */
  lemma MarkedInput(store: TxStore, height: int, ins: seq<OutPoint>, o: OutPoint)
    ensures InputOk(Marked(store, ins), height, o) <==> InputOk(store, height, o) && o !in ins
  {
    assert o == OutPoint(o.hash, o.index);
  }

  lemma MarkedNothing(store: TxStore)
    ensures Marked(store, []) == store
  {
    forall h | h in store && store[h].Found? ensures MarkSpent(h, store[h].spent, []) == store[h].spent {
    }
  }

  lemma NextInput(store: TxStore, height: int, ins: seq<OutPoint>, k: nat)
    requires k < |ins| && EachInputOk(store, height, ins[..k])
    ensures InputOk(Marked(store, ins[..k]), height, ins[k]) <==> EachInputOk(store, height, ins[..k + 1])
    ensures EachInputOk(store, height, ins) ==> EachInputOk(store, height, ins[..k + 1])
  {
    MarkedInput(store, height, ins[..k], ins[k]);
    assert ins[..k + 1] == ins[..k] + [ins[k]];
    assert forall i :: 0 <= i < k ==> ins[..k][i] == ins[..k + 1][i];
  }

  /** What a passing input refers to is there, with the value that its hash commits to. */
  lemma FoundInput(store: TxStore, height: int, ins: seq<OutPoint>, o: OutPoint)
    requires StoreOk(store) && InputOk(Marked(store, ins), height, o)
    ensures o.hash in store && store[o.hash].Found? && o.index < |store[o.hash].spent|
    ensures var marked := Marked(store, ins);
      o.hash in marked && marked[o.hash].Found? && o.index < |marked[o.hash].spent|
  {
  }

  lemma MarkedEntryOk(store: TxStore, ins: seq<OutPoint>, h: Hash)
    requires StoreOk(store)
    ensures var marked := Marked(store, ins);
      h in marked && marked[h].Found? ==> h == Sha(marked[h].tx) && |marked[h].spent| == |marked[h].tx.outs|
  {
  }

  /** The running total only ever grows. */
  lemma TotalTooHigh(store: TxStore, height: int, ins: seq<OutPoint>, k: nat)
    requires k <= |ins| && SumIns(ins[..k]) > MAX_SATOSHI
    ensures EachInputOk(store, height, ins) ==> SumIns(ins) > MAX_SATOSHI
  {
    if EachInputOk(store, height, ins) {
      SumInsPrefix(ins, k);
    }
  }

  /** The first `k` inputs get through the check one after the other. */
  ghost predicate PassThrough(store: TxStore, height: int, ins: seq<OutPoint>, k: nat)
    requires k <= |ins|
  {
    EachInputOk(store, height, ins[..k]) && SumIns(ins[..k]) <= MAX_SATOSHI
  }

  /** How many inputs get through, given that the first `k` do. */
  ghost function PassingFrom(store: TxStore, height: int, ins: seq<OutPoint>, k: nat): (n: nat)
    requires k <= |ins|
    ensures k <= n <= |ins|
    decreases |ins| - k
  {
    if k < |ins| && PassThrough(store, height, ins, k + 1) then PassingFrom(store, height, ins, k + 1) else k
  }

  /** The inputs that the check marks spent: those before the first that fails. */
  ghost function Passing(store: TxStore, height: int, ins: seq<OutPoint>): (r: seq<OutPoint>)
    ensures r <= ins
  {
    ins[..PassingFrom(store, height, ins, 0)]
  }

  lemma {:induction false} PassingIsOk(store: TxStore, height: int, ins: seq<OutPoint>, k: nat)
    requires k <= |ins| && EachInputOk(store, height, ins[..k])
    ensures EachInputOk(store, height, ins[..PassingFrom(store, height, ins, k)])
    decreases |ins| - k
  {
    if k < |ins| && PassThrough(store, height, ins, k + 1) {
      PassingIsOk(store, height, ins, k + 1);
    }
  }

  lemma {:induction false} PassingAll(store: TxStore, height: int, ins: seq<OutPoint>, k: nat)
    requires k <= |ins| && EachInputOk(store, height, ins) && SumIns(ins) <= MAX_SATOSHI
    ensures PassingFrom(store, height, ins, k) == |ins|
    decreases |ins| - k
  {
    if k < |ins| {
      var front := ins[..k + 1];
      assert forall i :: 0 <= i < k + 1 ==> front[i] == ins[i];
      SumInsPrefix(ins, k + 1);
      assert PassThrough(store, height, ins, k + 1);
      PassingAll(store, height, ins, k + 1);
    }
  }

  method TotalOut(outs: seq<TxOut>) returns (total: int)
    ensures total == SumOuts(outs)
  {
    total := 0;
    for i := 0 to |outs|
      invariant total == SumOuts(outs[..i])
    {
      SumOutsStep(outs, i);
      total := total + outs[i].value;
    }
    assert outs[..|outs|] == outs;
  }

  /** Checks the inputs one by one, marking each accepted input spent on the way, so that
      an input listed twice fails the second time.  The marks stay when a later input
      fails: the caller gets the store back with those of some prefix added. */
  method CheckTransactionInputs(tx: Tx, height: int, store: TxStore) returns (fee: Option<int>, marked: TxStore)
    requires StoreOk(store)
    ensures fee == if IsCoinBase(tx) then Some(0)
                   else if InputsOk(store, height, tx) then Some(Fee(tx)) else None
    ensures marked == if IsCoinBase(tx) then store else Marked(store, Passing(store, height, tx.ins))
    ensures fee.Some? && !IsCoinBase(tx) ==> Passing(store, height, tx.ins) == tx.ins
  {
    marked := store;
    MarkedNothing(store);
    assert tx.ins[..0] == [] && EachInputOk(store, height, []) && SumIns([]) == 0;
    hide StoreOk, InputOk, EachInputOk, Marked, MarkData, Distinct, SumIns, SumOuts, InValue, IsCoinBase;
    if IsCoinBase(tx) {
      return Some(0), marked;
    }
    var totalIn := 0;
    var i := 0;
    while i < |tx.ins|
      invariant 0 <= i <= |tx.ins|
      invariant marked == Marked(store, tx.ins[..i])
      invariant EachInputOk(store, height, tx.ins[..i])
      invariant totalIn == SumIns(tx.ins[..i])
      invariant totalIn <= MAX_SATOSHI
      invariant PassingFrom(store, height, tx.ins, 0) == PassingFrom(store, height, tx.ins, i)
    {
      var o := tx.ins[i];
      NextInput(store, height, tx.ins, i);
      MarkedEntryOk(store, tx.ins[..i], o.hash);
      var satoshi := CheckInput(marked, height, o);
      if satoshi.None? {
        return None, marked;
      }
      FoundInput(store, height, tx.ins[..i], o);
      SumInsStep(tx.ins, i);
      totalIn := totalIn + satoshi.value;
      if totalIn > MAX_SATOSHI {
        TotalTooHigh(store, height, tx.ins, i + 1);
        return None, marked;
      }
      MarkedStep(store, tx.ins, i);
      marked := MarkOne(marked, o);
      i := i + 1;
    }
    assert tx.ins[..i] == tx.ins;
    var totalOut := TotalOut(tx.outs);
    if totalIn < totalOut {
      return None, marked;
    }
    return Some(totalIn - totalOut), marked;
  }
}
