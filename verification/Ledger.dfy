/** Transactions, the main chain as seen through its unspent outputs, and the
    transaction store that the pool and the miner validate against.

    A transaction hash is modelled symbolically: it IS the transaction it commits
    to.  Collision freedom and the absence of spend cycles are therefore properties
    of the datatypes and need no side conditions.  A hash that no known transaction
    has is a `RawHash`. */
module Ledger {

  type Address = string
  type ByteCount = n: nat | 1 <= n witness 1

  datatype Hash = TxId(tx: Tx) | RawHash(digest: nat)
  datatype OutPoint = OutPoint(hash: Hash, index: nat)
  datatype TxOut = TxOut(value: int, payees: seq<Address>)
  datatype Tx = Tx(ins: seq<OutPoint>, outs: seq<TxOut>, size: ByteCount, lockTime: nat, salt: nat)

  datatype Option<+T> = None | Some(value: T)

  const ZERO_HASH := RawHash(0)
  const MAX_PREV_OUT_INDEX := 0xffff_ffff
  const MAX_BLOCK_PAYLOAD := 1_000_000
  const MAX_SATOSHI := 2_100_000_000_000_000
  const COINBASE_MATURITY := 100

  function Sha(tx: Tx): Hash { TxId(tx) }

  const NULL_OUTPOINT := OutPoint(ZERO_HASH, MAX_PREV_OUT_INDEX)

  predicate IsCoinBase(tx: Tx) {
    tx.ins == [NULL_OUTPOINT]
  }

  /** The outpoint names an output that the transaction behind its hash really has. */
  predicate InRange(o: OutPoint) {
    o.hash.TxId? && o.index < |o.hash.tx.outs|
  }

  predicate SpendsFrom(tx: Tx, parent: Hash) {
    exists o :: o in tx.ins && o.hash == parent
  }

  predicate Distinct<T(==)>(s: seq<T>) {
    forall i, j :: 0 <= i < j < |s| ==> s[i] != s[j]
  }

  // ---------- Main chain ----------

  /** What the block database keeps about a mined transaction. */
  datatype Coins = Coins(height: int, spent: seq<bool>)
  type Chain = map<Hash, Coins>

  predicate FullySpent(c: Coins) {
    forall i :: 0 <= i < |c.spent| ==> c.spent[i]
  }

  predicate Unspent(chain: Chain, o: OutPoint) {
    o.hash in chain && o.index < |chain[o.hash].spent| && !chain[o.hash].spent[o.index]
  }

  predicate Spent(chain: Chain, o: OutPoint) {
    o.hash in chain && o.index < |chain[o.hash].spent| && chain[o.hash].spent[o.index]
  }

  /** A chain built from valid blocks: keys are real transactions with one flag per
      output, and every input of a mined transaction is a mined, spent output. */
  ghost predicate ChainValid(chain: Chain) {
    && (forall h :: h in chain ==> h.TxId? && |chain[h].spent| == |h.tx.outs|)
    && (forall h :: h in chain && !IsCoinBase(h.tx) ==> h.tx.ins != [])
    && (forall h, o :: h in chain && !IsCoinBase(h.tx) && o in h.tx.ins ==> Spent(chain, o))
  }

  /** Consensus condition for `tx` to come next: not mined before, and (coinbase
      aside) at least one input, no input twice, every input unspent. */
  ghost predicate CanApply(chain: Chain, tx: Tx) {
    && Sha(tx) !in chain
    && (!IsCoinBase(tx) ==>
          tx.ins != [] && Distinct(tx.ins) && forall o :: o in tx.ins ==> Unspent(chain, o))
  }

  function MarkSpent(h: Hash, spent: seq<bool>, ins: seq<OutPoint>): (r: seq<bool>)
    ensures |r| == |spent|
    ensures forall i :: 0 <= i < |r| ==> r[i] == (spent[i] || OutPoint(h, i) in ins)
  {
    seq(|spent|, i requires 0 <= i < |spent| => spent[i] || OutPoint(h, i) in ins)
  }

  /** The chain after mining `tx`: its inputs become spent, its outputs appear. */
  function ApplyTx(chain: Chain, tx: Tx, height: int): (r: Chain) {
    (map h | h in chain :: chain[h].(spent := MarkSpent(h, chain[h].spent, tx.ins)))
    [Sha(tx) := Coins(height, seq(|tx.outs|, _ => false))]
  }

  function ApplyBlock(chain: Chain, txs: seq<Tx>, height: int): (r: Chain) {
    if txs == [] then chain
    else ApplyTx(ApplyBlock(chain, txs[..|txs| - 1], height), txs[|txs| - 1], height)
  }

  /** Every transaction of the block may be mined when its turn comes. */
  ghost predicate BlockApplies(chain: Chain, txs: seq<Tx>, height: int) {
    txs != [] ==>
      && BlockApplies(chain, txs[..|txs| - 1], height)
      && CanApply(ApplyBlock(chain, txs[..|txs| - 1], height), txs[|txs| - 1])
  }

  lemma ApplyTxUnspent(chain: Chain, tx: Tx, height: int, o: OutPoint)
    requires CanApply(chain, tx)
    ensures Unspent(ApplyTx(chain, tx, height), o) <==>
            (Unspent(chain, o) && o !in tx.ins) || (o.hash == Sha(tx) && o.index < |tx.outs|)
  {
    assert o == OutPoint(o.hash, o.index);
  }

  lemma ApplyTxSpent(chain: Chain, tx: Tx, height: int, o: OutPoint)
    requires CanApply(chain, tx)
    ensures Spent(chain, o) ==> Spent(ApplyTx(chain, tx, height), o)
    ensures !IsCoinBase(tx) && o in tx.ins ==> Spent(ApplyTx(chain, tx, height), o)
  {
    assert o == OutPoint(o.hash, o.index);
  }

  lemma ApplyTxValid(chain: Chain, tx: Tx, height: int)
    requires ChainValid(chain) && CanApply(chain, tx)
    ensures ChainValid(ApplyTx(chain, tx, height))
  {
    var r := ApplyTx(chain, tx, height);
    forall h, o | h in r && !IsCoinBase(h.tx) && o in h.tx.ins
      ensures Spent(r, o)
    {
      ApplyTxSpent(chain, tx, height, o);
    }
  }

  lemma {:induction false} ApplyBlockValid(chain: Chain, txs: seq<Tx>, height: int)
    requires ChainValid(chain) && BlockApplies(chain, txs, height)
    ensures ChainValid(ApplyBlock(chain, txs, height))
  {
    if txs != [] {
      var front := txs[..|txs| - 1];
      ApplyBlockValid(chain, front, height);
      ApplyTxValid(ApplyBlock(chain, front, height), txs[|txs| - 1], height);
    }
  }

  function Shas(txs: seq<Tx>): set<Hash> {
    set t | t in txs :: Sha(t)
  }

  /** Mining adds exactly the block transactions. */
  lemma {:induction false} ApplyBlockGrows(chain: Chain, txs: seq<Tx>, height: int)
    ensures ApplyBlock(chain, txs, height).Keys == chain.Keys + Shas(txs)
  {
    if txs != [] {
      var front, last := txs[..|txs| - 1], txs[|txs| - 1];
      ApplyBlockGrows(chain, front, height);
      assert txs == front + [last];
      assert Shas(txs) == Shas(front) + {Sha(last)};
    }
  }

  /** The prefix of a valid block is a valid block. */
  lemma {:induction false} BlockPrefix(chain: Chain, txs: seq<Tx>, height: int, k: nat)
    requires k <= |txs| && BlockApplies(chain, txs, height)
    ensures BlockApplies(chain, txs[..k], height)
  {
    if k < |txs| {
      assert txs[..|txs| - 1][..k] == txs[..k];
      BlockPrefix(chain, txs[..|txs| - 1], height, k);
    } else {
      assert txs[..k] == txs;
    }
  }

  /** An output that is unspent after `k` transactions stays unspent to the end of the
      block unless one of the remaining transactions spends it. */
  lemma {:induction false} UnspentSurvives(chain: Chain, txs: seq<Tx>, height: int, k: nat, o: OutPoint)
    requires k <= |txs| && BlockApplies(chain, txs, height)
    requires Unspent(ApplyBlock(chain, txs[..k], height), o)
    ensures Unspent(ApplyBlock(chain, txs, height), o) || exists j :: k <= j < |txs| && o in txs[j].ins
  {
    if k == |txs| {
      assert txs[..k] == txs;
    } else {
      var front := txs[..|txs| - 1];
      assert front[..k] == txs[..k];
      UnspentSurvives(chain, front, height, k, o);
      ApplyTxUnspent(ApplyBlock(chain, front, height), txs[|txs| - 1], height, o);
      if j :| k <= j < |front| && o in front[j].ins {
        assert o in txs[j].ins;
      } else if o in txs[|txs| - 1].ins {
      }
    }
  }

  /** The outputs of the i-th block transaction end up unspent, or are spent later in the block. */
  lemma MinedOutputs(chain: Chain, txs: seq<Tx>, height: int, i: nat, o: OutPoint)
    requires i < |txs| && BlockApplies(chain, txs, height)
    requires o.hash == Sha(txs[i]) && InRange(o)
    ensures Unspent(ApplyBlock(chain, txs, height), o) || exists j :: i + 1 <= j < |txs| && o in txs[j].ins
  {
    BlockPrefix(chain, txs, height, i + 1);
    assert txs[..i + 1][..i] == txs[..i];
    ApplyTxUnspent(ApplyBlock(chain, txs[..i], height), txs[i], height, o);
    UnspentSurvives(chain, txs, height, i + 1, o);
  }

  /** A parent of a mined transaction was mined before it. */
  lemma ParentMinedBefore(chain: Chain, txs: seq<Tx>, height: int, c: Tx, o: OutPoint)
    requires ChainValid(chain) && BlockApplies(chain, txs, height)
    requires Sha(c) in ApplyBlock(chain, txs, height) && !IsCoinBase(c) && o in c.ins
    ensures o.hash in chain ||
            exists j :: 0 <= j < |txs| && txs[j] == c && o.hash in ApplyBlock(chain, txs[..j], height)
  {
    ApplyBlockGrows(chain, txs, height);
    if Sha(c) in chain {
      assert Spent(chain, o);
    } else {
      var j :| 0 <= j < |txs| && txs[j] == c;
      PrefixKeys(chain, txs, height, j);
      assert Unspent(ApplyBlock(chain, txs[..j], height), o);
    }
  }

  /** Block order is topological: whatever on the new chain spends from the i-th block
      transaction is a later transaction of the same block. */
  lemma SpendersComeLater(chain: Chain, txs: seq<Tx>, height: int, i: nat, c: Tx)
    requires i < |txs| && ChainValid(chain) && BlockApplies(chain, txs, height)
    requires Sha(c) in ApplyBlock(chain, txs, height) && SpendsFrom(c, Sha(txs[i]))
    ensures exists j :: i < j < |txs| && c == txs[j]
  {
    assert forall j :: 0 <= j <= i ==> txs[..j] <= txs[..i];
    var o :| o in c.ins && o.hash == Sha(txs[i]);
    ParentMinedBefore(chain, txs, height, c, o);
    PrefixKeys(chain, txs, height, i);
    var j :| 0 <= j < |txs| && txs[j] == c && o.hash in ApplyBlock(chain, txs[..j], height);
    PrefixKeys(chain, txs, height, j);
  }

  /** What is known when the i-th transaction is about to be mined. */
  lemma PrefixKeys(chain: Chain, txs: seq<Tx>, height: int, i: nat)
    requires i < |txs| && BlockApplies(chain, txs, height)
    ensures ApplyBlock(chain, txs[..i], height).Keys == chain.Keys + Shas(txs[..i])
    ensures CanApply(ApplyBlock(chain, txs[..i], height), txs[i])
  {
    BlockPrefix(chain, txs, height, i);
    BlockPrefix(chain, txs, height, i + 1);
    assert txs[..i + 1][..i] == txs[..i];
    ApplyBlockGrows(chain, txs[..i], height);
  }

  /** No transaction is mined twice. */
  lemma BlockDistinct(chain: Chain, txs: seq<Tx>, height: int)
    requires BlockApplies(chain, txs, height)
    ensures Distinct(txs) && forall t :: t in txs ==> Sha(t) !in chain
  {
    forall i, j | 0 <= i < j < |txs| ensures txs[i] != txs[j] {
      PrefixKeys(chain, txs, height, j);
      assert txs[..j][i] == txs[i];
    }
    forall t | t in txs ensures Sha(t) !in chain {
      var i :| 0 <= i < |txs| && txs[i] == t;
      PrefixKeys(chain, txs, height, i);
    }
  }

  /** `BlockApplies` read out: an input of a block transaction is either unspent on the old
      chain or an output of an earlier block transaction, and no output is spent twice. */
  lemma BlockInputs(chain: Chain, txs: seq<Tx>, height: int, j: nat, o: OutPoint)
    requires j < |txs| && BlockApplies(chain, txs, height)
    requires !IsCoinBase(txs[j]) && o in txs[j].ins
    ensures Unspent(chain, o) || exists i :: 0 <= i < j && o.hash == Sha(txs[i]) && InRange(o)
    ensures forall i :: 0 <= i < |txs| && i != j && !IsCoinBase(txs[i]) ==> o !in txs[i].ins
    ensures Distinct(txs[j].ins)
  {
    PrefixKeys(chain, txs, height, j);
    UnspentOrigin(chain, txs, height, j, o);
    forall i | 0 <= i < |txs| && i != j && !IsCoinBase(txs[i]) ensures o !in txs[i].ins {
      if j < i {
        SpentOnce(chain, txs, height, j, i, o);
      } else if o in txs[i].ins {
        SpentOnce(chain, txs, height, i, j, o);
      }
    }
  }

  lemma {:induction false} UnspentOrigin(chain: Chain, txs: seq<Tx>, height: int, j: nat, o: OutPoint)
    requires j <= |txs| && BlockApplies(chain, txs, height)
    requires Unspent(ApplyBlock(chain, txs[..j], height), o)
    ensures Unspent(chain, o) || exists i :: 0 <= i < j && o.hash == Sha(txs[i]) && InRange(o)
  {
    if j > 0 {
      PrefixKeys(chain, txs, height, j - 1);
      assert txs[..j][..j - 1] == txs[..j - 1];
      ApplyTxUnspent(ApplyBlock(chain, txs[..j - 1], height), txs[j - 1], height, o);
      if o.hash != Sha(txs[j - 1]) {
        UnspentOrigin(chain, txs, height, j - 1, o);
      }
    }
  }

  lemma SpentOnce(chain: Chain, txs: seq<Tx>, height: int, i: nat, j: nat, o: OutPoint)
    requires i < j < |txs| && BlockApplies(chain, txs, height)
    requires !IsCoinBase(txs[i]) && !IsCoinBase(txs[j]) && o in txs[i].ins
    ensures o !in txs[j].ins
  {
    PrefixKeys(chain, txs, height, i);
    ApplyTxSpent(ApplyBlock(chain, txs[..i], height), txs[i], height, o);
    var front := txs[..j];
    assert front[..i + 1] == txs[..i + 1] && txs[..i + 1][..i] == txs[..i];
    BlockPrefix(chain, txs, height, j);
    SpentStays(chain, front, height, i + 1, o);
    PrefixKeys(chain, txs, height, j);
  }

  lemma {:induction false} SpentStays(chain: Chain, txs: seq<Tx>, height: int, k: nat, o: OutPoint)
    requires k <= |txs| && BlockApplies(chain, txs, height)
    requires Spent(ApplyBlock(chain, txs[..k], height), o)
    ensures Spent(ApplyBlock(chain, txs, height), o)
  {
    if k == |txs| {
      assert txs[..k] == txs;
    } else {
      var front := txs[..|txs| - 1];
      assert front[..k] == txs[..k];
      SpentStays(chain, front, height, k, o);
      ApplyTxSpent(ApplyBlock(chain, front, height), txs[|txs| - 1], height, o);
    }
  }
}
