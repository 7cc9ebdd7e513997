/** The money on the chain.  A transaction other than a coinbase moves or burns what is
    there, so the fees of a block can never exceed what all unspent outputs hold. */
module Supply {
  import opened Ledger
  import opened Validation

  ghost predicate AllUnspent(chain: Chain, coins: seq<OutPoint>) {
    Distinct(coins) && forall o :: o in coins ==> Unspent(chain, o)
  }

  /** No collection of unspent outputs is worth more than `supply`. */
  ghost predicate AtMost(chain: Chain, supply: int) {
    forall coins :: AllUnspent(chain, coins) ==> SumIns(coins) <= supply
  }

  ghost predicate NoNegativeOutput(tx: Tx) {
    forall out :: out in tx.outs ==> 0 <= out.value
  }

  function Fees(txs: seq<Tx>): int {
    if txs == [] then 0 else Fees(txs[..|txs| - 1]) + Fee(txs[|txs| - 1])
  }

  lemma {:induction false} SumInsJoined(a: seq<OutPoint>, b: seq<OutPoint>)
    ensures SumIns(a + b) == SumIns(a) + SumIns(b)
  {
    if b == [] {
      assert a + b == a;
    } else {
      assert (a + b)[..|a + b| - 1] == a + b[..|b| - 1];
      SumInsJoined(a, b[..|b| - 1]);
    }
  }

  /** The coins of one transaction, and the others. */
  function Of(coins: seq<OutPoint>, h: Hash, own: bool): (r: seq<OutPoint>)
    ensures forall o :: o in r <==> o in coins && (own <==> o.hash == h)
    ensures Distinct(coins) ==> Distinct(r)
  {
    if coins == [] then []
    else
      var front := Of(coins[..|coins| - 1], h, own);
      var last := coins[|coins| - 1];
      assert coins == coins[..|coins| - 1] + [last];
      if own <==> last.hash == h then front + [last] else front
  }

  lemma {:induction false} SumSplit(coins: seq<OutPoint>, h: Hash)
    ensures SumIns(coins) == SumIns(Of(coins, h, true)) + SumIns(Of(coins, h, false))
  {
    if coins != [] {
      var front, last := coins[..|coins| - 1], coins[|coins| - 1];
      SumSplit(front, h);
      SumInsJoined(Of(front, h, true), [last]);
      SumInsJoined(Of(front, h, false), [last]);
      assert SumIns([last]) == InValue(last);
    }
  }

  lemma Without(coins: seq<OutPoint>, i: nat)
    requires i < |coins| && Distinct(coins)
    ensures var rest := coins[..i] + coins[i + 1..];
      && Distinct(rest) && coins[i] !in rest && (forall o :: o in rest ==> o in coins)
      && SumIns(coins) == SumIns(rest) + InValue(coins[i])
  {
    var rest := coins[..i] + coins[i + 1..];
    forall a, b | 0 <= a < b < |rest| ensures rest[a] != rest[b] {
      assert rest[a] == coins[if a < i then a else a + 1];
      assert rest[b] == coins[if b < i then b else b + 1];
    }
    assert coins == coins[..i] + ([coins[i]] + coins[i + 1..]);
    SumInsJoined(coins[..i], [coins[i]] + coins[i + 1..]);
    SumInsJoined([coins[i]], coins[i + 1..]);
    SumInsJoined(coins[..i], coins[i + 1..]);
    assert SumIns([coins[i]]) == InValue(coins[i]);
  }

  /** Different outputs of one transaction are worth at most all its outputs. */
  lemma {:induction false} OwnCoins(tx: Tx, coins: seq<OutPoint>, n: nat)
    requires NoNegativeOutput(tx) && n <= |tx.outs| && Distinct(coins)
    requires forall o :: o in coins ==> o.hash == Sha(tx) && o.index < n
    ensures SumIns(coins) <= SumOuts(tx.outs[..n])
  {
    if coins == [] {
      SumOutsNonNegative(tx.outs[..n]);
    } else {
      assert coins[0].index < n;
      var last := OutPoint(Sha(tx), n - 1);
      assert tx.outs[..n][..n - 1] == tx.outs[..n - 1];
      if last in coins {
        var i :| 0 <= i < |coins| && coins[i] == last;
        Without(coins, i);
        OwnCoins(tx, coins[..i] + coins[i + 1..], n - 1);
      } else {
        assert forall o :: o in coins ==> o == OutPoint(o.hash, o.index);
        OwnCoins(tx, coins, n - 1);
      }
    }
  }

  /** Coins that `tx` did not make were there before, and it leaves them alone. */
  lemma OtherCoins(chain: Chain, tx: Tx, height: int, coins: seq<OutPoint>)
    requires CanApply(chain, tx) && AllUnspent(ApplyTx(chain, tx, height), coins)
    requires forall o :: o in coins ==> o.hash != Sha(tx)
    ensures AllUnspent(chain, coins)
    ensures !IsCoinBase(tx) ==> AllUnspent(chain, coins + tx.ins)
  {
    forall o | o in coins ensures Unspent(chain, o) && o !in tx.ins {
      ApplyTxUnspent(chain, tx, height, o);
    }
    hide Unspent, ApplyTx, IsCoinBase;
    if !IsCoinBase(tx) {
      DistinctJoined(coins, tx.ins);
    }
  }

  lemma DistinctJoined(a: seq<OutPoint>, b: seq<OutPoint>)
    requires Distinct(a) && Distinct(b) && forall o :: o in a ==> o !in b
    ensures Distinct(a + b)
  {
    var s := a + b;
    forall i, j | 0 <= i < j < |s| ensures s[i] != s[j] {
      assert i < |a| ==> s[i] == a[i] && a[i] in a;
      assert j >= |a| ==> s[j] == b[j - |a|] && b[j - |a|] in b;
      if i >= |a| {
        assert s[i] == b[i - |a|];
      } else if j < |a| {
        assert s[j] == a[j];
      }
    }
  }

  lemma MadeCoins(chain: Chain, tx: Tx, height: int, coins: seq<OutPoint>)
    requires CanApply(chain, tx) && NoNegativeOutput(tx) && AllUnspent(ApplyTx(chain, tx, height), coins)
    requires forall o :: o in coins ==> o.hash == Sha(tx)
    ensures SumIns(coins) <= SumOuts(tx.outs)
  {
    forall o | o in coins ensures o.index < |tx.outs| {
      ApplyTxUnspent(chain, tx, height, o);
      assert Sha(tx) !in chain;
    }
    OwnCoins(tx, coins, |tx.outs|);
    assert tx.outs[..|tx.outs|] == tx.outs;
  }

  /** Mining a transaction costs the supply its fee.  A coinbase spends nothing that exists:
      its fee is less than nothing, and the supply grows by its outputs. */
  lemma TxSupply(chain: Chain, tx: Tx, height: int, supply: int)
    requires AtMost(chain, supply) && CanApply(chain, tx) && NoNegativeOutput(tx)
    ensures AtMost(ApplyTx(chain, tx, height), supply - Fee(tx))
  {
    hide CanApply, ApplyTx, NoNegativeOutput, AllUnspent, SumIns;
    var after := ApplyTx(chain, tx, height);
    forall coins | AllUnspent(after, coins) ensures SumIns(coins) <= supply - Fee(tx) {
      var own, others := Of(coins, Sha(tx), true), Of(coins, Sha(tx), false);
      SumSplit(coins, Sha(tx));
      Part(after, coins, own);
      Part(after, coins, others);
      MadeCoins(chain, tx, height, own);
      OtherCoins(chain, tx, height, others);
      if IsCoinBase(tx) {
        CoinBaseFee(tx);
      } else {
        SumInsJoined(others, tx.ins);
      }
    }
  }

  lemma Part(chain: Chain, coins: seq<OutPoint>, some: seq<OutPoint>)
    requires AllUnspent(chain, coins) && forall o :: o in some ==> o in coins
    requires Distinct(coins) ==> Distinct(some)
    ensures AllUnspent(chain, some)
  {
  }

  lemma CoinBaseFee(tx: Tx)
    requires IsCoinBase(tx)
    ensures Fee(tx) == -SumOuts(tx.outs)
  {
    assert SumIns(tx.ins) == SumIns([]) + InValue(NULL_OUTPOINT);
  }

  /** Mining a block costs the supply its fees, and adds what its coinbase pays out. */
  lemma {:induction false} BlockSupply(chain: Chain, txs: seq<Tx>, height: int, supply: int)
    requires AtMost(chain, supply) && BlockApplies(chain, txs, height)
    requires forall tx :: tx in txs ==> NoNegativeOutput(tx)
    ensures AtMost(ApplyBlock(chain, txs, height), supply - Fees(txs))
  {
    if txs != [] {
      var front, last := txs[..|txs| - 1], txs[|txs| - 1];
      BlockSupply(chain, front, height, supply);
      TxSupply(ApplyBlock(chain, front, height), last, height, supply - Fees(front));
    }
  }

  /** The fees of transactions that can be mined on the chain never exceed its supply. */
  lemma FeesBounded(chain: Chain, txs: seq<Tx>, height: int, supply: int)
    requires AtMost(chain, supply) && BlockApplies(chain, txs, height)
    requires forall tx :: tx in txs ==> NoNegativeOutput(tx)
    ensures Fees(txs) <= supply
  {
    BlockSupply(chain, txs, height, supply);
    assert AllUnspent(ApplyBlock(chain, txs, height), []);
    assert SumIns([]) == 0;
  }

  /** A block whose coinbase takes no more than `subsidy` and the fees keeps to the supply,
      grown by the subsidy. */
  lemma SupplyGrows(chain: Chain, coinbase: Tx, txs: seq<Tx>, height: int, supply: int, subsidy: int)
    requires AtMost(chain, supply) && BlockApplies(chain, [coinbase] + txs, height) && IsCoinBase(coinbase)
    requires forall tx :: tx in [coinbase] + txs ==> NoNegativeOutput(tx)
    requires SumOuts(coinbase.outs) <= subsidy + Fees(txs)
    ensures AtMost(ApplyBlock(chain, [coinbase] + txs, height), supply + subsidy)
  {
    BlockSupply(chain, [coinbase] + txs, height, supply);
    FeesAfterCoinBase(coinbase, txs);
  }

  lemma {:induction false} FeesAfterCoinBase(coinbase: Tx, txs: seq<Tx>)
    requires IsCoinBase(coinbase)
    ensures Fees([coinbase] + txs) == Fees(txs) - SumOuts(coinbase.outs)
  {
    CoinBaseFee(coinbase);
    if txs == [] {
      assert ([coinbase] + txs)[..0] == [] && ([coinbase] + txs)[0] == coinbase;
    } else {
      assert ([coinbase] + txs)[..|txs|] == [coinbase] + txs[..|txs| - 1];
      FeesAfterCoinBase(coinbase, txs[..|txs| - 1]);
    }
  }
}
