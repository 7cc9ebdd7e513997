/** What the pool decides, as functions of what it holds: policy, acceptance, and a whole run of
    orphans offered to it. */
module PoolRules {
  import opened Ledger
  import opened Validation
  import opened PoolIndex
  import opened BlockConnect
  import opened RelayMeter

  const MAX_ORPHAN_TX_SIZE := 5000
  const MAX_SIG_OPS_PER_TX := MAX_SIG_OPS_PER_BLOCK / 5
  const DEFAULT_BLOCK_PRIORITY_SIZE := 50000
  const MAX_INT32 := 0x7fff_ffff

  datatype Config = Config(
    disableRelayPriority: bool,
    enableAddrIndex: bool,
    freeTxRelayLimit: real,
    maxOrphanTxs: int,
    minRelayTxFee: int,
    relayNonStdTxs: bool,
    checks: Checks)

  /** The least fee that counts as a fee, in 64-bit arithmetic. */
  function MinRequiredTxRelayFee(size: nat, minRelayTxFee: int): int {
    var scaled := Quotient(WrapI64(size * minRelayTxFee), 1000);
    var minFee := if scaled == 0 && minRelayTxFee > 0 then minRelayTxFee else scaled;
    if AmountOk(minFee) then minFee else MAX_SATOSHI
  }

  /** The fee per thousand bytes scaled to the size, at most all the money there is. */
  function ScaledFee(size: nat, minRelayTxFee: int): int {
    var scaled := size * minRelayTxFee / 1000;
    if scaled == 0 then minRelayTxFee else if scaled <= MAX_SATOSHI then scaled else MAX_SATOSHI
  }

  /** The required fee of every transaction that may be relayed is the scaled one, if and only
      if the relay fee is small enough for the largest of them. */
  lemma RelayFeeScales(minRelayTxFee: int)
    requires AmountOk(minRelayTxFee)
    ensures (forall size :: 1 <= size <= MAX_BLOCK_PAYLOAD ==>
               MinRequiredTxRelayFee(size, minRelayTxFee) == ScaledFee(size, minRelayTxFee))
            <==> MAX_BLOCK_PAYLOAD * minRelayTxFee <= TWO_64 - 1000
  {
    if MAX_BLOCK_PAYLOAD * minRelayTxFee <= TWO_64 - 1000 {
      forall size | 1 <= size <= MAX_BLOCK_PAYLOAD
        ensures MinRequiredTxRelayFee(size, minRelayTxFee) == ScaledFee(size, minRelayTxFee)
      {
        RelayFeeBelow(size, minRelayTxFee);
      }
    } else {
      var _ := RelayFeeAbove(minRelayTxFee);
    }
  }

  lemma RelayFeeBelow(size: nat, minRelayTxFee: int)
    requires AmountOk(minRelayTxFee) && size <= MAX_BLOCK_PAYLOAD
    requires MAX_BLOCK_PAYLOAD * minRelayTxFee <= TWO_64 - 1000
    ensures MinRequiredTxRelayFee(size, minRelayTxFee) == ScaledFee(size, minRelayTxFee)
  {
    MoreIsMore(size, MAX_BLOCK_PAYLOAD, minRelayTxFee);
    var product := size * minRelayTxFee;
    hide WrapI64;
    if product < TWO_63 {
      WrapI64Exact(product);
    } else {
      WrapI64Over(product);
      assert WrapI64(product) <= -1000 && product / 1000 > MAX_SATOSHI;
    }
  }

  lemma {:induction false} MoreIsMore(a: nat, b: nat, f: nat)
    requires a <= b
    ensures 0 <= a * f <= b * f
  {
    if a < b {
      MoreIsMore(a, b - 1, f);
    }
  }

  /** At some size the product goes round to a small positive amount. */
  lemma RelayFeeAbove(minRelayTxFee: int) returns (size: nat)
    requires AmountOk(minRelayTxFee) && MAX_BLOCK_PAYLOAD * minRelayTxFee > TWO_64 - 1000
    ensures 1 <= size <= MAX_BLOCK_PAYLOAD
    ensures MinRequiredTxRelayFee(size, minRelayTxFee) != ScaledFee(size, minRelayTxFee)
  {
    size := FirstAbove(TWO_64 - 1000, minRelayTxFee, MAX_BLOCK_PAYLOAD);
    hide WrapI64;
    var product := size * minRelayTxFee;
    WrapI64Over(product);
    assert -1000 < WrapI64(product) <= minRelayTxFee - 1000;
    assert product / 1000 > MAX_SATOSHI;
  }

  /** The first multiple of `f` above a bound that some multiple exceeds. */
  lemma FirstAbove(bound: nat, f: nat, most: nat) returns (k: nat)
    requires most * f > bound
    ensures 1 <= k <= most && bound < k * f <= bound + f
  {
    if most == 1 || (most - 1) * f <= bound {
      k := most;
    } else {
      k := FirstAbove(bound, f, most - 1);
    }
  }

  // ---------- Policy ----------

  /** Policy, up to the rate limiter. */
  ghost predicate PolicyPlain(cfg: Config, tx: Tx, store: TxStore, height: int, fee: int, isNew: bool) {
    var p2sh := cfg.checks.p2shSigOps(tx, store);
    && (cfg.relayNonStdTxs || cfg.checks.inputsStandard(tx, store))
    && p2sh.Some? && p2sh.value + cfg.checks.sigOps(tx) <= 4000
    && (fee < MinRequiredTxRelayFee(tx.size, cfg.minRelayTxFee) ==>
        && tx.size < 49000
        && (isNew && !cfg.disableRelayPriority ==> cfg.checks.priority(tx, store, height + 1) > 57_600_000.0))
  }

  /** The rate limiter is asked: the fee is too low, and nothing else is wrong so far. */
  ghost predicate Asks(cfg: Config, tx: Tx, store: TxStore, height: int, fee: int, isNew: bool, rateLimit: bool) {
    && PolicyPlain(cfg, tx, store, height, fee, isNew)
    && rateLimit && fee < MinRequiredTxRelayFee(tx.size, cfg.minRelayTxFee)
  }

  /** What policy demands of a transaction with these inputs and this fee. */
  ghost predicate PolicyOk(cfg: Config, tx: Tx, store: TxStore, height: int, fee: int, isNew: bool, rateLimit: bool,
                           letThrough: bool)
  {
    && PolicyPlain(cfg, tx, store, height, fee, isNew)
    && (Asks(cfg, tx, store, height, fee, isNew, rateLimit) ==> letThrough)
    && cfg.checks.scriptsValid(tx, store)
  }

  /** The rate limiter lets the transaction through if asked at time `now`, with all the history
      of attempts behind it. */
  ghost predicate LetThrough(cfg: Config, attempts: seq<Attempt>, now: int) {
    Decayed(Replay(cfg.freeTxRelayLimit * 10000.0, attempts), now).total < cfg.freeTxRelayLimit * 10000.0
  }

  // ---------- Acceptance ----------

  /** What the pool's decisions depend on. */
  datatype Stage = Stage(pool: Pool, orphans: map<Hash, Tx>, attempts: seq<Attempt>)

  /** The tests that look at the transaction and the pool alone. */
  ghost predicate Plausible(cfg: Config, height: int, st: Stage, tx: Tx) {
    && Sha(tx) !in st.pool && Sha(tx) !in st.orphans
    && Sane(tx) && tx.ins != [OutPoint(RawHash(0), 0xffff_ffff)]
    && tx.lockTime <= 0x7fff_ffff
    && (cfg.relayNonStdTxs || cfg.checks.isStandard(tx, height + 1))
    && (forall h, o :: h in st.pool && o in st.pool[h].tx.ins ==> o !in tx.ins)
  }

  /** The tests that come before the transaction's parents are looked at. */
  ghost predicate Screens(cfg: Config, chain: Chain, height: int, st: Stage, tx: Tx) {
    Plausible(cfg, height, st, tx) && !OnChain(chain, Sha(tx))
  }

  lemma NotPlausible(cfg: Config, chain: Chain, height: int, st: Stage, tx: Tx)
    ensures Screens(cfg, chain, height, st, tx) ==> Plausible(cfg, height, st, tx)
  {
  }

  lemma OnChainFails(cfg: Config, chain: Chain, height: int, st: Stage, tx: Tx)
    requires Plausible(cfg, height, st, tx)
    ensures Screens(cfg, chain, height, st, tx) <==> !OnChain(chain, Sha(tx))
  {
  }

  lemma PlausibleFacts(cfg: Config, height: int, st: Stage, tx: Tx)
    requires Plausible(cfg, height, st, tx)
    ensures Sha(tx) !in st.pool && Sha(tx) !in st.orphans && Sane(tx) && !IsCoinBase(tx)
  {
  }

  /** The outputs that the transaction spends from, without the transaction itself. */
  ghost function ParentStore(chain: Chain, pool: Pool, tx: Tx): TxStore {
    StoreFor(chain, pool, tx) - {Sha(tx)}
  }

  ghost predicate InputsPass(chain: Chain, pool: Pool, height: int, tx: Tx) {
    InputsOk(ParentStore(chain, pool, tx), height + 1, tx)
  }

  /** What the pool records about the transaction. */
  ghost function Described(cfg: Config, chain: Chain, pool: Pool, height: int, tx: Tx): TxDesc {
    TxDesc(tx, height, Fee(tx), cfg.checks.priority(tx, Marked(ParentStore(chain, pool, tx), tx.ins), height))
  }

  ghost predicate Orphaned(cfg: Config, chain: Chain, height: int, st: Stage, tx: Tx) {
    Screens(cfg, chain, height, st, tx) && Lacks(chain, st.pool.Keys, tx)
  }

  /** The transaction gets as far as its inputs, and they pass. */
  ghost predicate Resolves(cfg: Config, chain: Chain, height: int, st: Stage, tx: Tx) {
    && Screens(cfg, chain, height, st, tx)
    && !Lacks(chain, st.pool.Keys, tx)
    && InputsPass(chain, st.pool, height, tx)
  }

  ghost predicate Accepts(cfg: Config, chain: Chain, height: int, st: Stage, tx: Tx, isNew: bool, rateLimit: bool,
                          now: int)
  {
    && Resolves(cfg, chain, height, st, tx)
    && PolicyOk(cfg, tx, Marked(ParentStore(chain, st.pool, tx), tx.ins), height, Fee(tx), isNew, rateLimit,
                LetThrough(cfg, st.attempts, now))
  }

  /** The rate limiter's history afterwards. */
  ghost function AttemptsAfter(cfg: Config, chain: Chain, height: int, st: Stage, tx: Tx, isNew: bool, rateLimit: bool,
                               now: int): seq<Attempt>
  {
    if Resolves(cfg, chain, height, st, tx) &&
       Asks(cfg, tx, Marked(ParentStore(chain, st.pool, tx), tx.ins), height, Fee(tx), isNew, rateLimit)
    then st.attempts + [Attempt(now, tx.size)] else st.attempts
  }

  /** What becomes of pool and history. */
  ghost function Judged(cfg: Config, chain: Chain, height: int, st: Stage, tx: Tx, isNew: bool, rateLimit: bool,
                        now: int): Stage
  {
    Stage(if Accepts(cfg, chain, height, st, tx, isNew, rateLimit, now)
          then st.pool[Sha(tx) := Described(cfg, chain, st.pool, height, tx)] else st.pool,
          st.orphans, AttemptsAfter(cfg, chain, height, st, tx, isNew, rateLimit, now))
  }

  /** What is left to decide once all parents are there. */
  lemma JudgedInputs(cfg: Config, chain: Chain, height: int, st: Stage, tx: Tx, isNew: bool, rateLimit: bool, now: int)
    requires Screens(cfg, chain, height, st, tx) && !Lacks(chain, st.pool.Keys, tx)
    ensures var parents := Marked(ParentStore(chain, st.pool, tx), tx.ins);
      var pass := InputsPass(chain, st.pool, height, tx);
      var desc := TxDesc(tx, height, Fee(tx), cfg.checks.priority(tx, parents, height));
      var accepts := Accepts(cfg, chain, height, st, tx, isNew, rateLimit, now);
      && desc == Described(cfg, chain, st.pool, height, tx)
      && (accepts <==> pass && PolicyOk(cfg, tx, parents, height, Fee(tx), isNew, rateLimit,
                                        LetThrough(cfg, st.attempts, now)))
      && Judged(cfg, chain, height, st, tx, isNew, rateLimit, now) ==
           Stage(if accepts then st.pool[Sha(tx) := desc] else st.pool, st.orphans,
                 st.attempts + if pass && Asks(cfg, tx, parents, height, Fee(tx), isNew, rateLimit)
                               then [Attempt(now, tx.size)] else [])
  {
    hide Screens, Lacks, InputsPass, PolicyOk, Asks, LetThrough, Marked, Fee;
  }

  lemma NotLacking(cfg: Config, chain: Chain, height: int, st: Stage, tx: Tx)
    requires !Lacks(chain, st.pool.Keys, tx)
    ensures !Orphaned(cfg, chain, height, st, tx)
  {
  }

  lemma DescribedIs(cfg: Config, chain: Chain, pool: Pool, height: int, tx: Tx)
    ensures var d := Described(cfg, chain, pool, height, tx); d.tx == tx && d.height == height && d.fee == Fee(tx)
  {
  }

  /** A transaction that does not get as far as its inputs changes nothing. */
  lemma StoppedEarly(cfg: Config, chain: Chain, height: int, st: Stage, tx: Tx, isNew: bool, rateLimit: bool, now: int)
    requires !Screens(cfg, chain, height, st, tx) || Lacks(chain, st.pool.Keys, tx)
    ensures Judged(cfg, chain, height, st, tx, isNew, rateLimit, now) == st
    ensures !Accepts(cfg, chain, height, st, tx, isNew, rateLimit, now)
    ensures Orphaned(cfg, chain, height, st, tx) <==> Screens(cfg, chain, height, st, tx)
  {
    hide Screens, Lacks, InputsPass, PolicyOk, Asks;
  }

  lemma JudgedMeans(cfg: Config, chain: Chain, height: int, st: Stage, tx: Tx, isNew: bool, rateLimit: bool, now: int)
    ensures var next := Judged(cfg, chain, height, st, tx, isNew, rateLimit, now);
      && next.orphans == st.orphans && st.attempts <= next.attempts
      && (!Accepts(cfg, chain, height, st, tx, isNew, rateLimit, now) ==> next.pool == st.pool)
    ensures Orphaned(cfg, chain, height, st, tx) ==> Judged(cfg, chain, height, st, tx, isNew, rateLimit, now) == st
    ensures !(Orphaned(cfg, chain, height, st, tx) && Accepts(cfg, chain, height, st, tx, isNew, rateLimit, now))
  {
    hide Screens, Lacks, InputsPass, PolicyOk, Asks;
  }

  /** What an accepted transaction meets, field by field. */
  lemma AcceptedMeans(cfg: Config, chain: Chain, height: int, st: Stage, tx: Tx, isNew: bool, rateLimit: bool, now: int)
    requires Accepts(cfg, chain, height, st, tx, isNew, rateLimit, now)
    ensures tx.ins != [] && tx.outs != [] && tx.size <= 1_000_000 && tx.lockTime <= 0x7fff_ffff
    ensures cfg.relayNonStdTxs || cfg.checks.isStandard(tx, height + 1)
    ensures forall h, o :: h in st.pool && o in st.pool[h].tx.ins ==> o !in tx.ins
    ensures SumOuts(tx.outs) <= SumIns(tx.ins) <= 2_100_000_000_000_000
    ensures var store := Marked(StoreFor(chain, st.pool, tx) - {Sha(tx)}, tx.ins);
      var p2sh := cfg.checks.p2shSigOps(tx, store);
      && cfg.checks.scriptsValid(tx, store)
      && (cfg.relayNonStdTxs || cfg.checks.inputsStandard(tx, store))
      && p2sh.Some? && p2sh.value + cfg.checks.sigOps(tx) <= 4000
      && (SumIns(tx.ins) - SumOuts(tx.outs) < MinRequiredTxRelayFee(tx.size, cfg.minRelayTxFee) ==>
            && tx.size < 49000
            && (isNew && !cfg.disableRelayPriority ==> cfg.checks.priority(tx, store, height + 1) > 57_600_000.0)
            && (rateLimit ==> Decayed(Replay(cfg.freeTxRelayLimit * 10000.0, st.attempts), now).total <
                              cfg.freeTxRelayLimit * 10000.0))
  {
    hide Screens, InputOk, SumIns, SumOuts, Marked, StoreFor;
    assert Plausible(cfg, height, st, tx) by {
      NotPlausible(cfg, chain, height, st, tx);
    }
    hide Lacks, Decayed, Replay, MinRequiredTxRelayFee, IsCoinBase;
  }

  /** Nobody spends a mined output that is spent or, if a coinbase made it, fewer than 100 blocks below
      the block the transaction could go into. */
  lemma AcceptedInputs(cfg: Config, chain: Chain, height: int, st: Stage, tx: Tx, isNew: bool, rateLimit: bool,
                       now: int, o: OutPoint)
    requires ChainValid(chain) && PoolOk(st.pool) && Accepts(cfg, chain, height, st, tx, isNew, rateLimit, now)
    requires o in tx.ins
    ensures OnChain(chain, o.hash) ==>
      && o.index < |o.hash.tx.outs| && !chain[o.hash].spent[o.index]
      && (o.hash.tx.ins == [OutPoint(RawHash(0), 0xffff_ffff)] ==> chain[o.hash].height + 100 <= height + 1)
    ensures !OnChain(chain, o.hash) ==> o.hash in st.pool && o.index < |st.pool[o.hash].tx.outs|
  {
    hide Screens, PolicyOk, Lacks;
    assert InputOk(ParentStore(chain, st.pool, tx), height + 1, o);
  }

  // ---------- Orphans offered to the pool ----------

  /** An orphan that was offered, the time of the rate limiter, and who had to go when it was put back. */
  datatype Offer = Offer(tx: Tx, now: int, victim: Option<Hash>)

  function Less(orphans: map<Hash, Tx>, victim: Option<Hash>): map<Hash, Tx> {
    if victim.Some? then orphans - {victim.value} else orphans
  }

  /** Room is made for one more orphan: somebody goes only if there would be too many. */
  ghost predicate Evicts(cfg: Config, orphans: map<Hash, Tx>, victim: Option<Hash>) {
    victim.Some? ==> victim.value in orphans && |orphans| + 1 > cfg.maxOrphanTxs > 0
  }

  /** The stage at which an orphan is judged: it is not among the orphans itself. */
  ghost function TakenOut(st: Stage, tx: Tx): Stage {
    st.(orphans := st.orphans - {Sha(tx)})
  }

  ghost predicate Welcome(cfg: Config, chain: Chain, height: int, st: Stage, e: Offer) {
    Accepts(cfg, chain, height, TakenOut(st, e.tx), e.tx, true, true, e.now)
  }

  ghost predicate Homeless(cfg: Config, chain: Chain, height: int, st: Stage, tx: Tx) {
    Orphaned(cfg, chain, height, TakenOut(st, tx), tx)
  }

  ghost predicate OfferOk(cfg: Config, st: Stage, e: Offer) {
    && Sha(e.tx) in st.orphans && st.orphans[Sha(e.tx)] == e.tx
    && Evicts(cfg, TakenOut(st, e.tx).orphans, e.victim)
  }

  /** What an offer does: the orphan is accepted, put back as long as it lacks a parent, or dropped. */
  ghost function AfterOffer(cfg: Config, chain: Chain, height: int, st: Stage, e: Offer): Stage {
    var out := TakenOut(st, e.tx);
    if Homeless(cfg, chain, height, st, e.tx) then
      st.(orphans := Less(out.orphans, e.victim)[Sha(e.tx) := e.tx])
    else Judged(cfg, chain, height, out, e.tx, true, true, e.now)
  }

  lemma AfterHomeless(cfg: Config, chain: Chain, height: int, st: Stage, e: Offer)
    requires Homeless(cfg, chain, height, st, e.tx)
    ensures Sha(e.tx) in AfterOffer(cfg, chain, height, st, e).orphans
  {
  }

  ghost function AfterOffers(cfg: Config, chain: Chain, height: int, st: Stage, log: seq<Offer>): Stage {
    if log == [] then st
    else AfterOffer(cfg, chain, height, AfterOffers(cfg, chain, height, st, log[..|log| - 1]), log[|log| - 1])
  }

  /** A run of offers leads from one stage to another. */
  ghost predicate Offered(cfg: Config, chain: Chain, height: int, from: Stage, log: seq<Offer>, to: Stage) {
    && to == AfterOffers(cfg, chain, height, from, log)
    && forall k :: 0 <= k < |log| ==> OfferOk(cfg, AfterOffers(cfg, chain, height, from, log[..k]), log[k])
  }

  /** Only those are offered that spend from the given hash or from what was accepted on the way. */
  ghost predicate Reached(hash: Hash, log: seq<Offer>, entered: set<Hash>) {
    forall e :: e in log ==> SpendsAny(e.tx, entered + {hash})
  }

  ghost predicate OfferedFrom(cfg: Config, chain: Chain, height: int, hash: Hash, from: Stage, log: seq<Offer>,
                              to: Stage)
  {
    Offered(cfg, chain, height, from, log, to) && Reached(hash, log, to.pool.Keys - from.pool.Keys)
  }

  ghost predicate AllSpend(log: seq<Offer>, hash: Hash) {
    forall e :: e in log ==> SpendsFrom(e.tx, hash)
  }

  lemma NoneSpend(hash: Hash)
    ensures AllSpend([], hash)
  {
  }

  lemma MoreSpend(log: seq<Offer>, more: seq<Offer>, k: Hash, hash: Hash)
    requires AllSpend(log, hash) && k.TxId? && SpendsFrom(k.tx, hash) && forall e :: e in more ==> e.tx == k.tx
    ensures AllSpend(log + more, hash)
  {
  }

  lemma ReachedMore(hash: Hash, log: seq<Offer>, entered: set<Hash>, more: seq<Offer>, next: Hash, later: set<Hash>)
    requires Reached(hash, log, entered) && AllSpend(more, next) && next in entered + {hash} && entered <= later
    ensures Reached(hash, log + more, later)
  {
    forall e | e in log + more ensures SpendsAny(e.tx, later + {hash}) {
      if e in log {
        var o :| o in e.tx.ins && o.hash in entered + {hash};
        assert o.hash in later + {hash};
      } else {
        var o :| o in e.tx.ins && o.hash == next;
        assert o.hash in later + {hash};
      }
    }
  }

  lemma NothingOffered(cfg: Config, chain: Chain, height: int, st: Stage)
    ensures Offered(cfg, chain, height, st, [], st)
    ensures forall to :: Offered(cfg, chain, height, st, [], to) ==> to == st
  {
  }

  lemma OfferedOne(cfg: Config, chain: Chain, height: int, from: Stage, e: Offer, to: Stage)
    requires OfferOk(cfg, from, e) && to == AfterOffer(cfg, chain, height, from, e)
    ensures Offered(cfg, chain, height, from, [e], to)
  {
    assert [e][..0] == [];
  }

  lemma {:induction false} AfterMore(cfg: Config, chain: Chain, height: int, st: Stage, a: seq<Offer>, b: seq<Offer>)
    ensures AfterOffers(cfg, chain, height, st, a + b) ==
            AfterOffers(cfg, chain, height, AfterOffers(cfg, chain, height, st, a), b)
  {
    if b == [] {
      assert a + b == a;
    } else {
      assert (a + b)[..|a + b| - 1] == a + b[..|b| - 1];
      AfterMore(cfg, chain, height, st, a, b[..|b| - 1]);
    }
  }

  lemma OfferedMore(cfg: Config, chain: Chain, height: int, from: Stage, a: seq<Offer>, mid: Stage, b: seq<Offer>,
                    to: Stage)
    requires Offered(cfg, chain, height, from, a, mid) && Offered(cfg, chain, height, mid, b, to)
    ensures Offered(cfg, chain, height, from, a + b, to)
  {
    hide OfferOk, AfterOffers;
    AfterMore(cfg, chain, height, from, a, b);
    forall k | 0 <= k < |a + b|
      ensures OfferOk(cfg, AfterOffers(cfg, chain, height, from, (a + b)[..k]), (a + b)[k])
    {
      if k < |a| {
        assert (a + b)[..k] == a[..k];
      } else {
        assert (a + b)[..k] == a + b[..k - |a|];
        AfterMore(cfg, chain, height, from, a, b[..k - |a|]);
      }
    }
  }

  /** The stage at which the k-th offer is made. */
  ghost function StageOf(cfg: Config, chain: Chain, height: int, from: Stage, log: seq<Offer>, k: nat): Stage
    requires k <= |log|
  {
    AfterOffers(cfg, chain, height, from, log[..k])
  }

  lemma StageOfFront(cfg: Config, chain: Chain, height: int, from: Stage, log: seq<Offer>, k: nat)
    requires k < |log|
    ensures var front := log[..|log| - 1];
      StageOf(cfg, chain, height, from, front, k) == StageOf(cfg, chain, height, from, log, k)
  {
    assert log[..|log| - 1][..k] == log[..k];
  }

  /** A run of offers under way, with the hashes whose spenders are still to be offered. */
  ghost predicate Tracing(cfg: Config, chain: Chain, height: int, hash: Hash, from: Stage, log: seq<Offer>, to: Stage,
                          todo: set<Hash>)
  {
    && OfferedFrom(cfg, chain, height, hash, from, log, to)
    && from.pool.Keys <= to.pool.Keys
    && todo <= to.pool.Keys - from.pool.Keys + {hash}
  }

  lemma TraceStart(cfg: Config, chain: Chain, height: int, hash: Hash, st: Stage)
    ensures Tracing(cfg, chain, height, hash, st, [], st, {hash})
  {
  }

  lemma TraceMore(cfg: Config, chain: Chain, height: int, hash: Hash, from: Stage, log: seq<Offer>, mid: Stage,
                  todo: set<Hash>, next: Hash, more: seq<Offer>, to: Stage, entered: set<Hash>)
    requires Tracing(cfg, chain, height, hash, from, log, mid, todo + {next})
    requires Offered(cfg, chain, height, mid, more, to) && AllSpend(more, next)
    requires mid.pool.Keys <= to.pool.Keys && entered <= to.pool.Keys - mid.pool.Keys
    ensures Tracing(cfg, chain, height, hash, from, log + more, to, todo + entered)
  {
    hide Offered, Reached, AllSpend;
    OfferedMore(cfg, chain, height, from, log, mid, more, to);
    assert next in todo + {next};
    ReachedMore(hash, log, mid.pool.Keys - from.pool.Keys, more, next, to.pool.Keys - from.pool.Keys);
  }

  lemma TraceEnd(cfg: Config, chain: Chain, height: int, hash: Hash, from: Stage, log: seq<Offer>, to: Stage,
                 todo: set<Hash>)
    requires Tracing(cfg, chain, height, hash, from, log, to, todo)
    ensures OfferedFrom(cfg, chain, height, hash, from, log, to)
  {
  }

  lemma OfferedFront(cfg: Config, chain: Chain, height: int, from: Stage, log: seq<Offer>, to: Stage)
    requires Offered(cfg, chain, height, from, log, to) && log != []
    ensures var front, last := log[..|log| - 1], log[|log| - 1];
      var mid := StageOf(cfg, chain, height, from, log, |log| - 1);
      && Offered(cfg, chain, height, from, front, mid)
      && OfferOk(cfg, mid, last) && to == AfterOffer(cfg, chain, height, mid, last)
  {
    hide OfferOk, AfterOffer;
    var front := log[..|log| - 1];
    assert forall k :: 0 <= k < |front| ==> front[..k] == log[..k] && front[k] == log[k];
    assert OfferOk(cfg, AfterOffers(cfg, chain, height, from, log[..|log| - 1]), log[|log| - 1]);
  }

  /** The orphan was offered and accepted, or offered and refused although it lacked no parent, or it
      had to go for another that was put back. */
  ghost predicate LeftAt(cfg: Config, chain: Chain, height: int, st: Stage, e: Offer, tx: Tx) {
    || (e.tx == tx && !Homeless(cfg, chain, height, st, tx))
    || (e.tx != tx && e.victim == Some(Sha(tx)) && Homeless(cfg, chain, height, st, e.tx) &&
        |st.orphans| > cfg.maxOrphanTxs > 0)
  }

  lemma OfferLeaves(cfg: Config, chain: Chain, height: int, st: Stage, e: Offer, h: Hash)
    requires OfferOk(cfg, st, e) && h in st.orphans && h.TxId? && h !in AfterOffer(cfg, chain, height, st, e).orphans
    ensures LeftAt(cfg, chain, height, st, e, h.tx)
  {
    JudgedMeans(cfg, chain, height, TakenOut(st, e.tx), e.tx, true, true, e.now);
    hide Judged, Homeless;
    assert |TakenOut(st, e.tx).orphans| == |st.orphans| - 1;
  }

  /** Every orphan that left was accepted, was refused at its offer, or was evicted at the limit. */
  lemma {:induction false} OrphanLeft(cfg: Config, chain: Chain, height: int, from: Stage, log: seq<Offer>, to: Stage,
                                      h: Hash) returns (k: nat)
    requires Offered(cfg, chain, height, from, log, to) && h in from.orphans && h.TxId? && h !in to.orphans
    ensures k < |log| && LeftAt(cfg, chain, height, StageOf(cfg, chain, height, from, log, k), log[k], h.tx)
  {
    hide *;
    NothingOffered(cfg, chain, height, from);
    OfferedFront(cfg, chain, height, from, log, to);
    var front := log[..|log| - 1];
    var mid := StageOf(cfg, chain, height, from, log, |log| - 1);
    if h in mid.orphans {
      k := |log| - 1;
      OfferLeaves(cfg, chain, height, mid, log[k], h);
    } else {
      k := OrphanLeft(cfg, chain, height, from, front, mid, h);
      StageOfFront(cfg, chain, height, from, log, k);
    }
  }

  lemma OfferEnters(cfg: Config, chain: Chain, height: int, st: Stage, e: Offer, h: Hash)
    requires OfferOk(cfg, st, e)
    ensures var next := AfterOffer(cfg, chain, height, st, e);
      && (h in st.pool ==> h in next.pool && next.pool[h] == st.pool[h])
      && (h in next.pool && h !in st.pool ==> h == Sha(e.tx) && Welcome(cfg, chain, height, st, e))
      && (Welcome(cfg, chain, height, st, e) ==> Sha(e.tx) in next.pool)
  {
    JudgedMeans(cfg, chain, height, TakenOut(st, e.tx), e.tx, true, true, e.now);
    hide OfferOk, Sane, Lacks, InputsPass, PolicyOk, Asks, AttemptsAfter, Described, OnChain;
  }

  /** Every transaction that came in was offered and met every condition of acceptance on the pool of
      that moment, and what was pooled before stays as it was. */
  lemma {:induction false} OrphanEntered(cfg: Config, chain: Chain, height: int, from: Stage, log: seq<Offer>,
                                         to: Stage, h: Hash) returns (k: nat)
    requires Offered(cfg, chain, height, from, log, to)
    ensures h in from.pool ==> h in to.pool && to.pool[h] == from.pool[h]
    ensures h in to.pool && h !in from.pool ==>
      k < |log| && h == Sha(log[k].tx) &&
      Welcome(cfg, chain, height, StageOf(cfg, chain, height, from, log, k), log[k])
  {
    hide *;
    k := 0;
    if log == [] {
      NothingOffered(cfg, chain, height, from);
    } else {
      OfferedFront(cfg, chain, height, from, log, to);
      var front := log[..|log| - 1];
      var mid := StageOf(cfg, chain, height, from, log, |log| - 1);
      OfferEnters(cfg, chain, height, mid, log[|log| - 1], h);
      k := OrphanEntered(cfg, chain, height, from, front, mid, h);
      if h in mid.pool {
        if k < |front| {
          StageOfFront(cfg, chain, height, from, log, k);
        }
      } else {
        k := |log| - 1;
      }
    }
  }

  // ---------- Connected blocks ----------

  /** One block transaction leaves the pool, with what conflicts with it, and the orphans. */
  ghost function AfterMined(st: Stage, t: Tx): Stage {
    st.(pool := Evicted(st.pool, t), orphans := st.orphans - {Sha(t)})
  }

  lemma AfterMinedIs(st: Stage, t: Tx, pool: Pool, orphans: map<Hash, Tx>, attempts: seq<Attempt>)
    requires pool == Evicted(st.pool, t) && orphans == st.orphans - {Sha(t)} && attempts == st.attempts
    ensures Stage(pool, orphans, attempts) == AfterMined(st, t)
  {
  }

  /** What a block makes of the pool: each transaction in turn is taken out, and then those who
      waited for it are offered, as the logs say. */
  ghost function AfterBlock(cfg: Config, chain: Chain, height: int, st: Stage, txs: seq<Tx>, logs: seq<seq<Offer>>)
      : Stage
    requires |txs| == |logs|
  {
    if txs == [] then st
    else
      var n := |txs| - 1;
      var mid := AfterBlock(cfg, chain, height, st, txs[..n], logs[..n]);
      AfterOffers(cfg, chain, height, AfterMined(mid, txs[n]), logs[n])
  }

  /** The offers made after the k-th transaction was taken out are as their log says. */
  ghost predicate OfferedAt(cfg: Config, chain: Chain, height: int, from: Stage, txs: seq<Tx>, logs: seq<seq<Offer>>,
                            k: nat)
    requires k < |txs| == |logs|
  {
    var mid := AfterBlock(cfg, chain, height, from, txs[..k], logs[..k]);
    var next := AfterBlock(cfg, chain, height, from, txs[..k + 1], logs[..k + 1]);
    OfferedFrom(cfg, chain, height, Sha(txs[k]), AfterMined(mid, txs[k]), logs[k], next)
  }

  ghost predicate Connected(cfg: Config, chain: Chain, height: int, from: Stage, txs: seq<Tx>, logs: seq<seq<Offer>>,
                            to: Stage)
  {
    && |txs| == |logs| && to == AfterBlock(cfg, chain, height, from, txs, logs)
    && forall k :: 0 <= k < |txs| ==> OfferedAt(cfg, chain, height, from, txs, logs, k)
  }

  lemma ConnectedNone(cfg: Config, chain: Chain, height: int, st: Stage)
    ensures Connected(cfg, chain, height, st, [], [], st)
  {
  }

  lemma ConnectedMore(cfg: Config, chain: Chain, height: int, from: Stage, txs: seq<Tx>, logs: seq<seq<Offer>>,
                      mid: Stage, t: Tx, log: seq<Offer>, to: Stage)
    requires Connected(cfg, chain, height, from, txs, logs, mid)
    requires OfferedFrom(cfg, chain, height, Sha(t), AfterMined(mid, t), log, to)
    ensures Connected(cfg, chain, height, from, txs + [t], logs + [log], to)
  {
    hide Offered, AfterMined, AfterOffers;
    var n, more, mores := |txs|, txs + [t], logs + [log];
    assert more[..n] == txs && mores[..n] == logs && more[..n + 1] == more && mores[..n + 1] == mores;
    OfferedEnds(cfg, chain, height, AfterMined(mid, t), log, to);
    assert to == AfterBlock(cfg, chain, height, from, more, mores);
    hide Offered, AfterBlock, AfterMined, AfterOffers;
    forall k | 0 <= k < |more| ensures OfferedAt(cfg, chain, height, from, more, mores, k) {
      if k < n {
        assert OfferedAt(cfg, chain, height, from, txs, logs, k);
        assert more[..k] == txs[..k] && mores[..k] == logs[..k];
        assert more[..k + 1] == txs[..k + 1] && mores[..k + 1] == logs[..k + 1];
      }
    }
  }

  lemma OfferedEnds(cfg: Config, chain: Chain, height: int, from: Stage, log: seq<Offer>, to: Stage)
    requires Offered(cfg, chain, height, from, log, to)
    ensures to == AfterOffers(cfg, chain, height, from, log)
  {
  }

  /** The stage once the k-th block transaction was taken out. */
  ghost function MinedStage(cfg: Config, chain: Chain, height: int, from: Stage, txs: seq<Tx>, logs: seq<seq<Offer>>,
                            k: nat): Stage
    requires k < |txs| == |logs|
  {
    AfterMined(AfterBlock(cfg, chain, height, from, txs[..k], logs[..k]), txs[k])
  }

  lemma ConnectedFront(cfg: Config, chain: Chain, height: int, from: Stage, txs: seq<Tx>, logs: seq<seq<Offer>>,
                       to: Stage)
    requires Connected(cfg, chain, height, from, txs, logs, to) && txs != []
    ensures var n := |txs| - 1;
      var mid := AfterBlock(cfg, chain, height, from, txs[..n], logs[..n]);
      && Connected(cfg, chain, height, from, txs[..n], logs[..n], mid)
      && Offered(cfg, chain, height, MinedStage(cfg, chain, height, from, txs, logs, n), logs[n], to)
      && MinedStage(cfg, chain, height, from, txs, logs, n) == AfterMined(mid, txs[n])
  {
    hide Offered, AfterMined, AfterOffers, AfterBlock;
    var n := |txs| - 1;
    var front, logs' := txs[..n], logs[..n];
    forall k | 0 <= k < n ensures OfferedAt(cfg, chain, height, from, front, logs', k) {
      assert OfferedAt(cfg, chain, height, from, txs, logs, k);
      assert front[..k] == txs[..k] && logs'[..k] == logs[..k];
      assert front[..k + 1] == txs[..k + 1] && logs'[..k + 1] == logs[..k + 1];
    }
    assert OfferedAt(cfg, chain, height, from, txs, logs, n);
    assert txs[..n + 1] == txs && logs[..n + 1] == logs;
  }

  lemma MinedStageFront(cfg: Config, chain: Chain, height: int, from: Stage, txs: seq<Tx>, logs: seq<seq<Offer>>,
                        k: nat)
    requires k + 1 < |txs| == |logs|
    ensures var n := |txs| - 1;
      MinedStage(cfg, chain, height, from, txs[..n], logs[..n], k) == MinedStage(cfg, chain, height, from, txs, logs, k)
  {
    hide AfterBlock, AfterMined;
    var n := |txs| - 1;
    assert txs[..n][..k] == txs[..k] && logs[..n][..k] == logs[..k];
  }

  lemma MinedOrphan(st: Stage, t: Tx, h: Hash)
    ensures h in AfterMined(st, t).orphans <==> h in st.orphans && h != Sha(t)
    ensures h in AfterMined(st, t).pool ==> h in st.pool
  {
  }

  /** While a block is connected an orphan leaves only by being in the block, by being accepted or
      refused when offered, or by eviction. */
  lemma {:induction false} BlockOrphanLeft(cfg: Config, chain: Chain, height: int, from: Stage, txs: seq<Tx>,
                                           logs: seq<seq<Offer>>, to: Stage, h: Hash) returns (i: nat, k: nat)
    requires Connected(cfg, chain, height, from, txs, logs, to)
    requires h in from.orphans && h.TxId? && h !in to.orphans
    ensures i < |txs| == |logs|
    ensures h == Sha(txs[i]) ||
            (k < |logs[i]| &&
             LeftAt(cfg, chain, height,
                    StageOf(cfg, chain, height, MinedStage(cfg, chain, height, from, txs, logs, i), logs[i], k),
                    logs[i][k], h.tx))
  {
    hide LeftAt, StageOf, MinedStage, AfterMined, AfterOffers, Offered, OfferedAt;
    k := 0;
    i := |txs| - 1;
    ConnectedFront(cfg, chain, height, from, txs, logs, to);
    var mid := AfterBlock(cfg, chain, height, from, txs[..i], logs[..i]);
    var out := MinedStage(cfg, chain, height, from, txs, logs, i);
    hide Connected, AfterBlock;
    MinedOrphan(mid, txs[i], h);
    if h in out.orphans {
      k := OrphanLeft(cfg, chain, height, out, logs[i], to, h);
    } else if h in mid.orphans {
      assert h == Sha(txs[i]);
    } else {
      var n := i;
      i, k := BlockOrphanLeft(cfg, chain, height, from, txs[..n], logs[..n], mid, h);
      MinedStageFront(cfg, chain, height, from, txs, logs, i);
    }
  }

  /** Whatever a block brings into the pool met every condition of acceptance when it was offered. */
  lemma {:induction false} BlockOrphanEntered(cfg: Config, chain: Chain, height: int, from: Stage, txs: seq<Tx>,
                                              logs: seq<seq<Offer>>, to: Stage, h: Hash) returns (i: nat, k: nat)
    requires Connected(cfg, chain, height, from, txs, logs, to) && h in to.pool && h !in from.pool
    ensures i < |txs| == |logs| && k < |logs[i]| && h == Sha(logs[i][k].tx)
    ensures Welcome(cfg, chain, height,
              StageOf(cfg, chain, height, MinedStage(cfg, chain, height, from, txs, logs, i), logs[i], k), logs[i][k])
  {
    hide Welcome, StageOf, MinedStage, AfterMined, AfterOffers, Offered, OfferedAt;
    k := 0;
    i := |txs| - 1;
    ConnectedFront(cfg, chain, height, from, txs, logs, to);
    var mid := AfterBlock(cfg, chain, height, from, txs[..i], logs[..i]);
    var out := MinedStage(cfg, chain, height, from, txs, logs, i);
    hide Connected, AfterBlock;
    MinedOrphan(mid, txs[i], h);
    k := OrphanEntered(cfg, chain, height, out, logs[i], to, h);
    if h in out.pool {
      var n := i;
      i, k := BlockOrphanEntered(cfg, chain, height, from, txs[..n], logs[..n], mid, h);
      MinedStageFront(cfg, chain, height, from, txs, logs, i);
    }
  }
}
