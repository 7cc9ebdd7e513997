/** What the memory pool's maps mean, stated on values: the outpoint index, the orphan
    index, the address index, the spend graph, and how a pool relates to the chain. */
module PoolIndex {
  import opened Ledger
  import opened Validation

  datatype TxDesc = TxDesc(tx: Tx, height: int, fee: int, startingPriority: real)
  type Pool = map<Hash, TxDesc>

  // ---------- Main pool ----------

  ghost predicate PoolTxOk(d: TxDesc) {
    && Sane(d.tx) && !IsCoinBase(d.tx)
    && (forall o :: o in d.tx.ins ==> InRange(o))
    && d.fee == Fee(d.tx) && AmountOk(d.fee)
  }

  ghost predicate PoolOk(pool: Pool) {
    && Keyed(pool)
    && forall h :: h in pool ==> PoolTxOk(pool[h])
  }

  ghost predicate Keyed(pool: Pool) {
    forall h :: h in pool ==> h == Sha(pool[h].tx)
  }

  /** `outpoints` maps an outpoint to t if and only if t is pooled and spends it. */
  ghost predicate OutpointIndex(pool: Pool, outpoints: map<OutPoint, Tx>) {
    && (forall o :: o in outpoints ==> Sha(outpoints[o]) in pool && o in outpoints[o].ins)
    && (forall h, o :: h in pool && o in pool[h].tx.ins ==> o in outpoints && outpoints[o] == pool[h].tx)
  }

  lemma PoolOkWithout(pool: Pool, hs: set<Hash>)
    requires PoolOk(pool)
    ensures PoolOk(pool - hs)
  {
  }

  /** A parent the pool could not resolve. */
  ghost predicate IsMissing(chain: Chain, pool: set<Hash>, h: Hash) {
    !OnChain(chain, h) && h !in pool
  }

  /** Every output the inputs refer to exists and can be looked up. */
  ghost predicate Resolved(chain: Chain, pool: set<Hash>, tx: Tx) {
    forall o :: o in tx.ins ==> InRange(o) && !IsMissing(chain, pool, o.hash)
  }

  lemma PoolOkWith(chain: Chain, pool: Pool, d: TxDesc)
    requires PoolOk(pool) && PoolTxOk(d) && Resolved(chain, pool.Keys, d.tx)
    ensures PoolOk(pool[Sha(d.tx) := d]) && Resolved(chain, pool[Sha(d.tx) := d].Keys, d.tx)
  {
  }

  lemma NoDoubleSpendInPool(pool: Pool, outpoints: map<OutPoint, Tx>, a: Hash, b: Hash, o: OutPoint)
    requires Keyed(pool) && OutpointIndex(pool, outpoints)
    requires a in pool && b in pool && o in pool[a].tx.ins && o in pool[b].tx.ins
    ensures a == b
  {
    assert outpoints[o] == pool[a].tx;
  }

  function InSet(ins: seq<OutPoint>): set<OutPoint> {
    set o | o in ins
  }

  lemma OutpointsWithout(pool: Pool, outpoints: map<OutPoint, Tx>, h: Hash)
    requires Keyed(pool) && OutpointIndex(pool, outpoints) && h in pool
    ensures OutpointIndex(pool - {h}, outpoints - InSet(pool[h].tx.ins))
  {
    var rest := outpoints - InSet(pool[h].tx.ins);
    forall o | o in rest ensures Sha(rest[o]) in pool - {h} {
      assert outpoints[o] == pool[Sha(outpoints[o])].tx;
    }
    forall k, o | k in pool - {h} && o in pool[k].tx.ins ensures o in rest && rest[o] == pool[k].tx {
      assert outpoints[o] == pool[k].tx;
    }
  }

  /** No pooled transaction spends an input of `tx`. */
  ghost predicate Unclaimed(outpoints: map<OutPoint, Tx>, tx: Tx) {
    forall o :: o in tx.ins ==> o !in outpoints
  }

  lemma UnclaimedMeans(pool: Pool, outpoints: map<OutPoint, Tx>, tx: Tx)
    requires Keyed(pool) && OutpointIndex(pool, outpoints)
    ensures Unclaimed(outpoints, tx) <==> forall h, o :: h in pool && o in pool[h].tx.ins ==> o !in tx.ins
  {
    if o :| o in tx.ins && o in outpoints {
      assert o in pool[Sha(outpoints[o])].tx.ins;
    }
  }

  lemma OutpointsWith(pool: Pool, before: map<OutPoint, Tx>, after: map<OutPoint, Tx>, d: TxDesc)
    requires Keyed(pool) && OutpointIndex(pool, before) && Sha(d.tx) !in pool
    requires Unclaimed(before, d.tx)
    requires after.Keys == before.Keys + InSet(d.tx.ins)
    requires forall o :: o in after ==> after[o] == if o in d.tx.ins then d.tx else before[o]
    ensures OutpointIndex(pool[Sha(d.tx) := d], after)
  {
    var next := pool[Sha(d.tx) := d];
    forall o | o in after ensures Sha(after[o]) in next && o in after[o].ins {
    }
    forall k, o | k in next && o in next[k].tx.ins ensures o in after && after[o] == next[k].tx {
    }
  }

  /** The pool determines its outpoint index. */
  lemma OutpointIndexUnique(pool: Pool, x: map<OutPoint, Tx>, y: map<OutPoint, Tx>)
    requires Keyed(pool) && OutpointIndex(pool, x) && OutpointIndex(pool, y)
    ensures x == y
  {
    forall o | o in x ensures o in y && y[o] == x[o] {
      assert pool[Sha(x[o])].tx == x[o];
    }
    forall o | o in y ensures o in x {
      assert pool[Sha(y[o])].tx == y[o];
    }
  }

  // ---------- Spend graph ----------

  /** How many transactions deep the history behind a hash is. */
  ghost function Depth(h: Hash): nat
    decreases h
  {
    if h.TxId? then 1 + MaxDepth(h, |h.tx.ins|) else 0
  }

  ghost function MaxDepth(h: Hash, n: nat): nat
    requires h.TxId? && n <= |h.tx.ins|
    decreases h, 0, n
  {
    if n == 0 then 0
    else
      var a, b := Depth(h.tx.ins[n - 1].hash), MaxDepth(h, n - 1);
      if a < b then b else a
  }

  lemma {:induction false} ParentIsShallower(h: Hash, i: nat, n: nat)
    requires h.TxId? && i < n <= |h.tx.ins|
    ensures Depth(h.tx.ins[i].hash) <= MaxDepth(h, n)
  {
    if i < n - 1 {
      ParentIsShallower(h, i, n - 1);
    }
  }

  /** `h` reaches `root` through one or more spends, every transaction in between pooled. */
  ghost predicate Descends(pool: set<Hash>, h: Hash, root: Hash)
    decreases h
  {
    h.TxId? && exists i :: 0 <= i < |h.tx.ins| && StepsTo(pool, h, i, root)
  }

  ghost predicate StepsTo(pool: set<Hash>, h: Hash, i: nat, root: Hash)
    requires h.TxId? && i < |h.tx.ins|
    decreases h, 0
  {
    var parent := h.tx.ins[i].hash;
    parent == root || (parent in pool && Descends(pool, parent, root))
  }

  /** The first step back towards the root. */
  lemma DescendsStep(pool: set<Hash>, h: Hash, root: Hash) returns (o: OutPoint)
    requires Descends(pool, h, root)
    ensures h.TxId? && o in h.tx.ins && (o.hash == root || (o.hash in pool && Descends(pool, o.hash, root)))
    ensures h decreases to o.hash
  {
    var i :| 0 <= i < |h.tx.ins| && StepsTo(pool, h, i, root);
    o := h.tx.ins[i];
  }

  lemma {:induction false} DescendsIsDeeper(pool: set<Hash>, h: Hash, root: Hash)
    requires Descends(pool, h, root)
    ensures Depth(root) < Depth(h)
  {
    var i :| 0 <= i < |h.tx.ins| && StepsTo(pool, h, i, root);
    ParentIsShallower(h, i, |h.tx.ins|);
    if h.tx.ins[i].hash != root {
      DescendsIsDeeper(pool, h.tx.ins[i].hash, root);
    }
  }

  lemma {:induction false} DescendsGrows(small: set<Hash>, pool: set<Hash>, h: Hash, root: Hash)
    requires small <= pool && Descends(small, h, root)
    ensures Descends(pool, h, root)
  {
    var i :| 0 <= i < |h.tx.ins| && StepsTo(small, h, i, root);
    if h.tx.ins[i].hash != root {
      DescendsGrows(small, pool, h.tx.ins[i].hash, root);
    }
    assert StepsTo(pool, h, i, root);
  }

  lemma {:induction false} DescendsTrans(pool: set<Hash>, h: Hash, mid: Hash, root: Hash)
    requires Descends(pool, h, mid) && mid in pool && Descends(pool, mid, root)
    ensures Descends(pool, h, root)
  {
    var i :| 0 <= i < |h.tx.ins| && StepsTo(pool, h, i, mid);
    if h.tx.ins[i].hash != mid {
      DescendsTrans(pool, h.tx.ins[i].hash, mid, root);
    }
    assert StepsTo(pool, h, i, root);
  }

  lemma SpenderDescends(pool: set<Hash>, tx: Tx, parent: Hash, root: Hash)
    requires SpendsFrom(tx, parent)
    requires parent == root || (parent in pool && Descends(pool, parent, root))
    ensures Descends(pool, Sha(tx), root)
  {
    var o :| o in tx.ins && o.hash == parent;
    var i :| 0 <= i < |tx.ins| && tx.ins[i] == o;
    assert StepsTo(pool, Sha(tx), i, root);
  }

  ghost function Descendants(pool: set<Hash>, root: Hash): set<Hash> {
    set h | h in pool && Descends(pool, h, root)
  }

  /** What removing `root` together with its redeemers takes out of the pool. */
  ghost function Doomed(pool: set<Hash>, root: Hash): set<Hash> {
    set h | h in pool && (h == root || Descends(pool, h, root))
  }

  /** No transaction spends its own outputs. */
  lemma NotOwnParent(tx: Tx)
    ensures forall o :: o in tx.ins ==> o.hash != Sha(tx)
  {
    forall o | o in tx.ins ensures o.hash != Sha(tx) {
      var i :| 0 <= i < |tx.ins| && tx.ins[i] == o;
      ParentIsShallower(Sha(tx), i, |tx.ins|);
    }
  }

  lemma DescendantsClosed(pool: Pool, root: Hash)
    requires Keyed(pool)
    ensures forall h, o :: h in pool && o in pool[h].tx.ins && o.hash in Descendants(pool.Keys, root) ==>
              h in Descendants(pool.Keys, root)
  {
    forall h, o | h in pool && o in pool[h].tx.ins && o.hash in Descendants(pool.Keys, root)
      ensures h in Descendants(pool.Keys, root)
    {
      SpenderDescends(pool.Keys, pool[h].tx, o.hash, root);
    }
  }

  lemma PoolTxInputs(pool: Pool, tx: Tx)
    requires PoolOk(pool) && Sha(tx) in pool
    ensures pool[Sha(tx)].tx == tx && forall o :: o in tx.ins ==> InRange(o)
  {
    assert Sha(tx) == Sha(pool[Sha(tx)].tx) && PoolTxOk(pool[Sha(tx)]);
  }

  lemma DoomedSplit(pool: Pool, root: Hash)
    ensures pool - Doomed(pool.Keys, root) == pool - Descendants(pool.Keys, root) - {root}
  {
    assert Doomed(pool.Keys, root) == Descendants(pool.Keys, root) + if root in pool then {root} else {};
  }

  lemma DescendantsShrink(small: set<Hash>, pool: set<Hash>, child: Tx, root: Hash)
    requires small <= pool && Sha(child) in small && SpendsFrom(child, root)
    ensures Descendants(small, Sha(child)) < Descendants(pool, root)
    ensures Doomed(small, Sha(child)) <= Descendants(pool, root)
  {
    SpenderDescends(pool, child, root, root);
    forall h | h in small && Descends(small, h, Sha(child)) ensures Descends(pool, h, root) {
      DescendsGrows(small, pool, h, Sha(child));
      DescendsTrans(pool, h, Sha(child), root);
    }
    if Descends(small, Sha(child), Sha(child)) {
      DescendsIsDeeper(small, Sha(child), Sha(child));
      assert false;
    }
    assert Sha(child) in Descendants(pool, root) && Sha(child) !in Descendants(small, Sha(child));
  }

  /** A spender of something doomed is doomed. */
  lemma DoomedClosed(pool: Pool, root: Hash, h: Hash, o: OutPoint)
    requires Keyed(pool) && h in pool && o in pool[h].tx.ins && o.hash in Doomed(pool.Keys, root)
    ensures h in Doomed(pool.Keys, root)
  {
    SpenderDescends(pool.Keys, pool[h].tx, o.hash, root);
  }

  /** Nothing left in `kept` spends from the root or from what was taken out. */
  ghost predicate Severed(pool: set<Hash>, kept: set<Hash>, root: Hash) {
    && kept <= pool
    && forall h, o :: h in kept && h.TxId? && o in h.tx.ins ==> o.hash != root && o.hash !in pool - kept
  }

  lemma {:induction false} SeveredNotDescending(pool: set<Hash>, kept: set<Hash>, root: Hash, h: Hash)
    requires Severed(pool, kept, root) && h in kept
    ensures !Descends(pool, h, root)
    decreases h
  {
    if h.TxId? {
      forall i | 0 <= i < |h.tx.ins| ensures !StepsTo(pool, h, i, root) {
        assert h.tx.ins[i] in h.tx.ins;
        if h.tx.ins[i].hash in pool {
          SeveredNotDescending(pool, kept, root, h.tx.ins[i].hash);
        }
      }
    }
  }

  /** A removal under way: only descendants of the root are gone, and no spender of
      anything gone is left. */
  ghost predicate Pruned(before: Pool, pool: Pool, gone: set<Hash>, root: Hash) {
    && gone <= Descendants(before.Keys, root)
    && pool == before - gone
    && forall h, o :: h in pool && o in pool[h].tx.ins ==> o.hash !in gone
  }

  lemma PruneStart(pool: Pool, outpoints: map<OutPoint, Tx>, root: Hash)
    ensures Pruned(pool, pool, {}, root) && NoneSpent(outpoints, root, 0)
  {
    assert pool - {} == pool;
  }

  lemma PrunedIs(before: Pool, pool: Pool, gone: set<Hash>, root: Hash)
    requires Pruned(before, pool, gone, root)
    ensures pool == before - gone
    ensures forall h, o :: h in pool && o in before[h].tx.ins ==> o.hash !in gone
  {
  }

  lemma PruneChild(before: Pool, pool: Pool, gone: set<Hash>, root: Hash, child: Tx)
    requires Keyed(before) && Pruned(before, pool, gone, root)
    requires Sha(child) in pool && SpendsFrom(child, root)
    ensures var doomed := Doomed(pool.Keys, Sha(child));
            Pruned(before, pool - doomed, gone + doomed, root)
  {
    DescendantsShrink(pool.Keys, before.Keys, child, root);
    var doomed := Doomed(pool.Keys, Sha(child));
    forall h, o | h in pool - doomed && o in pool[h].tx.ins ensures o.hash !in gone + doomed {
      if o.hash in doomed {
        DoomedClosed(pool, Sha(child), h, o);
      }
    }
  }

  lemma PruneComplete(before: Pool, pool: Pool, gone: set<Hash>, root: Hash)
    requires Keyed(before) && Pruned(before, pool, gone, root)
    requires forall h, o :: h in pool && o in pool[h].tx.ins ==> o.hash != root
    ensures gone == Descendants(before.Keys, root)
  {
    assert Severed(before.Keys, pool.Keys, root) by {
      assert forall h :: h in pool ==> h == Sha(pool[h].tx);
    }
    forall h | h in pool ensures !Descends(before.Keys, h, root) {
      SeveredNotDescending(before.Keys, pool.Keys, root, h);
    }
  }

  lemma RedeemerSpends(pool: Pool, outpoints: map<OutPoint, Tx>, o: OutPoint)
    requires OutpointIndex(pool, outpoints) && o in outpoints
    ensures Sha(outpoints[o]) in pool && SpendsFrom(outpoints[o], o.hash)
  {
  }

  /** Nobody in the pool spends any of the first `n` outputs. */
  ghost predicate NoneSpent(outpoints: map<OutPoint, Tx>, h: Hash, n: nat) {
    forall k: nat :: k < n ==> OutPoint(h, k) !in outpoints
  }

  lemma NoneSpentStep(before: map<OutPoint, Tx>, after: map<OutPoint, Tx>, h: Hash, n: nat)
    requires NoneSpent(before, h, n) && after.Keys <= before.Keys && OutPoint(h, n) !in after
    ensures NoneSpent(after, h, n + 1)
  {
  }

  /** After a removal an outpoint is spent by the same transaction as before or not at all. */
  lemma SurvivingRedeemer(pool: Pool, before: map<OutPoint, Tx>, gone: set<Hash>, after: map<OutPoint, Tx>, o: OutPoint)
    requires Keyed(pool) && OutpointIndex(pool, before) && OutpointIndex(pool - gone, after)
    ensures o in after <==> o in before && Sha(before[o]) !in gone
    ensures o in after ==> after[o] == before[o]
  {
    if o in after {
      assert pool[Sha(after[o])].tx == after[o];
    }
    if o in before && Sha(before[o]) !in gone {
      assert (pool - gone)[Sha(before[o])].tx == before[o];
    }
  }

  lemma NoRedeemerLeft(pool: Pool, outpoints: map<OutPoint, Tx>, tx: Tx)
    requires PoolOk(pool) && OutpointIndex(pool, outpoints)
    requires NoneSpent(outpoints, Sha(tx), |tx.outs|)
    ensures forall h, o :: h in pool && o in pool[h].tx.ins ==> o.hash != Sha(tx)
  {
    forall h, o | h in pool && o in pool[h].tx.ins ensures o.hash != Sha(tx) {
      assert PoolTxOk(pool[h]);
      assert o == OutPoint(o.hash, o.index);
    }
  }

  // ---------- Double spends ----------

  /** Pooled transactions other than `tx` that spend one of its first `n` inputs. */
  ghost function Rivals(pool: Pool, tx: Tx, n: nat): set<Hash>
    requires n <= |tx.ins|
  {
    set h | h in pool && h != Sha(tx) && exists i :: 0 <= i < n && tx.ins[i] in pool[h].tx.ins
  }

  ghost function DoomedAll(pool: set<Hash>, roots: set<Hash>): set<Hash> {
    set h | h in pool && exists r :: r in roots && h in Doomed(pool, r)
  }

  /** Nothing left spends from anything gone. */
  ghost predicate CleanCut(before: Pool, gone: set<Hash>) {
    forall h, o :: h in before && h !in gone && o in before[h].tx.ins ==> o.hash !in gone
  }

  lemma {:induction false} DescendsAroundCut(before: Pool, gone: set<Hash>, h: Hash, root: Hash)
    requires Keyed(before) && CleanCut(before, gone)
    requires h in before && h !in gone && Descends(before.Keys, h, root)
    ensures Descends((before - gone).Keys, h, root) && root !in gone
    decreases h
  {
    var i :| 0 <= i < |h.tx.ins| && StepsTo(before.Keys, h, i, root);
    var o := h.tx.ins[i];
    assert o in before[h].tx.ins && o.hash !in gone;
    if o.hash != root {
      DescendsAroundCut(before, gone, o.hash, root);
    }
    assert StepsTo((before - gone).Keys, h, i, root);
  }

  /** Cutting one more root out of an already cut pool is cutting it out of the whole pool. */
  lemma CutOneMore(before: Pool, gone: set<Hash>, root: Hash)
    requires Keyed(before) && CleanCut(before, gone) && root in before
    ensures var doomed := if root in gone then {} else Doomed((before - gone).Keys, root);
            gone + doomed == gone + Doomed(before.Keys, root) && CleanCut(before, gone + doomed)
  {
    var kept := before - gone;
    forall h | h in Doomed(before.Keys, root) && h !in gone ensures root !in gone && h in Doomed(kept.Keys, root) {
      if h != root {
        DescendsAroundCut(before, gone, h, root);
      }
    }
    forall h | h in kept && Descends(kept.Keys, h, root) ensures Descends(before.Keys, h, root) {
      DescendsGrows(kept.Keys, before.Keys, h, root);
    }
    forall h, o | root !in gone && h in kept && o in before[h].tx.ins && o.hash in Doomed(kept.Keys, root)
      ensures h in Doomed(kept.Keys, root)
    {
      DoomedClosed(kept, root, h, o);
    }
  }

  lemma DoomedAllStep(pool: set<Hash>, roots: set<Hash>, r: Hash)
    ensures DoomedAll(pool, roots + {r}) == DoomedAll(pool, roots) + Doomed(pool, r)
  {
  }

  lemma RivalsStep(pool: Pool, outpoints: map<OutPoint, Tx>, tx: Tx, n: nat)
    requires Keyed(pool) && OutpointIndex(pool, outpoints) && n < |tx.ins|
    ensures Rivals(pool, tx, n + 1) ==
            Rivals(pool, tx, n) +
            if tx.ins[n] in outpoints && outpoints[tx.ins[n]] != tx then {Sha(outpoints[tx.ins[n]])} else {}
  {
    var o := tx.ins[n];
    forall h | h in pool && o in pool[h].tx.ins ensures o in outpoints && h == Sha(outpoints[o]) {
    }
    if o in outpoints {
      assert o in pool[Sha(outpoints[o])].tx.ins;
    }
  }

  /** What removing the rivals over the first `n` inputs takes out. */
  ghost function Ousted(pool: Pool, tx: Tx, n: nat): set<Hash>
    requires n <= |tx.ins|
  {
    DoomedAll(pool.Keys, Rivals(pool, tx, n))
  }

  lemma OustedIsClean(pool: Pool, tx: Tx, n: nat)
    requires Keyed(pool) && n <= |tx.ins|
    ensures CleanCut(pool, Ousted(pool, tx, n))
  {
    forall h, o | h in pool && o in pool[h].tx.ins && o.hash in Ousted(pool, tx, n) ensures h in Ousted(pool, tx, n) {
      var r :| r in Rivals(pool, tx, n) && o.hash in Doomed(pool.Keys, r);
      DoomedClosed(pool, r, h, o);
    }
  }

  /** After the removal only `tx` itself may still spend one of its inputs. */
  lemma OustedLeavesNoRival(pool: Pool, tx: Tx, h: Hash, o: OutPoint)
    requires h in pool && h !in Ousted(pool, tx, |tx.ins|) && o in pool[h].tx.ins && o in tx.ins
    ensures h == Sha(tx)
  {
    var i :| 0 <= i < |tx.ins| && tx.ins[i] == o;
    assert h in Doomed(pool.Keys, h);
    assert h !in Rivals(pool, tx, |tx.ins|);
  }

  lemma OustedStep(before: Pool, spenders: map<OutPoint, Tx>, pool: Pool, now: map<OutPoint, Tx>, tx: Tx, n: nat)
    requires Keyed(before) && OutpointIndex(before, spenders)
    requires n < |tx.ins| && pool == before - Ousted(before, tx, n) && OutpointIndex(pool, now)
    ensures Ousted(before, tx, n + 1) ==
            if tx.ins[n] in now && now[tx.ins[n]] != tx
            then Ousted(before, tx, n) + Doomed(pool.Keys, Sha(now[tx.ins[n]])) else Ousted(before, tx, n)
  {
    var o, gone := tx.ins[n], Ousted(before, tx, n);
    RivalsStep(before, spenders, tx, n);
    SurvivingRedeemer(before, spenders, gone, now, o);
    OustedIsClean(before, tx, n);
    if o in spenders && spenders[o] != tx {
      CutOneMore(before, gone, Sha(spenders[o]));
      DoomedAllStep(before.Keys, Rivals(before, tx, n), Sha(spenders[o]));
    }
  }

  // ---------- Orphans ----------

  /** `byPrev` is exactly the inverse of the orphans' parent references, without empty buckets. */
  ghost predicate OrphanIndex(orphans: map<Hash, Tx>, byPrev: ByPrev) {
    && (forall h :: h in orphans ==> h == Sha(orphans[h]))
    && (forall p :: p in byPrev ==> byPrev[p] != map[])
    && (forall p, h :: p in byPrev && h in byPrev[p] ==>
          h in orphans && byPrev[p][h] == orphans[h] && SpendsFrom(orphans[h], p))
    && (forall h, o :: h in orphans && o in orphans[h].ins ==> o.hash in byPrev && h in byPrev[o.hash])
  }

  function Parents(ins: seq<OutPoint>): set<Hash> {
    set o | o in ins :: o.hash
  }

  type ByPrev = map<Hash, map<Hash, Tx>>

  /** `byPrev` after orphan `h` left the buckets of the given parents. */
  function Unlinked(byPrev: ByPrev, parents: set<Hash>, h: Hash): ByPrev {
    map p | p in byPrev && !(p in parents && byPrev[p] - {h} == map[]) ::
      if p in parents then byPrev[p] - {h} else byPrev[p]
  }

  function Linked(byPrev: ByPrev, parents: set<Hash>, tx: Tx): ByPrev {
    map p | p in byPrev.Keys + parents ::
      var bucket := if p in byPrev then byPrev[p] else map[];
      if p in parents then bucket[Sha(tx) := tx] else bucket
  }

  lemma UnlinkedStep(byPrev: ByPrev, parents: set<Hash>, p: Hash, h: Hash)
    ensures var m := Unlinked(byPrev, parents, h);
            Unlinked(byPrev, parents + {p}, h) ==
              if p !in m then m else if m[p] - {h} == map[] then m - {p} else m[p := m[p] - {h}]
  {
    if p in byPrev {
      assert byPrev[p] - {h} - {h} == byPrev[p] - {h};
    }
  }

  lemma LinkedStep(byPrev: ByPrev, parents: set<Hash>, p: Hash, tx: Tx)
    ensures var m := Linked(byPrev, parents, tx);
            Linked(byPrev, parents + {p}, tx) == m[p := (if p in m then m[p] else map[])[Sha(tx) := tx]]
  {
    var m, r := Linked(byPrev, parents, tx), Linked(byPrev, parents + {p}, tx);
    var e := m[p := (if p in m then m[p] else map[])[Sha(tx) := tx]];
    assert forall q :: q in r ==> r[q] == e[q];
  }

  lemma UnlinkedNone(byPrev: ByPrev, h: Hash, tx: Tx)
    ensures Unlinked(byPrev, {}, h) == byPrev && Linked(byPrev, {}, tx) == byPrev
  {
    assert forall q :: q in byPrev ==> Linked(byPrev, {}, tx)[q] == byPrev[q];
  }

  lemma ParentsStep(ins: seq<OutPoint>, i: nat)
    requires i < |ins|
    ensures Parents(ins[..0]) == {} && Parents(ins[..|ins|]) == Parents(ins)
    ensures Parents(ins[..i + 1]) == Parents(ins[..i]) + {ins[i].hash}
  {
    assert ins[..i + 1] == ins[..i] + [ins[i]];
    assert ins[..|ins|] == ins;
  }

  lemma BucketEntry(orphans: map<Hash, Tx>, byPrev: ByPrev, p: Hash, h: Hash)
    requires OrphanIndex(orphans, byPrev) && h.TxId? && SpendsFrom(h.tx, p)
    ensures h in orphans <==> p in byPrev && h in byPrev[p]
    ensures h in orphans ==> byPrev[p][h] == orphans[h] == h.tx
  {
  }

  lemma BucketSpends(orphans: map<Hash, Tx>, byPrev: ByPrev, p: Hash)
    requires OrphanIndex(orphans, byPrev) && p in byPrev
    ensures forall h :: h in byPrev[p] ==> h.TxId? && SpendsFrom(h.tx, p)
  {
    forall h | h in byPrev[p] ensures h.TxId? && SpendsFrom(h.tx, p) {
      assert h == Sha(orphans[h]);
    }
  }

  lemma UnlinkedOk(orphans: map<Hash, Tx>, byPrev: ByPrev, h: Hash)
    requires OrphanIndex(orphans, byPrev) && h in orphans
    ensures OrphanIndex(orphans - {h}, Unlinked(byPrev, Parents(orphans[h].ins), h))
  {
    var rest, after := orphans - {h}, Unlinked(byPrev, Parents(orphans[h].ins), h);
    forall k, o | k in rest && o in rest[k].ins ensures o.hash in after && k in after[o.hash] {
      assert k in byPrev[o.hash] - {h};
    }
    forall p, k | p in after && k in after[p] ensures k in rest && after[p][k] == rest[k] && SpendsFrom(rest[k], p) {
      assert k in byPrev[p];
    }
  }

  lemma LinkedOk(orphans: map<Hash, Tx>, byPrev: ByPrev, tx: Tx)
    requires OrphanIndex(orphans, byPrev) && Sha(tx) !in orphans
    ensures OrphanIndex(orphans[Sha(tx) := tx], Linked(byPrev, Parents(tx.ins), tx))
  {
    var more, after := orphans[Sha(tx) := tx], Linked(byPrev, Parents(tx.ins), tx);
    forall p | p in after ensures after[p] != map[] {
      if p in Parents(tx.ins) {
        assert Sha(tx) in after[p];
      }
    }
    forall p, k | p in after && k in after[p] ensures k in more && after[p][k] == more[k] && SpendsFrom(more[k], p) {
    }
    forall k, o | k in more && o in more[k].ins ensures o.hash in after && k in after[o.hash] {
    }
  }

  lemma OrphanIsKeyed(orphans: map<Hash, Tx>, byPrev: ByPrev, h: Hash)
    requires OrphanIndex(orphans, byPrev) && h in orphans
    ensures h == Sha(orphans[h])
  {
  }

  /** The orphans determine their index. */
  lemma OrphanIndexUnique(orphans: map<Hash, Tx>, x: ByPrev, y: ByPrev)
    requires OrphanIndex(orphans, x) && OrphanIndex(orphans, y)
    ensures x == y
  {
    BucketsWithin(orphans, x, y);
    BucketsWithin(orphans, y, x);
    forall p | p in x ensures x[p] == y[p] {
      assert x[p].Keys == y[p].Keys;
    }
  }

  lemma BucketsWithin(orphans: map<Hash, Tx>, x: ByPrev, y: ByPrev)
    requires OrphanIndex(orphans, x) && OrphanIndex(orphans, y)
    ensures forall p :: p in x ==> p in y && forall h :: h in x[p] ==> h in y[p] && y[p][h] == x[p][h]
  {
    forall p, h | p in x && h in x[p] ensures p in y && h in y[p] && y[p][h] == x[p][h] {
      assert SpendsFrom(orphans[h], p);
    }
    forall p | p in x ensures p in y {
      var h :| h in x[p];
    }
  }

  // ---------- Addresses ----------

  function PrevOut(o: OutPoint): TxOut
    requires InRange(o)
  {
    o.hash.tx.outs[o.index]
  }

  /** The transaction pays the address or spends an output that paid it. */
  ghost predicate Touches(tx: Tx, a: Address) {
    || (exists out :: out in tx.outs && a in out.payees)
    || (exists o :: o in tx.ins && InRange(o) && a in PrevOut(o).payees)
  }

  type AddrIndex = map<Address, set<Hash>>

  /** Everything pooled is indexed; entries of removed transactions may linger, but only
      under addresses those transactions touch. */
  ghost predicate AddrIndexOk(pool: Pool, index: AddrIndex) {
    && (forall h, a :: h in pool && Touches(pool[h].tx, a) ==> a in index && h in index[a])
    && (forall a, h :: a in index && h in index[a] ==> h.TxId? && Touches(h.tx, a))
  }

  function AsSet(addrs: seq<Address>): set<Address> {
    set a | a in addrs
  }

  lemma AsSetNone(addrs: seq<Address>)
    ensures AsSet(addrs[..0]) == {} && addrs[..|addrs|] == addrs
  {
  }

  lemma AsSetStep(addrs: seq<Address>, j: nat)
    requires j < |addrs|
    ensures AsSet(addrs[..j + 1]) == AsSet(addrs[..j]) + {addrs[j]}
  {
    assert addrs[..j + 1] == addrs[..j] + [addrs[j]];
  }

  function PayeesOf(outs: seq<TxOut>): set<Address> {
    set out, a | out in outs && a in out.payees :: a
  }

  function Indexed(index: AddrIndex, addrs: set<Address>, h: Hash): AddrIndex {
    map a | a in index.Keys + addrs ::
      (if a in index then index[a] else {}) + (if a in addrs then {h} else {})
  }

  function Unindexed(index: AddrIndex, addrs: set<Address>, h: Hash): AddrIndex {
    map a | a in index :: if a in addrs then index[a] - {h} else index[a]
  }

  lemma PayeesOfStep(outs: seq<TxOut>, i: nat)
    requires i < |outs|
    ensures PayeesOf(outs[..0]) == {}
    ensures PayeesOf(outs[..i + 1]) == PayeesOf(outs[..i]) + AsSet(outs[i].payees)
  {
    assert outs[..i + 1] == outs[..i] + [outs[i]];
    forall a | a in outs[i].payees ensures a in PayeesOf(outs[..i + 1]) {
      assert outs[i] in outs[..i + 1];
    }
  }

  lemma IndexedNone(index: AddrIndex, h: Hash)
    ensures Indexed(index, {}, h) == index && Unindexed(index, {}, h) == index
  {
    assert forall a :: a in index ==> Indexed(index, {}, h)[a] == index[a];
  }

  lemma IndexedUnion(index: AddrIndex, x: set<Address>, y: set<Address>, h: Hash)
    ensures Indexed(index, x + y, h) == Indexed(Indexed(index, x, h), y, h)
  {
    var l, r := Indexed(index, x + y, h), Indexed(Indexed(index, x, h), y, h);
    forall a | a in l ensures a in r && l[a] == r[a] {
    }
    assert l.Keys == r.Keys;
  }

  lemma UnindexedUnion(index: AddrIndex, x: set<Address>, y: set<Address>, h: Hash)
    ensures Unindexed(index, x + y, h) == Unindexed(Unindexed(index, x, h), y, h)
  {
    var l, r := Unindexed(index, x + y, h), Unindexed(Unindexed(index, x, h), y, h);
    forall a | a in l ensures a in r && l[a] == r[a] {
    }
    assert l.Keys == r.Keys;
  }

  lemma IndexedStep(index: AddrIndex, addrs: set<Address>, a: Address, h: Hash)
    ensures var m := Indexed(index, addrs, h);
            Indexed(index, addrs + {a}, h) == m[a := (if a in m then m[a] else {}) + {h}]
  {
    var m, r := Indexed(index, addrs, h), Indexed(index, addrs + {a}, h);
    var e := m[a := (if a in m then m[a] else {}) + {h}];
    assert r.Keys == e.Keys;
    forall b | b in r ensures r[b] == e[b] {
    }
  }

  lemma UnindexedStep(index: AddrIndex, addrs: set<Address>, a: Address, h: Hash)
    ensures var m := Unindexed(index, addrs, h);
            Unindexed(index, addrs + {a}, h) == if a in m then m[a := m[a] - {h}] else m
  {
    var m, r := Unindexed(index, addrs, h), Unindexed(index, addrs + {a}, h);
    var e := if a in m then m[a := m[a] - {h}] else m;
    assert forall b :: b in r ==> r[b] == e[b];
  }

  lemma UnindexedOk(pool: Pool, index: AddrIndex, addrs: set<Address>, h: Hash)
    requires AddrIndexOk(pool, index)
    ensures AddrIndexOk(pool - {h}, Unindexed(index, addrs, h))
  {
  }

  lemma IndexedOk(pool: Pool, index: AddrIndex, addrs: set<Address>, d: TxDesc)
    requires AddrIndexOk(pool, index) && forall a :: a in addrs <==> Touches(d.tx, a)
    ensures AddrIndexOk(pool[Sha(d.tx) := d], Indexed(index, addrs, Sha(d.tx)))
  {
  }

  ghost predicate ListedUnder(index: AddrIndex, a: Address, h: Hash) {
    a in index && h in index[a]
  }

  /** The transaction pays the address, or spends an output that paid it and can still be looked up. */
  ghost predicate Tells(chain: Chain, pool: set<Hash>, tx: Tx, a: Address) {
    || (exists out :: out in tx.outs && a in out.payees)
    || (exists o :: o in tx.ins && InRange(o) && !IsMissing(chain, pool, o.hash) && a in PrevOut(o).payees)
  }

  /** Exactly the entries are cleared that can be told of the transactions removed from the pool. */
  ghost predicate Cleared(chain: Chain, pool: set<Hash>, gone: set<Hash>, before: AddrIndex, after: AddrIndex) {
    forall a, h :: ListedUnder(after, a, h) <==>
                   ListedUnder(before, a, h) && !(h in gone && h.TxId? && Tells(chain, pool, h.tx, a))
  }

  lemma IndexedListed(index: AddrIndex, addrs: set<Address>, h: Hash)
    ensures forall a, k :: ListedUnder(Indexed(index, addrs, h), a, k) <==>
              ListedUnder(index, a, k) || (k == h && a in addrs)
  {
  }

  lemma UnindexedCleared(chain: Chain, pool: set<Hash>, tx: Tx, before: AddrIndex, addrs: set<Address>)
    requires forall a :: a in addrs <==> Tells(chain, pool, tx, a)
    ensures Cleared(chain, pool, {Sha(tx)}, before, Unindexed(before, addrs, Sha(tx)))
  {
    hide Tells;
  }

  lemma ClearedNothing(chain: Chain, pool: set<Hash>, index: AddrIndex)
    ensures Cleared(chain, pool, {}, index, index)
    ensures forall gone :: Cleared(chain, pool, gone, map[], map[])
  {
    hide Tells;
  }

  /** A removal after another one clears what it would have cleared first, as long as nothing it removes
      spends from what was gone already. */
  lemma ClearedMore(chain: Chain, pool: Pool, gone: set<Hash>, more: set<Hash>, x: AddrIndex, y: AddrIndex,
                    z: AddrIndex)
    requires Keyed(pool) && more <= (pool - gone).Keys
    requires Cleared(chain, pool.Keys, gone, x, y) && Cleared(chain, (pool - gone).Keys, more, y, z)
    requires forall h, o :: h in more && o in pool[h].tx.ins ==> o.hash !in gone
    ensures Cleared(chain, pool.Keys, gone + more, x, z)
  {
    forall h, a | h in more ensures Tells(chain, (pool - gone).Keys, h.tx, a) <==> Tells(chain, pool.Keys, h.tx, a) {
      assert h == Sha(pool[h].tx);
      assert forall o :: o in h.tx.ins ==>
        (IsMissing(chain, (pool - gone).Keys, o.hash) <==> IsMissing(chain, pool.Keys, o.hash));
    }
    hide Tells, ListedUnder;
  }

  // ---------- The pool against the chain ----------

  ghost predicate Lacks(chain: Chain, pool: set<Hash>, tx: Tx) {
    exists o :: o in tx.ins && IsMissing(chain, pool, o.hash)
  }

  ghost predicate SpendsAny(tx: Tx, hs: set<Hash>) {
    exists o :: o in tx.ins && o.hash in hs
  }

  /** Every orphan still lacks a parent, or spends from one of the excused hashes. */
  ghost predicate Saturated(chain: Chain, pool: set<Hash>, orphans: map<Hash, Tx>, excused: set<Hash>) {
    forall h :: h in orphans ==> Lacks(chain, pool, orphans[h]) || SpendsAny(orphans[h], excused)
  }

  ghost predicate SpentIn(txs: seq<Tx>, o: OutPoint) {
    exists t :: t in txs && o in t.ins
  }

  /** The pool fits on top of the chain: every input is an unspent output or comes from the
      pool itself, and nothing pooled is already mined.  While a block is being connected,
      the block transactions in `pending` are not yet taken into account. */
  ghost predicate Fits(chain: Chain, pool: Pool, pending: seq<Tx>) {
    && (forall h, o :: h in pool && o in pool[h].tx.ins ==>
          Unspent(chain, o) || o.hash in pool || SpentIn(pending, o))
    && (forall h :: h in pool && h in chain ==> h.TxId? && h.tx in pending)
  }

  lemma PooledInput(chain: Chain, pool: Pool, h: Hash, o: OutPoint)
    requires Fits(chain, pool, []) && h in pool && o in pool[h].tx.ins
    ensures o.hash in pool || Unspent(chain, o)
  {
  }

  /** Whatever is mined and spends from a pending transaction is itself pending. */
  ghost predicate PendingClosed(chain: Chain, pending: seq<Tx>) {
    forall c: Tx, p: Tx :: Sha(c) in chain && p in pending && SpendsFrom(c, Sha(p)) ==> c in pending
  }

  /** Removing a clean cut keeps the pool fitting. */
  lemma FitsCut(chain: Chain, pool: Pool, pending: seq<Tx>, gone: set<Hash>)
    requires Fits(chain, pool, pending) && CleanCut(pool, gone)
    ensures Fits(chain, pool - gone, pending)
  {
  }

  /** What acceptance guarantees about the inputs. */
  ghost predicate InputsAccepted(chain: Chain, pool: set<Hash>, tx: Tx) {
    && tx.ins != [] && !IsCoinBase(tx)
    && forall o :: o in tx.ins ==>
         && InRange(o)
         && !IsMissing(chain, pool, o.hash)
         && (OnChain(chain, o.hash) ==> Unspent(chain, o))
  }

  ghost function MissingSet(chain: Chain, pool: set<Hash>, tx: Tx): set<Hash> {
    set o | o in tx.ins && IsMissing(chain, pool, o.hash) :: o.hash
  }

  /** The store answers from the chain first, then from the pool. */
  ghost predicate IsStoreFor(chain: Chain, pool: Pool, tx: Tx, store: TxStore) {
    && store.Keys == Wanted(tx)
    && forall h :: h in store ==>
         store[h] == if OnChain(chain, h) then Found(h.tx, chain[h].height, chain[h].spent)
                     else if h in pool then Found(pool[h].tx, 0x7fff_ffff, seq(|pool[h].tx.outs|, _ => false))
                     else Missing
  }

  ghost function StoreFor(chain: Chain, pool: Pool, tx: Tx): TxStore {
    map h | h in Wanted(tx) ::
      if OnChain(chain, h) then Found(h.tx, chain[h].height, chain[h].spent)
      else if h in pool then Found(pool[h].tx, 0x7fff_ffff, seq(|pool[h].tx.outs|, _ => false))
      else Missing
  }

  /** Chain and pool leave no choice of store. */
  lemma StoreIsFor(chain: Chain, pool: Pool, tx: Tx, store: TxStore)
    ensures IsStoreFor(chain, pool, tx, store) <==> store == StoreFor(chain, pool, tx)
  {
    if IsStoreFor(chain, pool, tx, store) {
      assert store.Keys == StoreFor(chain, pool, tx).Keys;
      assert forall h :: h in store ==> store[h] == StoreFor(chain, pool, tx)[h];
    }
  }

  function MissingIn(store: TxStore): set<Hash> {
    set h | h in store && store[h].Missing?
  }

  predicate HasUnspent(d: TxData) {
    d.Found? && exists i :: 0 <= i < |d.spent| && !d.spent[i]
  }

  lemma StoreForParents(chain: Chain, pool: Pool, tx: Tx, store: TxStore)
    requires ChainValid(chain) && Keyed(pool) && IsStoreFor(chain, pool, tx, store)
    ensures Sha(tx) in store
    ensures Sha(tx) !in pool ==> (HasUnspent(store[Sha(tx)]) <==> OnChain(chain, Sha(tx)))
    ensures MissingIn(store - {Sha(tx)}) == MissingSet(chain, pool.Keys, tx)
    ensures Lacks(chain, pool.Keys, tx) <==> MissingSet(chain, pool.Keys, tx) != {}
  {
    NotOwnParent(tx);
    if o :| o in tx.ins && IsMissing(chain, pool.Keys, o.hash) {
      assert o.hash in MissingSet(chain, pool.Keys, tx);
    }
    var parents := store - {Sha(tx)};
    forall h | h in MissingIn(parents) ensures h in MissingSet(chain, pool.Keys, tx) {
      var o :| o in tx.ins && o.hash == h;
    }
  }

  lemma StoreForOk(chain: Chain, pool: Pool, tx: Tx, store: TxStore)
    requires ChainValid(chain) && Keyed(pool) && IsStoreFor(chain, pool, tx, store)
    ensures StoreOk(store - {Sha(tx)})
  {
  }

  /** Inputs that pass make an acceptable pool transaction. */
  lemma StoreForAccepted(chain: Chain, pool: Pool, tx: Tx, store: TxStore, height: int)
    requires ChainValid(chain) && Keyed(pool) && IsStoreFor(chain, pool, tx, store)
    requires Sane(tx) && !IsCoinBase(tx) && InputsOk(store - {Sha(tx)}, height + 1, tx)
    ensures InputsAccepted(chain, pool.Keys, tx) && Resolved(chain, pool.Keys, tx)
    ensures PoolTxOk(TxDesc(tx, height, Fee(tx), 0.0))
  {
    assert tx.ins != [];
    SumOutsNonNegative(tx.outs);
    hide IsStoreFor, InputOk, ChainValid, Unspent, OnChain, Sane, Fee, IsMissing, InRange, Distinct, IsCoinBase,
      Keyed;
    NotOwnParent(tx);
    forall o | o in tx.ins
      ensures InRange(o) && !IsMissing(chain, pool.Keys, o.hash) && (OnChain(chain, o.hash) ==> Unspent(chain, o))
    {
      StoredInput(chain, pool, tx, store, height + 1, o);
    }
  }

  lemma StoredInput(chain: Chain, pool: Pool, tx: Tx, store: TxStore, height: int, o: OutPoint)
    requires ChainValid(chain) && Keyed(pool) && IsStoreFor(chain, pool, tx, store)
    requires o in tx.ins && o.hash != Sha(tx) && InputOk(store - {Sha(tx)}, height, o)
    ensures InRange(o) && !IsMissing(chain, pool.Keys, o.hash) && (OnChain(chain, o.hash) ==> Unspent(chain, o))
  {
    assert store[o.hash].Found?;
  }

  /** Accepting a transaction keeps the pool fitting.  In particular an already mined
      transaction is accepted only while it is still pending. */
  lemma FitsWith(chain: Chain, pool: Pool, pending: seq<Tx>, d: TxDesc)
    requires ChainValid(chain) && Fits(chain, pool, pending) && PendingClosed(chain, pending)
    requires InputsAccepted(chain, pool.Keys, d.tx)
    ensures Fits(chain, pool[Sha(d.tx) := d], pending)
  {
    if Sha(d.tx) in chain {
      var o := d.tx.ins[0];
      assert o in d.tx.ins;
      assert Spent(chain, o);
      assert o.hash in pool && o.hash.tx in pending;
      assert SpendsFrom(d.tx, Sha(o.hash.tx));
    }
  }

  /** Fewer pooled transactions, fewer orphans: still saturated. */
  lemma SaturatedShrinks(chain: Chain, pool: set<Hash>, orphans: map<Hash, Tx>, excused: set<Hash>,
                         fewer: set<Hash>, left: map<Hash, Tx>)
    requires Saturated(chain, pool, orphans, excused)
    requires fewer <= pool && forall h :: h in left ==> h in orphans && left[h] == orphans[h]
    ensures Saturated(chain, fewer, left, excused)
  {
    forall h | h in left && Lacks(chain, pool, left[h]) ensures Lacks(chain, fewer, left[h]) {
      var o :| o in left[h].ins && IsMissing(chain, pool, o.hash);
      assert IsMissing(chain, fewer, o.hash);
    }
  }

  /** A new pool transaction can complete only the orphans that spend from it. */
  lemma LacksUnlessSpends(chain: Chain, pool: set<Hash>, tx: Tx, added: Hash)
    requires Lacks(chain, pool, tx)
    ensures Lacks(chain, pool + {added}, tx) || SpendsFrom(tx, added)
  {
    var o :| o in tx.ins && IsMissing(chain, pool, o.hash);
    assert o.hash != added ==> IsMissing(chain, pool + {added}, o.hash);
  }

  /** The pool took in some of the orphans and lost nothing. */
  ghost predicate Grown(was: Pool, before: map<Hash, Tx>, pool: Pool, orphans: map<Hash, Tx>) {
    && orphans.Keys <= before.Keys
    && was.Keys <= pool.Keys <= was.Keys + before.Keys
    && forall h :: h in was ==> pool[h] == was[h]
  }

  /** Nothing pooled or kept that was neither pooled nor kept before. */
  ghost predicate Within(pool: Pool, orphans: map<Hash, Tx>, was: Pool, before: map<Hash, Tx>) {
    pool.Keys <= was.Keys + before.Keys && orphans.Keys <= before.Keys
  }

  lemma WithinLess(pool: Pool, orphans: map<Hash, Tx>, was: Pool, before: map<Hash, Tx>)
    requires pool.Keys <= was.Keys && orphans.Keys <= before.Keys
    ensures Within(pool, orphans, was, before)
  {
  }

  lemma WithinTrans(pool: Pool, orphans: map<Hash, Tx>, mid: Pool, left: map<Hash, Tx>, was: Pool,
                    before: map<Hash, Tx>)
    requires Within(pool, orphans, mid, left) && Within(mid, left, was, before)
    ensures Within(pool, orphans, was, before) && orphans.Keys <= left.Keys
  {
  }

  lemma GrownStart(pool: Pool, orphans: map<Hash, Tx>)
    ensures Grown(pool, orphans, pool, orphans)
  {
  }

  lemma GrownKeeps(was: Pool, before: map<Hash, Tx>, pool: Pool, orphans: map<Hash, Tx>)
    requires Grown(was, before, pool, orphans)
    ensures was.Keys <= pool.Keys && orphans.Keys <= before.Keys && Within(pool, orphans, was, before)
    ensures forall h :: h in was ==> pool[h] == was[h]
  {
  }

  lemma GrownWith(was: Pool, before: map<Hash, Tx>, pool: Pool, orphans: map<Hash, Tx>, d: TxDesc)
    requires Grown(was, before, pool, orphans) && Sha(d.tx) in orphans && Sha(d.tx) !in pool
    ensures Grown(was, before, pool[Sha(d.tx) := d], orphans - {Sha(d.tx)})
  {
  }

  lemma GrownFewer(was: Pool, before: map<Hash, Tx>, pool: Pool, orphans: map<Hash, Tx>, left: map<Hash, Tx>)
    requires Grown(was, before, pool, orphans) && left.Keys <= orphans.Keys
    ensures Grown(was, before, pool, left)
  {
  }

  function AsHashSet(hs: seq<Hash>): set<Hash> {
    set h | h in hs
  }

  lemma AsHashSetNone(s: set<Hash>)
    ensures s + AsHashSet([]) == s
  {
  }

  lemma AsHashSetOne(s: set<Hash>, h: Hash)
    ensures s + AsHashSet([h]) == s + {h}
  {
  }

  lemma AsHashSetCons(s: set<Hash>, hs: seq<Hash>)
    requires hs != []
    ensures s + AsHashSet(hs) == s + AsHashSet(hs[1..]) + {hs[0]}
  {
    assert hs == [hs[0]] + hs[1..];
  }

  lemma AsHashSetConcat(s: set<Hash>, xs: seq<Hash>, ys: seq<Hash>)
    ensures s + AsHashSet(xs + ys) == s + AsHashSet(xs) + AsHashSet(ys)
  {
  }

  lemma AsHashSetSnoc(s: set<Hash>, hs: seq<Hash>, h: Hash)
    ensures s + AsHashSet(hs + [h]) == s + AsHashSet(hs) + {h}
  {
  }

  /** Saturated except possibly for the orphans still to be looked at. */
  ghost predicate SaturatedBut(chain: Chain, pool: set<Hash>, orphans: map<Hash, Tx>, excused: set<Hash>,
                               todo: set<Hash>) {
    forall h :: h in orphans ==> Lacks(chain, pool, orphans[h]) || SpendsAny(orphans[h], excused) || h in todo
  }

  lemma SaturatedStart(chain: Chain, pool: set<Hash>, orphans: map<Hash, Tx>, byPrev: ByPrev, excused: set<Hash>,
                       h: Hash)
    requires OrphanIndex(orphans, byPrev) && Saturated(chain, pool, orphans, excused + {h})
    ensures SaturatedBut(chain, pool, orphans, excused, if h in byPrev then byPrev[h].Keys else {})
  {
    forall k | k in orphans && SpendsAny(orphans[k], excused + {h}) && !SpendsAny(orphans[k], excused)
      ensures h in byPrev && k in byPrev[h]
    {
      var o :| o in orphans[k].ins && o.hash in excused + {h};
    }
  }

  lemma SaturatedEnd(chain: Chain, pool: set<Hash>, orphans: map<Hash, Tx>, excused: set<Hash>)
    ensures SaturatedBut(chain, pool, orphans, excused, {}) <==> Saturated(chain, pool, orphans, excused)
  {
  }

  lemma SaturatedMore(chain: Chain, pool: set<Hash>, orphans: map<Hash, Tx>, excused: set<Hash>, todo: set<Hash>,
                      k: Hash)
    ensures SaturatedBut(chain, pool, orphans, excused, todo) ==>
            SaturatedBut(chain, pool, orphans, excused, todo + {k})
  {
  }

  lemma SaturatedWith(chain: Chain, pool: set<Hash>, orphans: map<Hash, Tx>, excused: set<Hash>, k: Hash)
    requires Saturated(chain, pool, orphans, excused)
    ensures Saturated(chain, pool + {k}, orphans, excused + {k})
  {
    forall h | h in orphans ensures Lacks(chain, pool + {k}, orphans[h]) || SpendsAny(orphans[h], excused + {k}) {
      if Lacks(chain, pool, orphans[h]) {
        LacksUnlessSpends(chain, pool, orphans[h], k);
      }
      if o :| o in orphans[h].ins && (o.hash == k || o.hash in excused) {
        assert o.hash in excused + {k};
      }
    }
  }

  lemma SaturatedOrphan(chain: Chain, pool: set<Hash>, orphans: map<Hash, Tx>, excused: set<Hash>,
                        more: map<Hash, Tx>, k: Hash)
    requires Saturated(chain, pool, orphans, excused)
    requires more.Keys <= orphans.Keys + {k} && forall h :: h in more && h != k ==> more[h] == orphans[h]
    requires k in more ==> Lacks(chain, pool, more[k])
    ensures Saturated(chain, pool, more, excused)
  {
  }

  lemma NothingPending(chain: Chain)
    ensures PendingClosed(chain, [])
  {
  }

  lemma SaturatedDropped(chain: Chain, pool: set<Hash>, orphans: map<Hash, Tx>, excused: set<Hash>, todo: set<Hash>,
                         left: map<Hash, Tx>, k: Hash)
    requires SaturatedBut(chain, pool, orphans, excused, todo)
    requires left.Keys <= orphans.Keys && forall h :: h in left ==> left[h] == orphans[h]
    requires k !in left || Lacks(chain, pool, left[k])
    ensures SaturatedBut(chain, pool, left, excused, todo - {k})
  {
  }

  lemma SaturatedAccepted(chain: Chain, pool: set<Hash>, orphans: map<Hash, Tx>, excused: set<Hash>, todo: set<Hash>,
                          k: Hash)
    requires SaturatedBut(chain, pool, orphans, excused, todo)
    ensures SaturatedBut(chain, pool + {k}, orphans - {k}, excused + {k}, todo - {k})
  {
    forall h | h in orphans && h != k
      ensures Lacks(chain, pool + {k}, orphans[h]) || SpendsAny(orphans[h], excused + {k}) || h in todo - {k}
    {
      if Lacks(chain, pool, orphans[h]) {
        LacksUnlessSpends(chain, pool, orphans[h], k);
        if o :| o in orphans[h].ins && o.hash == k {
          assert o.hash in excused + {k};
        }
      } else if o :| o in orphans[h].ins && o.hash in excused {
        assert o.hash in excused + {k};
      }
    }
  }
}
