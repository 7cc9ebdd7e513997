/** Candidates that wait for others: when they are queued, and how they are decided. */
module MiningDependents {
  import opened Ledger
  import opened Validation
  import opened PoolIndex
  import opened Mining
  import opened MiningTheorems

  /** The transaction of `h` had a turn before moment `n`. */
  ghost predicate HadTurn(turns: seq<PrioItem>, h: Hash, n: nat)
    requires n <= |turns|
  {
    exists k :: 0 <= k < n && Sha(turns[k].tx) == h
  }

  /** It was taken into the block at the first of its turns, before moment `n`. */
  ghost predicate TakenFirst(s: Setting, run: seq<Moment>, turns: seq<PrioItem>, h: Hash, n: nat)
    requires |run| == |turns| + 1 && n <= |turns|
  {
    exists k :: 0 <= k < n && Sha(turns[k].tx) == h && !HadTurn(turns, h, k) && Takes(s, run[k].p, turns[k])
  }

  ghost predicate AllTakenFirst(s: Setting, run: seq<Moment>, turns: seq<PrioItem>, c: PrioItem, n: nat)
    requires |run| == |turns| + 1 && n <= |turns|
  {
    forall q :: q in Waits(s.chain, c.tx.ins) ==> TakenFirst(s, run, turns, q, n)
  }

  // ---------- Waiting ----------

  /** A candidate waits for the parents that were not taken at their first turn, and is listed with
      those that had none yet. */
  ghost predicate Waiting(s: Setting, run: seq<Moment>, turns: seq<PrioItem>, c: PrioItem, n: nat)
    requires |run| == |turns| + 1 && n <= |turns|
  {
    && (forall q :: q in WaitsOf(run[n].p.dependsOn, Sha(c.tx)) <==>
          q in Waits(s.chain, c.tx.ins) && !TakenFirst(s, run, turns, q, n))
    && (forall q :: Sha(c.tx) in ListOf(run[n].p.dependers, q) <==>
          q in Waits(s.chain, c.tx.ins) && !HadTurn(turns, q, n))
  }

  lemma HadTurnStep(turns: seq<PrioItem>, h: Hash, n: nat)
    requires n < |turns|
    ensures HadTurn(turns, h, n + 1) <==> HadTurn(turns, h, n) || Sha(turns[n].tx) == h
  {
  }

  lemma TakenFirstStep(s: Setting, run: seq<Moment>, turns: seq<PrioItem>, h: Hash, n: nat)
    requires |run| == |turns| + 1 && n < |turns|
    ensures TakenFirst(s, run, turns, h, n + 1) <==>
            || TakenFirst(s, run, turns, h, n)
            || (Sha(turns[n].tx) == h && !HadTurn(turns, h, n) && Takes(s, run[n].p, turns[n]))
  {
    hide HadTurn, Takes;
  }

  lemma TakenHadTurn(s: Setting, run: seq<Moment>, turns: seq<PrioItem>, h: Hash, n: nat)
    requires |run| == |turns| + 1 && n <= |turns| && TakenFirst(s, run, turns, h, n)
    ensures HadTurn(turns, h, n)
  {
    hide Takes;
  }

  /** What a turn does to the waiting lists and to what an item waits for. */
  lemma NextWaits(s: Setting, p: Progress, item: PrioItem, h: Hash)
    ensures var q0, next := Sha(item.tx), Next(s, p, item);
      && (forall q :: ListOf(next.dependers, q) == if q == q0 then [] else ListOf(p.dependers, q))
      && WaitsOf(next.dependsOn, h) ==
           WaitsOf(p.dependsOn, h) - if Takes(s, p, item) && h in ListOf(p.dependers, q0) then {q0} else {}
  {
    hide Fit, Passes, SpentStore, Passing;
  }

  /** The same, for one parent. */
  lemma WaitsForStep(s: Setting, run: seq<Moment>, turns: seq<PrioItem>, c: PrioItem, n: nat, q: Hash)
    requires |run| == |turns| + 1 && n < |turns| && run[n + 1].p == Next(s, run[n].p, turns[n])
    requires Waiting(s, run, turns, c, n)
    ensures q in WaitsOf(run[n + 1].p.dependsOn, Sha(c.tx)) <==>
            q in Waits(s.chain, c.tx.ins) && !TakenFirst(s, run, turns, q, n + 1)
    ensures Sha(c.tx) in ListOf(run[n + 1].p.dependers, q) <==>
            q in Waits(s.chain, c.tx.ins) && !HadTurn(turns, q, n + 1)
  {
    var q0 := Sha(turns[n].tx);
    assert q in WaitsOf(run[n].p.dependsOn, Sha(c.tx)) <==>
           q in Waits(s.chain, c.tx.ins) && !TakenFirst(s, run, turns, q, n);
    assert Sha(c.tx) in ListOf(run[n].p.dependers, q) <==> q in Waits(s.chain, c.tx.ins) && !HadTurn(turns, q, n);
    hide *;
    NextWaits(s, run[n].p, turns[n], Sha(c.tx));
    HadTurnStep(turns, q, n);
    TakenFirstStep(s, run, turns, q, n);
    if TakenFirst(s, run, turns, q, n) {
      TakenHadTurn(s, run, turns, q, n);
    }
  }

  lemma WaitingStep(s: Setting, isFinal: Tx -> bool, source: seq<TxDesc>, run: seq<Moment>, turns: seq<PrioItem>,
                    c: PrioItem, n: nat)
    requires Chose(s, isFinal, source, run, turns) && |run| == |turns| + 1 && n < |turns|
    requires Waiting(s, run, turns, c, n)
    ensures Waiting(s, run, turns, c, n + 1)
  {
    TurnAt(s, isFinal, source, run, turns, n);
    hide Chose, Building, Next, QueueAfter, TakenFirst, HadTurn, Waits, WaitsOf, ListOf;
    forall q
      ensures q in WaitsOf(run[n + 1].p.dependsOn, Sha(c.tx)) <==>
              q in Waits(s.chain, c.tx.ins) && !TakenFirst(s, run, turns, q, n + 1)
      ensures Sha(c.tx) in ListOf(run[n + 1].p.dependers, q) <==>
              q in Waits(s.chain, c.tx.ins) && !HadTurn(turns, q, n + 1)
    {
      WaitsForStep(s, run, turns, c, n, q);
    }
  }

  lemma {:induction false} NeedsAre(chain: Chain, isFinal: Tx -> bool, have: set<Hash>, source: seq<TxDesc>, i: nat)
    requires i < |source| && Candidate(isFinal, source[i].tx)
    requires forall a, b :: 0 <= a < b < |source| ==> source[a].tx != source[b].tx
    ensures WaitsOf(Needs(chain, isFinal, have, source), Sha(source[i].tx)) ==
            Waits(chain, Lead(chain, have, source[i].tx.ins))
  {
    hide Candidate, Waits, Lead;
    var front := source[..|source| - 1];
    if i < |front| {
      assert front[i] == source[i];
      NeedsAre(chain, isFinal, have, front, i);
    }
  }

  lemma {:induction false} EntriesHave(ins: seq<OutPoint>, p: Hash, h: Hash)
    requires exists o :: o in ins && o.hash == p
    ensures h in Entries(ins, p, h)
  {
    var front, last := ins[..|ins| - 1], ins[|ins| - 1];
    if last.hash != p {
      var o :| o in ins && o.hash == p;
      assert o in front;
      EntriesHave(front, p, h);
    }
  }

  lemma {:induction false} ListsHave(chain: Chain, isFinal: Tx -> bool, have: set<Hash>, source: seq<TxDesc>, i: nat,
                                     p: Hash)
    requires i < |source| && Candidate(isFinal, source[i].tx) && p in Waits(chain, Lead(chain, have, source[i].tx.ins))
    ensures Sha(source[i].tx) in Lists(chain, isFinal, have, source, p)
  {
    hide Candidate, Lead, OnChain, Entries;
    var front := source[..|source| - 1];
    if i < |front| {
      assert front[i] == source[i];
      ListsHave(chain, isFinal, have, front, i, p);
    } else {
      EntriesHave(Lead(chain, have, source[i].tx.ins), p, Sha(source[i].tx));
    }
  }

  lemma NoTurnYet(s: Setting, run: seq<Moment>, turns: seq<PrioItem>, h: Hash)
    requires |run| == |turns| + 1
    ensures !HadTurn(turns, h, 0) && !TakenFirst(s, run, turns, h, 0)
  {
  }

  lemma WaitingStart(s: Setting, isFinal: Tx -> bool, source: seq<TxDesc>, run: seq<Moment>, turns: seq<PrioItem>,
                     i: nat)
    requires Chose(s, isFinal, source, run, turns) && |run| == |turns| + 1 && IsSource(s.pool, source)
    requires i < |source| && Candidate(isFinal, source[i].tx) && !Stuck(s.chain, s.have, source[i].tx)
    ensures Waiting(s, run, turns, ItemOf(s.chain, s.height, s.checks, source[i]), 0)
  {
    var tx, h := source[i].tx, Sha(source[i].tx);
    StartAt(s, isFinal, source, run, turns);
    LeadIsAll(s.chain, s.have, tx, 0);
    assert Lead(s.chain, s.have, tx.ins) == tx.ins;
    NeedsAre(s.chain, isFinal, s.have, source, i);
    hide Chose, InitialQueue, Items, Needs, Lists, Stores, Stuck, Lead, Waits, WaitsOf, ListOf, HadTurn, TakenFirst;
    forall q
      ensures h in ListOf(run[0].p.dependers, q) <==> q in Waits(s.chain, tx.ins)
      ensures !HadTurn(turns, q, 0) && !TakenFirst(s, run, turns, q, 0)
    {
      NoTurnYet(s, run, turns, q);
      assert ListOf(run[0].p.dependers, q) == Lists(s.chain, isFinal, s.have, source, q);
      if q in Waits(s.chain, tx.ins) {
        ListsHave(s.chain, isFinal, s.have, source, i, q);
      } else if h in Lists(s.chain, isFinal, s.have, source, q) {
        var k := ListedWaits(s.chain, isFinal, s.have, source, q, h);
      }
    }
  }

  lemma {:induction false} WaitingAt(s: Setting, isFinal: Tx -> bool, source: seq<TxDesc>, run: seq<Moment>,
                                     turns: seq<PrioItem>, i: nat, n: nat)
    requires Chose(s, isFinal, source, run, turns) && |run| == |turns| + 1 && IsSource(s.pool, source) && n <= |turns|
    requires i < |source| && Candidate(isFinal, source[i].tx) && !Stuck(s.chain, s.have, source[i].tx)
    ensures Waiting(s, run, turns, ItemOf(s.chain, s.height, s.checks, source[i]), n)
  {
    hide *;
    if n == 0 {
      WaitingStart(s, isFinal, source, run, turns, i);
    } else {
      WaitingAt(s, isFinal, source, run, turns, i, n - 1);
      WaitingStep(s, isFinal, source, run, turns, ItemOf(s.chain, s.height, s.checks, source[i]), n - 1);
    }
  }

  // ---------- Queueing ----------

  ghost predicate QueuedBy(run: seq<Moment>, c: PrioItem, n: nat)
    requires n < |run|
  {
    exists m :: 0 <= m <= n && c in run[m].queue
  }

  lemma {:induction false} ReleasedHave(items: map<Hash, PrioItem>, dependsOn: map<Hash, set<Hash>>, deps: seq<Hash>,
                                        parent: Hash, k: Hash)
    requires k in deps && k in items && WaitsOf(dependsOn, k) <= {parent}
    ensures items[k] in Released(items, dependsOn, deps, parent)
  {
    var front, last := deps[..|deps| - 1], deps[|deps| - 1];
    if k != last {
      assert deps == front + [last];
      ReleasedHave(items, dependsOn, front, parent, k);
    } else {
      assert WaitsOf(dependsOn, k) - {parent} == {};
    }
  }

  /** An item is freed exactly if it is listed and waits for nothing else. */
  lemma FreedWhen(s: Setting, p: Progress, item: PrioItem, c: PrioItem)
    requires SettingOk(s) && Sha(c.tx) in s.items && s.items[Sha(c.tx)] == c
    ensures c in Freed(s, p, item) <==>
            && Sha(c.tx) in ListOf(p.dependers, Sha(item.tx))
            && WaitsOf(p.dependsOn, Sha(c.tx)) <= {Sha(item.tx)}
  {
    var parent := Sha(item.tx);
    var deps := ListOf(p.dependers, parent);
    var released := Released(s.items, p.dependsOn, deps, parent);
    ItemsKeyed(s);
    ReleasedAre(s.items, p.dependsOn, deps, parent);
    hide SettingOk, Released, ListOf, WaitsOf;
    InQueue(released, c);
    if c in released {
      var k :| k in deps && k in s.items && s.items[k] == c && WaitsOf(p.dependsOn, k) <= {parent};
      assert Sha(s.items[k].tx) == k;
    }
    if Sha(c.tx) in deps && WaitsOf(p.dependsOn, Sha(c.tx)) <= {parent} {
      ReleasedHave(s.items, p.dependsOn, deps, parent, Sha(c.tx));
    }
  }

  lemma QueueStep(s: Setting, p: Progress, queue: multiset<PrioItem>, item: PrioItem, c: PrioItem)
    requires item in queue
    ensures var after := QueueAfter(s, p, queue - multiset{item}, item);
      && (c in after ==> c in queue || (Takes(s, p, item) && c in Freed(s, p, item)))
      && (Takes(s, p, item) && c in Freed(s, p, item) ==> c in after)
      && (c in queue && !(item == c && !Returns(s, p, item)) ==> c in after)
  {
    ReturnsIsNotTakes(s, p, item);
    hide Returns, Takes, Freed;
  }

  /** The candidate was queued if and only if it waits for nothing any more. */
  ghost predicate QueuedWhenFree(run: seq<Moment>, c: PrioItem, n: nat)
    requires n < |run|
  {
    QueuedBy(run, c, n) <==> WaitsOf(run[n].p.dependsOn, Sha(c.tx)) == {}
  }

  lemma QueuedByStep(run: seq<Moment>, c: PrioItem, n: nat)
    requires n + 1 < |run|
    ensures QueuedBy(run, c, n + 1) <==> QueuedBy(run, c, n) || c in run[n + 1].queue
    ensures c in run[n].queue ==> QueuedBy(run, c, n)
  {
  }

  lemma QueuedStep(s: Setting, isFinal: Tx -> bool, source: seq<TxDesc>, run: seq<Moment>, turns: seq<PrioItem>,
                   c: PrioItem, n: nat)
    requires SettingOk(s) && Chose(s, isFinal, source, run, turns) && |run| == |turns| + 1 && n < |turns|
    requires Sha(c.tx) in s.items && s.items[Sha(c.tx)] == c && QueuedWhenFree(run, c, n)
    ensures QueuedWhenFree(run, c, n + 1)
  {
    TurnAt(s, isFinal, source, run, turns, n);
    hide SettingOk, Chose, Building, Next, QueueAfter, QueuedBy, WaitsOf, ListOf, Freed, Takes, Returns;
    var p, item := run[n].p, turns[n];
    QueuedByStep(run, c, n);
    NextWaits(s, p, item, Sha(c.tx));
    FreedWhen(s, p, item, c);
    QueueStep(s, p, run[n].queue, item, c);
  }

  lemma QueuedStart(s: Setting, isFinal: Tx -> bool, source: seq<TxDesc>, run: seq<Moment>, turns: seq<PrioItem>,
                    i: nat)
    requires Chose(s, isFinal, source, run, turns) && |run| == |turns| + 1 && IsSource(s.pool, source)
    requires i < |source| && Candidate(isFinal, source[i].tx) && !Stuck(s.chain, s.have, source[i].tx)
    ensures QueuedWhenFree(run, ItemOf(s.chain, s.height, s.checks, source[i]), 0)
  {
    var c := ItemOf(s.chain, s.height, s.checks, source[i]);
    StartAt(s, isFinal, source, run, turns);
    WaitingStart(s, isFinal, source, run, turns, i);
    WaitsAtStart(s, run, turns, c);
    hide Chose, Items, Needs, Lists, Stores, Stuck, Candidate, Waits, WaitsOf, Waiting;
    assert run[0].queue[c] == if ReadyItem(s.chain, s.height, s.checks, isFinal, s.have, source, c) then 1 else 0;
    assert QueuedBy(run, c, 0) <==> c in run[0].queue;
    if ReadyItem(s.chain, s.height, s.checks, isFinal, s.have, source, c) {
      var k :| 0 <= k < |source| && Ready(s.chain, isFinal, s.have, source[k].tx) &&
               c == ItemOf(s.chain, s.height, s.checks, source[k]);
      assert source[k].tx == c.tx;
    } else {
      assert !Ready(s.chain, isFinal, s.have, source[i].tx);
    }
  }

  lemma WaitsAtStart(s: Setting, run: seq<Moment>, turns: seq<PrioItem>, c: PrioItem)
    requires |run| == |turns| + 1 && Waiting(s, run, turns, c, 0)
    ensures WaitsOf(run[0].p.dependsOn, Sha(c.tx)) == Waits(s.chain, c.tx.ins)
  {
    hide Waits, WaitsOf, ListOf, Takes;
  }

  /** The item of a candidate that is not abandoned is among those set up. */
  lemma {:induction false} ItemSetUp(chain: Chain, height: int, checks: Checks, isFinal: Tx -> bool, have: set<Hash>,
                                     source: seq<TxDesc>, i: nat)
    requires i < |source| && Candidate(isFinal, source[i].tx) && !Stuck(chain, have, source[i].tx)
    requires forall a, b :: 0 <= a < b < |source| ==> source[a].tx != source[b].tx
    ensures var c := ItemOf(chain, height, checks, source[i]);
      var items := Items(chain, height, checks, isFinal, have, source);
      Sha(c.tx) in items && items[Sha(c.tx)] == c
  {
    hide Candidate, Stuck;
    var front := source[..|source| - 1];
    if i < |front| {
      assert front[i] == source[i];
      ItemSetUp(chain, height, checks, isFinal, have, front, i);
    }
  }

  lemma CandidateItem(s: Setting, isFinal: Tx -> bool, source: seq<TxDesc>, run: seq<Moment>, turns: seq<PrioItem>,
                      i: nat)
    requires Chose(s, isFinal, source, run, turns) && IsSource(s.pool, source)
    requires i < |source| && Candidate(isFinal, source[i].tx) && !Stuck(s.chain, s.have, source[i].tx)
    ensures var c := ItemOf(s.chain, s.height, s.checks, source[i]);
      c.tx == source[i].tx && Sha(c.tx) in s.items && s.items[Sha(c.tx)] == c
  {
    StartAt(s, isFinal, source, run, turns);
    hide Chose, Stuck, Candidate, InitialQueue;
    ItemSetUp(s.chain, s.height, s.checks, isFinal, s.have, source, i);
  }

  lemma {:induction false} QueuedAt(s: Setting, isFinal: Tx -> bool, source: seq<TxDesc>, run: seq<Moment>,
                                    turns: seq<PrioItem>, i: nat, n: nat)
    requires SettingOk(s) && Chose(s, isFinal, source, run, turns) && |run| == |turns| + 1
    requires IsSource(s.pool, source) && n <= |turns|
    requires i < |source| && Candidate(isFinal, source[i].tx) && !Stuck(s.chain, s.have, source[i].tx)
    ensures QueuedWhenFree(run, ItemOf(s.chain, s.height, s.checks, source[i]), n)
  {
    hide *;
    if n == 0 {
      QueuedStart(s, isFinal, source, run, turns, i);
    } else {
      QueuedAt(s, isFinal, source, run, turns, i, n - 1);
      CandidateItem(s, isFinal, source, run, turns, i);
      QueuedStep(s, isFinal, source, run, turns, ItemOf(s.chain, s.height, s.checks, source[i]), n - 1);
    }
  }

  /** By any moment a candidate was queued if and only if each parent was taken at its first turn. */
  lemma QueuedIff(s: Setting, isFinal: Tx -> bool, source: seq<TxDesc>, run: seq<Moment>, turns: seq<PrioItem>,
                  i: nat, n: nat)
    requires SettingOk(s) && Chose(s, isFinal, source, run, turns) && |run| == |turns| + 1
    requires IsSource(s.pool, source) && n <= |turns|
    requires i < |source| && Candidate(isFinal, source[i].tx) && !Stuck(s.chain, s.have, source[i].tx)
    ensures var c := ItemOf(s.chain, s.height, s.checks, source[i]);
      QueuedBy(run, c, n) <==> AllTakenFirst(s, run, turns, c, n)
  {
    var c := ItemOf(s.chain, s.height, s.checks, source[i]);
    QueuedAt(s, isFinal, source, run, turns, i, n);
    WaitingAt(s, isFinal, source, run, turns, i, n);
    hide SettingOk, Chose, Stuck, Candidate, Waits, WaitsOf, TakenFirst, HadTurn, ListOf, QueuedBy;
    assert WaitsOf(run[n].p.dependsOn, Sha(c.tx)) == {} <==> AllTakenFirst(s, run, turns, c, n);
  }

  /** What is queued gets a turn at which it is not put back. */
  lemma {:induction false} GetsTurn(s: Setting, isFinal: Tx -> bool, source: seq<TxDesc>, run: seq<Moment>,
                                    turns: seq<PrioItem>, c: PrioItem, m: nat) returns (k: nat)
    requires Chose(s, isFinal, source, run, turns) && |run| == |turns| + 1 && m <= |turns|
    requires c in run[m].queue && run[|turns|].queue == multiset{}
    ensures m <= k < |turns| && turns[k] == c && !Returns(s, run[k].p, c)
    decreases |turns| - m
  {
    hide *;
    TurnAt(s, isFinal, source, run, turns, m);
    QueueStep(s, run[m].p, run[m].queue, turns[m], c);
    if turns[m] == c && !Returns(s, run[m].p, c) {
      k := m;
    } else {
      k := GetsTurn(s, isFinal, source, run, turns, c, m + 1);
    }
  }

  // ---------- The block grows ----------

  lemma {:induction false} TxsGrow(s: Setting, isFinal: Tx -> bool, source: seq<TxDesc>, run: seq<Moment>,
                                   turns: seq<PrioItem>, a: nat, b: nat)
    requires Chose(s, isFinal, source, run, turns) && |run| == |turns| + 1 && a <= b <= |turns|
    ensures run[a].p.b.txs <= run[b].p.b.txs
  {
    hide *;
    if a < b {
      TxsGrow(s, isFinal, source, run, turns, a, b - 1);
      TurnAt(s, isFinal, source, run, turns, b - 1);
      NextTxs(s, run[b - 1].p, turns[b - 1]);
    }
  }

  lemma TakenIsIn(s: Setting, isFinal: Tx -> bool, source: seq<TxDesc>, run: seq<Moment>, turns: seq<PrioItem>,
                  k: nat, n: nat)
    requires Chose(s, isFinal, source, run, turns) && |run| == |turns| + 1 && k < n <= |turns|
    requires Takes(s, run[k].p, turns[k])
    ensures turns[k].tx in run[n].p.b.txs
  {
    hide *;
    TurnAt(s, isFinal, source, run, turns, k);
    NextTxs(s, run[k].p, turns[k]);
    TxsGrow(s, isFinal, source, run, turns, k + 1, n);
    assert turns[k].tx == run[k + 1].p.b.txs[|run[k].p.b.txs|];
  }

  lemma {:induction false} InWasTaken(s: Setting, isFinal: Tx -> bool, source: seq<TxDesc>, run: seq<Moment>,
                                      turns: seq<PrioItem>, tx: Tx, n: nat) returns (k: nat)
    requires Chose(s, isFinal, source, run, turns) && |run| == |turns| + 1 && n <= |turns|
    requires tx in run[n].p.b.txs
    ensures k < n && turns[k].tx == tx && Takes(s, run[k].p, turns[k])
  {
    hide *;
    if n == 0 {
      StartAt(s, isFinal, source, run, turns);
    } else {
      TurnAt(s, isFinal, source, run, turns, n - 1);
      NextTxs(s, run[n - 1].p, turns[n - 1]);
      if tx in run[n - 1].p.b.txs {
        k := InWasTaken(s, isFinal, source, run, turns, tx, n - 1);
      } else {
        k := n - 1;
      }
    }
  }

  // ---------- Deciding ----------

  /** What a transaction spends from is on the chain or in the block. */
  ghost predicate ParentsIn(s: Setting, txs: seq<Tx>, tx: Tx) {
    forall o :: o in tx.ins ==> OnChain(s.chain, o.hash) || o.hash in Shas(txs)
  }

  lemma ParentsAreIn(s: Setting, isFinal: Tx -> bool, source: seq<TxDesc>, run: seq<Moment>, turns: seq<PrioItem>,
                     i: nat, n: nat)
    requires SettingOk(s) && Chose(s, isFinal, source, run, turns) && |run| == |turns| + 1
    requires IsSource(s.pool, source) && n <= |turns|
    requires i < |source| && Candidate(isFinal, source[i].tx) && !Stuck(s.chain, s.have, source[i].tx)
    requires ItemOf(s.chain, s.height, s.checks, source[i]) in run[n].queue
    ensures ParentsIn(s, run[n].p.b.txs, source[i].tx)
  {
    var c := ItemOf(s.chain, s.height, s.checks, source[i]);
    assert QueuedBy(run, c, n) && c.tx == source[i].tx;
    QueuedIff(s, isFinal, source, run, turns, i, n);
    hide SettingOk, Chose, Stuck, Candidate, Takes, HadTurn, OnChain;
    forall o | o in c.tx.ins && !OnChain(s.chain, o.hash) ensures o.hash in Shas(run[n].p.b.txs) {
      assert o.hash in Waits(s.chain, c.tx.ins);
      var k :| 0 <= k < n && Sha(turns[k].tx) == o.hash && Takes(s, run[k].p, turns[k]);
      TakenIsIn(s, isFinal, source, run, turns, k, n);
    }
  }

  /** Once its parents are in, what the block gains later does not matter to an item. */
  lemma UnmarkedLater(s: Setting, p: Progress, q: Progress, tx: Tx, o: OutPoint)
    requires Building(s, p) && Building(s, q) && p.b.txs <= q.b.txs && ParentsIn(s, p.b.txs, tx) && o in tx.ins
    ensures InputOk(Unmarked(s, p.b.txs, tx), s.height, o) <==> InputOk(Unmarked(s, q.b.txs, tx), s.height, o)
  {
    hide *;
    IncludedAreNew(s, q);
    SameParents(s, p.b.txs, q.b.txs, tx, o);
    UnmarkedSame(s, p.b.txs, q.b.txs, tx, o);
  }

  lemma SameParents(s: Setting, a: seq<Tx>, b: seq<Tx>, tx: Tx, o: OutPoint)
    requires a <= b && ParentsIn(s, a, tx) && o in tx.ins && forall h :: h in Shas(b) ==> h !in s.chain
    ensures o.hash in Shas(a) <==> o.hash in Shas(b)
  {
    assert forall x :: x in a ==> x in b;
  }

  lemma UnmarkedSame(s: Setting, a: seq<Tx>, b: seq<Tx>, tx: Tx, o: OutPoint)
    requires o in tx.ins && (o.hash in Shas(a) <==> o.hash in Shas(b))
    ensures InputOk(Unmarked(s, a, tx), s.height, o) <==> InputOk(Unmarked(s, b, tx), s.height, o)
  {
    hide Shas;
    assert o.hash in Wanted(tx);
    assert Unmarked(s, a, tx)[o.hash] == Unmarked(s, b, tx)[o.hash];
  }

  /** Marks never help an input. */
  lemma MarksNeverHelp(s: Setting, start: TxStore, b: Block, marks: seq<OutPoint>, tx: Tx, o: OutPoint)
    requires StoreIs(s, start, b, marks) && o in tx.ins && InputOk(b.store, s.height, o)
    requires forall h :: h in start ==> start[h] == FetchOne(s.chain, h)
    ensures o !in marks && InputOk(Unmarked(s, b.txs, tx), s.height, o)
  {
    hide OnChain;
    assert o == OutPoint(o.hash, o.index) && o.hash in Wanted(tx);
    assert Unmarked(s, b.txs, tx)[o.hash] == Clean(s.height, start, b.txs, o.hash);
  }

  /** A try that fails marks at least the first input, if that one passes. */
  lemma FirstMarked(store: TxStore, height: int, ins: seq<OutPoint>)
    requires ins != [] && InputOk(store, height, ins[0])
    ensures ins[0] in Passing(store, height, ins)
  {
    var one := ins[..1];
    assert one[..0] == [] && SumIns(one) == SumIns([]) + InValue(ins[0]);
    assert EachInputOk(store, height, one);
    assert PassThrough(store, height, ins, 1);
    assert PassingFrom(store, height, ins, 0) >= 1;
  }

  /** An item that was tried once never goes into the block at a later turn. */
  lemma TriedOnce(s: Setting, isFinal: Tx -> bool, source: seq<TxDesc>, run: seq<Moment>, turns: seq<PrioItem>,
                  i: nat, k: nat, n: nat)
    requires SettingOk(s) && Chose(s, isFinal, source, run, turns) && |run| == |turns| + 1
    requires IsSource(s.pool, source) && NoConflict(s.pool) && k < n < |turns|
    requires i < |source| && Candidate(isFinal, source[i].tx) && !Stuck(s.chain, s.have, source[i].tx)
    requires turns[k] == turns[n] == ItemOf(s.chain, s.height, s.checks, source[i])
    requires FirstTry(s, run, turns, k) && Tried(s, run[k].p, turns[k])
    ensures !Takes(s, run[n].p, turns[n])
  {
    hide *;
    var c := turns[k];
    ItemOfTx(s.chain, s.height, s.checks, source[i]);
    TurnAt(s, isFinal, source, run, turns, k);
    TurnAt(s, isFinal, source, run, turns, n);
    TurnItem(s, isFinal, source, run, turns, k);
    if Takes(s, run[k].p, c) {
      TakenIsIn(s, isFinal, source, run, turns, k, n);
      IncludedNeverPasses(s, run[n].p, c);
    } else if Takes(s, run[n].p, c) {
      var o := c.tx.ins[0];
      TakesInput(s, run[n].p, c, o);
      StartsFetched(s, isFinal, source, run, turns);
      StoreAt(s, isFinal, source, run, turns, n);
      MarksNeverHelp(s, run[0].p.b.store, run[n].p.b, Marks(s, run, turns, n), c.tx, o);
      ParentsAreIn(s, isFinal, source, run, turns, i, k);
      TxsGrow(s, isFinal, source, run, turns, k, n);
      UnmarkedLater(s, run[k].p, run[n].p, c.tx, o);
      InputIsFair(s, isFinal, source, run, turns, k, o);
      FirstMarked(run[k].p.b.store, s.height, c.tx.ins);
      TriedMarks(s, run[k].p, c);
      MarkedWhen(s, run, turns, n, o);
      assert false;
    }
  }

  lemma TakesInput(s: Setting, p: Progress, c: PrioItem, o: OutPoint)
    requires Takes(s, p, c) && o in c.tx.ins
    ensures InputOk(p.b.store, s.height, o)
  {
  }

  lemma TriedMarks(s: Setting, p: Progress, c: PrioItem)
    requires Tried(s, p, c)
    ensures TurnMarks(s, p, c) == Passing(p.b.store, s.height, c.tx.ins)
  {
  }

  /** The item goes in at this turn, as far as the chain and the block decide. */
  ghost predicate GoesIn(s: Setting, p: Progress, c: PrioItem) {
    && Tried(s, p, c)
    && InputsOk(Unmarked(s, p.b.txs, c.tx), s.height, c.tx)
    && s.checks.scriptsValid(c.tx, Marked(p.b.store, c.tx.ins))
  }

  /** A candidate that is not abandoned has a turn if and only if each of its unmined parents was
      taken at its first turn; then there is one at which it is not put back.  It is in the template
      if and only if, at a turn before which it was not tried, it fits, pays or finds the block small,
      passes the script check, and passes the input check on the chain and the block alone. */
  lemma DependentDecided(s: Setting, isFinal: Tx -> bool, source: seq<TxDesc>, run: seq<Moment>,
                         turns: seq<PrioItem>, t: Template, i: nat)
    requires SettingOk(s) && IsSource(s.pool, source) && NoConflict(s.pool)
    requires s.coinbase.outs != [] && Made(s, isFinal, source, run, turns, t)
    requires i < |source| && Candidate(isFinal, source[i].tx) && !Stuck(s.chain, s.have, source[i].tx)
    ensures |run| == |turns| + 1
    ensures var c := ItemOf(s.chain, s.height, s.checks, source[i]);
      && ((exists k :: 0 <= k < |turns| && turns[k] == c) <==> AllTakenFirst(s, run, turns, c, |turns|))
      && (AllTakenFirst(s, run, turns, c, |turns|) ==>
            exists k :: 0 <= k < |turns| && turns[k] == c && !Returns(s, run[k].p, c))
      && (c.tx in t.txs[1..] <==>
            exists k :: 0 <= k < |turns| && turns[k] == c && FirstTry(s, run, turns, k) && GoesIn(s, run[k].p, c))
  {
    hide *;
    MadeParts(s, isFinal, source, run, turns, t);
    TurnIff(s, isFinal, source, run, turns, i);
    InTemplateIff(s, isFinal, source, run, turns, i);
  }

  lemma TurnIff(s: Setting, isFinal: Tx -> bool, source: seq<TxDesc>, run: seq<Moment>, turns: seq<PrioItem>, i: nat)
    requires SettingOk(s) && Chose(s, isFinal, source, run, turns) && |run| == |turns| + 1
    requires IsSource(s.pool, source) && run[|turns|].queue == multiset{}
    requires i < |source| && Candidate(isFinal, source[i].tx) && !Stuck(s.chain, s.have, source[i].tx)
    ensures var c := ItemOf(s.chain, s.height, s.checks, source[i]);
      && ((exists k :: 0 <= k < |turns| && turns[k] == c) <==> AllTakenFirst(s, run, turns, c, |turns|))
      && (AllTakenFirst(s, run, turns, c, |turns|) ==>
            exists k :: 0 <= k < |turns| && turns[k] == c && !Returns(s, run[k].p, c))
  {
    var c := ItemOf(s.chain, s.height, s.checks, source[i]);
    QueuedIff(s, isFinal, source, run, turns, i, |turns|);
    hide SettingOk, Chose, Stuck, Candidate, AllTakenFirst, ItemOf, Returns;
    if QueuedBy(run, c, |turns|) {
      var m :| 0 <= m <= |turns| && c in run[m].queue;
      var k := GetsTurn(s, isFinal, source, run, turns, c, m);
    }
    if k :| 0 <= k < |turns| && turns[k] == c {
      TurnAt(s, isFinal, source, run, turns, k);
    }
  }

  /** What was taken was not tried before. */
  lemma TakenIsFirstTry(s: Setting, isFinal: Tx -> bool, source: seq<TxDesc>, run: seq<Moment>, turns: seq<PrioItem>,
                        i: nat, n: nat)
    requires SettingOk(s) && Chose(s, isFinal, source, run, turns) && |run| == |turns| + 1
    requires IsSource(s.pool, source) && NoConflict(s.pool) && n < |turns|
    requires i < |source| && Candidate(isFinal, source[i].tx) && !Stuck(s.chain, s.have, source[i].tx)
    requires turns[n] == ItemOf(s.chain, s.height, s.checks, source[i]) && Takes(s, run[n].p, turns[n])
    ensures FirstTry(s, run, turns, n)
  {
    hide SettingOk, Chose, Stuck, Candidate, ItemOf, Takes, Tried, NoConflict;
    if !FirstTry(s, run, turns, n) {
      var k := EarliestTry(s, run, turns, n);
      TriedOnce(s, isFinal, source, run, turns, i, k, n);
    }
  }

  lemma {:induction false} EarliestTry(s: Setting, run: seq<Moment>, turns: seq<PrioItem>, n: nat) returns (k: nat)
    requires |run| == |turns| + 1 && n < |turns| && !FirstTry(s, run, turns, n)
    ensures k < n && turns[k] == turns[n] && FirstTry(s, run, turns, k) && Tried(s, run[k].p, turns[k])
  {
    hide Tried;
    k :| 0 <= k < n && turns[k] == turns[n] && Tried(s, run[k].p, turns[k]);
    if !FirstTry(s, run, turns, k) {
      k := EarliestTry(s, run, turns, k);
    }
  }

  lemma InTemplateIff(s: Setting, isFinal: Tx -> bool, source: seq<TxDesc>, run: seq<Moment>, turns: seq<PrioItem>,
                      i: nat)
    requires SettingOk(s) && Chose(s, isFinal, source, run, turns) && |run| == |turns| + 1
    requires IsSource(s.pool, source) && NoConflict(s.pool)
    requires i < |source| && Candidate(isFinal, source[i].tx) && !Stuck(s.chain, s.have, source[i].tx)
    ensures var c := ItemOf(s.chain, s.height, s.checks, source[i]);
      c.tx in run[|turns|].p.b.txs <==>
      exists k :: 0 <= k < |turns| && turns[k] == c && FirstTry(s, run, turns, k) && GoesIn(s, run[k].p, c)
  {
    var c := ItemOf(s.chain, s.height, s.checks, source[i]);
    CandidateItem(s, isFinal, source, run, turns, i);
    hide *;
    if c.tx in run[|turns|].p.b.txs {
      var k := InWasTaken(s, isFinal, source, run, turns, c.tx, |turns|);
      TurnAt(s, isFinal, source, run, turns, k);
      TakenIsFirstTry(s, isFinal, source, run, turns, i, k);
      GoesInIff(s, isFinal, source, run, turns, k);
    }
    if k :| 0 <= k < |turns| && turns[k] == c && FirstTry(s, run, turns, k) && GoesIn(s, run[k].p, c) {
      GoesInIff(s, isFinal, source, run, turns, k);
      TakenIsIn(s, isFinal, source, run, turns, k, |turns|);
    }
  }

  lemma GoesInIff(s: Setting, isFinal: Tx -> bool, source: seq<TxDesc>, run: seq<Moment>, turns: seq<PrioItem>, k: nat)
    requires SettingOk(s) && Chose(s, isFinal, source, run, turns) && NoConflict(s.pool) && |run| == |turns| + 1
    requires k < |turns| && FirstTry(s, run, turns, k)
    ensures Takes(s, run[k].p, turns[k]) <==> GoesIn(s, run[k].p, turns[k])
  {
    FirstTryIsFair(s, isFinal, source, run, turns, k);
    hide SettingOk, Chose, NoConflict, FirstTry, Tried, InputsOk, Unmarked;
  }
}
