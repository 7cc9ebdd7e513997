# Verified model of the btcd node core and the BIP39 codec

This project models the stateful core of the repository in Dafny and proves what that state
keeps. Each module follows one component.

| file | component |
|---|---|
| `Ledger.dfy` | transactions, the main chain as its spent flags, mining a block |
| `Validation.dfy` | transaction stores, 64-bit amounts and the input checks that pool and miner share |
| `Supply.dfy` | the money on the chain, and what mining does to it |
| `PoolIndex.dfy` | the pool's five maps as values: what they must agree on, and what each step does to them |
| `BlockConnect.dfy` | what a connected block means for a pool that fitted the chain below it |
| `PoolTheorems.dfy` | what the pool's invariant is worth: removal, ancestry, mining the whole pool |
| `RelayMeter.dfy` | the decaying byte count that limits free transactions |
| `PoolRules.dfy` | what the pool decides, as functions of what it holds: policy, acceptance, a run of offered orphans, a connected block |
| `MemPool.dfy` | the class `TxMemPool` |
| `Heap.dfy` | the array heap of Go's `container/heap`, which two components drive |
| `Mining.dfy` | the priority queue and the block template builder |
| `MiningTheorems.dfy` | what the builder's runs mean: the exact store, fair turns, no ready candidate forgotten |
| `MiningDependents.dfy` | candidates that wait for others: when they are queued and how they are decided |
| `MiningTemplates.dfy` | the order in which items are taken, and what each template transaction meets |
| `IndexWriter.dfy` | the address index writer and the catch-up phase around it |
| `HeaderChain.dfy` | block hashes, header lists, checkpoints |
| `SyncSteps.dfy` | the single steps of headers-first sync on values |
| `HeaderSync.dfy` | the class `BlockManager` with the message handlers, and the class `Peer` |
| `Bip39.dfy` | the BIP39 codec on bytes |

## How to read the model

**Hashes.** A transaction hash is the datatype value `TxId(tx)` and a block hash `OfHeader(header)`;
hashes of unknown things are raw numbers. This is the premise of an ideal hash function: it makes
hashes identify what they are taken of, and makes "spends an output of" and "is the parent of"
acyclic without further assumptions. The all-zero hash is a raw one.

**The chain** is a map from transaction hash to height and spent flags. It is a parameter of the
pool's methods, as it is fixed while the pool's lock is held; connecting a block passes from the
old chain to the new one. A mined transaction whose outputs are all spent reads as missing, which
is how the database answers. The database is reliable: it never fails for another reason.

**Verdicts from elsewhere** are functions in `Checks`: script validity, standardness, signature
operation counts and transaction priority. Nothing is assumed of them except that the counts are Go
`int`s. Priorities, fee thresholds and the rate limiter use `real`. Time, random numbers, map
iteration order and the order of a map's keys are arbitrary. What the block chain says about a
block, a peer's candidacy and what is already had are parameters of the handlers.

**The pool's invariant.** `TxMemPool.Valid` holds of the maps alone: `outpoints` maps an output to
a transaction if and only if that is pooled and spends it; the by-parent index is the exact inverse
of the orphans' references; orphans and pool are disjoint; unless the random source has failed, the
orphans stay within a positive limit; every pooled transaction is indexed under each address it
touches; and the byte count is the replay of its charges. Every method keeps it. `Fits(chain, pool, pending)`
relates the pool to a chain: each input of each pooled transaction is unspent on the chain or comes
from the pool, and nothing pooled is mined. Acceptance, orphan processing, removal with redeemers,
removal of double spends and connecting a block all keep both. `Saturated` says that no orphan is
left behind whose parents are all there; `excused` names the hashes whose spenders are exempt.
`Doomed` is a transaction with everything pooled that transitively spends from it, and `Ousted` is
everything removed for spending what a transaction spends.

**What the pool decides** depends on a `Stage`: the pool, the orphans, and the attempts the rate
limiter has seen. `Judged` is what an acceptance attempt makes of it, `AfterOffer` what offering an
orphan does: it is accepted, put back while it lacks a parent, or dropped. `ProcessOrphans` reports the
offers it made as a ghost log, and its contract says that the log leads from the old stage to the new
one (`Offered`) and that only those were offered that spend from the given hash or from what was
accepted on the way (`Reached`). `BlockConnected` reports one such log for each block transaction
(`Connected`). In these contracts and in the conditions they rest on limits are written as numbers,
so that they do not depend on the constants that the methods use.

**Templates.** An item of the priority queue is identified by its transaction, so an item that
waits in two lists or sits in the queue twice is one item, as with the pointers of the source. The
counters wrap like the `uint32` and `int64` they stand for. Size and signature operations are proved
never to do so; neither does the fee counter as long as no more money is unspent on the chain than
there can be, `AtMost(chain, MAX_SATOSHI)`: what is taken in can be mined, and so its fees come out
of that money. `AtMost` is a premise about the chain alone; `SupplyGrows` says that every block whose
coinbase takes no more than subsidy and fees keeps it, grown by the subsidy. The coinbase, its script
included, is a parameter. `NewBlockTemplate` also reports the run it made, as ghost results: the moments `run` of the choosing loop and the items `turns` popped between them.
`Made` says that the run starts where the source puts it (`StartsAt`: exactly its items, waiting
lists, store and queue), that each step is a turn of a maximal queued item with the outcome `Next`
lays down, store included, that the queue ends empty, and that the template holds what was chosen.
The theorems about templates are about such runs.

**Header sync.** The header list is a sequence, and `startHeader` a cursor that is either nowhere,
at an entry, or at an entry that left the list meanwhile, with the entries that can still be reached
from it: none after the removal of that entry, all that followed when the list was emptied. `live`
(connected peers), `fastAdded` (every block ever given BFFastAdd) and `verified` (a checkpoint header
was verified and its block is still to come) are ghost state. `Orderly` is an invariant of every run
in which the chain keeps two promises: when it takes itself to be current it has passed every
checkpoint (`CurrentIsPast`, kept by `btcd/blockchain/chain.go:1049-1052`), and once its height has
reached a checkpoint it never falls below it (`TipKept`, kept by
`btcd/blockchain/validate.go:645-653`). In every such run BFFastAdd goes to checkpoints and their
ancestors only. Even without the promises it does between the verification of a checkpoint header and
the handling of its block or a reset. Messages come from connected peers, and each peer is announced
once.

**Where comments and code differ**, the model follows the code: the best sync peer is the last
remaining candidate, not the first (`btcd/blockmanager.go:312-314`); the template builder lets an
output index one past the end through its availability check (`btcd/mining.go:510`) and only the
input check refuses it; `CheckTransactionInputs` leaves the spent marks of earlier inputs behind
when a later input fails (`btcd/blockchain/validate.go:944`).

## Model

| member | source | states |
|---|---|---|
| Ledger.BlockDistinct | btcd/mining.go:236-254 | a sequence of transactions that can be mined one after the other holds none twice and none that is mined already |
| Ledger.BlockInputs | btcd/mining.go:236-254 | in such a sequence each input is unspent on the old chain or an output of an earlier transaction, and no two inputs name the same output |
| Ledger.SpendersComeLater | btcd/blockmanager.go:1221-1226 | whatever on the new chain spends from a block transaction is a later transaction of the same block |
| Ledger.ApplyBlockValid | btcd/blockchain/txlookup.go:34-60 | mining a block keeps the chain valid: each input of a mined transaction is a mined output marked spent |
| Validation.CheckTransactionSanity | btcd/blockchain/validate.go:199-295 | passes exactly what has inputs and outputs, fits the block payload, has amounts from 0 to 21 million coins one by one and in total, names no input twice, and names the null output only as a coinbase |
| Validation.CheckTransactionInputs | btcd/blockchain/validate.go:863-968 | the fee is returned exactly when every input is present, mature, in range, unspent, named once and of sane value, and inputs cover outputs; the inputs before the first that fails, and no others, stay marked spent in the store |
| Validation.InputsOkMeans | btcd/blockchain/validate.go:871-961 | that condition input by input: found, in range, unspent, worth 0 to 21 million coins, at least 100 blocks deep if a coinbase made it, and none named twice |
| PoolIndex.NoDoubleSpendInPool | btcd/mempool.go:520-531 | two pooled transactions that spend the same output are the same transaction |
| PoolIndex.OutpointIndexUnique | btcd/mempool.go:313-339 | the pool determines its outpoint map: no entry is stale or lacking |
| PoolIndex.OrphanIndexUnique | btcd/mempool.go:119-142 | the orphans determine the by-parent index: it is exactly the inverse of their parent references, without empty buckets |
| PoolIndex.DescendantsShrink | btcd/mempool.go:313-339 | the descendants of a redeemer in what is left of the pool are strictly fewer than those of the removed transaction, so recursive removal ends on diamonds and for transactions not pooled |
| PoolIndex.PruneComplete | btcd/mempool.go:313-339 | once the redeemers of every output were removed one by one, exactly the descendants are gone |
| PoolIndex.OustedLeavesNoRival | btcd/mempool.go:404-416 | after double spends are removed no other pooled transaction spends what the given one spends |
| PoolIndex.OustedIsClean | btcd/mempool.go:404-416 | removing double spends takes the spenders of everything removed along |
| PoolIndex.SaturatedAccepted | btcd/mempool.go:878-955 | when an orphan is accepted only those that spend from it can have become complete, and they are still to be offered |
| PoolIndex.StoreForAccepted | btcd/mempool.go:727-733 | a transaction that passes the input check has every parent mined or pooled and spends existing, unspent outputs |
| BlockConnect.FitsNext | btcd/blockmanager.go:1221-1226 | removing a mined transaction without its redeemers and its double spenders keeps the pool fitting the new chain, with the later block transactions pending |
| BlockConnect.PooledInBlock | btcd/blockmanager.go:1221-1226 | whatever is pooled and mined after a block is connected is one of its non-coinbase transactions |
| BlockConnect.SurvivorSpared | btcd/blockmanager.go:1221-1226 | taking out a block transaction and its double spenders leaves every pooled transaction that is neither in the block nor in conflict with it nor relying on one that is, even if it spends from the block |
| BlockConnect.LeftAreSurvivors | btcd/blockmanager.go:1221-1226 | of the old pool exactly those survivors are left once the block is connected |
| BlockConnect.BlockSettled | btcd/blockmanager.go:1221-1226 | if the pool fits the new chain, no block transaction is pooled and nothing pooled spends what one of them spends |
| PoolTheorems.RemovalKeepsFit | btcd/mempool.go:313-339 | removal with redeemers and removal of double spends leave no pooled transaction without a parent |
| PoolTheorems.AncestorsAvailable | btcd/mempool.go:603-853 | following the inputs of a pooled transaction back through the pool always ends on the chain |
| PoolTheorems.PoolIsMinable | btcd/mempool.go:603-853 | any sequence of distinct pooled transactions, each after the pooled ones it spends from, can be mined on the chain |
| PoolTheorems.MiningOrderExists | btcd/mempool.go:603-853 | the whole pool can be put into such a sequence |
| PoolRules.RelayFeeScales | btcd/policy.go:57-76 | for every relay fee up to the money there is, the required fee is the true scaled one at all sizes up to the block payload if and only if the relay fee times that payload is at most 2^64 - 1000; beyond that the 64-bit product goes round |
| Supply.TxSupply | btcd/blockchain/validate.go:945-967 | mining a transaction takes its fee out of the money on the chain; a coinbase adds its outputs |
| Supply.BlockSupply | btcd/blockchain/validate.go:1073-1088 | mining a block takes the fees of its transactions out of the money on the chain |
| Supply.FeesBounded | btcd/blockchain/validate.go:1073-1088 | the fees of transactions that can be mined in order never exceed the money on the chain |
| Supply.SupplyGrows | btcd/blockchain/validate.go:1090-1107 | a block whose coinbase takes no more than subsidy and fees makes the money on the chain grow by no more than the subsidy |
| PoolRules.AcceptedMeans | btcd/mempool.go:603-853 | what an accepted transaction meets, field by field: lock time, no pooled rival, amounts, scripts, at most 4000 signature operations, and the relay fee or else less than 49000 bytes, high priority where demanded and the leave of the rate limiter |
| PoolRules.AcceptedInputs | btcd/blockchain/validate.go:871-905 | each input of an accepted transaction is an unspent output on the chain, 100 blocks deep by the next block if a coinbase made it, or an output of a pooled transaction |
| PoolRules.OrphanLeft | btcd/mempool.go:878-955 | in every run of offers an orphan that leaves was accepted or refused at its own offer, on the pool of that moment and lacking no parent, or was evicted at the limit for one that was put back |
| PoolRules.OrphanEntered | btcd/mempool.go:878-955 | whatever enters the pool was offered and met every condition of acceptance on the pool of that moment, and nothing pooled is lost or changed |
| PoolRules.BlockOrphanLeft | btcd/blockmanager.go:1221-1226 | while a block is connected an orphan leaves only by being in the block, by such an offer, or by eviction |
| PoolRules.BlockOrphanEntered | btcd/blockmanager.go:1221-1226 | whatever a block brings into the pool met every condition of acceptance when it was offered |
| RelayMeter.TotalBounded | btcd/mempool.go:811-833 | while the clock does not go back the decaying total stays from 0 to below the limit plus one maximal charge |
| RelayMeter.RelayedStillCounted | btcd/mempool.go:811-833 | bytes let through keep counting, faded by no more than their age |
| RelayMeter.WindowBounded | btcd/mempool.go:811-833 | the free bytes let through in any T seconds are below (limit + 49000) / (599/600)^T |
| RelayMeter.FadeUndoesInflate | btcd/mempool.go:815-817 | what a clock that is set back adds to the total fades away exactly when those seconds pass again |
| MemPool.TxMemPool.PennyTotalBounded | btcd/mempool.go:811-833 | in every pool state reached with a clock that never went back the byte count is below the limit plus 49000 |
| MemPool.TxMemPool.FreeBytesBounded | btcd/mempool.go:811-833 | and so the bound on free bytes per time window holds of the pool's own history |
| MemPool.TxMemPool.constructor | btcd/mempool.go:1106-1119 | an empty pool is valid |
| MemPool.TxMemPool.FetchInputTransactions | btcd/mempool.go:538-559 | the store answers from the chain where it can, then from the pool, and says what is missing |
| MemPool.TxMemPool.FetchReferencedOutputScripts | btcd/mempool.go:474-489 | returns the outputs spent of all parents that can be fetched |
| MemPool.TxMemPool.RemoveTransaction | btcd/mempool.go:313-339 | with redeemers removes exactly the transaction and all that transitively spends from it, and otherwise the transaction alone; the outpoint map keeps agreeing with the pool, and of the address map exactly the entries of removed transactions go, under addresses they pay or spend from as far as that can be looked up |
| MemPool.TxMemPool.RemoveRedeemers | btcd/mempool.go:319-327 | removes exactly the pooled descendants, whether or not the transaction itself is pooled, and their address entries |
| MemPool.TxMemPool.Detach | btcd/mempool.go:328-338 | takes one transaction, its outpoints and its address entries out, nothing else |
| MemPool.TxMemPool.RemoveDoubleSpends | btcd/mempool.go:404-416 | removes exactly the other pooled spenders of the transaction's inputs, with all their descendants and their address entries |
| MemPool.TxMemPool.AddTransaction | btcd/mempool.go:423-443 | a resolved transaction none of whose inputs is claimed enters the pool and all indexes, the address index under exactly the addresses it touches |
| MemPool.TxMemPool.RemoveTransactionFromAddrIndex | btcd/mempool.go:345-362 | clears the transaction from exactly the addresses it pays and those it can still be seen to spend from |
| MemPool.TxMemPool.AddTransactionToAddrIndex | btcd/mempool.go:450-467 | enters the transaction under every address it touches |
| MemPool.TxMemPool.CheckPoolDoubleSpend | btcd/mempool.go:520-531 | reports a conflict exactly when an input is claimed by a pooled transaction |
| MemPool.TxMemPool.FilterTransactionsByAddress | btcd/mempool.go:580-596 | with the index on yields exactly the pooled transactions that pay the address or spend an output that paid it, each once, in spite of left-over entries |
| MemPool.TxMemPool.RemoveOrphan | btcd/mempool.go:119-142 | removes the orphan and keeps the by-parent index its exact inverse |
| MemPool.TxMemPool.LimitNumOrphans | btcd/mempool.go:158-188 | at the limit a single orphan is evicted, or none if no random number can be had, which is reported; below it none is |
| MemPool.TxMemPool.AddOrphan | btcd/mempool.go:194-211 | the orphan is kept, all others stay, or at the limit all but one |
| MemPool.TxMemPool.MaybeAddOrphan | btcd/mempool.go:216-238 | keeps the orphan exactly when it is not too large |
| MemPool.TxMemPool.RateLimit | btcd/mempool.go:811-833 | lets a transaction pass exactly when the decayed total is below the limit, enters the attempt with its size, and the meter stays the replay of its history |
| MemPool.TxMemPool.CheckPolicy | btcd/mempool.go:735-841 | passes exactly the transactions with standard inputs, bounded signature operations, valid scripts, and enough fee or else small size, high priority where demanded, and leave of the rate limiter, which is asked exactly when everything before it passes and only the fee is too low |
| MemPool.TxMemPool.MaybeAcceptTransaction | btcd/mempool.go:603-853 | says when a transaction is accepted and with what record, and when it is an orphan and for which parents, both as if-and-only-if; the pool, the orphans and the rate limiter's history afterwards are given exactly |
| MemPool.TxMemPool.ProcessOrphans | btcd/mempool.go:878-955 | terminates; if only spenders of the given hash could have all their parents before, no orphan has all its parents afterwards; pool, orphans and history are what a log of offers makes of them, in which each offered orphan is accepted exactly if it meets the conditions on the pool of that moment, is put back exactly if it lacks a parent, and spends from the hash or from one accepted before |
| MemPool.TxMemPool.OfferDependent | btcd/mempool.go:897-952 | an orphan that is still kept is offered once; it is accepted if and only if it passes the screening tests, lacks no parent and meets inputs and policy as a new, rate limited transaction, is put back if and only if it passes the screening tests and lacks a parent, and is dropped otherwise; if only offered ones could be complete before, only those not offered yet can be afterwards |
| MemPool.TxMemPool.ProcessTransaction | btcd/mempool.go:976-1026 | keeps every invariant and orphan saturation; accepted if and only if it meets the conditions of acceptance as a new transaction, and then its dependents are offered; kept as an orphan if and only if screened, lacking a parent, allowed and at most 5000 bytes, with at most one other evicted; else only the rate limiter's history can change |
| MemPool.TxMemPool.BlockConnected | btcd/blockmanager.go:1221-1226 | of the old pool exactly those stay that are not in the block and neither conflict with it nor rely on one that does, unchanged; what is pooled and kept besides is what a log of offers for each block transaction makes of it; no block transaction is pooled or kept as an orphan, nothing pooled spends what one of them spends, every pooled parent is on the new chain or pooled, and saturation holds but for spenders of the new coinbase |
| MemPool.TxMemPool.ConnectOne | btcd/blockmanager.go:1221-1226 | one turn takes out the transaction, its double spenders and its orphan copy, offers those who wait for it as its log says, and keeps the above for the block transactions handled so far |
| Heap.RootIsLeast | btcd/mining.go:71-105 | no element of a heap sorts before its root |
| Heap.Init | btcd/mining.go:109-112 | re-heapifies any sequence into a permutation of it that is a heap under the new order |
| Heap.Push | btcd/chainindexer.go:323-323 | adds one element and keeps the heap |
| Heap.Pop | btcd/chainindexer.go:336-336 | removes an element that none sorts before, and keeps the heap of the rest |
| Mining.BothAreOrders | btcd/mining.go:116-135 | both comparators are strict weak orders, ties included |
| Mining.TxPriorityQueue.SetLessFunc | btcd/mining.go:109-112 | the queue keeps its items and is a heap under the new ordering |
| Mining.TxPriorityQueue.Push | btcd/mining.go:92-94 | one item more, as a multiset |
| Mining.TxPriorityQueue.Pop | btcd/mining.go:98-105 | one item less, and no queued item sorts before it under the ordering in force |
| Mining.MergeTxStore | btcd/mining.go:169-177 | entries already known keep their spent flags |
| Mining.SpendTransaction | btcd/mining.go:236-254 | marks the inputs whose transactions the store knows, skips the others, and enters the outputs as unspent |
| Mining.PassingCanBeMined | btcd/mining.go:649-656 | whatever passes the input check on the simulated store can be mined on top of the block so far |
| Mining.SpendSound | btcd/mining.go:236-254 | after spending, the simulated store never shows an output unspent that the block with the transaction included has spent |
| Mining.StuckNeverPasses | btcd/mining.go:474-505 | an item abandoned because an input is not available can never pass the input check, should it be queued through a parent's list |
| Mining.SetUpDependencies | btcd/mining.go:470-517 | a candidate is abandoned exactly when an input is not available; up to there it waits for its parents that are not mined, and each lists it once per input that spends from it |
| Mining.ConsiderSource | btcd/mining.go:443-542 | what each kind of candidate adds to the items, the waiting lists and the queue |
| Mining.Prepare | btcd/mining.go:440-542 | items, first needs, waiting lists and fetched transactions are exactly those the source makes, and the queue starts with exactly the candidates that wait for nothing, each once |
| Mining.AddSigOps | btcd/mining.go:577-583 | the fixed-width overflow test accepts exactly the true sums within the limit |
| Mining.FitsBlock | btcd/mining.go:565-601 | the size and signature tests, with their wrap-around, accept exactly what fits by true sums |
| Mining.EndPriorityArea | btcd/mining.go:615-645 | when the ordering changes, and that the item goes back exactly when it is outside the priority area |
| Mining.TryInclude | btcd/mining.go:649-672 | included exactly when inputs and scripts pass; the block can still be mined, and the store is changed by exactly the marks of the inputs that got through, or by spending the transaction |
| Mining.ReleaseDependents | btcd/mining.go:687-699 | strikes the parent off, and queues exactly the listed items that wait for nothing else, as often as they are listed |
| Mining.ScheduledMore | btcd/mining.go:687-699 | an item enters the queue only after all its pooled parents are in the block |
| Mining.TakeBest | btcd/mining.go:553-563 | no queued item has a higher fee rate than the popped one, or the same and a higher priority, after the change of ordering, and the other way round before it; the item's waiting list is gone |
| Mining.SelectNext | btcd/mining.go:552-700 | each turn takes an item that none beats by fee rate and priority, in the order in force, and leads to exactly the state laid down for it: in the block, refused, or put back; turns end by queue length, waiting entries and the one change of ordering |
| Mining.NewBlockTemplate | btcd/mining.go:410-708 | the template is what a complete run of the choosing loop from the source makes; it can be mined in order on the chain, coinbase first; items before the change of ordering have high priority and fit the priority area, later ones pay or fit the minimum size; size and signature operations are within the limits, and over a chain that holds no more money than there can be the amounts are the true ones |
| MiningTheorems.ReadyDecided | btcd/mining.go:552-700 | no ready candidate is forgotten: each has one turn at which it is not put back, and it is in the template if and only if at that turn it fits, pays or fits the minimum size, passes the script check, and passes the input check on what the database returned for it alone |
| MiningTheorems.FirstTryIsFair | btcd/mining.go:649-656 | at its first try any item, waiting and abandoned ones too, passes the input check if and only if it does on the chain and the block so far: marks that refused candidates left in the shared store never count against another |
| MiningTheorems.CountersExact | btcd/mining.go:545-549 | at every moment of a run size, signature operations and fees are the true sums and none has wrapped, given that no more money is unspent on the chain than there can be |
| MiningDependents.QueuedIff | btcd/mining.go:687-699 | by any moment a candidate that is not abandoned was queued if and only if each of its unmined parents was taken at its first turn: a parent that was put back or refused first never releases it |
| MiningDependents.DependentDecided | btcd/mining.go:552-700 | in the finished run such a candidate has a turn if and only if its parents were all taken at their first turn, and then one at which it is not put back; it is in the template if and only if at its first try it fits, pays or fits the minimum size, passes the script check, and passes the input check on the chain and the block alone |
| MiningDependents.TriedOnce | btcd/mining.go:649-656 | an item that was tried once, with success or not, never goes into the block at a later turn |
| MiningTemplates.BestFirst | btcd/mining.go:116-135 | at every turn after the change of ordering each queued item has at most the fee rate of the one taken, and at most its priority on a tie; before the change the two count the other way round |
| MiningTemplates.OrderingChanges | btcd/mining.go:615-645 | the ordering is by fee from the start only without a priority area; it changes to it at the first turn of an item that fits the block but fills the area or has no more than the minimal high priority, and never back |
| MiningTemplates.TemplateFinal | btcd/mining.go:447-456 | every template transaction but the first is final and no coinbase |
| MiningTemplates.TemplateMature | btcd/blockchain/validate.go:881-895 | no template transaction spends a coinbase output of the chain that is fewer than 100 blocks below the block |
| MiningTheorems.StoreAt | btcd/mining.go:169-254 | at every moment the simulated store is what was fetched and the block's outputs, with exactly the inputs marked that turns so far marked |
| MiningTheorems.SpentExactly | btcd/mining.go:236-254 | the store shows an output spent if and only if the chain has spent it or a turn so far has marked it |
| MiningTheorems.IncludedNeverPasses | btcd/mining.go:688-699 | an item queued twice fails its second turn once it is in the block |
| MiningTheorems.IndexedPoolHasNoConflict | btcd/mempool.go:520-531 | a pool with its outpoint index meets the premise of the fairness theorems |
| Mining.TemplateExtends | btcd/mining.go:410-436 | a template whose coinbase is not mined yet is a block that connects, so that the pool's theorem on connected blocks applies to it |
| Mining.TemplateInputs | btcd/mining.go:474-505 | in every template each input refers to an output unspent on the chain or one of an earlier template transaction, no output is spent twice, by one transaction or by two, and no transaction appears twice or is mined already |
| Mining.FeeRateExact | btcd/mining.go:525-526 | the fee per thousand bytes of a pooled transaction is the true one: its 64-bit product does not wrap |
| Mining.FeeCounterExact | btcd/mining.go:678-678 | the fee counter of a block under construction is the true sum of its fees, given that no more money is unspent on the chain than there can be |
| Mining.ExactAmounts | btcd/mining.go:707-708 | for every template over such a chain, and a subsidy that is an amount, the coinbase pays its own value and the true sum of the fees, and its fee entry is minus that sum |
| Mining.TemplateKeepsSupply | btcd/mining.go:707-735 | the outputs of the template's coinbase are worth exactly what it was given and the fees, so that mining the template adds to the money on the chain what the coinbase was given |
| Mining.CoinbaseFirst | btcd/mining.go:410-420 | putting a coinbase in front changes nothing for the transactions behind it |
| IndexWriter.LessIsOrder | btcd/chainindexer.go:279-281 | comparing heights is a strict weak order |
| IndexWriter.Writer.Receive | btcd/chainindexer.go:322-358 | nothing is lost or written twice, each write is at most one above the tip, what one request sets free is written in ascending order, and what stays in the heap is not ready |
| IndexWriter.Writer.Commit | btcd/chainindexer.go:370-382 | a write moves the tip to its height |
| IndexWriter.NoGap | btcd/chainindexer.go:303-307 | every height between the start tip and a written height was written before it |
| IndexWriter.CommittedIsPrefix | btcd/chainindexer.go:308-390 | if heights are handed out once each, what is written is at any time the first part of what was handed out, in order |
| IndexWriter.ServeAll | btcd/chainindexer.go:308-390 | requests for tip+1..n in any permutation are all written in ascending order and the heap ends empty |
| IndexWriter.StepAccounted | btcd/chainindexer.go:395-414 | handing out, finishing and writing a block each keep the sum of waiting, pending and written blocks |
| IndexWriter.ServeFront | btcd/chainindexer.go:322-358 | what the writer does with the next request is a write step of the catch-up phase |
| IndexWriter.CatchUpCommitsInOrder | btcd/chainindexer.go:152-230 | in every interleaving of manager, workers and writer the written blocks are the first ones handed out, in order, and all of them once the workers are idle |
| HeaderChain.NoRepeat | btcd/blockmanager.go:802-871 | a linked header list names no block twice |
| HeaderChain.FrontIsAncestor | btcd/blockmanager.go:561-576 | in a linked list that holds the checkpoint the front entry is the checkpoint, if at its height, or else an ancestor of it |
| HeaderChain.ReachesAfterMore | btcd/blockmanager.go:802-871 | headers appended later never displace a checkpoint the list holds, and none of them has its height |
| HeaderChain.FindNextCheckpoint | btcd/blockmanager.go:249-276 | finds the least checkpoint above the height, and none exactly if there is none |
| HeaderChain.NextIsUnique | btcd/blockmanager.go:249-276 | that checkpoint is unique |
| SyncSteps.FetchLimits | btcd/blockmanager.go:743-783 | a request names at most 50000 blocks, none that is had, and stops short only at the limit |
| SyncSteps.VerifiedAtEnd | btcd/blockmanager.go:844-865 | a checkpoint header is verified only with all its listed predecessors linked to it, also after the first entry is dropped |
| SyncSteps.SyncTaken | btcd/blockmanager.go:559-576 | taking a block off the list keeps the list linked and keeps the checkpoint in it; while verified, a front block leads to the checkpoint |
| SyncSteps.TrackedTaken | btcd/blockmanager.go:559-584 | in an orderly run a front block that was asked for is verified to lead to the checkpoint |
| SyncSteps.FreshIsNew | btcd/blockmanager.go:1036-1064 | nothing that is pending is asked for again |
| SyncSteps.FreshIsDistinct | btcd/blockmanager.go:1036-1064 | one request asks for nothing twice |
| SyncSteps.FreshCovers | btcd/blockmanager.go:1036-1064 | every queued item looked at is pending afterwards |
| HeaderSync.EligibleAre | btcd/blockmanager.go:296-316 | exactly the candidates that are not behind stay, in order |
| HeaderSync.StaysHeld | btcd/blockmanager.go:431-442 | a pending hash stays held by a connected peer if what a peer lets go of leaves the global set too |
| HeaderSync.BlockManager.constructor | btcd/blockmanager.go:1435-1477 | the initial state is valid and orderly, with the least checkpoint above the height of the chain |
| HeaderSync.BlockManager.ResetHeaderState | btcd/blockmanager.go:213-225 | leaves the newest block as the only entry while a checkpoint is ahead |
| HeaderSync.BlockManager.StartSync | btcd/blockmanager.go:282-361 | picks the last candidate not behind; headers-first mode exactly if below a next checkpoint and not in regression mode, and then with a live sync peer; orderly as long as the chain stays above the checkpoints it reached |
| HeaderSync.BlockManager.HandleNewPeer | btcd/blockmanager.go:394-412 | keeps the invariants; starts a sync if none is running |
| HeaderSync.BlockManager.HandleDonePeer | btcd/blockmanager.go:418-461 | all that was asked of the peer is pending no more; losing the sync peer resets the header state and syncs anew, which is orderly as nobody else was asked for blocks |
| HeaderSync.BlockManager.HandleTx | btcd/blockmanager.go:481-487 | the transaction is no longer pending |
| HeaderSync.BlockManager.TakeBlock | btcd/blockmanager.go:551-584 | BFFastAdd goes exactly to the front block of the list in headers-first mode |
| HeaderSync.BlockManager.HandleBlock | btcd/blockmanager.go:537-739 | while a checkpoint is verified a block given BFFastAdd is the checkpoint or an ancestor of it, and in an orderly state none is given it at another time, so that all blocks ever given it lead to checkpoints; the next checkpoint only moves on to the least one above it; the full new state and the messages sent |
| HeaderSync.BlockManager.NextRound | btcd/blockmanager.go:705-739 | the checkpoint block starts the round for the next checkpoint, or ends headers-first mode |
| HeaderSync.BlockManager.FetchHeaderBlocks | btcd/blockmanager.go:743-783 | what the sync peer is asked for and where the cursor is left; every asked block is held by the sync peer |
| HeaderSync.BlockManager.ConnectHeaders | btcd/blockmanager.go:802-852 | how many headers of a message are listed and which of five ways it ends |
| HeaderSync.BlockManager.HandleHeaders | btcd/blockmanager.go:786-883 | the list stays linked with consecutive heights; a checkpoint is verified at most once a round, by the header at its height with its hash |
| HeaderSync.BlockManager.DrainQueue | btcd/blockmanager.go:1036-1068 | requests go out for the front of the queue, all of it or as much as fills one message |
| HeaderSync.BlockManager.HandleInv | btcd/blockmanager.go:916-1072 | ignored from other peers while not current; otherwise what is not had is queued, unless in headers-first mode, and requested if not pending; known orphans and a known last block call for more blocks; orderly as long as a current chain has passed the checkpoints |
| HeaderSync.BlockManager.AskingMeansPast | btcd/blockmanager.go:937-941 | outside headers-first mode advertised blocks are asked for only once the chain has passed the next checkpoint |
| HeaderSync.BlockManager.NothingPending | btcd/blockmanager.go:418-461 | once no peer is left no request is pending |
| HeaderSync.BlockManager.ListedLeadToCheckpoint | btcd/blockmanager.go:802-871 | while a checkpoint is verified every listed block up to its height is an ancestor of it |
| Bip39.Lpad | bip39/index.js:114-117 | pads on the left to the length, and leaves longer strings alone |
| Bip39.PaddedIsBits | bip39/index.js:108-117 | a padded binary number is its low bits, of exactly the width, when it fits |
| Bip39.BytesRoundTrip | bip39/index.js:40-47 | cutting the bits of bytes into groups of eight gives the bytes back |
| Bip39.SplitJoin | bip39/index.js:23-23 | splitting joined words gives back words without spaces |
| Bip39.EncodedShape | bip39/index.js:55-72 | encoding 4k bytes makes 3k words of the list, whose 11-bit groups are entropy and checksum |
| Bip39.DecodedShape | bip39/index.js:20-53 | an accepted mnemonic has 3k words of the list and 4k bytes, k from 1 to 256, and its bits are those bytes and their checksum |
| Bip39.EncodedBits | bip39/index.js:55-99 | an encoded mnemonic bit by bit: the word indices, eleven bits each, are the bits of the entropy bytes, most significant first, followed by the first bits of their SHA-256 digest, one for each four bytes |
| Bip39.DecodedBits | bip39/index.js:20-53 | the same of every accepted mnemonic and the entropy it decodes to |
| Bip39.DecodeEncode | bip39/index.js:20-72 | decoding undoes encoding if and only if the entropy has 4k bytes with k from 1 to 256 |
| Bip39.EncodeDecode | bip39/index.js:20-72 | encoding what any accepted mnemonic decodes to gives that mnemonic back |

## Left out

- Script and signature checks, signature operation counting, standardness rules, the priority formula, Merkle roots, difficulty, subsidy and chain selection: they appear as functions without assumptions or not at all.
- Block disconnection, with the return of its transactions to the pool.
- MemPool.TxMemPool.BlockConnected: orphans that spend the output of the block's own coinbase are not offered by the loop, which skips it, and are therefore excused from saturation.
- MemPool.TxMemPool.LimitNumOrphans: which orphan is evicted is left arbitrary, as it depends on a random hash and on map order.
- MemPool.TxMemPool.CheckPolicy: the sum of the two signature operation counts of a transaction is not wrapped around.
- MemPool.TxMemPool.MaybeAcceptTransaction: the reasons of rejections are returned but not specified.
- Mining.NewBlockTemplate: the last adjustment of the block size for the transaction count, timestamps, difficulty, the Merkle root and the final check of the block are not modelled.
- RelayMeter.WindowBounded: over reals, without the rounding of float64.
- RelayMeter.TotalBounded: for a clock that does not go back; the code inflates the total otherwise, as the model does.
- IndexWriter.CatchUpCommitsInOrder: the moment of the switch from catching up to maintaining is not modelled, and no liveness is claimed.
- HeaderSync.BlockManager.HandleBlock: for a chain that breaks one of its two promises about its height nothing is claimed about BFFastAdd outside the window between a verified checkpoint header and its block.
- HeaderSync.BlockManager.HandleInv: the cache of announced inventory and the last announced block of a peer are not modelled, as nothing here reads them.
- Liveness of header sync, the heights that the server reports to other peers, shutdown, and the relaying of accepted blocks.
- Key derivation, salting, random generation and hexadecimal text in the BIP39 module, and word lists with fewer or more than 2048 words where encoding would read past the list.
