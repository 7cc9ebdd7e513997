/** The single steps of headers-first sync on values: fetching, connecting, queueing, and what
    each of them keeps about the header list. */
module SyncSteps {
  import opened Ledger
  import opened HeaderChain

  const MAX_INV_PER_MSG := 50000
  const MIN_IN_FLIGHT_BLOCKS := 10

  datatype InvVect = InvBlock(block: BlockHash) | InvTx(tx: Hash) | InvOther

  datatype Config = Config(checkpoints: seq<Checkpoint>, disableCheckpoints: bool, regressionTest: bool)

  /** A locator describes the best chain, names one block, or leads back from a block. */
  datatype Locator = Best | From(block: BlockHash) | BackFrom(tip: BlockHash)

  /** Without a stop hash the peer is asked for all it has. */
  datatype Message =
    | GetHeaders(locator: Locator, stop: BlockHash)
    | GetBlocks(locator: Locator, upTo: Option<BlockHash>)

  /** What the block chain made of a block: an orphan may tell its height in its coinbase. */
  datatype BlockResult =
    | Rejected
    | Orphan(claimedHeight: Option<int>, root: BlockHash)
    | Accepted(bestHeight: int)

  // ---------- The place in the header list ----------

  /** Where fetching of blocks goes on: at an entry of the list, or at an entry that is not in the
      list any more, with the entries that can still be reached from it. */
  datatype Cursor = NoStart | InList(index: nat) | Detached(rest: seq<HeaderNode>)

  predicate CursorOk(list: seq<HeaderNode>, start: Cursor) {
    && (start.InList? ==> start.index < |list|)
    && (start.Detached? ==> start.rest != [])
  }

  /** The cursor once the list is emptied, which leaves its entries linked to each other. */
  function LostCursor(list: seq<HeaderNode>, start: Cursor): Cursor
    requires CursorOk(list, start)
  {
    if start.InList? then Detached(list[start.index..]) else start
  }

  /** The cursor once the front entry is removed, which unlinks it from its successor. */
  function CursorAfterFront(list: seq<HeaderNode>, start: Cursor): Cursor
    requires |list| > 0
  {
    match start
    case InList(k) => if k == 0 then Detached([list[0]]) else InList(k - 1)
    case _ => start
  }

  /** The cursor once `n` entries are added to a list of the given length. */
  function CursorAfterMore(length: nat, start: Cursor, n: nat): Cursor {
    if start == NoStart && n > 0 then InList(length) else start
  }

  // ---------- Fetching blocks of listed headers ----------

  /** The entries from the cursor on. */
  function Rest(list: seq<HeaderNode>, start: Cursor): seq<HeaderNode>
    requires CursorOk(list, start)
  {
    match start
    case NoStart => []
    case InList(k) => list[k..]
    case Detached(rest) => rest
  }

  function CursorAfterBatch(list: seq<HeaderNode>, start: Cursor, n: nat): Cursor
    requires CursorOk(list, start)
  {
    match start
    case InList(k) => if k + n < |list| then InList(k + n) else NoStart
    case Detached(rest) => if n < |rest| then Detached(rest[n..]) else NoStart
    case NoStart => NoStart
  }

  /** What is asked for, and where the cursor is, once `n` entries are looked at. */
  ghost predicate Batched(list: seq<HeaderNode>, start: Cursor, have: BlockHash -> bool, n: nat,
                          after: Cursor, asked: seq<BlockHash>)
  {
    && CursorOk(list, start)
    && n <= |Rest(list, start)|
    && asked == Missing(Rest(list, start)[..n], have)
    && after == (if n == 0 then start else CursorAfterBatch(list, start, n))
    && (n > 0 ==> |Missing(Rest(list, start)[..n - 1], have)| < 50000)
  }

  /** As many entries are looked at as one request has room for. */
  ghost predicate Fetched(list: seq<HeaderNode>, start: Cursor, have: BlockHash -> bool,
                          after: Cursor, asked: seq<BlockHash>)
  {
    exists n: nat :: Batched(list, start, have, n, after, asked) &&
      (n == |Rest(list, start)| || |asked| == 50000)
  }

  lemma BatchStart(list: seq<HeaderNode>, start: Cursor, have: BlockHash -> bool)
    requires CursorOk(list, start)
    ensures Batched(list, start, have, 0, start, [])
    ensures AsSet<BlockHash>([]) == {}
  {
  }

  lemma BatchStep(list: seq<HeaderNode>, start: Cursor, have: BlockHash -> bool, n: nat,
                  after: Cursor, asked: seq<BlockHash>)
    requires Batched(list, start, have, n, after, asked) && n < |Rest(list, start)| && |asked| < MAX_INV_PER_MSG
    ensures var node := Rest(list, start)[n];
      && Batched(list, start, have, n + 1, CursorAfterBatch(list, start, n + 1),
                 if have(node.sha) then asked else asked + [node.sha])
      && AsSet(asked + [node.sha]) == AsSet(asked) + {node.sha}
  {
    var rest := Rest(list, start);
    assert rest[..n + 1][..n] == rest[..n];
  }

  /** The request stops at the limit or where no header is left. */
  lemma FetchLimits(list: seq<HeaderNode>, start: Cursor, have: BlockHash -> bool, after: Cursor, asked: seq<BlockHash>)
    requires Fetched(list, start, have, after, asked)
    ensures |asked| <= 50000 && CursorOk(list, after) && (|asked| < 50000 ==> after == NoStart)
    ensures forall h <- asked :: !have(h)
  {
    hide Missing;
    var n: nat :| Batched(list, start, have, n, after, asked) &&
        (n == |Rest(list, start)| || |asked| == 50000);
    var rest := Rest(list, start);
    if n > 0 {
      MissingStep(rest, n - 1, have);
    }
  }

  // ---------- Connecting headers ----------

  datatype Verdict = More | NoPrevious | Unlinked | Verified | Mismatch

  /** Which headers of a message are taken and how it ends: up to the first that does not join,
      or the one at the height of the checkpoint. */
  ghost predicate Ran(list: seq<HeaderNode>, headers: seq<Header>, c: Checkpoint, n: nat, verdict: Verdict) {
    if list == [] then
      n == 0 && verdict == NoPrevious
    else
      var last := list[|list| - 1];
      && n <= |headers|
      && Joins(last.sha, headers[..n])
      && !(last.height < c.height < last.height + n)
      && match verdict
         case More => n == |headers| && (n > 0 ==> last.height + n != c.height)
         case Unlinked => n < |headers| && !Joins(last.sha, headers[..n + 1]) && (n > 0 ==> last.height + n != c.height)
         case Verified => n > 0 && last.height + n == c.height && BlockSha(headers[n - 1]) == c.hash
         case Mismatch => n > 0 && last.height + n == c.height && BlockSha(headers[n - 1]) != c.hash
         case NoPrevious => false
  }

  function Listed(list: seq<HeaderNode>, headers: seq<Header>): seq<HeaderNode> {
    if list == [] then [] else Extended(list, headers)
  }

  lemma NoneListed(list: seq<HeaderNode>, start: Cursor, headers: seq<Header>)
    ensures Listed(list, headers[..0]) == list && CursorAfterMore(|list|, start, 0) == start
  {
  }

  /** The first `n` headers are taken and none of them is at the height of the checkpoint. */
  ghost predicate Taken(list: seq<HeaderNode>, start: Cursor, headers: seq<Header>, c: Checkpoint, n: nat,
                        more: seq<HeaderNode>, after: Cursor)
  {
    && n <= |headers|
    && more == Listed(list, headers[..n])
    && after == CursorAfterMore(|list|, start, n)
    && if list == [] then n == 0
       else Joins(list[|list| - 1].sha, headers[..n]) &&
            !(list[|list| - 1].height < c.height <= list[|list| - 1].height + n)
  }

  lemma TakenNone(list: seq<HeaderNode>, start: Cursor, headers: seq<Header>, c: Checkpoint)
    ensures Taken(list, start, headers, c, 0, list, start)
  {
  }

  /** One header more, and what it being taken or not says about the message. */
  lemma TakenStep(list: seq<HeaderNode>, start: Cursor, headers: seq<Header>, c: Checkpoint, n: nat,
                  more: seq<HeaderNode>, after: Cursor)
    requires Taken(list, start, headers, c, n, more, after) && n < |headers|
    ensures more == Listed(list, headers[..n]) && after == CursorAfterMore(|list|, start, n)
    ensures more == [] ==> n == 0 && Ran(list, headers, c, 0, NoPrevious)
    ensures more != [] && headers[n].prevBlock != more[|more| - 1].sha ==> Ran(list, headers, c, n, Unlinked)
    ensures more != [] && headers[n].prevBlock == more[|more| - 1].sha ==>
              var node := HeaderNode(more[|more| - 1].height + 1, BlockSha(headers[n]));
              var longer, next := more + [node], if after == NoStart then InList(|more|) else after;
              && longer == Listed(list, headers[..n + 1]) && next == CursorAfterMore(|list|, start, n + 1)
              && if node.height != c.height then Taken(list, start, headers, c, n + 1, longer, next)
                 else Ran(list, headers, c, n + 1, if node.sha == c.hash then Verified else Mismatch)
  {
    if more != [] {
      var prev := list[|list| - 1].sha;
      JoinsStep(prev, headers, n);
      assert more[|more| - 1].sha == if n == 0 then prev else BlockSha(headers[n - 1]);
      if headers[n].prevBlock == more[|more| - 1].sha {
        assert Extended(list, headers[..n]) + [HeaderNode(more[|more| - 1].height + 1, BlockSha(headers[n]))] ==
               Extended(list, headers[..n + 1]);
      }
    }
  }

  lemma TakenAll(list: seq<HeaderNode>, start: Cursor, headers: seq<Header>, c: Checkpoint,
                 more: seq<HeaderNode>, after: Cursor)
    requires Taken(list, start, headers, c, |headers|, more, after) && headers != []
    ensures more == Listed(list, headers[..|headers|]) && after == CursorAfterMore(|list|, start, |headers|)
    ensures Ran(list, headers, c, |headers|, More)
  {
  }

  /** A message names the checkpoint only if all its headers up to it join and it has its hash. */
  lemma VerifiedAtEnd(list: seq<HeaderNode>, headers: seq<Header>, c: Checkpoint, n: nat)
    requires Linked(list) && Ran(list, headers, c, n, Verified)
    ensures var more := Extended(list, headers[..n]);
      && |more| > 1 && Linked(more) && more[|more| - 1] == HeaderNode(c.height, c.hash)
      && Linked(more[1..]) && Reaches(more[1..], c)
  {
    var more := Extended(list, headers[..n]);
    ExtendedLinked(list, headers[..n]);
    ReachesAtEnd(more, c);
  }

  // ---------- Draining the request queue ----------

  function BlocksOf(items: seq<InvVect>): set<BlockHash> {
    set iv | iv in items && iv.InvBlock? :: iv.block
  }

  function TxnsOf(items: seq<InvVect>): set<Hash> {
    set iv | iv in items && iv.InvTx? :: iv.tx
  }

  lemma OfMember(iv: InvVect, items: seq<InvVect>)
    requires iv in items
    ensures iv.InvBlock? ==> iv.block in BlocksOf(items)
    ensures iv.InvTx? ==> iv.tx in TxnsOf(items)
  {
  }

  /** There is nothing to ask for: it was asked for already, or cannot be. */
  predicate Pending(iv: InvVect, blocks: set<BlockHash>, txns: set<Hash>) {
    match iv
    case InvBlock(h) => h in blocks
    case InvTx(h) => h in txns
    case InvOther => true
  }

  lemma PendingMeans(iv: InvVect, blocks: set<BlockHash>, txns: set<Hash>)
    ensures Pending(iv, blocks, txns) <==>
            (iv.InvBlock? ==> iv.block in blocks) && (iv.InvTx? ==> iv.tx in txns)
  {
  }

  /** The items of the queue that are requested, given what is pending. */
  function Fresh(queue: seq<InvVect>, blocks: set<BlockHash>, txns: set<Hash>): seq<InvVect> {
    if queue == [] then []
    else
      var iv := queue[|queue| - 1];
      var rest := Fresh(queue[..|queue| - 1], blocks, txns);
      if Pending(iv, blocks + BlocksOf(rest), txns + TxnsOf(rest)) then rest else rest + [iv]
  }

  lemma FreshNone(blocks: set<BlockHash>, txns: set<Hash>)
    ensures Fresh([], blocks, txns) == [] && BlocksOf([]) == {} && TxnsOf([]) == {}
  {
  }

  lemma FreshStep(queue: seq<InvVect>, blocks: set<BlockHash>, txns: set<Hash>, n: nat)
    requires n < |queue|
    ensures var r, iv := Fresh(queue[..n], blocks, txns), queue[n];
      && Fresh(queue[..n + 1], blocks, txns) ==
         (if Pending(iv, blocks + BlocksOf(r), txns + TxnsOf(r)) then r else r + [iv])
      && BlocksOf(r + [iv]) == BlocksOf(r) + (if iv.InvBlock? then {iv.block} else {})
      && TxnsOf(r + [iv]) == TxnsOf(r) + (if iv.InvTx? then {iv.tx} else {})
  {
    assert queue[..n + 1][..n] == queue[..n];
  }

  lemma {:induction false} FreshIsNew(queue: seq<InvVect>, blocks: set<BlockHash>, txns: set<Hash>)
    ensures forall iv :: iv in Fresh(queue, blocks, txns) ==> iv in queue && !Pending(iv, blocks, txns)
  {
    if queue != [] {
      FreshIsNew(queue[..|queue| - 1], blocks, txns);
    }
  }

  /** Nothing is asked for twice. */
  lemma {:induction false} FreshIsDistinct(queue: seq<InvVect>, blocks: set<BlockHash>, txns: set<Hash>)
    ensures Distinct(Fresh(queue, blocks, txns))
  {
    if queue != [] {
      var front, iv := queue[..|queue| - 1], queue[|queue| - 1];
      FreshIsDistinct(front, blocks, txns);
      FreshIsNew(front, blocks, txns);
      if iv in Fresh(front, blocks, txns) {
        OfMember(iv, Fresh(front, blocks, txns));
      }
    }
  }

  /** All of the queue is pending once it was looked at. */
  lemma {:induction false} FreshCovers(queue: seq<InvVect>, blocks: set<BlockHash>, txns: set<Hash>, iv: InvVect)
    requires iv in queue
    ensures var r := Fresh(queue, blocks, txns); Pending(iv, blocks + BlocksOf(r), txns + TxnsOf(r))
  {
    var front, last := queue[..|queue| - 1], queue[|queue| - 1];
    assert queue == front + [last];
    var rest, r := Fresh(front, blocks, txns), Fresh(queue, blocks, txns);
    assert BlocksOf(rest) <= BlocksOf(r) && TxnsOf(rest) <= TxnsOf(r);
    if iv in front {
      FreshCovers(front, blocks, txns, iv);
    } else if iv in r {
      OfMember(iv, r);
    }
  }

  /** The front of the queue that was looked at, which is all of it or as much as fills a request. */
  ghost predicate Drained(queue: seq<InvVect>, blocks: set<BlockHash>, txns: set<Hash>, rest: seq<InvVect>,
                          asked: seq<InvVect>)
  {
    && |rest| <= |queue| && rest == queue[|queue| - |rest|..]
    && asked == Fresh(queue[..|queue| - |rest|], blocks, txns)
    && (rest == [] || |asked| == 50000) && |asked| <= 50000
  }

  predicate NoBlocks(queue: seq<InvVect>) {
    forall iv :: iv in queue ==> !iv.InvBlock?
  }

  lemma DrainedNoBlocks(queue: seq<InvVect>, blocks: set<BlockHash>, txns: set<Hash>, rest: seq<InvVect>,
                        asked: seq<InvVect>)
    requires NoBlocks(queue) && Drained(queue, blocks, txns, rest, asked)
    ensures NoBlocks(rest) && BlocksOf(asked) == {}
  {
    FreshIsNew(queue[..|queue| - |rest|], blocks, txns);
    assert forall iv :: iv in queue[..|queue| - |rest|] ==> iv in queue;
  }

  /** The advertised items that are worth asking for. */
  function Wanted(inv: seq<InvVect>, have: InvVect -> bool): (r: seq<InvVect>)
    ensures forall iv :: iv in r <==> iv in inv && iv != InvOther && !have(iv)
  {
    if inv == [] then []
    else
      var iv := inv[|inv| - 1];
      var rest := Wanted(inv[..|inv| - 1], have);
      assert inv == inv[..|inv| - 1] + [iv];
      if iv == InvOther || have(iv) then rest else rest + [iv]
  }

  /** The position of the last advertised block, or -1. */
  function LastBlock(inv: seq<InvVect>): int {
    if inv == [] then -1
    else if inv[|inv| - 1].InvBlock? then |inv| - 1
    else LastBlock(inv[..|inv| - 1])
  }

  method FindLastBlock(inv: seq<InvVect>) returns (lastBlock: int)
    ensures lastBlock == LastBlock(inv)
  {
    lastBlock := |inv| - 1;
    assert inv[..|inv|] == inv;
    while lastBlock >= 0
      invariant -1 <= lastBlock < |inv| && LastBlock(inv) == LastBlock(inv[..lastBlock + 1])
    {
      if inv[lastBlock].InvBlock? {
        break;
      }
      assert inv[..lastBlock + 1][..lastBlock] == inv[..lastBlock];
      lastBlock := lastBlock - 1;
    }
  }

  /** What is sent on account of advertised blocks that the node has: a known orphan calls for
      what leads to it, the last block for what follows it. */
  function Answers(inv: seq<InvVect>, have: InvVect -> bool, orphanRoot: BlockHash -> Option<BlockHash>,
                   lastBlock: int): seq<Message>
  {
    if inv == [] then []
    else
      var i := |inv| - 1;
      var rest := Answers(inv[..i], have, orphanRoot, lastBlock);
      if !inv[i].InvBlock? || !have(inv[i]) then rest
      else if orphanRoot(inv[i].block).Some? then rest + [GetBlocks(Best, orphanRoot(inv[i].block))]
      else if i == lastBlock then rest + [GetBlocks(BackFrom(inv[i].block), None)]
      else rest
  }

  // ---------- Handling a block ----------

  /** What a peer is known to have after its block was handled. */
  function HeightAfter(result: BlockResult, before: int): int {
    match result
    case Rejected => before
    case Orphan(claimed, _) => if claimed.Some? && claimed.value != 0 then claimed.value else before
    case Accepted(height) => if height != 0 then height else before
  }

  /** An orphan makes the node ask for the blocks that lead to it. */
  function Reply(result: BlockResult): seq<Message> {
    if result.Orphan? then [GetBlocks(Best, Some(result.root))] else []
  }

  lemma Reappears(first: seq<Message>, more: seq<Message>)
    ensures first <= first + more && (first + more)[|first|..] == more
  {
  }

  function Noted(blocks: set<BlockHash>, fast: bool, sha: BlockHash): set<BlockHash> {
    if fast then blocks + {sha} else blocks
  }

  lemma NoneNoted(blocks: set<BlockHash>, sha: BlockHash)
    ensures Noted(blocks, false, sha) == blocks
  {
  }

  /** What is asked for once more blocks are. */
  function Plus(blocks: set<BlockHash>, asked: seq<BlockHash>): set<BlockHash> {
    blocks + AsSet(asked)
  }

  lemma NoneAsked(blocks: set<BlockHash>)
    ensures Plus(blocks, []) == blocks
  {
  }

  // ---------- Tracking: which listed blocks may still arrive ----------

  function Scanned(list: seq<HeaderNode>, start: Cursor): nat
    requires CursorOk(list, start)
  {
    if start.InList? then start.index else |list|
  }

  /** Only blocks before the cursor are asked for; and as long as the checkpoint is not verified,
      the front entry, which is in the chain already, is not among them. */
  ghost predicate Tracked(list: seq<HeaderNode>, start: Cursor, verified: bool, asked: set<BlockHash>) {
    && CursorOk(list, start)
    && !start.Detached?
    && (forall h :: h in asked ==> exists i :: 0 <= i < Scanned(list, start) && list[i].sha == h)
    && (!verified ==> Scanned(list, start) > 0 && list[0].sha !in asked)
  }

  lemma TrackedLess(list: seq<HeaderNode>, start: Cursor, verified: bool, asked: set<BlockHash>, less: set<BlockHash>)
    requires Tracked(list, start, verified, asked) && less <= asked
    ensures Tracked(list, start, verified, less)
  {
  }

  lemma TrackedFront(list: seq<HeaderNode>, start: Cursor, verified: bool, asked: set<BlockHash>)
    requires Tracked(list, start, verified, asked) && Scanned(list, start) > 0
    ensures Tracked(list[1..], CursorAfterFront(list, start), true, asked - {list[0].sha})
  {
    var rest, after := list[1..], CursorAfterFront(list, start);
    forall h | h in asked - {list[0].sha}
      ensures exists i :: 0 <= i < Scanned(rest, after) && rest[i].sha == h
    {
      var i :| 0 <= i < Scanned(list, start) && list[i].sha == h;
      assert rest[i - 1].sha == h;
    }
  }

  /** Of the blocks a peer may still send, only a verified one is at the front. */
  lemma FrontIsVerified(list: seq<HeaderNode>, start: Cursor, verified: bool, asked: set<BlockHash>)
    requires Tracked(list, start, verified, asked) && list != [] && list[0].sha in asked
    ensures verified && Scanned(list, start) > 0
  {
  }

  lemma TrackedUnverified(list: seq<HeaderNode>, start: Cursor, verified: bool, asked: set<BlockHash>)
    requires Tracked(list, start, verified, asked) && Scanned(list, start) > 0 && list[0].sha !in asked
    ensures Tracked(list, start, false, asked)
  {
  }

  lemma TrackedMore(list: seq<HeaderNode>, start: Cursor, verified: bool, asked: set<BlockHash>, headers: seq<Header>)
    requires Tracked(list, start, verified, asked) && |list| > 0
    ensures Tracked(Extended(list, headers), CursorAfterMore(|list|, start, |headers|), verified, asked)
  {
    var more, after := Extended(list, headers), CursorAfterMore(|list|, start, |headers|);
    forall h | h in asked ensures exists i :: 0 <= i < Scanned(more, after) && more[i].sha == h {
      var i :| 0 <= i < Scanned(list, start) && list[i].sha == h;
      assert more[i].sha == h;
    }
  }

  lemma TrackedBatch(list: seq<HeaderNode>, start: Cursor, verified: bool, asked: set<BlockHash>,
                     have: BlockHash -> bool, after: Cursor, more: seq<BlockHash>)
    requires Linked(list) && Tracked(list, start, verified, asked) && Fetched(list, start, have, after, more)
    ensures Tracked(list, after, verified, asked + AsSet(more))
  {
    hide Missing, Linked;
    var n: nat :| Batched(list, start, have, n, after, more);
    var rest := Rest(list, start);
    forall h | h in Missing(rest[..n], have)
      ensures exists i :: Scanned(list, start) <= i < Scanned(list, after) && list[i].sha == h
    {
      var i :| 0 <= i < n && rest[..n][i].sha == h;
      assert list[start.index + i].sha == h;
    }
    forall h | h in asked ensures exists i :: 0 <= i < Scanned(list, after) && list[i].sha == h {
      var i :| 0 <= i < Scanned(list, start) && list[i].sha == h;
    }
    if !verified {
      forall h | h in Missing(rest[..n], have) ensures h != list[0].sha {
        var i :| Scanned(list, start) <= i < Scanned(list, after) && list[i].sha == h;
        NoRepeat(list, 0, i);
      }
    }
  }

  lemma TrackedRun(list: seq<HeaderNode>, start: Cursor, verified: bool, asked: set<BlockHash>, headers: seq<Header>,
                   c: Checkpoint, n: nat, verdict: Verdict)
    requires Tracked(list, start, verified, asked) && Ran(list, headers, c, n, verdict)
    ensures Tracked(Listed(list, headers[..n]), CursorAfterMore(|list|, start, n), verified, asked)
    ensures verdict == Verified && !verified ==>
              var more := Listed(list, headers[..n]);
              more != [] && Tracked(more[1..], CursorAfterFront(more, CursorAfterMore(|list|, start, n)), true, asked)
  {
    if list != [] {
      TrackedMore(list, start, verified, asked, headers[..n]);
      if verdict == Verified && !verified {
        var more, after := Extended(list, headers[..n]), CursorAfterMore(|list|, start, n);
        TrackedFront(more, after, verified, asked);
        assert asked - {more[0].sha} == asked;
      }
    }
  }

  // ---------- What always holds of the header list ----------

  /** What always holds of the header list and the fields about it. */
  ghost predicate SyncOk(cfg: Config, headersFirst: bool, syncing: bool, list: seq<HeaderNode>, start: Cursor,
                         next: Option<Checkpoint>, verified: bool)
  {
    && Linked(list) && CursorOk(list, start)
    && (next.Some? ==> next.value in cfg.checkpoints && !cfg.disableCheckpoints)
    && (headersFirst ==> syncing && next.Some? && !cfg.regressionTest)
    && (!headersFirst && next.Some? ==> |list| == 1 && start == NoStart)
    && (verified ==> headersFirst && Reaches(list, next.value))
  }

  /** What headers-first mode rests on. */
  lemma SyncFacts(cfg: Config, syncing: bool, list: seq<HeaderNode>, start: Cursor, next: Option<Checkpoint>,
                  verified: bool)
    requires SyncOk(cfg, true, syncing, list, start, next, verified)
    ensures syncing && next.Some? && Linked(list) && CursorOk(list, start) && !cfg.regressionTest
  {
  }

  ghost predicate LeadToCheckpoints(cs: seq<Checkpoint>, blocks: set<BlockHash>) {
    forall h :: h in blocks ==> exists c :: c in cs && Extends(c.hash, h)
  }

  /** A block at the front of a list that holds the checkpoint may join the fast-added ones. */
  lemma FrontLeads(cfg: Config, list: seq<HeaderNode>, start: Cursor, next: Option<Checkpoint>,
                   fastAdded: set<BlockHash>)
    requires SyncOk(cfg, true, true, list, start, next, true) && list != []
    requires LeadToCheckpoints(cfg.checkpoints, fastAdded)
    ensures LeadToCheckpoints(cfg.checkpoints, fastAdded + {list[0].sha})
    ensures Extends(next.value.hash, list[0].sha)
  {
    FrontIsAncestor(list, next.value);
  }

  /** A sync can start from any state without one; the list was reset then. */
  lemma SyncStarts(cfg: Config, headersFirst: bool, list: seq<HeaderNode>, start: Cursor, next: Option<Checkpoint>,
                   verified: bool)
    requires SyncOk(cfg, headersFirst, false, list, start, next, verified)
    ensures !headersFirst && SyncOk(cfg, false, true, list, start, next, verified)
    ensures next.Some? && !cfg.regressionTest ==> SyncOk(cfg, true, true, list, start, next, verified)
    ensures next.Some? ==> Tracked(list, start, verified, {})
  {
  }

  /** The sync peer is lost. */
  lemma SyncStops(cfg: Config, headersFirst: bool, list: seq<HeaderNode>, start: Cursor, next: Option<Checkpoint>,
                  verified: bool, tip: HeaderNode)
    requires SyncOk(cfg, headersFirst, true, list, start, next, verified)
    ensures if headersFirst then next.Some? && SyncOk(cfg, false, false, [tip], NoStart, next, false)
            else SyncOk(cfg, false, false, list, start, next, verified)
  {
  }

  lemma SyncFront(cfg: Config, list: seq<HeaderNode>, start: Cursor, next: Option<Checkpoint>, verified: bool)
    requires SyncOk(cfg, true, true, list, start, next, verified) && list != [] && list[0].sha != next.value.hash
    ensures SyncOk(cfg, true, true, list[1..], CursorAfterFront(list, start), next, verified)
    ensures verified ==> Extends(next.value.hash, list[0].sha)
  {
    if verified {
      FrontIsAncestor(list, next.value);
      ReachesAfterFront(list, next.value);
    }
  }

  /** The checkpoint block is here: the next round starts, or the mode is left for good. */
  lemma SyncRound(cfg: Config, list: seq<HeaderNode>, start: Cursor, next: Option<Checkpoint>, verified: bool,
                  after: Option<Checkpoint>)
    requires SyncOk(cfg, true, true, list, start, next, verified) && IsNext(cfg.checkpoints, next.value.height, after)
    ensures after.Some? ==> SyncOk(cfg, true, true, list, start, after, false)
    ensures after == None ==> SyncOk(cfg, false, true, [], LostCursor(list, start), after, false)
  {
  }

  predicate IsFront(headersFirst: bool, list: seq<HeaderNode>, sha: BlockHash) {
    headersFirst && list != [] && list[0].sha == sha
  }

  /** Whether a block leaves the header list: only the checkpoint stays, to link the next round to. */
  predicate Leaves(headersFirst: bool, list: seq<HeaderNode>, next: Option<Checkpoint>, sha: BlockHash) {
    IsFront(headersFirst, list, sha) && next.Some? && next.value.hash != sha
  }

  lemma SyncTaken(cfg: Config, headersFirst: bool, syncing: bool, list: seq<HeaderNode>, start: Cursor,
                  next: Option<Checkpoint>, verified: bool, sha: BlockHash)
    requires SyncOk(cfg, headersFirst, syncing, list, start, next, verified)
    ensures headersFirst ==> next.Some? && syncing && !cfg.regressionTest && !cfg.disableCheckpoints
    ensures CursorOk(list, start)
    ensures Leaves(headersFirst, list, next, sha) ==>
              SyncOk(cfg, headersFirst, syncing, list[1..], CursorAfterFront(list, start), next, verified)
    ensures IsFront(headersFirst, list, sha) && verified ==> next.Some? && Extends(next.value.hash, sha)
  {
    if IsFront(headersFirst, list, sha) {
      if verified {
        FrontIsAncestor(list, next.value);
      }
      if Leaves(headersFirst, list, next, sha) {
        SyncFront(cfg, list, start, next, verified);
      }
    }
  }

  lemma TrackedTaken(cfg: Config, list: seq<HeaderNode>, start: Cursor, next: Option<Checkpoint>, verified: bool,
                     sha: BlockHash, asked: set<BlockHash>, fastAdded: set<BlockHash>)
    requires SyncOk(cfg, true, true, list, start, next, verified) && Tracked(list, start, verified, asked)
    requires LeadToCheckpoints(cfg.checkpoints, fastAdded) && (IsFront(true, list, sha) ==> sha in asked)
    ensures IsFront(true, list, sha) ==>
              verified && Scanned(list, start) > 0 && LeadToCheckpoints(cfg.checkpoints, fastAdded + {sha})
    ensures if Leaves(true, list, next, sha) then
              Tracked(list[1..], CursorAfterFront(list, start), verified, asked - {sha})
            else Tracked(list, start, verified, asked - {sha})
  {
    if IsFront(true, list, sha) {
      FrontIsVerified(list, start, verified, asked);
      FrontLeads(cfg, list, start, next, fastAdded);
      TrackedFront(list, start, verified, asked);
    }
    TrackedLess(list, start, verified, asked, asked - {sha});
  }

  lemma SyncMore(cfg: Config, list: seq<HeaderNode>, start: Cursor, next: Option<Checkpoint>, verified: bool,
                 headers: seq<Header>, n: nat, verdict: Verdict)
    requires SyncOk(cfg, true, true, list, start, next, verified) && Ran(list, headers, next.value, n, verdict)
    ensures verdict != Verified ==>
              SyncOk(cfg, true, true, Listed(list, headers[..n]), CursorAfterMore(|list|, start, n), next, verified)
    ensures verdict == Verified ==>
              var more := Listed(list, headers[..n]);
              && !verified && more != []
              && SyncOk(cfg, true, true, more[1..], CursorAfterFront(more, CursorAfterMore(|list|, start, n)), next,
                        true)
  {
    if list != [] {
      ExtendedLinked(list, headers[..n]);
      if verified {
        ReachesAfterMore(list, headers[..n], next.value);
      }
      if verdict == Verified {
        VerifiedAtEnd(list, headers, next.value, n);
      }
    }
  }

  lemma SyncFetched(cfg: Config, list: seq<HeaderNode>, start: Cursor, next: Option<Checkpoint>, verified: bool,
                    have: BlockHash -> bool, after: Cursor, asked: seq<BlockHash>)
    requires SyncOk(cfg, true, true, list, start, next, verified) && Fetched(list, start, have, after, asked)
    ensures SyncOk(cfg, true, true, list, after, next, verified)
  {
    FetchLimits(list, start, have, after, asked);
  }
}
