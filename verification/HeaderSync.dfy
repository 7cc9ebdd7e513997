/** Headers-first synchronisation and request tracking of the block manager: one class whose
    methods are the handlers, called for one message at a time. */
module HeaderSync {
  import opened Ledger
  import opened HeaderChain
  import opened SyncSteps

  class Peer {
    var lastBlock: int
    var requestedTxns: set<Hash>
    var requestedBlocks: set<BlockHash>
    var requestQueue: seq<InvVect>

    constructor (height: int)
      ensures lastBlock == height && requestedTxns == {} && requestedBlocks == {} && requestQueue == []
    {
      lastBlock, requestedTxns, requestedBlocks, requestQueue := height, {}, {}, [];
    }
  }

  // ---------- Sync candidates ----------

  /** The candidates whose last known block is not below the height. */
  function Eligible(candidates: seq<Peer>, height: int): seq<Peer>
    reads set p | p in candidates
  {
    if candidates == [] then []
    else
      var last := candidates[|candidates| - 1];
      var rest := Eligible(candidates[..|candidates| - 1], height);
      if last.lastBlock < height then rest else rest + [last]
  }

  lemma EligibleNone(height: int)
    ensures Eligible([], height) == []
  {
  }

  lemma EligibleStep(candidates: seq<Peer>, n: nat, height: int)
    requires n < |candidates|
    ensures Eligible(candidates[..n + 1], height) ==
            Eligible(candidates[..n], height) + if candidates[n].lastBlock < height then [] else [candidates[n]]
  {
    assert candidates[..n + 1][..n] == candidates[..n];
  }

  /** Exactly the candidates that are not behind stay. */
  lemma {:induction false} EligibleAre(candidates: seq<Peer>, height: int)
    ensures forall p <- Eligible(candidates, height) :: p in candidates && p.lastBlock >= height
    ensures forall p <- candidates :: p.lastBlock >= height ==> p in Eligible(candidates, height)
    ensures Distinct(candidates) ==> Distinct(Eligible(candidates, height))
  {
    if candidates != [] {
      var front, last := candidates[..|candidates| - 1], candidates[|candidates| - 1];
      EligibleAre(front, height);
      assert candidates == front + [last];
      assert Distinct(candidates) ==> last !in front;
    }
  }

  lemma Middle<T>(kept: seq<T>, all: seq<T>, n: nat)
    requires n < |all|
    ensures var s := kept + all[n..];
      && s[|kept|] == all[n]
      && s[..|kept|] + s[|kept| + 1..] == kept + all[n + 1..]
      && s == (kept + [all[n]]) + all[n + 1..]
  {
  }

  /** The list without the first occurrence of the peer. */
  function Without(candidates: seq<Peer>, p: Peer): seq<Peer> {
    if candidates == [] then []
    else if candidates[0] == p then candidates[1..]
    else [candidates[0]] + Without(candidates[1..], p)
  }

  lemma {:induction false} WithoutNone(candidates: seq<Peer>, p: Peer)
    ensures p !in candidates ==> Without(candidates, p) == candidates
  {
    if candidates != [] {
      WithoutNone(candidates[1..], p);
    }
  }

  lemma {:induction false} WithoutAt(candidates: seq<Peer>, i: nat)
    requires i < |candidates| && candidates[i] !in candidates[..i]
    ensures Without(candidates, candidates[i]) == candidates[..i] + candidates[i + 1..]
  {
    if i > 0 {
      assert candidates[1..][..i - 1] == candidates[..i][1..];
      WithoutAt(candidates[1..], i - 1);
    }
  }

  // ---------- Peers and what they were asked for ----------

  ghost predicate PeersOk(live: set<Peer>, candidates: seq<Peer>, syncPeer: Option<Peer>) {
    && Distinct(candidates)
    && (forall p :: p in candidates ==> p in live)
    && (syncPeer.Some? ==> syncPeer.value in live)
  }

  lemma PeersWithout(live: set<Peer>, candidates: seq<Peer>, p: Peer, syncPeer: Option<Peer>)
    requires PeersOk(live, candidates, syncPeer) && p !in candidates && syncPeer != Some(p)
    ensures PeersOk(live - {p}, candidates, syncPeer)
  {
  }

  lemma PeersWith(live: set<Peer>, candidates: seq<Peer>, p: Peer, syncPeer: Option<Peer>)
    requires PeersOk(live, candidates, syncPeer) && p !in live
    ensures PeersOk(live + {p}, candidates, syncPeer) && PeersOk(live + {p}, candidates + [p], syncPeer)
  {
  }

  lemma PeersSyncing(live: set<Peer>, candidates: seq<Peer>, syncPeer: Option<Peer>)
    requires PeersOk(live, candidates, None)
    requires syncPeer.Some? ==> syncPeer.value in candidates
    ensures PeersOk(live, candidates, syncPeer)
    ensures syncPeer.Some? ==> syncPeer.value in live
  {
  }

  lemma SyncPeerIsLive(live: set<Peer>, candidates: seq<Peer>, syncPeer: Option<Peer>)
    requires PeersOk(live, candidates, syncPeer)
    ensures PeersOk(live, candidates, None) && (syncPeer.Some? ==> syncPeer.value in live)
  {
  }

  ghost function BlocksAsked(peers: set<Peer>): map<Peer, set<BlockHash>>
    reads peers`requestedBlocks
  {
    map p | p in peers :: p.requestedBlocks
  }

  ghost function TxnsAsked(peers: set<Peer>): map<Peer, set<Hash>>
    reads peers`requestedTxns
  {
    map p | p in peers :: p.requestedTxns
  }

  /** Whatever is pending was asked of some peer that is still connected. */
  ghost predicate Held<T(!new)>(pending: set<T>, held: map<Peer, set<T>>) {
    forall h :: h in pending ==> exists p :: p in held && h in held[p]
  }

  /** Hashes stay held while those that a peer lets go of are not pending any more. */
  lemma StaysHeld<T(!new)>(pending: set<T>, held: map<Peer, set<T>>, gone: set<T>, more: set<T>,
                     pending': set<T>, held': map<Peer, set<T>>)
    requires Held(pending, held) && pending' <= pending - gone + more
    requires forall p :: p in held ==> held[p] <= gone || (p in held' && held[p] - gone <= held'[p])
    requires more == {} || exists p :: p in held' && more <= held'[p]
    ensures Held(pending', held')
  {
    forall h | h in pending' ensures exists p :: p in held' && h in held'[p] {
      if h in more {
        var p :| p in held' && more <= held'[p];
      } else {
        var p :| p in held && h in held[p];
        assert h in held[p] - gone;
      }
    }
  }

  lemma HeldMore<T(!new)>(pending: set<T>, held: map<Peer, set<T>>, p: Peer, more: set<T>)
    requires Held(pending, held) && p in held
    ensures Held(pending + more, held[p := held[p] + more])
  {
    var held' := held[p := held[p] + more];
    assert more <= held'[p];
    StaysHeld(pending, held, {}, more, pending + more, held');
  }

  lemma HeldWithout(peers: set<Peer>, p: Peer, blocks: set<BlockHash>, txns: set<Hash>)
    requires Held(blocks, BlocksAsked(peers)) && Held(txns, TxnsAsked(peers))
    ensures Held(blocks - p.requestedBlocks, BlocksAsked(peers - {p}))
    ensures Held(txns - p.requestedTxns, TxnsAsked(peers - {p}))
  {
    StaysHeld(blocks, BlocksAsked(peers), p.requestedBlocks, {}, blocks - p.requestedBlocks, BlocksAsked(peers - {p}));
    StaysHeld(txns, TxnsAsked(peers), p.requestedTxns, {}, txns - p.requestedTxns, TxnsAsked(peers - {p}));
  }

  lemma HeldWith(peers: set<Peer>, p: Peer, blocks: set<BlockHash>, txns: set<Hash>)
    requires Held(blocks, BlocksAsked(peers)) && Held(txns, TxnsAsked(peers))
    ensures Held(blocks, BlocksAsked(peers + {p})) && Held(txns, TxnsAsked(peers + {p}))
  {
    StaysHeld(blocks, BlocksAsked(peers), {}, {}, blocks, BlocksAsked(peers + {p}));
    StaysHeld(txns, TxnsAsked(peers), {}, {}, txns, TxnsAsked(peers + {p}));
  }

  /** No peer but the given one was asked for a block that is still to come, and none is queued. */
  ghost predicate OnlyAsked(peers: set<Peer>, but: Option<Peer>)
    reads peers`requestedBlocks, peers`requestQueue
  {
    forall p :: p in peers ==> NoBlocks(p.requestQueue) && (but != Some(p) ==> p.requestedBlocks == {})
  }

  lemma OnlyAskedLess(peers: set<Peer>, less: set<Peer>, but: Option<Peer>)
    requires OnlyAsked(peers, but) && less <= peers
    ensures OnlyAsked(less, but)
    ensures but.Some? && but.value !in less ==> OnlyAsked(less, None)
  {
  }

  lemma OnlyAskedWith(peers: set<Peer>, p: Peer, but: Option<Peer>)
    requires OnlyAsked(peers, but) && p.requestedBlocks == {} && p.requestQueue == []
    ensures OnlyAsked(peers + {p}, but)
  {
  }

  lemma OnlyAskedBut(peers: set<Peer>, p: Peer)
    requires OnlyAsked(peers, None) && p in peers
    ensures OnlyAsked(peers, Some(p)) && p.requestedBlocks == {}
  {
  }

  // ---------- The block manager ----------

  class BlockManager {
    const cfg: Config
    var requestedTxns: set<Hash>
    var requestedBlocks: set<BlockHash>
    var syncPeer: Option<Peer>
    /** The candidates to sync from, which the message loop of the source holds. */
    var candidates: seq<Peer>
    var headersFirstMode: bool
    var headerList: seq<HeaderNode>
    var startHeader: Cursor
    var nextCheckpoint: Option<Checkpoint>
    /** The peers that are connected, all blocks that were given BFFastAdd so far, and whether
        the list holds a header that was verified against the next checkpoint. */
    ghost var live: set<Peer>
    ghost var fastAdded: set<BlockHash>
    ghost var verified: bool
    /** The greatest height the best chain was seen to have. */
    ghost var peak: int

    ghost predicate Valid()
      reads this, live`requestedBlocks, live`requestedTxns
    {
      && Ascending(cfg.checkpoints)
      && SyncOk(cfg, headersFirstMode, syncPeer.Some?, headerList, startHeader, nextCheckpoint, verified)
      && PeersOk(live, candidates, syncPeer)
      && Held(requestedBlocks, BlocksAsked(live))
      && Held(requestedTxns, TxnsAsked(live))
    }

    /** In headers-first mode blocks come from the sync peer alone, and only those that the list
        names; while the chain is still to reach the next checkpoint nobody is asked for blocks in
        any other way; and so far every block given BFFastAdd was a checkpoint or led to one. */
    ghost predicate Orderly()
      reads this, live`requestedBlocks, live`requestQueue
    {
      OrderlyAmong(live)
    }

    ghost predicate OrderlyAmong(peers: set<Peer>)
      reads this, peers`requestedBlocks, peers`requestQueue
    {
      && LeadToCheckpoints(cfg.checkpoints, fastAdded)
      && (headersFirstMode && syncPeer.Some? ==>
          && syncPeer.value in peers
          && OnlyAsked(peers, syncPeer)
          && Tracked(headerList, startHeader, verified, syncPeer.value.requestedBlocks))
      && (!headersFirstMode && Ahead() ==> syncPeer == None && OnlyAsked(peers, None))
    }

    /** The chain was never seen to have reached the next checkpoint. */
    ghost predicate Ahead()
      reads this
    {
      nextCheckpoint.Some? && peak < nextCheckpoint.value.height && !cfg.regressionTest
    }

    /** What the chain promises about its height: once it has reached a checkpoint it never falls
        below it again, as forks from before a passed checkpoint are refused. */
    ghost predicate TipKept(height: int)
      reads this
    {
      forall c :: c in cfg.checkpoints && c.height <= peak ==> c.height <= height
    }

    /** What the chain promises when it takes itself to be current: it has passed all checkpoints. */
    ghost predicate CurrentIsPast(chainIsCurrent: bool, height: int) {
      chainIsCurrent && !cfg.disableCheckpoints ==> forall c :: c in cfg.checkpoints ==> c.height <= height
    }

    constructor (config: Config, tip: HeaderNode)
      requires Ascending(config.checkpoints)
      ensures Valid() && Orderly() && cfg == config && fresh(this)
      ensures live == {} && fastAdded == {} && !headersFirstMode && syncPeer == None && candidates == []
      ensures requestedBlocks == {} && requestedTxns == {}
      ensures if config.disableCheckpoints then nextCheckpoint == None else
                IsNext(config.checkpoints, tip.height, nextCheckpoint)
    {
      cfg := config;
      requestedTxns, requestedBlocks, syncPeer, candidates := {}, {}, None, [];
      headersFirstMode, headerList, startHeader, nextCheckpoint := false, [], NoStart, None;
      live, fastAdded, verified, peak := {}, {}, false, tip.height;
      new;
      if !cfg.disableCheckpoints {
        nextCheckpoint := FindNextHeaderCheckpoint(tip.height);
        if nextCheckpoint.Some? {
          ResetHeaderState(tip);
        }
      }
    }

    method FindNextHeaderCheckpoint(height: int) returns (next: Option<Checkpoint>)
      requires Ascending(cfg.checkpoints)
      ensures if cfg.disableCheckpoints then next == None else IsNext(cfg.checkpoints, height, next)
    {
      if cfg.disableCheckpoints {
        return None;
      }
      next := FindNextCheckpoint(cfg.checkpoints, height);
    }

    method ResetHeaderState(tip: HeaderNode)
      modifies `headersFirstMode, `headerList, `startHeader, `verified
      ensures !headersFirstMode && startHeader == NoStart && !verified
      ensures headerList == if nextCheckpoint.Some? then [tip] else []
    {
      headersFirstMode := false;
      headerList := [];
      startHeader := NoStart;
      verified := false;
      if nextCheckpoint.Some? {
        headerList := headerList + [tip];
      }
    }

    /** Removes the candidates that are behind; the best peer is the last that stays. */
    method DropStale(height: int) returns (bestPeer: Option<Peer>)
      requires PeersOk(live, candidates, syncPeer)
      modifies `candidates
      ensures PeersOk(live, candidates, syncPeer) && candidates == Eligible(old(candidates), height)
      ensures bestPeer == if candidates == [] then None else Some(candidates[|candidates| - 1])
    {
      hide Distinct, Eligible;
      bestPeer := None;
      var i := 0;
      ghost var was, kept, seen := candidates, [], 0;
      EligibleAre(was, height);
      EligibleNone(height);
      while i < |candidates|
        invariant 0 <= seen <= |was| && i == |kept| && kept == Eligible(was[..seen], height)
        invariant candidates == kept + was[seen..]
        invariant bestPeer == if i == 0 then None else Some(kept[i - 1])
        decreases |candidates| - i
      {
        var sp := candidates[i];
        Middle(kept, was, seen);
        EligibleStep(was, seen, height);
        if sp.lastBlock < height {
          candidates := candidates[..i] + candidates[i + 1..];
        } else {
          bestPeer := Some(sp);
          i := i + 1;
          kept := kept + [sp];
        }
        seen := seen + 1;
      }
      assert candidates == kept && was[..seen] == was;
      assert PeersOk(live, candidates, syncPeer);
    }

    /** Chooses the last of the remaining candidates, unless a sync is under way. */
    method StartSync(tip: HeaderNode) returns (sent: Option<Message>)
      requires Valid()
      modifies `candidates, `headersFirstMode, `syncPeer, `peak
      ensures Valid()
      ensures old(Orderly() && TipKept(tip.height)) ==> Orderly()
      ensures if old(syncPeer).Some? then
                syncPeer == old(syncPeer) && candidates == old(candidates) &&
                headersFirstMode == old(headersFirstMode) && sent == None
              else
                && candidates == Eligible(old(candidates), tip.height)
                && StartedWith(tip, sent)
    {
      hide SyncOk, CursorOk, PeersOk, Held, OnlyAsked, LeadToCheckpoints, Tracked, BlocksAsked, TxnsAsked;
      hide Eligible, Without, Distinct, Linked, Ascending, Reaches;
      if syncPeer.Some? {
        return None;
      }
      SyncStarts(cfg, headersFirstMode, headerList, startHeader, nextCheckpoint, verified);
      var bestPeer := DropStale(tip.height);
      peak := if peak < tip.height then tip.height else peak;
      sent := None;
      if bestPeer.Some? {
        if nextCheckpoint.Some? && tip.height < nextCheckpoint.value.height &&
           !cfg.regressionTest && !cfg.disableCheckpoints {
          sent := Some(GetHeaders(Best, nextCheckpoint.value.hash));
          headersFirstMode := true;
        } else {
          sent := Some(GetBlocks(Best, None));
        }
        syncPeer := bestPeer;
        PeersSyncing(live, candidates, syncPeer);
        if old(OnlyAsked(live, None)) {
          OnlyAskedBut(live, bestPeer.value);
        }
      }
    }

    /** A peer that just connected: nothing was asked of it yet. */
    method HandleNewPeer(p: Peer, isCandidate: bool, shuttingDown: bool, tip: HeaderNode)
      returns (sent: Option<Message>)
      requires Valid() && p !in live
      requires p.requestedBlocks == {} && p.requestedTxns == {} && p.requestQueue == []
      modifies `live, `candidates, `headersFirstMode, `syncPeer, `peak
      ensures Valid() && live == old(live) + {p}
      ensures old(Orderly() && TipKept(tip.height)) ==> Orderly()
      ensures shuttingDown || !isCandidate ==>
                candidates == old(candidates) && syncPeer == old(syncPeer) && sent == None &&
                headersFirstMode == old(headersFirstMode)
      ensures !shuttingDown && isCandidate && old(syncPeer).Some? ==>
                candidates == old(candidates) + [p] && syncPeer == old(syncPeer) && sent == None &&
                headersFirstMode == old(headersFirstMode)
      ensures !shuttingDown && isCandidate && old(syncPeer) == None ==>
                candidates == Eligible(old(candidates) + [p], tip.height) && StartedWith(tip, sent)
    {
      hide SyncOk, CursorOk, PeersOk, Held, OnlyAsked, LeadToCheckpoints, Tracked, BlocksAsked, TxnsAsked;
      hide Eligible, Without, Distinct, Linked, Ascending, Reaches;
      HeldWith(live, p, requestedBlocks, requestedTxns);
      PeersWith(live, candidates, p, syncPeer);
      if OnlyAsked(live, None) {
        OnlyAskedWith(live, p, None);
      }
      if OnlyAsked(live, syncPeer) {
        OnlyAskedWith(live, p, syncPeer);
      }
      live := live + {p};
      sent := None;
      if shuttingDown || !isCandidate {
        return;
      }
      candidates := candidates + [p];
      sent := StartSync(tip);
    }

    /** How a started sync leaves the state, given the remaining candidates. */
    ghost predicate StartedWith(tip: HeaderNode, sent: Option<Message>)
      reads this
    {
      && syncPeer == (if candidates == [] then None else Some(candidates[|candidates| - 1]))
      && (headersFirstMode <==> candidates != [] && !cfg.regressionTest && !cfg.disableCheckpoints &&
                                nextCheckpoint.Some? && tip.height < nextCheckpoint.value.height)
      && (sent == if candidates == [] then None
                  else if headersFirstMode then Some(GetHeaders(Best, nextCheckpoint.value.hash))
                  else Some(GetBlocks(Best, None)))
    }

    /** Removes the first occurrence of the peer. */
    method RemoveCandidate(p: Peer)
      requires PeersOk(live, candidates, syncPeer)
      modifies `candidates
      ensures PeersOk(live, candidates, syncPeer) && candidates == Without(old(candidates), p) && p !in candidates
    {
      hide Without;
      var i := 0;
      while i < |candidates|
        invariant 0 <= i <= |candidates| && candidates == old(candidates) && p !in candidates[..i]
      {
        if candidates[i] == p {
          WithoutAt(candidates, i);
          candidates := candidates[..i] + candidates[i + 1..];
          break;
        }
        i := i + 1;
      }
      WithoutNone(old(candidates), p);
    }

    /** The peer is gone: what it was asked for may be fetched elsewhere. */
    method Forget(p: Peer)
      requires Valid() && p in live && syncPeer != Some(p)
      modifies `live, `candidates, `requestedTxns, `requestedBlocks
      ensures Valid() && (old(OrderlyAmong(live - {p})) ==> Orderly())
      ensures live == old(live) - {p} && candidates == Without(old(candidates), p)
      ensures requestedTxns == old(requestedTxns) - p.requestedTxns
      ensures requestedBlocks == old(requestedBlocks) - p.requestedBlocks
    {
      hide SyncOk, CursorOk, PeersOk, Held, OnlyAsked, LeadToCheckpoints, Tracked, BlocksAsked, TxnsAsked;
      hide Eligible, Without, Distinct, Linked, Ascending, Reaches;
      HeldWithout(live, p, requestedBlocks, requestedTxns);
      RemoveCandidate(p);
      PeersWithout(live, candidates, p, syncPeer);
      live := live - {p};
      requestedTxns := requestedTxns - p.requestedTxns;
      requestedBlocks := requestedBlocks - p.requestedBlocks;
    }

    /** The sync peer is gone, and with it what headers-first mode was after. */
    method LoseSyncPeer(p: Peer, tip: HeaderNode)
      requires Valid() && syncPeer == Some(p)
      modifies `syncPeer, `headersFirstMode, `headerList, `startHeader, `verified
      ensures Valid() && syncPeer == None && !headersFirstMode
      ensures old(Orderly()) ==> OrderlyAmong(live - {p})
      ensures if old(headersFirstMode) then headerList == [tip] && startHeader == NoStart && !verified
              else headerList == old(headerList) && startHeader == old(startHeader) && verified == old(verified)
    {
      hide SyncOk, CursorOk, PeersOk, Held, OnlyAsked, LeadToCheckpoints, Tracked, BlocksAsked, TxnsAsked;
      hide Linked, Ascending, Reaches;
      SyncStops(cfg, headersFirstMode, headerList, startHeader, nextCheckpoint, verified, tip);
      SyncPeerIsLive(live, candidates, syncPeer);
      if OnlyAsked(live, syncPeer) {
        OnlyAskedLess(live, live - {p}, syncPeer);
      }
      syncPeer := None;
      if headersFirstMode {
        ResetHeaderState(tip);
      }
    }

    method HandleDonePeer(p: Peer, tip: HeaderNode) returns (sent: Option<Message>)
      requires Valid() && p in live
      modifies this
      ensures Valid() && live == old(live) - {p}
      ensures old(Orderly() && TipKept(tip.height)) ==> Orderly()
      ensures requestedTxns == old(requestedTxns) - p.requestedTxns
      ensures requestedBlocks == old(requestedBlocks) - p.requestedBlocks
      ensures nextCheckpoint == old(nextCheckpoint) && fastAdded == old(fastAdded)
      ensures old(syncPeer) != Some(p) ==>
                candidates == Without(old(candidates), p) && syncPeer == old(syncPeer) && sent == None &&
                headersFirstMode == old(headersFirstMode) && headerList == old(headerList) &&
                startHeader == old(startHeader) && verified == old(verified)
      ensures old(syncPeer) == Some(p) ==>
                candidates == Eligible(Without(old(candidates), p), tip.height) && StartedWith(tip, sent)
      ensures old(syncPeer) == Some(p) ==>
                if old(headersFirstMode) then headerList == [tip] && startHeader == NoStart && !verified
                else headerList == old(headerList) && startHeader == old(startHeader) && verified == old(verified)
    {
      hide SyncOk, CursorOk, PeersOk, Held, OnlyAsked, LeadToCheckpoints, Tracked, BlocksAsked, TxnsAsked;
      hide Eligible, Without, Distinct, Linked, Ascending, Reaches;
      hide StartedWith, Valid, OrderlyAmong;
      sent := None;
      if syncPeer.Some? && syncPeer.value == p {
        LoseSyncPeer(p, tip);
        Forget(p);
        sent := StartSync(tip);
      } else {
        ForgetOther(p);
      }
    }

    method ForgetOther(p: Peer)
      requires Valid() && p in live && syncPeer != Some(p)
      modifies `live, `candidates, `requestedTxns, `requestedBlocks
      ensures Valid() && (old(Orderly()) ==> Orderly())
      ensures live == old(live) - {p} && candidates == Without(old(candidates), p)
      ensures requestedTxns == old(requestedTxns) - p.requestedTxns
      ensures requestedBlocks == old(requestedBlocks) - p.requestedBlocks
    {
      hide SyncOk, CursorOk, PeersOk, Held, OnlyAsked, LeadToCheckpoints, Tracked, BlocksAsked, TxnsAsked;
      hide Linked, Ascending, Reaches, Without;
      if OnlyAsked(live, syncPeer) {
        OnlyAskedLess(live, live - {p}, syncPeer);
      }
      Forget(p);
    }

    /** The request maps after a transaction message; the pool decides on the transaction itself. */
    method HandleTx(p: Peer, tx: Hash)
      requires Valid() && p in live
      modifies `requestedTxns, p`requestedTxns
      ensures Valid() && (old(Orderly()) ==> Orderly())
      ensures requestedTxns == old(requestedTxns) - {tx} && p.requestedTxns == old(p.requestedTxns) - {tx}
    {
      hide SyncOk, PeersOk, LeadToCheckpoints, Tracked, Linked, Ascending;
      p.requestedTxns := p.requestedTxns - {tx};
      requestedTxns := requestedTxns - {tx};
      StaysHeld(old(requestedTxns), old(TxnsAsked(live)), {tx}, {},
                requestedTxns, TxnsAsked(live));
    }

    /** Asks the sync peer for the blocks of listed headers, from the cursor on. */
    method FetchHeaderBlocks(have: BlockHash -> bool) returns (asked: seq<BlockHash>)
      requires Valid() && headersFirstMode && syncPeer.Some?
      modifies `startHeader, `requestedBlocks, syncPeer.value`requestedBlocks
      ensures Valid() && (old(Orderly()) ==> Orderly())
      ensures requestedBlocks == Plus(old(requestedBlocks), asked)
      ensures syncPeer.value.requestedBlocks == Plus(old(syncPeer.value.requestedBlocks), asked)
      ensures Fetched(headerList, old(startHeader), have, startHeader, asked)
    {
      hide SyncOk, CursorOk, PeersOk, Held, LeadToCheckpoints, Tracked, TxnsAsked, NoBlocks, Linked, Ascending;
      hide Missing, AsSet, Fetched, Batched;
      SyncFacts(cfg, syncPeer.Some?, headerList, startHeader, nextCheckpoint, verified);
      SyncPeerIsLive(live, candidates, syncPeer);
      ghost var start, from := startHeader, syncPeer.value.requestedBlocks;
      asked := ScanHeaders(have);
      SyncFetched(cfg, headerList, start, nextCheckpoint, verified, have, startHeader, asked);
      assert AsSet(asked) <= BlocksAsked(live)[syncPeer.value];
      StaysHeld(old(requestedBlocks), old(BlocksAsked(live)), {}, AsSet(asked), requestedBlocks, BlocksAsked(live));
      if old(Orderly()) {
        TrackedBatch(headerList, start, verified, from, have, startHeader, asked);
      }
    }

    /** Walks the list from the cursor on, noting down what is asked for. */
    method ScanHeaders(have: BlockHash -> bool) returns (asked: seq<BlockHash>)
      requires syncPeer.Some? && CursorOk(headerList, startHeader)
      modifies `startHeader, `requestedBlocks, syncPeer.value`requestedBlocks
      ensures requestedBlocks == Plus(old(requestedBlocks), asked)
      ensures syncPeer.value.requestedBlocks == Plus(old(syncPeer.value.requestedBlocks), asked)
      ensures Fetched(headerList, old(startHeader), have, startHeader, asked)
    {
      hide Batched, Missing, AsSet, CursorAfterBatch;
      asked := [];
      var q := syncPeer.value;
      var start, rest, n: nat := startHeader, Rest(headerList, startHeader), 0;
      BatchStart(headerList, start, have);
      while n < |rest|
        invariant n <= |rest| && Batched(headerList, start, have, n, startHeader, asked)
        invariant |asked| < MAX_INV_PER_MSG
        invariant requestedBlocks == old(requestedBlocks) + AsSet(asked)
        invariant q.requestedBlocks == old(q.requestedBlocks) + AsSet(asked)
      {
        var node := rest[n];
        BatchStep(headerList, start, have, n, startHeader, asked);
        if !have(node.sha) {
          requestedBlocks := requestedBlocks + {node.sha};
          q.requestedBlocks := q.requestedBlocks + {node.sha};
          asked := asked + [node.sha];
        }
        n := n + 1;
        startHeader := CursorAfterBatch(headerList, start, n);
        if |asked| >= MAX_INV_PER_MSG {
          break;
        }
      }
    }

    /** The block was asked for and is not any more. */
    ghost predicate Passed(sha: BlockHash)
      reads this, (if syncPeer.Some? then {syncPeer.value} else {})`requestedBlocks
    {
      && CursorOk(headerList, startHeader) && Scanned(headerList, startHeader) > 0
      && syncPeer.Some? && sha !in syncPeer.value.requestedBlocks
    }

    method TakeFront(sha: BlockHash) returns (fast: bool, isCheckpoint: bool)
      requires IsFront(headersFirstMode, headerList, sha) ==> nextCheckpoint.Some?
      modifies `headerList, `startHeader, `fastAdded
      ensures fast <==> old(IsFront(headersFirstMode, headerList, sha))
      ensures isCheckpoint <==> fast && nextCheckpoint.value.hash == sha
      ensures if old(Leaves(headersFirstMode, headerList, nextCheckpoint, sha)) then
                headerList == old(headerList[1..]) && startHeader == CursorAfterFront(old(headerList), old(startHeader))
              else headerList == old(headerList) && startHeader == old(startHeader)
      ensures fastAdded == Noted(old(fastAdded), fast, sha)
    {
      hide CursorAfterFront;
      fast, isCheckpoint := false, false;
      if headersFirstMode && headerList != [] && sha == headerList[0].sha {
        fast := true;
        fastAdded := fastAdded + {sha};
        if sha == nextCheckpoint.value.hash {
          isCheckpoint := true;
        } else {
          startHeader := CursorAfterFront(headerList, startHeader);
          headerList := headerList[1..];
        }
      }
    }

    /** Decides on BFFastAdd, takes the block off the header list unless it is the checkpoint, and
        drops the requests for it. */
    method TakeBlock(p: Peer, sha: BlockHash) returns (fast: bool, isCheckpoint: bool)
      requires Valid() && p in live && (sha in p.requestedBlocks || cfg.regressionTest)
      modifies `headerList, `startHeader, `fastAdded, `requestedBlocks, p`requestedBlocks
      ensures Valid() && (old(Orderly()) ==> Orderly())
      ensures fast <==> old(IsFront(headersFirstMode, headerList, sha))
      ensures isCheckpoint <==> fast && nextCheckpoint.Some? && nextCheckpoint.value.hash == sha
      ensures fast && verified ==> nextCheckpoint.Some? && Extends(nextCheckpoint.value.hash, sha)
      ensures fast && old(Orderly()) ==> verified && (isCheckpoint ==> Passed(sha))
      ensures if old(Leaves(headersFirstMode, headerList, nextCheckpoint, sha)) then
                headerList == old(headerList[1..]) && startHeader == CursorAfterFront(old(headerList), old(startHeader))
              else headerList == old(headerList) && startHeader == old(startHeader)
      ensures fastAdded == Noted(old(fastAdded), fast, sha)
      ensures requestedBlocks == old(requestedBlocks) - {sha} && p.requestedBlocks == old(p.requestedBlocks) - {sha}
    {
      hide SyncOk, PeersOk, Held, Tracked, TxnsAsked, NoBlocks, Linked, Ascending, CursorAfterFront, Extends;
      hide LeadToCheckpoints, Scanned, BlocksAsked;
      SyncTaken(cfg, headersFirstMode, syncPeer.Some?, headerList, startHeader, nextCheckpoint, verified, sha);
      if headersFirstMode && Orderly() {
        TrackedTaken(cfg, headerList, startHeader, nextCheckpoint, verified, sha,
                     syncPeer.value.requestedBlocks, fastAdded);
      }
      fast, isCheckpoint := TakeFront(sha);
      DropRequest(p, sha);
    }

    method DropRequest(p: Peer, sha: BlockHash)
      requires p in live && Held(requestedBlocks, BlocksAsked(live))
      modifies `requestedBlocks, p`requestedBlocks
      ensures Held(requestedBlocks, BlocksAsked(live))
      ensures requestedBlocks == old(requestedBlocks) - {sha} && p.requestedBlocks == old(p.requestedBlocks) - {sha}
    {
      p.requestedBlocks := p.requestedBlocks - {sha};
      requestedBlocks := requestedBlocks - {sha};
      StaysHeld(old(requestedBlocks), old(BlocksAsked(live)), {sha}, {}, requestedBlocks, BlocksAsked(live));
    }

    /** The checkpoint block arrived: asks for the headers up to the next checkpoint, or past the
        final one leaves headers-first mode and asks for the rest of the chain. */
    method NextRound(sha: BlockHash) returns (sent: Message)
      requires Valid() && IsFront(headersFirstMode, headerList, sha)
      requires nextCheckpoint.Some? && nextCheckpoint.value.hash == sha
      modifies `nextCheckpoint, `headersFirstMode, `headerList, `startHeader, `verified
      ensures Valid() && !verified
      ensures old(Orderly() && Passed(sha)) ==> Orderly()
      ensures IsNext(cfg.checkpoints, old(nextCheckpoint).value.height, nextCheckpoint)
      ensures headersFirstMode == nextCheckpoint.Some?
      ensures if nextCheckpoint.Some? then
                headerList == old(headerList) && startHeader == old(startHeader) &&
                sent == GetHeaders(From(old(nextCheckpoint).value.hash), nextCheckpoint.value.hash)
              else headerList == [] && sent == GetBlocks(From(sha), None)
    {
      hide SyncOk, PeersOk, Held, TxnsAsked, BlocksAsked, NoBlocks, Linked, Ascending, Extends, IsNext;
      hide LeadToCheckpoints, OnlyAsked, Tracked, LostCursor, Reaches;
      ghost var before, list, start := nextCheckpoint, headerList, startHeader;
      SyncTaken(cfg, headersFirstMode, syncPeer.Some?, list, start, before, verified, sha);
      if Orderly() && Passed(sha) {
        TrackedUnverified(list, start, verified, syncPeer.value.requestedBlocks);
      }
      var prevHash := nextCheckpoint.value.hash;
      nextCheckpoint := FindNextHeaderCheckpoint(nextCheckpoint.value.height);
      SyncRound(cfg, list, start, before, verified, nextCheckpoint);
      verified := false;
      if nextCheckpoint.Some? {
        sent := GetHeaders(From(prevHash), nextCheckpoint.value.hash);
      } else {
        LeaveHeadersFirst();
        sent := GetBlocks(From(sha), None);
      }
    }

    method LeaveHeadersFirst()
      requires CursorOk(headerList, startHeader)
      modifies `headersFirstMode, `headerList, `startHeader
      ensures !headersFirstMode && headerList == [] && startHeader == LostCursor(old(headerList), old(startHeader))
    {
      headersFirstMode := false;
      startHeader := LostCursor(headerList, startHeader);
      headerList := [];
    }

    ghost predicate Kept(headersFirst: bool, list: seq<HeaderNode>, start: Cursor, next: Option<Checkpoint>,
                         wasVerified: bool)
      reads this
    {
      && headersFirstMode == headersFirst && headerList == list && startHeader == start
      && nextCheckpoint == next && verified == wasVerified
    }

    /** Where a processed block leaves the fields about the header list. */
    ghost predicate Continued(isCheckpoint: bool, sha: BlockHash, headersFirst: bool, list: seq<HeaderNode>,
                              start: Cursor,
                              next: Option<Checkpoint>, wasVerified: bool, inFlight: nat, have: BlockHash -> bool,
                              sent: seq<Message>, asked: seq<BlockHash>)
      reads this
    {
      if headersFirst && isCheckpoint then
        && next.Some? && IsNext(cfg.checkpoints, next.value.height, nextCheckpoint) && !verified && asked == []
        && headersFirstMode == nextCheckpoint.Some?
        && (if nextCheckpoint.Some? then
              headerList == list && startHeader == start &&
              sent == [GetHeaders(From(sha), nextCheckpoint.value.hash)]
            else headerList == [] && sent == [GetBlocks(From(sha), None)])
      else if headersFirst && start != NoStart && inFlight < 10 then
        Kept(headersFirst, list, startHeader, next, wasVerified) && Fetched(list, start, have, startHeader, asked) &&
          sent == []
      else
        Kept(headersFirst, list, start, next, wasVerified) && sent == [] && asked == []
    }

    /** The block is with the chain: the next round starts if it is the checkpoint, and otherwise
        more blocks are asked for when few are on their way. */
    method ContinueSync(p: Peer, sha: BlockHash, isCheckpoint: bool, have: BlockHash -> bool)
      returns (sent: seq<Message>, asked: seq<BlockHash>)
      requires Valid() && p in live
      requires isCheckpoint ==> IsFront(headersFirstMode, headerList, sha)
      requires isCheckpoint ==> nextCheckpoint.Some? && nextCheckpoint.value.hash == sha
      modifies `headerList, `startHeader, `nextCheckpoint, `headersFirstMode, `requestedBlocks, `verified
      modifies (if syncPeer.Some? then {syncPeer.value} else {})`requestedBlocks
      ensures Valid()
      ensures old(Orderly() && (isCheckpoint ==> Passed(sha))) ==> Orderly()
      ensures requestedBlocks == Plus(old(requestedBlocks), asked)
      ensures syncPeer.Some? ==> syncPeer.value.requestedBlocks == Plus(old(syncPeer.value.requestedBlocks), asked)
      ensures syncPeer == None ==> asked == []
      ensures Continued(isCheckpoint, sha, old(headersFirstMode), old(headerList), old(startHeader),
                        old(nextCheckpoint),
                        old(verified), |old(p.requestedBlocks)|, have, sent, asked)
    {
      hide SyncOk, PeersOk, Held, TxnsAsked, BlocksAsked, NoBlocks, Linked, Ascending, Extends, IsNext;
      hide LeadToCheckpoints, OnlyAsked, Tracked, CursorAfterFront, Fetched, LostCursor, Scanned;
      sent, asked := [], [];
      SyncTaken(cfg, headersFirstMode, syncPeer.Some?, headerList, startHeader, nextCheckpoint, verified, sha);
      if !headersFirstMode {
        return;
      }
      if !isCheckpoint {
        if startHeader != NoStart && |p.requestedBlocks| < MIN_IN_FLIGHT_BLOCKS {
          asked := FetchHeaderBlocks(have);
        }
        return;
      }
      var message := NextRound(sha);
      sent := [message];
    }

    /** Notes down how high the peer is now known to be; an orphan also calls for its ancestors. */
    method NoteHeight(p: Peer, result: BlockResult) returns (sent: seq<Message>)
      requires Valid() && p in live && !result.Rejected?
      modifies p`lastBlock
      ensures Valid() && (old(Orderly()) ==> Orderly())
      ensures p.lastBlock == HeightAfter(result, old(p.lastBlock)) && sent == Reply(result)
    {
      hide SyncOk, PeersOk, Held, LeadToCheckpoints, Tracked, Linked, Ascending;
      sent := [];
      match result {
        case Orphan(claimed, root) =>
          sent := [GetBlocks(Best, Some(root))];
          if claimed.Some? && claimed.value != 0 {
            p.lastBlock := claimed.value;
          }
        case Accepted(height) =>
          if height != 0 {
            p.lastBlock := height;
          }
      }
    }

    method AddBlock(p: Peer, sha: BlockHash, result: BlockResult, have: BlockHash -> bool)
      returns (fast: bool, sent: seq<Message>, asked: seq<BlockHash>)
      requires Valid() && p in live && (sha in p.requestedBlocks || cfg.regressionTest)
      modifies `headerList, `startHeader, `nextCheckpoint, `headersFirstMode, `requestedBlocks, `fastAdded, `verified
      modifies p`requestedBlocks, p`lastBlock
      modifies (if syncPeer.Some? then {syncPeer.value} else {})`requestedBlocks
      ensures Valid() && (old(Orderly()) ==> Orderly())
      ensures fast && old(verified) ==> old(nextCheckpoint).Some? && Extends(old(nextCheckpoint).value.hash, sha)
      ensures fast && old(Orderly()) ==> old(verified)
      ensures fast <==> old(IsFront(headersFirstMode, headerList, sha))
      ensures fastAdded == Noted(old(fastAdded), fast, sha)
      ensures requestedBlocks == Plus(old(requestedBlocks) - {sha}, asked)
      ensures p.requestedBlocks == Plus(old(p.requestedBlocks) - {sha}, if syncPeer == Some(p) then asked else [])
      ensures syncPeer.Some? && syncPeer.value != p ==>
                syncPeer.value.requestedBlocks == Plus(old(syncPeer.value.requestedBlocks), asked)
      ensures p.lastBlock == HeightAfter(result, old(p.lastBlock))
      ensures var gone := old(Leaves(headersFirstMode, headerList, nextCheckpoint, sha));
              var list := if gone then old(headerList)[1..] else old(headerList);
              var start := if gone then CursorAfterFront(old(headerList), old(startHeader)) else old(startHeader);
              if result.Rejected? then
                sent == [] && asked == [] && Kept(old(headersFirstMode), list, start, old(nextCheckpoint),
                                                  old(verified))
              else
                && Reply(result) <= sent
                && Continued(fast && !gone, sha, old(headersFirstMode), list, start,
                             old(nextCheckpoint), old(verified), |old(p.requestedBlocks) - {sha}|, have,
                             sent[|Reply(result)|..], asked)
    {
      hide SyncOk, PeersOk, Held, TxnsAsked, BlocksAsked, NoBlocks, Linked, Ascending, Extends, IsNext, Continued;
      hide LeadToCheckpoints, OnlyAsked, Tracked, CursorAfterFront, Fetched, LostCursor, Scanned, Plus, Noted, Reply;
      sent, asked := [], [];
      SyncTaken(cfg, headersFirstMode, syncPeer.Some?, headerList, startHeader, nextCheckpoint, verified, sha);
      SyncPeerIsLive(live, candidates, syncPeer);
      hide Valid, Orderly, Passed;
      NoneAsked(old(requestedBlocks) - {sha});
      NoneAsked(old(p.requestedBlocks) - {sha});
      NoneAsked(if syncPeer.Some? then old(syncPeer.value.requestedBlocks) else {});
      var isCheckpoint;
      fast, isCheckpoint := TakeBlock(p, sha);
      if !result.Rejected? {
        var first := NoteHeight(p, result);
        var more;
        more, asked := ContinueSync(p, sha, isCheckpoint, have);
        sent := first + more;
        Reappears(first, more);
      }
    }

    /** Whether a block was given BFFastAdd: when it is at the front of the header list. While a
        checkpoint header is verified, that makes it the checkpoint or one of its ancestors; and in
        an orderly run no block is given it at any other time. */
    method HandleBlock(p: Peer, sha: BlockHash, result: BlockResult, have: BlockHash -> bool)
      returns (disconnect: bool, fast: bool, sent: seq<Message>, asked: seq<BlockHash>)
      requires Valid() && p in live
      modifies `headerList, `startHeader, `nextCheckpoint, `headersFirstMode, `requestedBlocks, `fastAdded, `verified
      modifies p`requestedBlocks, p`lastBlock
      modifies (if syncPeer.Some? then {syncPeer.value} else {})`requestedBlocks
      ensures Valid() && (old(Orderly()) ==> Orderly())
      ensures fast && old(verified) ==> Extends(old(nextCheckpoint).value.hash, sha)
      ensures fast && old(Orderly()) ==> old(verified)
      ensures fast <==> !disconnect && old(IsFront(headersFirstMode, headerList, sha))
      ensures fastAdded == Noted(old(fastAdded), fast, sha)
      ensures disconnect <==> sha !in old(p.requestedBlocks) && !cfg.regressionTest
      ensures disconnect ==> requestedBlocks == old(requestedBlocks) && p.requestedBlocks == old(p.requestedBlocks)
      ensures !disconnect ==> requestedBlocks == Plus(old(requestedBlocks) - {sha}, asked)
      ensures !disconnect ==> p.requestedBlocks == Plus(old(p.requestedBlocks) - {sha},
                                                        if syncPeer == Some(p) then asked else [])
      ensures syncPeer.Some? && syncPeer.value != p ==>
                syncPeer.value.requestedBlocks == Plus(old(syncPeer.value.requestedBlocks), asked)
      ensures p.lastBlock == if disconnect then old(p.lastBlock) else HeightAfter(result, old(p.lastBlock))
      ensures disconnect ==> Kept(old(headersFirstMode), old(headerList), old(startHeader), old(nextCheckpoint),
                                  old(verified))
      ensures disconnect || result.Rejected? ==> sent == [] && asked == []
      ensures !disconnect ==>
                var gone := old(Leaves(headersFirstMode, headerList, nextCheckpoint, sha));
                var list := if gone then old(headerList)[1..] else old(headerList);
                var start := if gone then CursorAfterFront(old(headerList), old(startHeader)) else old(startHeader);
                if result.Rejected? then
                  Kept(old(headersFirstMode), list, start, old(nextCheckpoint), old(verified))
                else
                  && Reply(result) <= sent
                  && Continued(old(IsFront(headersFirstMode, headerList, sha)) && !gone, sha, old(headersFirstMode),
                               list, start,
                               old(nextCheckpoint), old(verified), |old(p.requestedBlocks) - {sha}|, have,
                               sent[|Reply(result)|..], asked)
    {
      hide SyncOk, PeersOk, Held, TxnsAsked, BlocksAsked, NoBlocks, Linked, Ascending, Extends, IsNext, Continued;
      hide LeadToCheckpoints, OnlyAsked, Tracked, CursorAfterFront, Fetched, LostCursor, Scanned, Plus, Noted,
        HeightAfter, Reply;
      disconnect, fast, sent, asked := false, false, [], [];
      SyncTaken(cfg, headersFirstMode, syncPeer.Some?, headerList, startHeader, nextCheckpoint, verified, sha);
      if sha !in p.requestedBlocks && !cfg.regressionTest {
        disconnect := true;
        NoneAsked(if syncPeer.Some? then syncPeer.value.requestedBlocks else {});
        NoneNoted(fastAdded, sha);
      } else {
        fast, sent, asked := AddBlock(p, sha, result, have);
      }
    }

    /** Appends the headers of a message one by one, up to the checkpoint or one that does not fit. */
    method ConnectHeaders(headers: seq<Header>) returns (verdict: Verdict, ghost n: nat)
      requires nextCheckpoint.Some? && headers != []
      modifies `headerList, `startHeader
      ensures n <= |headers| && Ran(old(headerList), headers, nextCheckpoint.value, n, verdict)
      ensures verdict == More ==> n == |headers|
      ensures headerList == Listed(old(headerList), headers[..n])
      ensures startHeader == CursorAfterMore(|old(headerList)|, old(startHeader), n)
    {
      hide Ran, Taken, Listed, CursorAfterMore;
      var c := nextCheckpoint.value;
      TakenNone(headerList, startHeader, headers, c);
      ghost var list, start := headerList, startHeader;
      for i := 0 to |headers|
        invariant Taken(list, start, headers, c, i, headerList, startHeader)
      {
        TakenStep(list, start, headers, c, i, headerList, startHeader);
        if headerList == [] {
          return NoPrevious, 0;
        }
        var prevNode := headerList[|headerList| - 1];
        if prevNode.sha != headers[i].prevBlock {
          return Unlinked, i;
        }
        var node := HeaderNode(prevNode.height + 1, BlockSha(headers[i]));
        headerList := headerList + [node];
        if startHeader == NoStart {
          startHeader := InList(|headerList| - 1);
        }
        if node.height == c.height {
          return if node.sha == c.hash then Verified else Mismatch, i + 1;
        }
      }
      TakenAll(list, start, headers, c, headerList, startHeader);
      verdict, n := More, |headers|;
    }

    /** Takes in a headers message of any peer. When it brings the header of the checkpoint, the
        blocks of the list are asked for; the checkpoint is verified once a round only. */
    method HandleHeaders(headers: seq<Header>, have: BlockHash -> bool)
      returns (disconnect: bool, sent: Option<Message>, asked: seq<BlockHash>, verdict: Verdict, ghost n: nat)
      requires Valid()
      modifies `headerList, `startHeader, `requestedBlocks, `verified
      modifies (if syncPeer.Some? then {syncPeer.value} else {})`requestedBlocks
      ensures Valid() && (old(Orderly()) ==> Orderly())
      ensures !headersFirstMode || headers == [] ==>
                n == 0 && verdict == More && sent == None && disconnect == !headersFirstMode
      ensures headersFirstMode && headers != [] ==>
                && n <= |headers| && nextCheckpoint.Some?
                && Ran(old(headerList), headers, nextCheckpoint.value, n, verdict)
                && (disconnect <==> verdict.NoPrevious? || verdict.Unlinked? || verdict.Mismatch?)
                && sent == if verdict.More?
                           then Some(GetHeaders(From(BlockSha(headers[n - 1])), nextCheckpoint.value.hash)) else None
      ensures var list := Listed(old(headerList), headers[..n]);
              var start := CursorAfterMore(|old(headerList)|, old(startHeader), n);
              if verdict.Verified? then
                && !old(verified) && verified && list != [] && headerList == list[1..]
                && Fetched(headerList, CursorAfterFront(list, start), have, startHeader, asked)
              else
                headerList == list && startHeader == start && verified == old(verified) && asked == []
      ensures requestedBlocks == Plus(old(requestedBlocks), asked)
      ensures syncPeer.Some? ==> syncPeer.value.requestedBlocks == Plus(old(syncPeer.value.requestedBlocks), asked)
    {
      hide PeersOk, Held, TxnsAsked, BlocksAsked, NoBlocks, Linked, Ascending, Extends, Reaches, SyncOk;
      hide LeadToCheckpoints, OnlyAsked, Tracked, CursorAfterFront, Fetched, Plus, Ran;
      disconnect, sent, asked, verdict, n := false, None, [], More, 0;
      NoneListed(headerList, startHeader, headers);
      NoneAsked(requestedBlocks);
      NoneAsked(if syncPeer.Some? then syncPeer.value.requestedBlocks else {});
      if !headersFirstMode {
        disconnect := true;
        return;
      }
      if |headers| == 0 {
        return;
      }
      hide CursorAfterMore, Listed;
      ghost var list, start := headerList, startHeader;
      SyncFacts(cfg, syncPeer.Some?, list, start, nextCheckpoint, verified);
      verdict, n := ConnectHeaders(headers);
      SyncMore(cfg, list, start, nextCheckpoint, verified, headers, n, verdict);
      if old(Orderly()) {
        TrackedRun(list, start, verified, syncPeer.value.requestedBlocks, headers, nextCheckpoint.value, n, verdict);
      }
      if verdict == Verified {
        startHeader := CursorAfterFront(headerList, startHeader);
        headerList := headerList[1..];
        verified := true;
        asked := FetchHeaderBlocks(have);
      } else if verdict == More {
        sent := Some(GetHeaders(From(BlockSha(headers[|headers| - 1])), nextCheckpoint.value.hash));
      } else {
        disconnect := true;
      }
    }

    /** Whether the node takes itself to be in step with its peers, given what the chain says. */
    method Current(chainIsCurrent: bool, height: int) returns (r: bool)
      ensures r <==> chainIsCurrent && (syncPeer.Some? ==> syncPeer.value.lastBlock <= height)
    {
      if !chainIsCurrent {
        return false;
      }
      if syncPeer == None {
        return true;
      }
      return !(height < syncPeer.value.lastBlock);
    }

    /** Asks for as much of the queue as one request has room for. */
    method DrainQueue(p: Peer) returns (asked: seq<InvVect>)
      requires Valid() && p in live
      modifies `requestedBlocks, `requestedTxns, p`requestedBlocks, p`requestedTxns, p`requestQueue
      ensures requestedBlocks == old(requestedBlocks) + BlocksOf(asked)
      ensures requestedTxns == old(requestedTxns) + TxnsOf(asked)
      ensures p.requestedBlocks == old(p.requestedBlocks) + BlocksOf(asked)
      ensures p.requestedTxns == old(p.requestedTxns) + TxnsOf(asked)
      ensures Drained(old(p.requestQueue), old(requestedBlocks), old(requestedTxns), p.requestQueue, asked)
    {
      hide Fresh, BlocksOf, TxnsOf, Valid, Pending;
      asked := [];
      var queue := p.requestQueue;
      ghost var all, blocks, txns, n: nat := queue, requestedBlocks, requestedTxns, 0;
      FreshNone(blocks, txns);
      while queue != []
        invariant n <= |all| && queue == all[n..] && asked == Fresh(all[..n], blocks, txns)
        invariant |asked| < MAX_INV_PER_MSG
        invariant requestedBlocks == blocks + BlocksOf(asked) && requestedTxns == txns + TxnsOf(asked)
        invariant p.requestedBlocks == old(p.requestedBlocks) + BlocksOf(asked)
        invariant p.requestedTxns == old(p.requestedTxns) + TxnsOf(asked)
        decreases |queue|
      {
        var iv := queue[0];
        queue := queue[1..];
        FreshStep(all, blocks, txns, n);
        PendingMeans(iv, requestedBlocks, requestedTxns);
        match iv {
          case InvBlock(h) =>
            if h !in requestedBlocks {
              requestedBlocks := requestedBlocks + {h};
              p.requestedBlocks := p.requestedBlocks + {h};
              asked := asked + [iv];
            }
          case InvTx(h) =>
            if h !in requestedTxns {
              requestedTxns := requestedTxns + {h};
              p.requestedTxns := p.requestedTxns + {h};
              asked := asked + [iv];
            }
          case InvOther =>
        }
        n := n + 1;
        if |asked| >= MAX_INV_PER_MSG {
          break;
        }
      }
      p.requestQueue := queue;
    }

    /** Asks for the queued items; pending ones are left to the peers they were asked of. */
    method RequestQueued(p: Peer) returns (asked: seq<InvVect>)
      requires Valid() && p in live
      modifies `requestedBlocks, `requestedTxns, p`requestedBlocks, p`requestedTxns, p`requestQueue
      ensures Valid() && (old(Orderly()) ==> Orderly())
      ensures requestedBlocks == old(requestedBlocks) + BlocksOf(asked)
      ensures requestedTxns == old(requestedTxns) + TxnsOf(asked)
      ensures p.requestedBlocks == old(p.requestedBlocks) + BlocksOf(asked)
      ensures p.requestedTxns == old(p.requestedTxns) + TxnsOf(asked)
      ensures Drained(old(p.requestQueue), old(requestedBlocks), old(requestedTxns), p.requestQueue, asked)
    {
      hide SyncOk, PeersOk, Held, LeadToCheckpoints, Tracked, Linked, Ascending, Drained, BlocksOf, TxnsOf, NoBlocks;
      hide Fresh, Pending;
      ghost var queue, before := p.requestQueue, p.requestedBlocks;
      asked := DrainQueue(p);
      HeldMore(old(requestedBlocks), old(BlocksAsked(live)), p, BlocksOf(asked));
      HeldMore(old(requestedTxns), old(TxnsAsked(live)), p, TxnsOf(asked));
      assert BlocksAsked(live) == old(BlocksAsked(live))[p := old(BlocksAsked(live))[p] + BlocksOf(asked)];
      assert TxnsAsked(live) == old(TxnsAsked(live))[p := old(TxnsAsked(live))[p] + TxnsOf(asked)];
      if NoBlocks(queue) {
        DrainedNoBlocks(queue, old(requestedBlocks), old(requestedTxns), p.requestQueue, asked);
        assert p.requestedBlocks == before;
      }
    }

    method HandleInv(p: Peer, inv: seq<InvVect>, chainIsCurrent: bool, height: int, have: InvVect -> bool,
                     orphanRoot: BlockHash -> Option<BlockHash>, announced: Option<int>)
      returns (sent: seq<Message>, asked: seq<InvVect>)
      requires Valid() && p in live
      modifies `requestedBlocks, `requestedTxns, `peak
      modifies p`requestedBlocks, p`requestedTxns, p`requestQueue, p`lastBlock
      ensures Valid() && (old(Orderly()) && CurrentIsPast(chainIsCurrent, height) ==> Orderly())
      ensures var isCurrent := chainIsCurrent && (syncPeer.Some? ==> old(syncPeer.value.lastBlock) <= height);
        if syncPeer != Some(p) && !isCurrent then
          sent == [] && asked == [] && p.requestQueue == old(p.requestQueue) && p.lastBlock == old(p.lastBlock) &&
          requestedBlocks == old(requestedBlocks) && requestedTxns == old(requestedTxns) &&
          p.requestedBlocks == old(p.requestedBlocks) && p.requestedTxns == old(p.requestedTxns)
        else
          && Drained(old(p.requestQueue) + (if headersFirstMode then [] else Wanted(inv, have)),
                     old(requestedBlocks), old(requestedTxns), p.requestQueue, asked)
          && sent == (if headersFirstMode then [] else Answers(inv, have, orphanRoot, LastBlock(inv)))
          && requestedBlocks == old(requestedBlocks) + BlocksOf(asked)
          && requestedTxns == old(requestedTxns) + TxnsOf(asked)
          && p.requestedBlocks == old(p.requestedBlocks) + BlocksOf(asked)
          && p.requestedTxns == old(p.requestedTxns) + TxnsOf(asked)
          && p.lastBlock == if announced.Some? && LastBlock(inv) != -1 && isCurrent
                            then announced.value else old(p.lastBlock)
    {
      hide *;
      sent, asked := [], [];
      var lastBlock := FindLastBlock(inv);
      var isCurrent := Current(chainIsCurrent, height);
      if syncPeer != Some(p) && !isCurrent {
        return;
      }
      AskingMeansPast(p, chainIsCurrent, height);
      See(height);
      if lastBlock != -1 && isCurrent && announced.Some? {
        p.lastBlock := announced.value;
      }
      QueueKept(p.requestQueue);
      if !headersFirstMode {
        sent := QueueWanted(p, inv, have, orphanRoot, lastBlock);
      }
      asked := RequestQueued(p);
    }

    /** Takes note of a height that the chain was seen to have. */
    ghost method See(height: int)
      requires Valid()
      modifies `peak
      ensures Valid() && (old(Orderly()) ==> Orderly())
      ensures nextCheckpoint.Some? && height >= nextCheckpoint.value.height ==> !Ahead()
      ensures old(!Ahead()) ==> !Ahead()
    {
      hide SyncOk, PeersOk, Held, LeadToCheckpoints, Tracked, Linked, Ascending, OnlyAsked;
      peak := if peak < height then height else peak;
    }

    /** Items are asked for only when the chain has passed the next checkpoint, or else in
        headers-first mode. */
    lemma AskingMeansPast(p: Peer, chainIsCurrent: bool, height: int)
      requires Valid() && (syncPeer == Some(p) || chainIsCurrent)
      ensures Orderly() && CurrentIsPast(chainIsCurrent, height) ==>
                || headersFirstMode || !Ahead() || (nextCheckpoint.Some? && height >= nextCheckpoint.value.height)
    {
      hide PeersOk, Held, LeadToCheckpoints, Tracked, Linked, Ascending, OnlyAsked;
    }

    lemma QueueKept(queue: seq<InvVect>)
      ensures queue + [] == queue
    {
    }

    /** Queues the advertised items that the node does not have, and asks for what leads to or
        follows blocks that it has but that are orphans or the last ones advertised. */
    method QueueWanted(p: Peer, inv: seq<InvVect>, have: InvVect -> bool, orphanRoot: BlockHash -> Option<BlockHash>,
                       lastBlock: int)
      returns (sent: seq<Message>)
      requires Valid() && p in live && !headersFirstMode
      modifies p`requestQueue
      ensures Valid() && (old(Orderly()) && !Ahead() ==> Orderly())
      ensures p.requestQueue == old(p.requestQueue) + Wanted(inv, have)
      ensures sent == Answers(inv, have, orphanRoot, lastBlock)
    {
      hide SyncOk, PeersOk, Held, LeadToCheckpoints, Tracked, Linked, Ascending;
      sent := [];
      for i := 0 to |inv|
        invariant p.requestQueue == old(p.requestQueue) + Wanted(inv[..i], have)
        invariant sent == Answers(inv[..i], have, orphanRoot, lastBlock)
      {
        var iv := inv[i];
        assert inv[..i + 1][..i] == inv[..i];
        if iv != InvOther && !have(iv) {
          p.requestQueue := p.requestQueue + [iv];
        } else if iv.InvBlock? {
          var root := orphanRoot(iv.block);
          if root.Some? {
            sent := sent + [GetBlocks(Best, root)];
          } else if i == lastBlock {
            sent := sent + [GetBlocks(BackFrom(iv.block), None)];
          }
        }
      }
      assert inv[..|inv|] == inv;
    }

    /** When no peer is left, nothing is pending: all that was asked for can be asked for again. */
    lemma NothingPending()
      requires Valid() && live == {}
      ensures requestedBlocks == {} && requestedTxns == {} && syncPeer == None && !headersFirstMode
    {
      if h :| h in requestedBlocks {
        assert false;
      }
    }

    /** While a checkpoint is verified, the blocks still listed up to it are its ancestors. */
    lemma ListedLeadToCheckpoint(i: nat)
      requires Valid() && verified && i < |headerList| && headerList[i].height <= nextCheckpoint.value.height
      ensures Extends(nextCheckpoint.value.hash, headerList[i].sha)
    {
      ReachesFrom(headerList, nextCheckpoint.value, i);
    }
  }
}
