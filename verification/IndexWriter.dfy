/** The address index writer: blocks are indexed by concurrent workers that finish in any
    order, and committed in height order through a heap. */
module IndexWriter {
  import Heap

  /** A finished index of one block, waiting to be committed. */
  datatype Request = Request(height: int, block: nat)

  predicate Less(a: Request, b: Request) {
    a.height < b.height
  }

  lemma LessIsOrder()
    ensures Heap.StrictWeakOrder(Less)
  {
  }

  method Push(queue: seq<Request>, r: Request) returns (q: seq<Request>)
    requires Heap.IsHeap(Less, queue)
    ensures Heap.IsHeap(Less, q) && multiset(q) == multiset(queue) + multiset{r}
  {
    LessIsOrder();
    q := Heap.Push(Less, queue, r);
  }

  method Pop(queue: seq<Request>) returns (r: Request, q: seq<Request>)
    requires Heap.IsHeap(Less, queue) && queue != []
    ensures Heap.IsHeap(Less, q) && multiset(queue) == multiset(q) + multiset{r} && |q| < |queue|
    ensures AllFrom(q, r.height)
  {
    LessIsOrder();
    r, q := Heap.Pop(Less, queue);
    forall x | x in q ensures x.height >= r.height {
      assert x in multiset(q);
      assert x in multiset(queue) && x in queue;
      assert !Less(x, r);
    }
  }

  lemma Regroup(a: multiset<Request>, b: multiset<Request>, c: multiset<Request>)
    ensures a + b + c == a + (b + c)
  {
  }

  /** No request is below the height. */
  ghost predicate AllFrom(queue: seq<Request>, height: int) {
    forall r :: r in queue ==> r.height >= height
  }

  // ---------- What the writer promises ----------

  /** The database tip after the given commits on top of `tip`: a commit sets it, even back. */
  function TipAfter(log: seq<Request>, tip: int): int {
    if log == [] then tip else log[|log| - 1].height
  }

  /** Every commit is at most one above the tip it meets. */
  ghost predicate InOrder(log: seq<Request>, tip: int) {
    forall i :: 0 <= i < |log| ==> log[i].height <= TipAfter(log[..i], tip) + 1
  }

  ghost predicate NoneReady(pending: seq<Request>, tip: int) {
    AllFrom(pending, tip + 2)
  }

  class Writer {
    var pendingWrites: seq<Request>
    /** The height the database reports as index tip, and all commits to it so far. */
    var addrTip: int
    var committed: seq<Request>
    ghost const startTip: int

    ghost predicate Valid()
      reads this
    {
      && Heap.IsHeap(Less, pendingWrites)
      && NoneReady(pendingWrites, addrTip)
      && InOrder(committed, startTip)
      && addrTip == TipAfter(committed, startTip)
    }

    constructor (tip: int)
      ensures Valid() && addrTip == startTip == tip && pendingWrites == [] && committed == []
    {
      pendingWrites, addrTip, committed, startTip := [], tip, [], tip;
    }

    /** Writes the index of one block; the database moves its tip to that height. */
    method Commit(r: Request)
      requires InOrder(committed, startTip) && addrTip == TipAfter(committed, startTip)
      requires r.height <= addrTip + 1
      modifies `committed, `addrTip
      ensures committed == old(committed) + [r] && addrTip == r.height
      ensures InOrder(committed, startTip) && addrTip == TipAfter(committed, startTip)
    {
      ghost var before := committed;
      committed := committed + [r];
      addrTip := r.height;
      forall i | 0 <= i < |committed| ensures committed[i].height <= TipAfter(committed[..i], startTip) + 1 {
        assert i < |before| ==> committed[..i] == before[..i];
        assert i == |before| ==> committed[..i] == before;
      }
    }

    /** Takes in one request and commits everything that has become ready. */
    method Receive(incoming: Request)
      requires Valid()
      modifies this
      ensures Valid()
      ensures old(committed) <= committed && Ascends(committed, |old(committed)|)
      ensures multiset(committed) + multiset(pendingWrites) ==
              multiset(old(committed)) + multiset(old(pendingWrites)) + multiset{incoming}
    {
      hide Heap.IsHeap, InOrder, TipAfter, Both, AllFrom, Ascends;
      ghost var was, total := pendingWrites, Both(committed, pendingWrites + [incoming]);
      BothIs(committed, pendingWrites, incoming);
      pendingWrites := Push(pendingWrites, incoming);
      BothPushed(committed, was, pendingWrites, incoming);
      var writeReq: Request;
      was := pendingWrites;
      assert |multiset(pendingWrites)| > 0;
      writeReq, pendingWrites := Pop(pendingWrites);
      BothPushed(committed, pendingWrites, was, writeReq);
      AscendsStart(committed, writeReq);
      while writeReq.height == addrTip + 1 || writeReq.height <= addrTip
        invariant Heap.IsHeap(Less, pendingWrites) && AllFrom(pendingWrites, writeReq.height)
        invariant InOrder(committed, startTip) && addrTip == TipAfter(committed, startTip)
        invariant old(committed) <= committed && Ascends(committed + [writeReq], |old(committed)|)
        invariant Both(committed + [writeReq], pendingWrites) == total
        decreases |pendingWrites|
      {
        AscendsLess(committed, writeReq, |old(committed)|);
        Commit(writeReq);
        ghost var last := writeReq;
        if |pendingWrites| == 0 {
          BothIs(committed, pendingWrites, writeReq);
          NoneWaiting(addrTip);
          return;
        }
        was := pendingWrites;
        writeReq, pendingWrites := Pop(pendingWrites);
        BothPushed(committed, pendingWrites, was, writeReq);
        PoppedFrom(was, pendingWrites, writeReq, last.height);
        AscendsMore(committed, last, writeReq, |old(committed)|);
      }
      AscendsLess(committed, writeReq, |old(committed)|);
      was := pendingWrites;
      pendingWrites := Push(pendingWrites, writeReq);
      BothPushed(committed, was, pendingWrites, writeReq);
      BothIs(committed, pendingWrites, writeReq);
      StillWaiting(was, pendingWrites, writeReq, addrTip);
    }
  }

  /** What is written from the n-th request on has heights that never go down. */
  ghost predicate Ascends(log: seq<Request>, n: nat) {
    forall i, j :: n <= i <= j < |log| ==> log[i].height <= log[j].height
  }

  lemma AscendsStart(log: seq<Request>, r: Request)
    ensures Ascends(log + [r], |log|)
  {
  }

  lemma AscendsLess(log: seq<Request>, r: Request, n: nat)
    requires Ascends(log + [r], n)
    ensures Ascends(log, n)
  {
    assert forall i :: 0 <= i < |log| ==> log[i] == (log + [r])[i];
  }

  lemma AscendsMore(log: seq<Request>, last: Request, r: Request, n: nat)
    requires log != [] && log[|log| - 1] == last && Ascends(log, n) && n < |log| && last.height <= r.height
    ensures Ascends(log + [r], n)
  {
  }

  lemma PoppedFrom(before: seq<Request>, after: seq<Request>, r: Request, height: int)
    requires multiset(before) == multiset(after) + multiset{r} && AllFrom(before, height)
    ensures r.height >= height
  {
    assert r in multiset(before);
  }

  /** All requests the writer has seen. */
  function Both(committed: seq<Request>, pending: seq<Request>): multiset<Request> {
    multiset(committed) + multiset(pending)
  }

  lemma BothIs(committed: seq<Request>, pending: seq<Request>, r: Request)
    ensures Both(committed, pending) == multiset(committed) + multiset(pending)
    ensures Both(committed, pending + [r]) == multiset(committed) + multiset(pending) + multiset{r}
  {
    Regroup(multiset(committed), multiset(pending), multiset{r});
    assert multiset(pending + [r]) == multiset(pending) + multiset{r};
  }

  /** A request may be counted as written or as pending. */
  lemma BothPushed(committed: seq<Request>, before: seq<Request>, after: seq<Request>, r: Request)
    requires multiset(after) == multiset(before) + multiset{r}
    ensures Both(committed, after) == Both(committed + [r], before) == Both(committed, before + [r])
  {
    assert multiset(committed + [r]) == multiset(committed) + multiset{r};
    assert multiset(before + [r]) == multiset(before) + multiset{r};
  }

  lemma NoneWaiting(tip: int)
    ensures NoneReady([], tip)
  {
  }

  lemma StillWaiting(before: seq<Request>, after: seq<Request>, r: Request, tip: int)
    requires multiset(after) == multiset(before) + multiset{r} && AllFrom(before, r.height) && r.height >= tip + 2
    ensures NoneReady(after, tip)
  {
    forall x | x in after ensures x.height >= tip + 2 {
      assert x in multiset(after);
      assert x in multiset(before) || x == r;
    }
  }

  // ---------- Consequences ----------

  /** The indexed heights never have a gap. */
  lemma {:induction false} NoGap(log: seq<Request>, tip: int, i: nat, h: int)
    requires InOrder(log, tip) && i < |log| && tip < h <= log[i].height
    ensures exists j :: 0 <= j <= i && log[j].height == h
  {
    if log[i].height != h {
      assert log[i].height <= TipAfter(log[..i], tip) + 1;
      NoGap(log, tip, i - 1, h);
    }
  }

  ghost predicate Consecutive(sent: seq<Request>, tip: int) {
    forall i :: 0 <= i < |sent| ==> sent[i].height == tip + 1 + i
  }

  lemma {:induction false} OnceInConsecutive(sent: seq<Request>, tip: int, k: nat)
    requires Consecutive(sent, tip) && k < |sent|
    ensures multiset(sent)[sent[k]] == 1
  {
    var front, last := sent[..|sent| - 1], sent[|sent| - 1];
    assert sent == front + [last];
    if k < |front| {
      OnceInConsecutive(front, tip, k);
      assert front[k] == sent[k];
    } else {
      assert last !in front;
    }
  }

  lemma TwiceInSeq(s: seq<Request>, k: nat, i: nat)
    requires k < i < |s| && s[k] == s[i]
    ensures multiset(s)[s[i]] >= 2
  {
    assert s == s[..i] + s[i..];
    assert s[k] in s[..i] && s[i] in s[i..];
  }

  /** When the heights `tip+1, tip+2, ...` are handed out once each, what has been committed
      is, at any time and whatever order the workers finish in, the first part of what was
      handed out, in that order. */
  lemma {:induction false} CommittedIsPrefix(log: seq<Request>, sent: seq<Request>, tip: int, n: nat)
    requires InOrder(log, tip) && Consecutive(sent, tip) && multiset(log) <= multiset(sent) && n <= |log|
    ensures n <= |sent| && log[..n] == sent[..n]
  {
    if n > 0 {
      var i := n - 1;
      CommittedIsPrefix(log, sent, tip, i);
      assert log[i] in multiset(sent);
      var k :| 0 <= k < |sent| && sent[k] == log[i];
      assert TipAfter(log[..i], tip) == tip + i;
      hide InOrder, TipAfter;
      if k < i {
        assert log[..i][k] == sent[..i][k];
        TwiceInSeq(log, k, i);
        OnceInConsecutive(sent, tip, k);
      }
      assert k == i;
      assert log[..n] == log[..i] + [log[i]] && sent[..n] == sent[..i] + [sent[i]];
    }
  }

  /** Requests for the heights above `tip`, arriving once each in any order, are all committed
      in ascending order and leave the heap empty. */
  method ServeAll(tip: int, requests: seq<Request>, ghost sent: seq<Request>) returns (w: Writer)
    requires Consecutive(sent, tip) && multiset(requests) == multiset(sent)
    ensures w.committed == sent && w.pendingWrites == [] && w.addrTip == tip + |sent|
  {
    w := new Writer(tip);
    for i := 0 to |requests|
      invariant fresh(w) && w.Valid() && w.startTip == tip
      invariant multiset(w.committed) + multiset(w.pendingWrites) == multiset(requests[..i])
    {
      assert requests[..i + 1] == requests[..i] + [requests[i]];
      w.Receive(requests[i]);
    }
    assert requests[..|requests|] == requests;
    ghost var end := CatchUp(sent, tip, multiset{}, [], w.pendingWrites, w.committed);
    EndOfRequests(end, tip);
  }

  lemma EndOfRequests(s: CatchUp, tip: int)
    requires Accounted(s, tip) && s.working == multiset{} && s.channel == []
    ensures s.committed == s.sent && s.pending == []
    ensures TipAfter(s.committed, tip) == tip + |s.sent|
  {
    assert multiset(s.committed) <= multiset(s.sent);
    CommittedIsPrefix(s.committed, s.sent, tip, |s.committed|);
    assert s.committed[..|s.committed|] == s.committed;
    IdleMeansDone(s, tip);
  }

  // ---------- The catch-up phase as a whole ----------

  /** Blocks handed out so far, those being indexed by workers, finished requests in the
      channel, and the writer. */
  datatype CatchUp = CatchUp(sent: seq<Request>, chainTip: int, working: multiset<Request>, channel: seq<Request>,
                             pending: seq<Request>, committed: seq<Request>)

  ghost predicate Start(s: CatchUp) {
    s.sent == [] && s.working == multiset{} && s.channel == [] && s.pending == [] && s.committed == []
  }

  /** The manager hands the next height to a worker, as long as it is on the chain. */
  ghost predicate Dispatch(s: CatchUp, t: CatchUp, tip: int, r: Request) {
    && r.height == tip + 1 + |s.sent| <= s.chainTip
    && t == s.(sent := s.sent + [r], working := s.working + multiset{r}, chainTip := t.chainTip)
  }

  /** Some worker finishes its block. */
  ghost predicate Finish(s: CatchUp, t: CatchUp, r: Request) {
    r in s.working && t == s.(working := s.working - multiset{r}, channel := s.channel + [r])
  }

  /** The writer takes a request from the channel and writes what has become ready. */
  ghost predicate Write(s: CatchUp, t: CatchUp, tip: int) {
    && s.channel != []
    && t == s.(channel := s.channel[1..], pending := t.pending, committed := t.committed)
    && multiset(t.committed) + multiset(t.pending) ==
       multiset(s.committed) + multiset(s.pending) + multiset{s.channel[0]}
    && s.committed <= t.committed
    && WriterOk(t.committed, t.pending, tip)
  }

  ghost predicate WriterOk(committed: seq<Request>, pending: seq<Request>, tip: int) {
    InOrder(committed, tip) && NoneReady(pending, TipAfter(committed, tip))
  }

  /** Serving the request at the front of the channel is such a step: the writer keeps to it. */
  method ServeFront(w: Writer, s: CatchUp) returns (t: CatchUp)
    requires w.Valid() && s.channel != []
    requires w.committed == s.committed && w.pendingWrites == s.pending
    modifies w
    ensures w.Valid() && Write(s, t, w.startTip)
    ensures w.committed == t.committed && w.pendingWrites == t.pending
  {
    w.Receive(s.channel[0]);
    t := s.(channel := s.channel[1..], pending := w.pendingWrites, committed := w.committed);
  }

  ghost predicate Step(s: CatchUp, t: CatchUp, tip: int) {
    || (exists r :: Dispatch(s, t, tip, r))
    || (exists r :: Finish(s, t, r))
    || Write(s, t, tip)
  }

  /** Nothing handed out is lost or duplicated. */
  ghost predicate Accounted(s: CatchUp, tip: int) {
    && Consecutive(s.sent, tip)
    && multiset(s.sent) == s.working + multiset(s.channel) + multiset(s.pending) + multiset(s.committed)
    && WriterOk(s.committed, s.pending, tip)
  }

  lemma DispatchAccounted(s: CatchUp, t: CatchUp, tip: int, r: Request)
    requires Accounted(s, tip) && Dispatch(s, t, tip, r)
    ensures Accounted(t, tip)
  {
    hide WriterOk;
    assert t.sent == s.sent + [r];
    assert multiset(t.sent) == multiset(s.sent) + multiset{r};
  }

  lemma FinishAccounted(s: CatchUp, t: CatchUp, tip: int, r: Request)
    requires Accounted(s, tip) && Finish(s, t, r)
    ensures Accounted(t, tip)
  {
    hide WriterOk, Consecutive;
    assert multiset(t.channel) == multiset(s.channel) + multiset{r};
  }

  lemma Rebalance(w: multiset<Request>, c: multiset<Request>, p: multiset<Request>, m: multiset<Request>,
                  x: multiset<Request>, p': multiset<Request>, m': multiset<Request>)
    requires m' + p' == m + p + x
    ensures w + (x + c) + p + m == w + c + p' + m'
  {
    forall r: Request ensures (w + (x + c) + p + m)[r] == (w + c + p' + m')[r] {
      assert (m' + p')[r] == (m + p + x)[r];
    }
  }

  lemma WriteAccounted(s: CatchUp, t: CatchUp, tip: int)
    requires Accounted(s, tip) && Write(s, t, tip)
    ensures Accounted(t, tip)
  {
    hide WriterOk, Consecutive;
    assert s.channel == [s.channel[0]] + s.channel[1..];
    assert multiset(s.channel) == multiset{s.channel[0]} + multiset(t.channel);
    Rebalance(s.working, multiset(t.channel), multiset(s.pending), multiset(s.committed),
      multiset{s.channel[0]}, multiset(t.pending), multiset(t.committed));
  }

  lemma StepAccounted(s: CatchUp, t: CatchUp, tip: int)
    requires Accounted(s, tip) && Step(s, t, tip)
    ensures Accounted(t, tip)
  {
    hide Accounted, Dispatch, Finish, Write;
    if Write(s, t, tip) {
      WriteAccounted(s, t, tip);
    } else if r :| Dispatch(s, t, tip, r) {
      DispatchAccounted(s, t, tip, r);
    } else {
      var r :| Finish(s, t, r);
      FinishAccounted(s, t, tip, r);
    }
  }

  ghost predicate Run(states: seq<CatchUp>, tip: int) {
    && states != [] && Start(states[0])
    && forall i :: 0 <= i < |states| - 1 ==> Step(states[i], states[i + 1], tip)
  }

  lemma {:induction false} RunAccounted(states: seq<CatchUp>, tip: int, i: nat)
    requires Run(states, tip) && i < |states|
    ensures Accounted(states[i], tip)
  {
    if i > 0 {
      RunAccounted(states, tip, i - 1);
      StepAccounted(states[i - 1], states[i], tip);
    }
  }

  /** In every run, whatever order the workers finish in, the blocks committed so far are the
      first ones handed out, in ascending order; once workers and channel are idle they are
      all of them and the heap is empty. */
  lemma CatchUpCommitsInOrder(states: seq<CatchUp>, tip: int, i: nat)
    requires Run(states, tip) && i < |states|
    ensures var s := states[i];
      && s.committed <= s.sent
      && (s.working == multiset{} && s.channel == [] ==>
            s.committed == s.sent && s.pending == [] && TipAfter(s.committed, tip) == tip + |s.sent|)
  {
    RunAccounted(states, tip, i);
    var s := states[i];
    assert multiset(s.committed) <= multiset(s.sent);
    CommittedIsPrefix(s.committed, s.sent, tip, |s.committed|);
    assert s.committed[..|s.committed|] == s.committed;
    if s.working == multiset{} && s.channel == [] {
      IdleMeansDone(s, tip);
    }
  }

  lemma Cancel(a: multiset<Request>, b: multiset<Request>, c: multiset<Request>)
    requires multiset{} + multiset{} + a + c == c + b
    ensures a == b
  {
    forall r: Request ensures a[r] == b[r] {
      assert (multiset{} + multiset{} + a + c)[r] == (c + b)[r];
    }
  }

  /** The next height to commit is not waiting in the heap. */
  lemma NextIsMissing(s: CatchUp, tip: int)
    requires WriterOk(s.committed, s.pending, tip) && Consecutive(s.sent, tip) && s.committed < s.sent
    ensures s.sent[|s.committed|] !in s.pending
  {
    assert TipAfter(s.committed, tip) == tip + |s.committed|;
  }

  lemma IdleMeansDone(s: CatchUp, tip: int)
    requires Accounted(s, tip) && s.committed <= s.sent && s.working == multiset{} && s.channel == []
    ensures s.committed == s.sent && s.pending == []
    ensures TipAfter(s.committed, tip) == tip + |s.sent|
  {
    hide WriterOk;
    var n := |s.committed|;
    assert s.sent == s.committed + s.sent[n..];
    assert multiset(s.sent) == multiset(s.committed) + multiset(s.sent[n..]);
    assert multiset(s.channel) == multiset{};
    Cancel(multiset(s.pending), multiset(s.sent[n..]), multiset(s.committed));
    assert n < |s.sent| ==> s.sent[n..][0] == s.sent[n] && s.sent[n] in s.sent[n..];
    assert n < |s.sent| ==> s.sent[n] in multiset(s.sent[n..]);
    assert n < |s.sent| ==> s.sent[n] in s.pending;
    assert |multiset(s.pending)| == |s.pending|;
    if n < |s.sent| {
      NextIsMissing(s, tip);
    }
  }
}
