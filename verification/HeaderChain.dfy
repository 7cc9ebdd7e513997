/** The values headers-first sync works on: header lists, checkpoints and block hashes. */
module HeaderChain {
  import opened Ledger

  /** A block hash stands for the header it was taken of; a raw hash is one of unknown origin. */
  datatype BlockHash = OfHeader(header: Header) | RawBlock(id: nat)

  /** A header names its parent; everything else it holds is told apart by `content`. */
  datatype Header = Header(prevBlock: BlockHash, content: nat)

  function BlockSha(h: Header): BlockHash {
    OfHeader(h)
  }

  /** An entry of the header list. */
  datatype HeaderNode = HeaderNode(height: int, sha: BlockHash)

  datatype Checkpoint = Checkpoint(height: int, hash: BlockHash)

  // ---------- Ancestry ----------

  predicate IsChild(child: BlockHash, parent: BlockHash) {
    child.OfHeader? && child.header.prevBlock == parent
  }

  /** Following parent links from `tip` leads to `ancestor`, in no or more steps. */
  predicate Extends(tip: BlockHash, ancestor: BlockHash) {
    || tip == ancestor
    || (tip.OfHeader? && Extends(tip.header.prevBlock, ancestor))
  }

  /** How many headers a hash is known to rest on. */
  function Rank(h: BlockHash): nat {
    match h
    case RawBlock(_) => 0
    case OfHeader(header) => 1 + Rank(header.prevBlock)
  }

  // ---------- Header lists ----------

  /** Consecutive entries are parent and child, one height apart. */
  ghost predicate Linked(list: seq<HeaderNode>) {
    forall i :: 0 < i < |list| ==>
      IsChild(list[i].sha, list[i - 1].sha) && list[i].height == list[i - 1].height + 1
  }

  lemma {:induction false} HeightAt(list: seq<HeaderNode>, i: nat)
    requires Linked(list) && i < |list|
    ensures list[i].height == list[0].height + i
    ensures Rank(list[i].sha) == Rank(list[0].sha) + i
    ensures Extends(list[i].sha, list[0].sha)
  {
    if i > 0 {
      HeightAt(list, i - 1);
    }
  }

  /** No block is listed twice. */
  lemma NoRepeat(list: seq<HeaderNode>, i: nat, j: nat)
    requires Linked(list) && i < j < |list|
    ensures list[i].sha != list[j].sha
  {
    HeightAt(list, i);
    HeightAt(list, j);
  }

  /** The list holds the checkpoint: every entry up to it is known to lead to it. */
  ghost predicate Reaches(list: seq<HeaderNode>, c: Checkpoint) {
    && |list| > 0
    && 0 <= c.height - list[0].height < |list|
    && list[c.height - list[0].height].sha == c.hash
  }

  /** A front entry of a list that holds the checkpoint is the checkpoint or an ancestor of it. */
  lemma FrontIsAncestor(list: seq<HeaderNode>, c: Checkpoint)
    requires Linked(list) && Reaches(list, c)
    ensures Extends(c.hash, list[0].sha)
    ensures c.hash == list[0].sha <==> c.height == list[0].height
  {
    HeightAt(list, c.height - list[0].height);
  }

  lemma ReachesFrom(list: seq<HeaderNode>, c: Checkpoint, i: nat)
    requires Linked(list) && Reaches(list, c) && i < |list| && list[i].height <= c.height
    ensures Extends(c.hash, list[i].sha)
  {
    HeightAt(list, i);
    HeightAt(list[i..], c.height - list[i].height);
  }

  /** Removing a front entry that is not the checkpoint keeps the checkpoint in the list. */
  lemma ReachesAfterFront(list: seq<HeaderNode>, c: Checkpoint)
    requires Linked(list) && Reaches(list, c) && list[0].sha != c.hash
    ensures Linked(list[1..]) && Reaches(list[1..], c)
  {
    FrontIsAncestor(list, c);
  }

  /** Each header names the hash before it, the first one `prev`. */
  ghost predicate Joins(prev: BlockHash, headers: seq<Header>) {
    && (headers != [] ==> headers[0].prevBlock == prev)
    && (forall i :: 0 < i < |headers| ==> headers[i].prevBlock == BlockSha(headers[i - 1]))
  }

  lemma JoinsStep(prev: BlockHash, headers: seq<Header>, n: nat)
    requires n < |headers| && Joins(prev, headers[..n])
    ensures Joins(prev, headers[..n + 1]) <==>
            headers[n].prevBlock == if n == 0 then prev else BlockSha(headers[n - 1])
  {
    var shorter, longer := headers[..n], headers[..n + 1];
    assert longer == shorter + [headers[n]];
    assert longer[n] == headers[n] && (n > 0 ==> longer[n - 1] == headers[n - 1]);
  }

  /** The list with an entry for each of the headers. */
  function Extended(list: seq<HeaderNode>, headers: seq<Header>): (r: seq<HeaderNode>)
    requires |list| > 0
    ensures |r| == |list| + |headers| && list <= r
  {
    list + seq(|headers|, i requires 0 <= i < |headers| =>
      HeaderNode(list[|list| - 1].height + 1 + i, BlockSha(headers[i])))
  }

  lemma ExtendedLinked(list: seq<HeaderNode>, headers: seq<Header>)
    requires Linked(list) && |list| > 0 && Joins(list[|list| - 1].sha, headers)
    ensures Linked(Extended(list, headers))
  {
    var r := Extended(list, headers);
    forall i | 0 < i < |r|
      ensures IsChild(r[i].sha, r[i - 1].sha) && r[i].height == r[i - 1].height + 1
    {
      var k := i - |list|;
      if k >= 0 {
        assert headers[k].prevBlock == if k == 0 then list[|list| - 1].sha else BlockSha(headers[k - 1]);
      }
    }
  }

  /** Headers that arrive later never displace a checkpoint the list already holds. */
  lemma ReachesAfterMore(list: seq<HeaderNode>, headers: seq<Header>, c: Checkpoint)
    requires Reaches(list, c)
    ensures Reaches(Extended(list, headers), c)
    ensures Linked(list) ==> list[|list| - 1].height >= c.height
  {
    if Linked(list) {
      HeightAt(list, |list| - 1);
    }
  }

  /** When the last entry is the checkpoint, dropping the front entry leaves a list that holds it. */
  lemma ReachesAtEnd(list: seq<HeaderNode>, c: Checkpoint)
    requires Linked(list) && |list| > 1 && list[|list| - 1] == HeaderNode(c.height, c.hash)
    ensures Linked(list[1..]) && Reaches(list[1..], c)
  {
    HeightAt(list, |list| - 1);
  }

  // ---------- Checkpoints ----------

  /** Checkpoints are configured in ascending order. */
  ghost predicate Ascending(cs: seq<Checkpoint>) {
    forall i, j :: 0 <= i < j < |cs| ==> cs[i].height < cs[j].height
  }

  /** The least checkpoint above the height, if any is. */
  ghost predicate IsNext(cs: seq<Checkpoint>, height: int, next: Option<Checkpoint>) {
    match next
    case None => forall c :: c in cs ==> c.height <= height
    case Some(n) => n in cs && n.height > height && forall c :: c in cs && c.height > height ==> n.height <= c.height
  }

  lemma NextIsUnique(cs: seq<Checkpoint>, height: int, a: Option<Checkpoint>, b: Option<Checkpoint>)
    requires Ascending(cs) && IsNext(cs, height, a) && IsNext(cs, height, b)
    ensures a == b
  {
    if a.Some? && b.Some? {
      var i :| 0 <= i < |cs| && cs[i] == a.value;
      var j :| 0 <= j < |cs| && cs[j] == b.value;
      assert a.value.height == b.value.height;
      assert i == j;
    }
  }

  method FindNextCheckpoint(cs: seq<Checkpoint>, height: int) returns (next: Option<Checkpoint>)
    requires Ascending(cs)
    ensures IsNext(cs, height, next)
  {
    if |cs| == 0 {
      return None;
    }
    var finalCheckpoint := cs[|cs| - 1];
    if height >= finalCheckpoint.height {
      return None;
    }
    var found := finalCheckpoint;
    var i := |cs| - 2;
    while i >= 0
      invariant -1 <= i < |cs| - 1
      invariant found == cs[i + 1] && found.height > height
    {
      if height >= cs[i].height {
        break;
      }
      found := cs[i];
      i := i - 1;
    }
    return Some(found);
  }

  // ---------- Requests ----------

  /** The blocks of the entries that are not had yet, in order. */
  function Missing(nodes: seq<HeaderNode>, have: BlockHash -> bool): (r: seq<BlockHash>)
    ensures |r| <= |nodes|
    ensures forall h :: h in r <==> (!have(h) && exists i :: 0 <= i < |nodes| && nodes[i].sha == h)
  {
    if nodes == [] then []
    else
      var last := nodes[|nodes| - 1];
      var rest := Missing(nodes[..|nodes| - 1], have);
      assert forall i :: 0 <= i < |nodes| - 1 ==> nodes[..|nodes| - 1][i] == nodes[i];
      if have(last.sha) then rest else rest + [last.sha]
  }

  lemma MissingStep(nodes: seq<HeaderNode>, n: nat, have: BlockHash -> bool)
    requires n < |nodes|
    ensures Missing(nodes[..n + 1], have) ==
            Missing(nodes[..n], have) + if have(nodes[n].sha) then [] else [nodes[n].sha]
  {
    assert nodes[..n + 1][..n] == nodes[..n];
  }

  function AsSet<T(==)>(s: seq<T>): set<T> {
    set x | x in s
  }
}
