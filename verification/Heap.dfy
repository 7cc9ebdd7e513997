/** The binary heap of Go's container/heap, over any strict weak order: it refines a
    multiset from which a least element is extracted. */
module Heap {

  /** Irreflexive, transitive, and "neither before the other" is transitive too. */
  ghost predicate StrictWeakOrder<T(!new)>(less: (T, T) -> bool) {
    && (forall a :: !less(a, a))
    && (forall a, b, c :: less(a, b) && less(b, c) ==> less(a, c))
    && (forall a, b, c :: less(a, c) ==> less(a, b) || less(b, c))
  }

  function Parent(i: int): int
    requires 0 < i
  {
    (i - 1) / 2
  }

  ghost predicate Ordered<T>(less: (T, T) -> bool, s: seq<T>, c: int, p: int)
    requires 0 <= c < |s| && 0 <= p < |s|
  {
    !less(s[c], s[p])
  }

  /** The heap order holds between every node from `lo` on and its children below `n`. */
  ghost predicate HeapFrom<T>(less: (T, T) -> bool, s: seq<T>, lo: int, n: int)
    requires 0 <= n <= |s|
  {
    forall c :: 0 < c < n && lo <= Parent(c) ==> Ordered(less, s, c, Parent(c))
  }

  ghost predicate IsHeap<T>(less: (T, T) -> bool, s: seq<T>) {
    HeapFrom(less, s, 0, |s|)
  }

  function Swap<T>(s: seq<T>, i: nat, j: nat): (r: seq<T>)
    requires i < |s| && j < |s|
    ensures |r| == |s|
  {
    s[i := s[j]][j := s[i]]
  }

  lemma SwapPermutes<T>(s: seq<T>, i: nat, j: nat)
    requires i < |s| && j < |s|
    ensures multiset(Swap(s, i, j)) == multiset(s)
  {
  }

  lemma {:induction false} RootIsLeast<T(!new)>(less: (T, T) -> bool, s: seq<T>, i: nat)
    requires StrictWeakOrder(less) && IsHeap(less, s) && i < |s|
    ensures !less(s[i], s[0])
  {
    if i > 0 {
      RootIsLeast(less, s, Parent(i));
      assert Ordered(less, s, i, Parent(i));
    }
  }

  // ---------- up ----------

  /** The heap order holds except possibly between `i` and its parent, and the children of
      `i` are in order with that parent. */
  ghost predicate AlmostUp<T>(less: (T, T) -> bool, s: seq<T>, i: int)
    requires 0 <= i < |s|
  {
    && (forall c :: 0 < c < |s| && c != i ==> Ordered(less, s, c, Parent(c)))
    && (forall c :: 0 < c < |s| && Parent(c) == i && 0 < i ==> Ordered(less, s, c, Parent(i)))
  }

  lemma UpStep<T(!new)>(less: (T, T) -> bool, s: seq<T>, i: nat)
    requires StrictWeakOrder(less) && 0 < i < |s| && AlmostUp(less, s, i) && less(s[i], s[Parent(i)])
    ensures AlmostUp(less, Swap(s, i, Parent(i)), Parent(i))
  {
    var p := Parent(i);
    var r := Swap(s, i, p);
    forall c | 0 < c < |r| && c != p ensures Ordered(less, r, c, Parent(c)) {
      assert c != i ==> Ordered(less, s, c, Parent(c));
      assert Parent(c) == i ==> Ordered(less, s, c, p);
    }
    forall c | 0 < c < |r| && Parent(c) == p && 0 < p ensures Ordered(less, r, c, Parent(p)) {
      assert Ordered(less, s, p, Parent(p));
      assert c != i ==> Ordered(less, s, c, p);
    }
  }

  method Up<T(!new)>(less: (T, T) -> bool, s: seq<T>, j: nat) returns (r: seq<T>)
    requires StrictWeakOrder(less) && j < |s| && AlmostUp(less, s, j)
    ensures IsHeap(less, r) && multiset(r) == multiset(s) && |r| == |s|
  {
    r := s;
    var i := j;
    while 0 < i && less(r[i], r[Parent(i)])
      invariant 0 <= i < |r| == |s| && AlmostUp(less, r, i)
      invariant multiset(r) == multiset(s)
    {
      UpStep(less, r, i);
      SwapPermutes(r, i, Parent(i));
      r := Swap(r, i, Parent(i));
      i := Parent(i);
    }
    assert 0 < i ==> Ordered(less, r, i, Parent(i));
  }

  // ---------- down ----------

  /** From `lo` on the heap order holds except possibly between `i` and its children, which
      are in order with the parent of `i`. */
  ghost predicate AlmostDown<T>(less: (T, T) -> bool, s: seq<T>, lo: int, i: int, n: int)
    requires 0 <= lo <= i && n <= |s|
  {
    && (forall c :: 0 < c < n && lo <= Parent(c) && Parent(c) != i ==> Ordered(less, s, c, Parent(c)))
    && (forall c :: 0 < c < n && Parent(c) == i && lo < i && lo <= Parent(i) ==> Ordered(less, s, c, Parent(i)))
  }

  /** `m` is a child of `i` that no other child precedes. */
  ghost predicate LeastChild<T>(less: (T, T) -> bool, s: seq<T>, i: int, m: int, n: int)
    requires n <= |s|
  {
    && 0 < m < n && Parent(m) == i
    && forall c :: 0 < c < n && Parent(c) == i ==> Ordered(less, s, c, m)
  }

  lemma DownStep<T(!new)>(less: (T, T) -> bool, s: seq<T>, lo: nat, i: nat, m: nat, n: nat)
    requires StrictWeakOrder(less) && lo <= i < n <= |s| && AlmostDown(less, s, lo, i, n)
    requires LeastChild(less, s, i, m, n) && less(s[m], s[i])
    ensures AlmostDown(less, Swap(s, i, m), lo, m, n)
  {
    var r := Swap(s, i, m);
    forall c | 0 < c < n && lo <= Parent(c) && Parent(c) != m ensures Ordered(less, r, c, Parent(c)) {
      if Parent(c) == i {
        assert Ordered(less, s, c, m);
      } else if c == i {
        assert Ordered(less, s, m, Parent(i));
      } else {
        assert Ordered(less, s, c, Parent(c));
      }
    }
    forall c | 0 < c < n && Parent(c) == m ensures Ordered(less, r, c, i) {
      assert Ordered(less, s, c, m);
    }
  }

  lemma DownDone<T(!new)>(less: (T, T) -> bool, s: seq<T>, lo: nat, i: nat, n: nat)
    requires StrictWeakOrder(less) && lo <= i && n <= |s| && AlmostDown(less, s, lo, i, n)
    requires (forall c :: 0 < c < n ==> Parent(c) != i)
             || exists m :: LeastChild(less, s, i, m, n) && i < n && !less(s[m], s[i])
    ensures HeapFrom(less, s, lo, n)
  {
    forall c | 0 < c < n && lo <= Parent(c) ensures Ordered(less, s, c, Parent(c)) {
      if Parent(c) == i {
        var m :| LeastChild(less, s, i, m, n) && i < n && !less(s[m], s[i]);
        assert Ordered(less, s, c, m);
      }
    }
  }

  lemma DownStart<T(!new)>(less: (T, T) -> bool, s: seq<T>, lo: nat, n: nat)
    requires n <= |s| && HeapFrom(less, s, lo + 1, n)
    ensures AlmostDown(less, s, lo, lo, n)
  {
  }

  lemma NoChild(i: nat, n: nat)
    requires 2 * i + 1 >= n
    ensures forall c :: 0 < c < n ==> Parent(c) != i
  {
  }

  lemma PickLeast<T(!new)>(less: (T, T) -> bool, s: seq<T>, i: nat, m: nat, n: nat)
    requires StrictWeakOrder(less) && 2 * i + 1 < n <= |s|
    requires m == if 2 * i + 2 < n && !less(s[2 * i + 1], s[2 * i + 2]) then 2 * i + 2 else 2 * i + 1
    ensures LeastChild(less, s, i, m, n)
  {
    forall c | 0 < c < n && Parent(c) == i ensures Ordered(less, s, c, m) {
      assert c == 2 * i + 1 || c == 2 * i + 2;
    }
  }

  /** Restores the heap order of the first `n` entries below `i0`. */
  method Down<T(!new)>(less: (T, T) -> bool, s: seq<T>, i0: nat, n: nat) returns (r: seq<T>)
    requires StrictWeakOrder(less) && n <= |s| && HeapFrom(less, s, i0 + 1, n)
    ensures |r| == |s| && HeapFrom(less, r, i0, n)
    ensures multiset(r) == multiset(s) && r[n..] == s[n..]
  {
    DownStart(less, s, i0, n);
    hide StrictWeakOrder, HeapFrom, AlmostDown, LeastChild, Parent, Ordered;
    r := s;
    var i := i0;
    while true
      invariant i0 <= i && |r| == |s| && AlmostDown(less, r, i0, i, n)
      invariant multiset(r) == multiset(s) && r[n..] == s[n..]
      decreases if n < i then 0 else n - i
    {
      var j := 2 * i + 1;
      if j >= n {
        NoChild(i, n);
        DownDone(less, r, i0, i, n);
        return;
      }
      var m := j;
      if j + 1 < n && !less(r[j], r[j + 1]) {
        m := j + 1;
      }
      PickLeast(less, r, i, m, n);
      if !less(r[m], r[i]) {
        DownDone(less, r, i0, i, n);
        return;
      }
      DownStep(less, r, i0, i, m, n);
      SwapPermutes(r, i, m);
      assert Swap(r, i, m)[n..] == r[n..];
      r := Swap(r, i, m);
      i := m;
    }
  }

  // ---------- The interface ----------

  method Init<T(!new)>(less: (T, T) -> bool, s: seq<T>) returns (r: seq<T>)
    requires StrictWeakOrder(less)
    ensures IsHeap(less, r) && multiset(r) == multiset(s) && |r| == |s|
  {
    r := s;
    var i := |s| / 2 - 1;
    while i >= 0
      invariant -1 <= i && |r| == |s| && HeapFrom(less, r, i + 1, |r|)
      invariant multiset(r) == multiset(s)
    {
      r := Down(less, r, i, |r|);
      i := i - 1;
    }
  }

  method Push<T(!new)>(less: (T, T) -> bool, s: seq<T>, x: T) returns (r: seq<T>)
    requires StrictWeakOrder(less) && IsHeap(less, s)
    ensures IsHeap(less, r) && multiset(r) == multiset(s) + multiset{x} && |r| == |s| + 1
  {
    var longer := s + [x];
    assert AlmostUp(less, longer, |s|) by {
      forall c | 0 < c < |s| ensures Ordered(less, longer, c, Parent(c)) {
        assert Ordered(less, s, c, Parent(c));
      }
    }
    r := Up(less, longer, |s|);
  }

  /** Extracts an element that no element of the heap precedes. */
  method Pop<T(!new)>(less: (T, T) -> bool, s: seq<T>) returns (x: T, r: seq<T>)
    requires StrictWeakOrder(less) && IsHeap(less, s) && s != []
    ensures IsHeap(less, r) && multiset(s) == multiset(r) + multiset{x} && |r| == |s| - 1
    ensures forall y :: y in s ==> !less(y, x)
  {
    hide StrictWeakOrder, IsHeap, HeapFrom;
    RootBefore(less, s);
    var n := |s| - 1;
    var swapped := Swap(s, 0, n);
    SwapPermutes(s, 0, n);
    PopPrefix(less, s);
    var sunk := Down(less, swapped, 0, n);
    x, r := sunk[n], sunk[..n];
    assert sunk[n..] == [x] && swapped[n..] == [s[0]];
    assert sunk == r + [x];
    FrontIsHeap(less, sunk, n);
  }

  lemma RootBefore<T(!new)>(less: (T, T) -> bool, s: seq<T>)
    requires StrictWeakOrder(less) && IsHeap(less, s) && s != []
    ensures forall y :: y in s ==> !less(y, s[0])
  {
    forall i | 0 <= i < |s| ensures !less(s[i], s[0]) {
      RootIsLeast(less, s, i);
    }
  }

  /** Swapping the last entry to the root disturbs the order only at the root. */
  lemma PopPrefix<T(!new)>(less: (T, T) -> bool, s: seq<T>)
    requires IsHeap(less, s) && s != []
    ensures HeapFrom(less, Swap(s, 0, |s| - 1), 1, |s| - 1)
  {
    var n := |s| - 1;
    forall c | 0 < c < n && 1 <= Parent(c) ensures Ordered(less, Swap(s, 0, n), c, Parent(c)) {
      assert Ordered(less, s, c, Parent(c));
    }
  }

  lemma FrontIsHeap<T(!new)>(less: (T, T) -> bool, s: seq<T>, n: nat)
    requires n <= |s| && HeapFrom(less, s, 0, n)
    ensures IsHeap(less, s[..n])
  {
    forall c | 0 < c < n ensures Ordered(less, s[..n], c, Parent(c)) {
      assert Ordered(less, s, c, Parent(c));
    }
  }
}
