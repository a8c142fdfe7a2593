/** libev's 4-ary timer heap: an array whose first HEAP0 slots are unused, of
    elements that cache their watcher's time; every watcher knows its index. */
module LibevHeap {
  type Tstamp = real

  const DHEAP := 4
  const HEAP0 := DHEAP - 1

  /** A heap element: the cached time and the watcher. */
  datatype Anhe = Anhe(at: Tstamp, w: nat)

  /** HPARENT; C's division truncates, so the root is its own parent. */
  function Parent(k: nat): (p: nat)
    requires HEAP0 <= k
    ensures HEAP0 <= p && (k > HEAP0 ==> p < k)
  {
    if k == HEAP0 then HEAP0 else (k - HEAP0 - 1) / DHEAP + HEAP0
  }

  /** The least child of k, whether or not it exists. */
  function FirstChild(k: nat): (c: nat)
    requires HEAP0 <= k
    ensures c > k
    ensures forall j: nat :: HEAP0 < j ==> (Parent(j) == k <==> c <= j < c + DHEAP)
  {
    DHEAP * (k - HEAP0) + HEAP0 + 1
  }

  ghost predicate In(k: int, n: nat) {
    HEAP0 <= k < n + HEAP0
  }

  /** Every element's watcher points back at it. */
  ghost predicate Back(heap: seq<Anhe>, n: nat, active: map<nat, nat>) {
    && n + HEAP0 <= |heap|
    && forall k :: In(k, n) ==> Knows(heap, active, k)
  }

  ghost predicate Knows(heap: seq<Anhe>, active: map<nat, nat>, k: nat)
    requires k < |heap|
  {
    heap[k].w in active && active[heap[k].w] == k
  }

  ghost predicate ParentFirst(heap: seq<Anhe>, n: nat, k: nat)
    requires n + HEAP0 <= |heap| && In(k, n)
  {
    heap[Parent(k)].at <= heap[k].at
  }

  ghost predicate Ordered(heap: seq<Anhe>, n: nat)
    requires n + HEAP0 <= |heap|
  {
    forall k :: In(k, n) ==> ParentFirst(heap, n, k)
  }

  /** In order but for what concerns element k; its children are in order with
      its parent. */
  ghost predicate OrderedBut(heap: seq<Anhe>, n: nat, k: nat)
    requires n + HEAP0 <= |heap| && In(k, n)
  {
    && (forall j :: In(j, n) && j != k && Parent(j) != k ==> ParentFirst(heap, n, j))
    && (forall j :: In(j, n) && j != k && Parent(j) == k && k > HEAP0 ==> heap[Parent(k)].at <= heap[j].at)
  }

  ghost predicate KidsLater(heap: seq<Anhe>, n: nat, k: nat)
    requires n + HEAP0 <= |heap| && In(k, n)
  {
    forall j :: In(j, n) && j != k && Parent(j) == k ==> heap[k].at <= heap[j].at
  }

  /** Each element of heap0 is somewhere in heap. */
  ghost predicate Carried(heap0: seq<Anhe>, n: nat, heap: seq<Anhe>, active: map<nat, nat>)
    requires n + HEAP0 <= |heap0| && n + HEAP0 <= |heap|
  {
    forall k :: In(k, n) ==> Found(heap0[k], n, heap, active)
  }

  ghost predicate Found(he: Anhe, n: nat, heap: seq<Anhe>, active: map<nat, nat>)
    requires n + HEAP0 <= |heap|
  {
    he.w in active && In(active[he.w], n) && heap[active[he.w]] == he
  }

  /** w is in the heap. */
  ghost predicate Has(heap: seq<Anhe>, n: nat, active: map<nat, nat>, w: nat)
    requires n + HEAP0 <= |heap|
  {
    w in active && In(active[w], n) && heap[active[w]].w == w
  }

  /** heap is heap0 in another order, and only indices of its watchers changed. */
  ghost predicate Rearranged(heap0: seq<Anhe>, active0: map<nat, nat>, n: nat, heap: seq<Anhe>, active: map<nat, nat>) {
    && n + HEAP0 <= |heap0| == |heap|
    && Back(heap0, n, active0) && Back(heap, n, active)
    && Carried(heap0, n, heap, active) && Carried(heap, n, heap0, active0)
    && Untouched(heap0, active0, n, heap, active)
  }

  ghost predicate Untouched(heap0: seq<Anhe>, active0: map<nat, nat>, n: nat, heap: seq<Anhe>, active: map<nat, nat>)
    requires n + HEAP0 <= |heap0| == |heap|
  {
    && active.Keys == active0.Keys
    && (forall w :: w in active && !Has(heap0, n, active0, w) ==> active[w] == active0[w])
    && (forall k :: 0 <= k < |heap| && !In(k, n) ==> heap[k] == heap0[k])
  }

  /** The heap and its indices with elements i and j exchanged. */
  ghost function Swapped(heap: seq<Anhe>, i: nat, j: nat): (h: seq<Anhe>)
    requires i < |heap| && j < |heap|
    ensures |h| == |heap|
  {
    heap[i := heap[j]][j := heap[i]]
  }

  ghost function Reindexed(heap: seq<Anhe>, active: map<nat, nat>, i: nat, j: nat): map<nat, nat>
    requires i < |heap| && j < |heap|
  {
    active[heap[j].w := i][heap[i].w := j]
  }

  lemma SwapBack(heap: seq<Anhe>, n: nat, active: map<nat, nat>, i: nat, j: nat)
    requires Back(heap, n, active) && In(i, n) && In(j, n) && i != j
    ensures Back(Swapped(heap, i, j), n, Reindexed(heap, active, i, j))
    ensures Reindexed(heap, active, i, j).Keys == active.Keys
  {
    assert Knows(heap, active, i) && Knows(heap, active, j);
    forall k | In(k, n) ensures Knows(Swapped(heap, i, j), Reindexed(heap, active, i, j), k) {
      assert Knows(heap, active, k);
    }
  }

  lemma SwapCarried(heap0: seq<Anhe>, n: nat, heap: seq<Anhe>, active: map<nat, nat>, i: nat, j: nat)
    requires n + HEAP0 <= |heap0|
    requires Back(heap, n, active) && In(i, n) && In(j, n) && i != j
    requires Carried(heap0, n, heap, active)
    ensures Carried(heap0, n, Swapped(heap, i, j), Reindexed(heap, active, i, j))
  {
    hide Found, Swapped, Reindexed;
    forall k | In(k, n) ensures Found(heap0[k], n, Swapped(heap, i, j), Reindexed(heap, active, i, j)) {
      assert Found(heap0[k], n, heap, active);
      SwapFound(heap0[k], n, heap, active, i, j);
    }
  }

  lemma SwapFound(he: Anhe, n: nat, heap: seq<Anhe>, active: map<nat, nat>, i: nat, j: nat)
    requires Back(heap, n, active) && In(i, n) && In(j, n) && i != j && Found(he, n, heap, active)
    ensures Found(he, n, Swapped(heap, i, j), Reindexed(heap, active, i, j))
  {
    BackAt(heap, n, active, i);
    BackAt(heap, n, active, j);
    hide Back;
  }

  lemma SwapKept(heap: seq<Anhe>, n: nat, heap0: seq<Anhe>, active0: map<nat, nat>, i: nat, j: nat)
    requires n + HEAP0 <= |heap0| && n + HEAP0 <= |heap| && In(i, n) && In(j, n)
    requires Carried(heap, n, heap0, active0)
    ensures Carried(Swapped(heap, i, j), n, heap0, active0)
  {
    hide Found;
    assert Found(heap[i], n, heap0, active0) && Found(heap[j], n, heap0, active0);
    forall k | In(k, n) ensures Found(Swapped(heap, i, j)[k], n, heap0, active0) {
      assert Found(heap[k], n, heap0, active0);
    }
  }

  lemma SwapRearranged(heap0: seq<Anhe>, active0: map<nat, nat>, n: nat, heap: seq<Anhe>, active: map<nat, nat>,
      i: nat, j: nat)
    requires Rearranged(heap0, active0, n, heap, active) && In(i, n) && In(j, n) && i != j
    ensures Rearranged(heap0, active0, n, Swapped(heap, i, j), Reindexed(heap, active, i, j))
  {
    hide Carried, Back, Found, Has, Untouched, Swapped, Reindexed;
    SwapBack(heap, n, active, i, j);
    SwapCarried(heap0, n, heap, active, i, j);
    SwapKept(heap, n, heap0, active0, i, j);
    CarriedHas(heap, n, heap0, active0, i);
    CarriedHas(heap, n, heap0, active0, j);
    BackAt(heap, n, active, i);
    BackAt(heap, n, active, j);
    SwapUntouched(heap0, active0, n, heap, active, i, j);
  }

  lemma SwapUntouched(heap0: seq<Anhe>, active0: map<nat, nat>, n: nat, heap: seq<Anhe>, active: map<nat, nat>,
      i: nat, j: nat)
    requires n + HEAP0 <= |heap0| == |heap| && Untouched(heap0, active0, n, heap, active) && In(i, n) && In(j, n)
    requires Has(heap0, n, active0, heap[i].w) && Has(heap0, n, active0, heap[j].w)
    requires heap[i].w in active && heap[j].w in active
    ensures Untouched(heap0, active0, n, Swapped(heap, i, j), Reindexed(heap, active, i, j))
  {
    hide Has;
  }

  lemma CarriedHas(heap: seq<Anhe>, n: nat, heap0: seq<Anhe>, active0: map<nat, nat>, i: nat)
    requires n + HEAP0 <= |heap0| && n + HEAP0 <= |heap| && Carried(heap, n, heap0, active0) && In(i, n)
    ensures Has(heap0, n, active0, heap[i].w) && heap0[active0[heap[i].w]] == heap[i]
  {
    assert Found(heap[i], n, heap0, active0);
  }

  lemma BackAt(heap: seq<Anhe>, n: nat, active: map<nat, nat>, i: nat)
    requires Back(heap, n, active) && In(i, n)
    ensures heap[i].w in active && active[heap[i].w] == i
  {
    assert Knows(heap, active, i);
  }

  lemma SwapUp(heap: seq<Anhe>, n: nat, k: nat)
    requires n + HEAP0 <= |heap| && In(k, n) && k > HEAP0 && OrderedBut(heap, n, k)
    requires heap[k].at <= heap[Parent(k)].at
    ensures OrderedBut(Swapped(heap, k, Parent(k)), n, Parent(k))
    ensures KidsLater(Swapped(heap, k, Parent(k)), n, Parent(k))
  {
    var p := Parent(k);
    var h := Swapped(heap, k, p);
    forall j | In(j, n) && j != p && Parent(j) != p ensures ParentFirst(h, n, j) {
      if Parent(j) != k {
        assert ParentFirst(heap, n, j);
      }
    }
    forall j | In(j, n) && j != p && Parent(j) == p
      ensures (p > HEAP0 ==> h[Parent(p)].at <= h[j].at) && h[p].at <= h[j].at
    {
      if j != k {
        assert ParentFirst(heap, n, j);
      }
      if p != HEAP0 {
        assert ParentFirst(heap, n, p);
      }
    }
  }

  lemma Settled(heap: seq<Anhe>, n: nat, k: nat)
    requires n + HEAP0 <= |heap| && In(k, n) && OrderedBut(heap, n, k) && KidsLater(heap, n, k)
    requires ParentFirst(heap, n, k)
    ensures Ordered(heap, n)
  {
    forall j | In(j, n) ensures ParentFirst(heap, n, j) {
    }
  }

  lemma SwapDown(heap: seq<Anhe>, n: nat, k: nat, m: nat)
    requires n + HEAP0 <= |heap| && In(k, n) && In(m, n) && m != k && Parent(m) == k
    requires OrderedBut(heap, n, k) && ParentFirst(heap, n, k)
    requires heap[m].at <= heap[k].at
    requires forall j :: In(j, n) && j != k && Parent(j) == k ==> heap[m].at <= heap[j].at
    ensures OrderedBut(Swapped(heap, k, m), n, m) && ParentFirst(Swapped(heap, k, m), n, m)
  {
    var h := Swapped(heap, k, m);
    forall j | In(j, n) && j != m && Parent(j) != m ensures ParentFirst(h, n, j) {
      if Parent(j) != k {
        assert ParentFirst(heap, n, j);
      }
    }
    forall j | In(j, n) && j != m && Parent(j) == m ensures h[Parent(m)].at <= h[j].at {
      assert ParentFirst(heap, n, j);
    }
  }

  /** The element in hand is `he`, and its place is k. */
  ghost predicate Hole(heap0: seq<Anhe>, active0: map<nat, nat>, n: nat,
                       heap: seq<Anhe>, active: map<nat, nat>, k: nat, he: Anhe) {
    k < |heap| && Rearranged(heap0, active0, n, heap[k := he], active[he.w := k])
  }

  lemma HoleMoves(heap0: seq<Anhe>, active0: map<nat, nat>, n: nat,
                  heap: seq<Anhe>, active: map<nat, nat>, k: nat, he: Anhe, p: nat)
    requires In(k, n) && In(p, n) && p != k && Hole(heap0, active0, n, heap, active, k, he)
    ensures Hole(heap0, active0, n, heap[k := heap[p]], active[heap[p].w := k], p, he)
    ensures heap[k := heap[p]][p := he] == Swapped(heap[k := he], k, p)
  {
    hide Back, Carried, Untouched;
    var h, a := heap[k := he], active[he.w := k];
    SwapRearranged(heap0, active0, n, h, a, k, p);
    assert heap[k := heap[p]][p := he] == Swapped(h, k, p);
    assert active[heap[p].w := k][he.w := p] == Reindexed(h, a, k, p);
  }

  lemma RearrangedRefl(heap: seq<Anhe>, active: map<nat, nat>, n: nat)
    requires Back(heap, n, active)
    ensures Rearranged(heap, active, n, heap, active)
  {
    forall j | In(j, n) ensures Found(heap[j], n, heap, active) {
      BackAt(heap, n, active, j);
    }
  }

  /** Element k was just stored: its watcher need not know yet where it is. */
  ghost function Placed(heap: seq<Anhe>, active: map<nat, nat>, k: nat): map<nat, nat>
    requires k < |heap|
  {
    active[heap[k].w := k]
  }

  lemma HoleStarts(heap: seq<Anhe>, active0: map<nat, nat>, n: nat, k: nat)
    requires In(k, n) && n + HEAP0 <= |heap| && Back(heap, n, Placed(heap, active0, k))
    ensures heap[k := heap[k]] == heap && Hole(heap, Placed(heap, active0, k), n, heap, active0, k, heap[k])
  {
    var active := Placed(heap, active0, k);
    BackAt(heap, n, active, k);
    RearrangedRefl(heap, active, n);
  }

  /** Towards the root. */
  method Upheap(heap0: seq<Anhe>, active0: map<nat, nat>, ghost n: nat, k0: nat)
    returns (heap: seq<Anhe>, active: map<nat, nat>)
    requires In(k0, n) && n + HEAP0 <= |heap0| && Back(heap0, n, Placed(heap0, active0, k0))
    requires OrderedBut(heap0, n, k0) && KidsLater(heap0, n, k0)
    ensures Rearranged(heap0, Placed(heap0, active0, k0), n, heap, active) && Ordered(heap, n)
  {
    hide Carried, Untouched, OrderedBut, KidsLater, Ordered, Rearranged;
    heap, active := heap0, active0;
    var k := k0;
    var he := heap[k];
    ghost var active1 := Placed(heap0, active0, k0);
    HoleStarts(heap, active, n, k);
    while true
      invariant |heap| == |heap0| && n + HEAP0 <= |heap| && In(k, n)
      invariant Hole(heap0, active1, n, heap, active, k, he)
      invariant OrderedBut(heap[k := he], n, k) && KidsLater(heap[k := he], n, k)
      decreases k
    {
      var p := Parent(k);
      if p == k || heap[p].at <= he.at {
        break;
      }
      HoleMoves(heap0, active1, n, heap, active, k, he, p);
      SwapUp(heap[k := he], n, k);
      heap := heap[k := heap[p]];
      active := active[heap[k].w := k];
      k := p;
    }
    heap := heap[k := he];
    active := active[he.w := k];
    Settled(heap, n, k);
  }

  /** The search for the least child, by the fast path when all four exist. */
  method MinChild(heap: seq<Anhe>, pos: nat, end: nat) returns (minpos: nat)
    requires pos < end <= |heap|
    ensures pos <= minpos < end && minpos < pos + DHEAP
    ensures forall j :: pos <= j < end && j < pos + DHEAP ==> heap[minpos].at <= heap[j].at
  {
    minpos := pos;
    var minat := heap[pos].at;
    if pos + DHEAP - 1 < end {
      if heap[pos + 1].at < minat { minpos := pos + 1; minat := heap[minpos].at; }
      if heap[pos + 2].at < minat { minpos := pos + 2; minat := heap[minpos].at; }
      if heap[pos + 3].at < minat { minpos := pos + 3; minat := heap[minpos].at; }
    } else {
      if pos + 1 < end && heap[pos + 1].at < minat { minpos := pos + 1; minat := heap[minpos].at; }
      if pos + 2 < end && heap[pos + 2].at < minat { minpos := pos + 2; minat := heap[minpos].at; }
      // The fourth test of the slow path never succeeds.
      if pos + 3 < end { assert false; }
    }
  }

  /** A bound on the first four slots below k bounds its children. */
  lemma MinOfKids(heap: seq<Anhe>, h: seq<Anhe>, n: nat, k: nat, at: Tstamp)
    requires n + HEAP0 <= |heap| == |h| && In(k, n)
    requires h == heap[k := h[k]]
    requires forall j :: FirstChild(k) <= j < n + HEAP0 && j < FirstChild(k) + DHEAP ==> at <= heap[j].at
    ensures forall j :: In(j, n) && j != k && Parent(j) == k ==> at <= h[j].at
  {
    forall j | In(j, n) && j != k && Parent(j) == k ensures at <= h[j].at {
      assert FirstChild(k) <= j < FirstChild(k) + DHEAP;
    }
  }

  /** Towards the leaves. */
  method Downheap(heap0: seq<Anhe>, active0: map<nat, nat>, n: nat, k0: nat)
    returns (heap: seq<Anhe>, active: map<nat, nat>)
    requires In(k0, n) && n + HEAP0 <= |heap0| && Back(heap0, n, Placed(heap0, active0, k0))
    requires OrderedBut(heap0, n, k0) && ParentFirst(heap0, n, k0)
    ensures Rearranged(heap0, Placed(heap0, active0, k0), n, heap, active) && Ordered(heap, n)
  {
    hide Carried, Untouched, OrderedBut, KidsLater, Ordered, Rearranged, Parent, FirstChild;
    heap, active := heap0, active0;
    var k := k0;
    var he := heap[k];
    ghost var active1 := Placed(heap0, active0, k0);
    HoleStarts(heap, active, n, k);
    while true
      invariant |heap| == |heap0| && n + HEAP0 <= |heap| && In(k, n)
      invariant Hole(heap0, active1, n, heap, active, k, he)
      invariant OrderedBut(heap[k := he], n, k) && ParentFirst(heap[k := he], n, k)
      decreases n + HEAP0 - k
    {
      var pos := FirstChild(k);
      if pos >= n + HEAP0 {
        break;
      }
      var minpos := MinChild(heap, pos, n + HEAP0);
      if he.at <= heap[minpos].at {
        break;
      }
      MinOfKids(heap, heap[k := he], n, k, heap[minpos].at);
      ChildOf(minpos, k);
      HoleMoves(heap0, active1, n, heap, active, k, he, minpos);
      SwapDown(heap[k := he], n, k, minpos);
      heap := heap[k := heap[minpos]];
      active := active[heap[k].w := k];
      k := minpos;
    }
    assert forall j :: FirstChild(k) <= j < n + HEAP0 && j < FirstChild(k) + DHEAP ==> he.at <= heap[j].at;
    MinOfKids(heap, heap[k := he], n, k, he.at);
    LeastKids(heap[k := he], n, k);
    heap := heap[k := he];
    active := active[he.w := k];
    Settled(heap, n, k);
  }

  lemma ChildOf(j: nat, k: nat)
    requires HEAP0 <= k && FirstChild(k) <= j < FirstChild(k) + DHEAP
    ensures HEAP0 <= k < j && Parent(j) == k
  {
  }

  lemma LeastKids(heap: seq<Anhe>, n: nat, k: nat)
    requires n + HEAP0 <= |heap| && In(k, n)
    requires forall j :: In(j, n) && j != k && Parent(j) == k ==> heap[k].at <= heap[j].at
    ensures KidsLater(heap, n, k)
  {
  }

  /** Puts an element whose time changed where it belongs. */
  method Adjustheap(heap0: seq<Anhe>, active0: map<nat, nat>, n: nat, k: nat)
    returns (heap: seq<Anhe>, active: map<nat, nat>)
    requires In(k, n) && n + HEAP0 <= |heap0| && Back(heap0, n, Placed(heap0, active0, k)) && OrderedBut(heap0, n, k)
    ensures Rearranged(heap0, Placed(heap0, active0, k), n, heap, active) && Ordered(heap, n)
  {
    if k > HEAP0 && heap0[k].at <= heap0[Parent(k)].at {
      heap, active := Upheap(heap0, active0, n, k);
    } else {
      heap, active := Downheap(heap0, active0, n, k);
    }
  }

  /** Overwriting one element of a heap leaves it in order but for that one. */
  lemma OverwrittenBut(heap: seq<Anhe>, n: nat, k: nat, he: Anhe)
    requires n + HEAP0 <= |heap| && In(k, n) && Ordered(heap, n)
    ensures OrderedBut(heap[k := he], n, k)
  {
    var h := heap[k := he];
    forall j | In(j, n) && j != k && Parent(j) != k ensures ParentFirst(h, n, j) {
      assert ParentFirst(heap, n, j);
    }
    forall j | In(j, n) && j != k && Parent(j) == k && k > HEAP0 ensures h[Parent(k)].at <= h[j].at {
      assert ParentFirst(heap, n, j) && ParentFirst(heap, n, k);
    }
  }

  /** The first element is the earliest. */
  lemma {:induction false} RootFirst(heap: seq<Anhe>, n: nat, k: nat)
    requires n + HEAP0 <= |heap| && Ordered(heap, n) && In(k, n)
    ensures heap[HEAP0].at <= heap[k].at
  {
    if k != HEAP0 {
      assert ParentFirst(heap, n, k);
      RootFirst(heap, n, Parent(k));
    }
  }
}
