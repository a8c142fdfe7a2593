/** libev's timers: start, stop, again and the pass that makes expired timers
    pending, on top of the heap and the pending queues. */
module LibevTimers {
  import opened LibevHeap
  import P = LibevPending

  const EV_TIMER: P.Events := 0x100

  /** `timers`, `timercnt` and `mn_now` of the loop; `active`, `at` and
      `repeat` of every timer watcher. */
  datatype Timers = Timers(
    heap: seq<Anhe>,
    cnt: nat,
    active: map<nat, nat>,
    at: map<nat, Tstamp>,
    repeat: map<nat, Tstamp>,
    now: Tstamp)

  /** Heap and watchers know each other, but for watcher `skip`. */
  ghost predicate LinkedBut(t: Timers, skip: int) {
    && t.active.Keys == t.at.Keys == t.repeat.Keys
    && Back(t.heap, t.cnt, t.active)
    && (forall k :: In(k, t.cnt) ==> Cached(t, k))
    && (forall w :: w in t.active && w != skip ==> Indexed(t, w))
  }

  ghost predicate Cached(t: Timers, k: int)
    requires t.cnt + HEAP0 <= |t.heap| && In(k, t.cnt)
  {
    t.heap[k].w in t.at && t.heap[k].at == t.at[t.heap[k].w]
  }

  ghost predicate Indexed(t: Timers, w: nat)
    requires t.cnt + HEAP0 <= |t.heap| && w in t.active
  {
    t.active[w] != 0 ==> Has(t.heap, t.cnt, t.active, w)
  }

  ghost predicate Inv(t: Timers) {
    && LinkedBut(t, -1)
    && Ordered(t.heap, t.cnt)
    && RepeatsOk(t)
  }

  ghost predicate RepeatsOk(t: Timers)
    requires t.active.Keys == t.repeat.Keys
  {
    forall w :: w in t.active && t.active[w] != 0 ==> t.repeat[w] >= 0.0
  }

  /** When each started timer expires: the meaning of the heap. */
  ghost function Armed(t: Timers): map<nat, Tstamp>
    requires t.active.Keys == t.at.Keys
  {
    map w | w in t.active && t.active[w] != 0 :: t.at[w]
  }

  /** Loop and queues know the same watchers. */
  ghost predicate Known(t: Timers, p: P.Pend) {
    t.active.Keys <= p.pending.Keys
  }

  /** Putting the heap in another order changes no timer. */
  lemma Reordered(t: Timers, skip: int, heap: seq<Anhe>, active: map<nat, nat>)
    requires LinkedBut(t, skip) && Rearranged(t.heap, t.active, t.cnt, heap, active)
    ensures LinkedBut(t.(heap := heap, active := active), skip)
    ensures forall w :: w in t.active && w != skip ==> (active[w] != 0 <==> t.active[w] != 0)
    ensures forall w :: w in t.active && !Has(t.heap, t.cnt, t.active, w) ==> active[w] == t.active[w]
  {
    hide Back, Found;
    var t1 := t.(heap := heap, active := active);
    forall k | In(k, t.cnt) ensures Cached(t1, k) {
      assert Found(heap[k], t.cnt, t.heap, t.active);
      StaysCached(t, heap[k]);
    }
    forall w | w in t.active && w != skip ensures Indexed(t1, w) && (active[w] != 0 <==> t.active[w] != 0) {
      assert Indexed(t, w);
      StaysIndexed(t, w, heap, active);
    }
  }

  lemma StaysCached(t: Timers, he: Anhe)
    requires t.cnt + HEAP0 <= |t.heap| && forall k :: In(k, t.cnt) ==> Cached(t, k)
    requires Found(he, t.cnt, t.heap, t.active)
    ensures he.w in t.at && he.at == t.at[he.w]
  {
    assert Cached(t, t.active[he.w]);
  }

  lemma StaysIndexed(t: Timers, w: nat, heap: seq<Anhe>, active: map<nat, nat>)
    requires t.cnt + HEAP0 <= |t.heap| && Rearranged(t.heap, t.active, t.cnt, heap, active)
    requires w in t.active && Indexed(t, w)
    ensures active[w] != 0 ==> Has(heap, t.cnt, active, w)
    ensures active[w] != 0 <==> t.active[w] != 0
  {
    hide Back, Found;
    if Has(t.heap, t.cnt, t.active, w) {
      FoundHas(t.heap[t.active[w]], t.cnt, heap, active);
    }
  }

  lemma FoundHas(he: Anhe, n: nat, heap: seq<Anhe>, active: map<nat, nat>)
    requires n + HEAP0 <= |heap| && Found(he, n, heap, active)
    ensures Has(heap, n, active, he.w)
  {
  }

  method TimerStart(t0: Timers, w: nat) returns (t: Timers)
    requires Inv(t0) && w in t0.active && t0.repeat[w] >= 0.0
    ensures Inv(t) && t.now == t0.now && t.repeat == t0.repeat && t.active.Keys == t0.active.Keys
    ensures w in Armed(t0) ==> t == t0
    ensures w !in Armed(t0) ==> t.at == t0.at[w := t0.at[w] + t0.now] && Armed(t) == Armed(t0)[w := t.at[w]]
  {
    hide Back, Rearranged, Ordered, OrderedBut, KidsLater, LinkedBut, Armed;
    t := t0;
    BackLength(t0);
    ArmedAt(t0, w);
    if t.active[w] != 0 {
      return;
    }
    t := t.(at := t.at[w := t.at[w] + t.now]);
    t := t.(cnt := t.cnt + 1);
    var k := t.cnt + HEAP0 - 1;
    t := t.(active := t.active[w := k]);
    if |t.heap| <= k {
      t := t.(heap := t.heap + seq(k + 1 - |t.heap|, _ => Anhe(0.0, 0)));
    }
    t := t.(heap := t.heap[k := Anhe(t.at[w], w)]);
    assert Appended(t0, w, t);
    StartBack(t0, w, t);
    StartLinked(t0, w, t);
    StartOrdered(t0, w, t);
    ghost var t1 := t;
    var heap, active := Upheap(t.heap, t.active, t.cnt, k);
    t := t.(heap := heap, active := active);
    ReorderedInv(t1, heap, active);
    ArmedStarted(t0, w, t1);
  }

  lemma BackLength(t: Timers)
    requires Inv(t)
    ensures t.cnt + HEAP0 <= |t.heap| && t.active.Keys == t.at.Keys == t.repeat.Keys && RepeatsOk(t)
  {
  }

  lemma ArmedAt(t: Timers, w: nat)
    requires Inv(t) && w in t.active
    ensures w in Armed(t) <==> t.active[w] != 0
    ensures w in Armed(t) ==> Armed(t)[w] == t.at[w]
  {
  }

  /** What is left once the heap is in order again. */
  lemma ReorderedInv(t: Timers, heap: seq<Anhe>, active: map<nat, nat>)
    requires LinkedBut(t, -1) && Rearranged(t.heap, t.active, t.cnt, heap, active) && Ordered(heap, t.cnt)
    requires RepeatsOk(t)
    ensures Inv(t.(heap := heap, active := active))
    ensures Armed(t.(heap := heap, active := active)) == Armed(t)
    ensures active.Keys == t.active.Keys
  {
    hide Ordered, Back, Carried;
    Reordered(t, -1, heap, active);
  }

  lemma ArmedStarted(t0: Timers, w: nat, t: Timers)
    requires Appended(t0, w, t)
    ensures Armed(t) == Armed(t0)[w := t.at[w]]
  {
  }

  /** The heap with w stored at its end. */
  ghost predicate Appended(t0: Timers, w: nat, t: Timers) {
    && t0.cnt + HEAP0 <= |t0.heap| && t0.cnt + HEAP0 < |t.heap|
    && t0.active.Keys == t0.at.Keys == t0.repeat.Keys
    && w in t0.active && t0.active[w] == 0
    && t.heap[..t0.cnt + HEAP0] == t0.heap[..t0.cnt + HEAP0]
    && t.active == t0.active[w := t0.cnt + HEAP0] && t.cnt == t0.cnt + 1
    && t.at == t0.at[w := t0.at[w] + t0.now] && t.repeat == t0.repeat && t.now == t0.now
    && t.heap[t0.cnt + HEAP0] == Anhe(t.at[w], w)
  }

  lemma AppendedAt(t0: Timers, w: nat, t: Timers, k: nat)
    requires Appended(t0, w, t) && k < t0.cnt + HEAP0
    ensures t.heap[k] == t0.heap[k]
  {
    assert t.heap[..t0.cnt + HEAP0][k] == t0.heap[..t0.cnt + HEAP0][k];
  }

  lemma StartBack(t0: Timers, w: nat, t: Timers)
    requires Inv(t0) && Appended(t0, w, t)
    ensures Back(t.heap, t.cnt, t.active) && t.active == Placed(t.heap, t.active, t0.cnt + HEAP0)
  {
    forall k | In(k, t.cnt) ensures Knows(t.heap, t.active, k) {
      if k < t0.cnt + HEAP0 {
        AppendedAt(t0, w, t, k);
        BackAt(t0.heap, t0.cnt, t0.active, k);
      }
    }
  }

  lemma StartLinked(t0: Timers, w: nat, t: Timers)
    requires Inv(t0) && Appended(t0, w, t) && Back(t.heap, t.cnt, t.active)
    ensures LinkedBut(t, -1)
  {
    forall k | In(k, t.cnt) ensures Cached(t, k) {
      if k < t0.cnt + HEAP0 {
        AppendedAt(t0, w, t, k);
        BackAt(t0.heap, t0.cnt, t0.active, k);
        assert Cached(t0, k);
      }
    }
    hide Back;
    forall x | x in t.active ensures Indexed(t, x) {
      if x != w && t.active[x] != 0 {
        assert Indexed(t0, x);
        AppendedAt(t0, w, t, t0.active[x]);
      }
    }
  }

  lemma StartOrdered(t0: Timers, w: nat, t: Timers)
    requires Inv(t0) && Appended(t0, w, t)
    ensures OrderedBut(t.heap, t.cnt, t0.cnt + HEAP0) && KidsLater(t.heap, t.cnt, t0.cnt + HEAP0)
  {
    hide Back;
    forall j | In(j, t.cnt) && j != t0.cnt + HEAP0 ensures ParentFirst(t.heap, t.cnt, j) {
      assert ParentFirst(t0.heap, t0.cnt, j);
      AppendedAt(t0, w, t, j);
      AppendedAt(t0, w, t, Parent(j));
    }
    assert forall j :: In(j, t.cnt) ==> Parent(j) != t0.cnt + HEAP0 || j == t0.cnt + HEAP0;
  }

  /** The heap without w: its place taken by the last element. */
  ghost predicate Shortened(t0: Timers, w: nat, t: Timers) {
    && 0 < t0.cnt && t0.cnt + HEAP0 <= |t0.heap| && w in t0.active && In(t0.active[w], t0.cnt)
    && t.cnt == t0.cnt - 1
    && t.at == t0.at && t.repeat == t0.repeat && t.now == t0.now
    && var last := t0.heap[t.cnt + HEAP0];
    if t0.active[w] < t.cnt + HEAP0
    then t.heap == t0.heap[t0.active[w] := last] && t.active == t0.active[last.w := t0.active[w]]
    else t.heap == t0.heap && t.active == t0.active
  }

  lemma ShortenedAt(t0: Timers, w: nat, t: Timers, k: nat)
    requires Inv(t0) && Has(t0.heap, t0.cnt, t0.active, w) && Shortened(t0, w, t) && In(k, t.cnt)
    ensures Knows(t.heap, t.active, k) && t.heap[k].w != w
    ensures Cached(t, k)
  {
    BackAt(t0.heap, t0.cnt, t0.active, k);
    BackAt(t0.heap, t0.cnt, t0.active, t0.cnt - 1 + HEAP0);
    assert Cached(t0, k) && Cached(t0, t0.cnt - 1 + HEAP0);
  }

  lemma ShortenedIndexed(t0: Timers, w: nat, t: Timers, x: nat)
    requires Inv(t0) && Has(t0.heap, t0.cnt, t0.active, w) && Shortened(t0, w, t) && x in t0.active && x != w
    ensures x in t.active && Indexed(t, x) && (t.active[x] != 0 <==> t0.active[x] != 0)
  {
    BackAt(t0.heap, t0.cnt, t0.active, t0.cnt - 1 + HEAP0);
    hide Back;
    assert Indexed(t0, x);
  }

  lemma ShortenedLinked(t0: Timers, w: nat, t: Timers)
    requires Inv(t0) && Has(t0.heap, t0.cnt, t0.active, w) && Shortened(t0, w, t)
    ensures LinkedBut(t, w) && Back(t.heap, t.cnt, t.active)
    ensures forall k :: In(k, t.cnt) ==> t.heap[k].w != w
    ensures t.active.Keys == t0.active.Keys
    ensures forall x :: x in t0.active && x != w ==> (t.active[x] != 0 <==> t0.active[x] != 0)
    ensures t.active[w] == t0.active[w]
  {
    hide Indexed, Cached, Ordered, RepeatsOk, Knows;
    BackAt(t0.heap, t0.cnt, t0.active, t0.cnt - 1 + HEAP0);
    forall k | In(k, t.cnt)
      ensures Knows(t.heap, t.active, k) && t.heap[k].w != w && Cached(t, k)
    {
      ShortenedAt(t0, w, t, k);
    }
    forall x | x in t.active && x != w ensures Indexed(t, x) && (t.active[x] != 0 <==> t0.active[x] != 0) {
      ShortenedIndexed(t0, w, t, x);
    }
  }

  lemma ShortenedOrdered(t0: Timers, w: nat, t: Timers)
    requires Inv(t0) && Shortened(t0, w, t)
    ensures t0.active[w] < t.cnt + HEAP0 ==> OrderedBut(t.heap, t.cnt, t0.active[w])
    ensures t0.active[w] >= t.cnt + HEAP0 ==> Ordered(t.heap, t.cnt)
  {
    hide Back;
    assert Ordered(t0.heap, t.cnt) by {
      forall j | In(j, t.cnt) ensures ParentFirst(t0.heap, t.cnt, j) {
        assert ParentFirst(t0.heap, t0.cnt, j);
      }
    }
    if t0.active[w] < t.cnt + HEAP0 {
      OverwrittenBut(t0.heap, t.cnt, t0.active[w], t0.heap[t.cnt + HEAP0]);
    }
  }

  /** The watcher that left the heap is told so. */
  ghost function Told(t: Timers, w: nat, at: Tstamp): Timers {
    t.(at := t.at[w := at], active := t.active[w := 0])
  }

  lemma DetachedBack(t: Timers, w: nat, at: Tstamp)
    requires LinkedBut(t, w) && w in t.active
    requires forall k :: In(k, t.cnt) ==> t.heap[k].w != w
    ensures Back(t.heap, t.cnt, Told(t, w, at).active)
  {
    forall k | In(k, t.cnt) ensures Knows(t.heap, Told(t, w, at).active, k) {
      BackAt(t.heap, t.cnt, t.active, k);
    }
  }

  lemma DetachedArmed(t: Timers, w: nat, at: Tstamp)
    requires t.active.Keys == t.at.Keys == t.repeat.Keys && RepeatsOk(t) && w in t.active
    ensures RepeatsOk(Told(t, w, at)) && Armed(Told(t, w, at)) == Armed(t) - {w}
  {
  }

  lemma Detached(t: Timers, w: nat, at: Tstamp)
    requires LinkedBut(t, w) && Ordered(t.heap, t.cnt) && RepeatsOk(t) && w in t.active
    requires forall k :: In(k, t.cnt) ==> t.heap[k].w != w
    ensures Inv(Told(t, w, at))
    ensures Armed(Told(t, w, at)) == Armed(t) - {w}
  {
    hide Back, Ordered, RepeatsOk, Armed;
    var t1 := Told(t, w, at);
    DetachedBack(t, w, at);
    DetachedArmed(t, w, at);
    forall k | In(k, t.cnt) ensures Cached(t1, k) {
      assert Cached(t, k);
    }
    forall x | x in t.active ensures Indexed(t1, x) {
      assert x != w ==> Indexed(t, x);
    }
  }

  lemma StaysOut(t: Timers, w: nat, heap: seq<Anhe>)
    requires t.cnt + HEAP0 <= |t.heap| && t.cnt + HEAP0 <= |heap| && Carried(heap, t.cnt, t.heap, t.active)
    requires forall k :: In(k, t.cnt) ==> t.heap[k].w != w
    ensures forall k :: In(k, t.cnt) ==> heap[k].w != w
  {
    forall k | In(k, t.cnt) ensures heap[k].w != w {
      assert Found(heap[k], t.cnt, t.heap, t.active);
    }
  }

  lemma SameActive(t: Timers, t1: Timers)
    requires t.active.Keys == t.at.Keys == t.repeat.Keys && t1.at == t.at && t1.repeat == t.repeat
    requires t1.active.Keys == t.active.Keys
    requires forall x :: x in t.active ==> (t1.active[x] != 0 <==> t.active[x] != 0)
    ensures Armed(t1) == Armed(t) && (RepeatsOk(t) ==> RepeatsOk(t1))
  {
  }

  /** The rest of ev_timer_stop, once the heap is in order again. */
  lemma Restored(t: Timers, w: nat, t1: Timers, at: Tstamp)
    requires LinkedBut(t, w) && w in t.active && RepeatsOk(t)
    requires t1 == t.(heap := t1.heap, active := t1.active)
    requires Rearranged(t.heap, t.active, t.cnt, t1.heap, t1.active) && Ordered(t1.heap, t.cnt)
    requires forall k :: In(k, t.cnt) ==> t.heap[k].w != w
    ensures Inv(Told(t1, w, at))
    ensures Armed(Told(t1, w, at)) == Armed(t) - {w}
    ensures t1.active.Keys == t.active.Keys
  {
    hide Back, Ordered, Armed, Told, RepeatsOk, Carried, Found, Knows;
    Reordered(t, w, t1.heap, t1.active);
    SameActive(t, t1);
    StaysOut(t, w, t1.heap);
    Detached(t1, w, at);
  }

  method TimerStop(t0: Timers, p0: P.Pend, w: nat) returns (t: Timers, p: P.Pend)
    requires Inv(t0) && P.Inv(p0) && Known(t0, p0) && w in t0.active
    ensures Inv(t) && t.now == t0.now && t.repeat == t0.repeat && t.active.Keys == t0.active.Keys
    ensures w !in Armed(t0) ==> t == t0
    ensures w in Armed(t0) ==> t.at == t0.at[w := t0.at[w] - t0.now] && Armed(t) == Armed(t0) - {w}
    ensures P.Inv(p) && p.priority == p0.priority && P.Owed(p) == P.Owed(p0) - {w}
    ensures forall q :: 0 <= q < P.NUMPRI ==> P.Stack(p, q) == P.Without(P.Stack(p0, q), w)
  {
    hide Back, Rearranged, Ordered, OrderedBut, LinkedBut, Armed, P.Inv, P.Owed, P.Stack, Indexed, Has, Inv, RepeatsOk;
    t := t0;
    var cleared, _ := P.ClearPending(p0, w);
    p := cleared;
    BackLength(t0);
    ArmedAt(t0, w);
    if t.active[w] == 0 {
      return;
    }
    var k := t.active[w];
    HasAt(t0, w);
    t := t.(cnt := t.cnt - 1);
    ghost var s := t;
    if k < t.cnt + HEAP0 {
      t := t.(heap := t.heap[k := t.heap[t.cnt + HEAP0]]);
      s := t.(active := Placed(t.heap, t.active, k));
      ShortenedLinked(t0, w, s);
      ShortenedOrdered(t0, w, s);
      var heap, active := Adjustheap(t.heap, t.active, t.cnt, k);
      t := t.(heap := heap, active := active);
    } else {
      ShortenedLinked(t0, w, s);
      ShortenedOrdered(t0, w, s);
      RearrangedRefl(s.heap, s.active, s.cnt);
    }
    SameActive(t0, s);
    Restored(s, w, t, t.at[w] - t.now);
    t := t.(at := t.at[w := t.at[w] - t.now]);
    t := t.(active := t.active[w := 0]);
  }

  lemma HasAt(t: Timers, w: nat)
    requires Inv(t) && w in t.active && t.active[w] != 0
    ensures Has(t.heap, t.cnt, t.active, w) && In(t.active[w], t.cnt) && t.cnt > 0
  {
    assert Indexed(t, w);
  }

  /** A started timer with a new time, in the watcher and in the heap's cache. */
  ghost function Retimed(t: Timers, w: nat, v: Tstamp): Timers
    requires w in t.active && t.active[w] < |t.heap|
  {
    t.(at := t.at[w := v], heap := t.heap[t.active[w] := Anhe(v, w)])
  }

  lemma RetimedLinked(t: Timers, w: nat, v: Tstamp)
    requires Inv(t) && w in t.active && t.active[w] != 0
    ensures In(t.active[w], t.cnt) && t.cnt + HEAP0 <= |t.heap|
    ensures LinkedBut(Retimed(t, w, v), -1) && RepeatsOk(Retimed(t, w, v))
    ensures OrderedBut(Retimed(t, w, v).heap, t.cnt, t.active[w])
    ensures Placed(Retimed(t, w, v).heap, t.active, t.active[w]) == t.active
    ensures Back(Retimed(t, w, v).heap, t.cnt, t.active)
  {
    hide Ordered;
    HasAt(t, w);
    var k, t1 := t.active[w], Retimed(t, w, v);
    OverwrittenBut(t.heap, t.cnt, k, Anhe(v, w));
    forall j | In(j, t.cnt) ensures Knows(t1.heap, t1.active, j) && Cached(t1, j) {
      BackAt(t.heap, t.cnt, t.active, j);
      assert Cached(t, j);
    }
    forall x | x in t.active ensures Indexed(t1, x) {
      assert Indexed(t, x);
    }
  }

  lemma ArmedRetimed(t: Timers, w: nat, v: Tstamp)
    requires Inv(t) && w in t.active && t.active[w] != 0 && t.active[w] < |t.heap|
    ensures Armed(Retimed(t, w, v)) == Armed(t)[w := v]
  {
  }

  method TimerAgain(t0: Timers, p0: P.Pend, w: nat) returns (t: Timers, p: P.Pend)
    requires Inv(t0) && P.Inv(p0) && Known(t0, p0) && w in t0.active && t0.repeat[w] >= 0.0
    ensures Inv(t) && t.now == t0.now && t.repeat == t0.repeat && t.active.Keys == t0.active.Keys
    ensures Armed(t) == if t0.repeat[w] != 0.0 then Armed(t0)[w := t0.now + t0.repeat[w]] else Armed(t0) - {w}
    ensures forall x :: x in t0.at && x != w ==> t.at[x] == t0.at[x]
    ensures P.Inv(p) && p.priority == p0.priority && P.Owed(p) == P.Owed(p0) - {w}
    ensures forall q :: 0 <= q < P.NUMPRI ==> P.Stack(p, q) == P.Without(P.Stack(p0, q), w)
  {
    hide Back, Rearranged, Ordered, OrderedBut, LinkedBut, Armed, P.Inv, P.Owed, P.Stack, P.Without, Inv, RepeatsOk;
    t := t0;
    BackLength(t0);
    ArmedAt(t0, w);
    var cleared, _ := P.ClearPending(p0, w);
    p := cleared;
    P.InvShape(p0);
    P.InvShape(p);
    if t.active[w] != 0 {
      if t.repeat[w] != 0.0 {
        RetimedLinked(t0, w, t.now + t.repeat[w]);
        ArmedRetimed(t0, w, t.now + t.repeat[w]);
        t := t.(at := t.at[w := t.now + t.repeat[w]]);
        t := t.(heap := t.heap[t.active[w] := Anhe(t.at[w], w)]);
        ghost var t1 := t;
        var heap, active := Adjustheap(t.heap, t.active, t.cnt, t.active[w]);
        t := t.(heap := heap, active := active);
        ReorderedInv(t1, heap, active);
      } else {
        t, p := TimerStop(t, cleared, w);
        P.InvShape(p);
        forall q | 0 <= q < P.NUMPRI ensures P.Stack(p, q) == P.Stack(cleared, q) {
          P.StackOwed(cleared, q, w);
          P.WithoutAbsent(P.Stack(cleared, q), w);
        }
      }
    } else if t.repeat[w] != 0.0 {
      t := t.(at := t.at[w := t.repeat[w]]);
      IdleRetimed(t0, w, t.repeat[w]);
      t := TimerStart(t, w);
    }
  }

  lemma IdleRetimed(t: Timers, w: nat, v: Tstamp)
    requires Inv(t) && w in t.active && t.active[w] == 0
    ensures Inv(t.(at := t.at[w := v])) && Armed(t.(at := t.at[w := v])) == Armed(t)
  {
    hide Ordered;
    var t1 := t.(at := t.at[w := v]);
    forall k | In(k, t.cnt) ensures Cached(t1, k) {
      assert Cached(t, k);
      BackAt(t.heap, t.cnt, t.active, k);
    }
    forall x | x in t.active ensures Indexed(t1, x) {
      assert Indexed(t, x);
    }
  }

  /** The time of a repeating timer after it expired. */
  ghost function Again(at: Tstamp, repeat: Tstamp, now: Tstamp): (r: Tstamp)
    ensures r >= now && r >= at + repeat && (r == now || r == at + repeat)
  {
    if at + repeat < now then now else at + repeat
  }

  /** The timers after those in `done` expired. */
  ghost predicate Expired(t0: Timers, done: seq<nat>, t: Timers)
    requires Inv(t0) && Inv(t)
  {
    && t.now == t0.now && t.repeat == t0.repeat && t.active.Keys == t0.active.Keys
    && (forall w :: w in done ==> w in Armed(t0) && t0.at[w] < t0.now)
    && (forall w :: w in t0.active && w !in done ==>
          (w in Armed(t) <==> w in Armed(t0)) && t.at[w] == t0.at[w])
    && (forall w :: w in done ==>
          if t0.repeat[w] == 0.0 then w !in Armed(t) && t.at[w] == t0.at[w] - t0.now
          else w in Armed(t) && t.at[w] == Again(t0.at[w], t0.repeat[w], t0.now))
  }

  /** Earliest first, each once, and no timer that is left is earlier. */
  ghost predicate InTurn(t0: Timers, done: seq<nat>) {
    && (forall w :: w in done ==> w in t0.at)
    && (forall i, j :: 0 <= i < j < |done| ==> done[i] != done[j] && t0.at[done[i]] <= t0.at[done[j]])
  }

  ghost predicate RestLater(t0: Timers, done: seq<nat>)
    requires Inv(t0)
  {
    && (forall w :: w in done ==> w in t0.at)
    && forall w, x :: w in Armed(t0) && w !in done && x in done ==> t0.at[x] <= t0.at[w]
  }

  /** The one-shot timers among them. */
  ghost function OneShots(t0: Timers, done: seq<nat>): set<nat>
    requires forall w :: w in done ==> w in t0.repeat
  {
    set w | w in done && t0.repeat[w] == 0.0
  }

  /** One turn of the loop in timers_reify: the timer at the root. */
  method Expire(t0: Timers, p0: P.Pend) returns (t: Timers, p: P.Pend, w: nat)
    requires Inv(t0) && P.Inv(p0) && Known(t0, p0)
    requires t0.cnt > 0 && HEAP0 < |t0.heap| && t0.heap[HEAP0].at < t0.now
    ensures Inv(t) && t.now == t0.now && t.repeat == t0.repeat && t.active.Keys == t0.active.Keys
    ensures w in Armed(t0) && t0.at[w] < t0.now
    ensures forall x :: x in Armed(t0) ==> t0.at[w] <= t0.at[x]
    ensures forall x :: x in t0.active && x != w ==> t.at[x] == t0.at[x]
    ensures t.at[w] == if t0.repeat[w] != 0.0 then Again(t0.at[w], t0.repeat[w], t0.now) else t0.at[w] - t0.now
    ensures Armed(t) == if t0.repeat[w] != 0.0 then Armed(t0)[w := t.at[w]] else Armed(t0) - {w}
    ensures P.Inv(p) && p.priority == p0.priority
    ensures t0.repeat[w] != 0.0 ==> p == p0
    ensures t0.repeat[w] == 0.0 ==>
      && P.Owed(p) == P.Owed(p0) - {w}
      && forall q :: 0 <= q < P.NUMPRI ==> P.Stack(p, q) == P.Without(P.Stack(p0, q), w)
  {
    hide Back, Rearranged, Ordered, OrderedBut, LinkedBut, Armed, P.Inv, P.Owed, P.Stack, P.Without, Inv, RepeatsOk;
    t, p := t0, p0;
    BackLength(t0);
    P.InvShape(p0);
    w := t.heap[HEAP0].w;
    AtRoot(t0);
    if t.repeat[w] != 0.0 {
      t := t.(at := t.at[w := t.at[w] + t.repeat[w]]);
      if t.at[w] < t.now {
        t := t.(at := t.at[w := t.now]);
      }
      RetimedLinked(t0, w, t.at[w]);
      ArmedRetimed(t0, w, t.at[w]);
      assert t.at == t0.at[w := t.at[w]];
      t := t.(heap := t.heap[HEAP0 := Anhe(t.at[w], w)]);
      ghost var t1 := t;
      assert ParentFirst(t.heap, t.cnt, HEAP0);
      var heap, active := Downheap(t.heap, t.active, t.cnt, HEAP0);
      t := t.(heap := heap, active := active);
      ReorderedInv(t1, heap, active);
    } else {
      t, p := TimerStop(t, p, w);
    }
  }

  /** The root holds the earliest timer. */
  lemma AtRoot(t: Timers)
    requires Inv(t) && t.cnt > 0
    ensures var w := t.heap[HEAP0].w;
      && w in Armed(t) && w in t.active && t.active[w] == HEAP0 && t.at[w] == t.heap[HEAP0].at
      && t.repeat[w] >= 0.0
      && forall x :: x in Armed(t) ==> t.at[w] <= t.at[x]
  {
    hide Ordered;
    BackAt(t.heap, t.cnt, t.active, HEAP0);
    assert Cached(t, HEAP0);
    forall x | x in Armed(t) ensures t.at[t.heap[HEAP0].w] <= t.at[x] {
      assert Indexed(t, x) && Cached(t, t.active[x]);
      RootFirst(t.heap, t.cnt, t.active[x]);
    }
  }

  lemma ExpiredLater(t0: Timers, done: seq<nat>, t: Timers, w: nat)
    requires Inv(t0) && Inv(t) && Expired(t0, done, t) && w in Armed(t) && t.at[w] < t0.now
    ensures w !in done && w in Armed(t0) && w in t0.at && t0.at[w] == t.at[w]
  {
  }

  lemma ExpireStep(t0: Timers, done: seq<nat>, t1: Timers, t2: Timers, w: nat)
    requires Inv(t0) && Inv(t1) && Inv(t2) && Expired(t0, done, t1) && w !in done
    requires w in Armed(t1) && t1.at[w] < t0.now && w in Armed(t0) && t0.at[w] == t1.at[w]
    requires t2.now == t1.now && t2.repeat == t1.repeat && t2.active.Keys == t1.active.Keys
    requires forall x :: x in t1.active && x != w ==> t2.at[x] == t1.at[x]
    requires t2.at[w] == if t1.repeat[w] != 0.0 then Again(t1.at[w], t1.repeat[w], t1.now) else t1.at[w] - t1.now
    requires Armed(t2) == if t1.repeat[w] != 0.0 then Armed(t1)[w := t2.at[w]] else Armed(t1) - {w}
    ensures Expired(t0, done + [w], t2)
  {
    hide Inv, Again;
    BackLength(t0);
    BackLength(t1);
    hide Armed;
    assert forall x :: x in done + [w] <==> x in done || x == w;
  }

  lemma TurnStep(t0: Timers, done: seq<nat>, w: nat)
    requires Inv(t0) && InTurn(t0, done) && RestLater(t0, done) && w !in done && w in Armed(t0)
    requires forall x :: x in Armed(t0) && x !in done ==> t0.at[w] <= t0.at[x]
    ensures InTurn(t0, done + [w]) && RestLater(t0, done + [w])
  {
    hide Inv;
    BackLength(t0);
    assert forall x :: x in done + [w] <==> x in done || x == w;
    forall i, j | 0 <= i < j < |done + [w]|
      ensures (done + [w])[i] != (done + [w])[j] && t0.at[(done + [w])[i]] <= t0.at[(done + [w])[j]]
    {
      assert (done + [w])[i] in done;
    }
  }

  lemma OneShotsPush(t0: Timers, done: seq<nat>, w: nat)
    requires w in t0.repeat && forall x :: x in done ==> x in t0.repeat
    ensures OneShots(t0, done + [w]) == if t0.repeat[w] == 0.0 then OneShots(t0, done) + {w} else OneShots(t0, done)
  {
    assert forall x :: x in done + [w] <==> x in done || x == w;
  }

  lemma StacksStay(p0: P.Pend, p1: P.Pend, p2: P.Pend, w: nat)
    requires P.Inv(p0) && P.Inv(p1) && P.Inv(p2) && w !in P.Owed(p0)
    requires forall q :: 0 <= q < P.NUMPRI ==> P.Stack(p1, q) == P.Stack(p0, q)
    requires forall q :: 0 <= q < P.NUMPRI ==> P.Stack(p2, q) == P.Without(P.Stack(p1, q), w)
    ensures forall q :: 0 <= q < P.NUMPRI ==> P.Stack(p2, q) == P.Stack(p0, q)
  {
    hide P.Owed, P.Stack, P.Without, P.Inv;
    P.InvShape(p0);
    P.InvShape(p1);
    P.InvShape(p2);
    forall q | 0 <= q < P.NUMPRI ensures P.Stack(p2, q) == P.Stack(p0, q) {
      P.StackOwed(p0, q, w);
      P.WithoutAbsent(P.Stack(p0, q), w);
    }
  }

  ghost predicate NoneOwed(p: P.Pend, ws: seq<nat>)
    requires P.Inv(p)
  {
    forall w :: w in ws ==> w !in P.Owed(p)
  }

  /** The queues when the one-shot timers among `done` were stopped. */
  ghost predicate Quieted(t0: Timers, p0: P.Pend, done: seq<nat>, p: P.Pend) {
    && P.Inv(p0) && P.Inv(p) && p.priority == p0.priority
    && (forall w :: w in done ==> w in t0.repeat)
    && P.Owed(p) == P.Owed(p0) - OneShots(t0, done)
    && (NoneOwed(p0, done) ==> forall q :: 0 <= q < P.NUMPRI ==> P.Stack(p, q) == P.Stack(p0, q))
  }

  lemma QuietStep(t0: Timers, p0: P.Pend, done: seq<nat>, p1: P.Pend, p2: P.Pend, w: nat)
    requires Quieted(t0, p0, done, p1) && w in t0.repeat
    requires P.Inv(p2) && p2.priority == p1.priority
    requires t0.repeat[w] != 0.0 ==> p2 == p1
    requires t0.repeat[w] == 0.0 ==>
      && P.Owed(p2) == P.Owed(p1) - {w}
      && forall q :: 0 <= q < P.NUMPRI ==> P.Stack(p2, q) == P.Without(P.Stack(p1, q), w)
    ensures Quieted(t0, p0, done + [w], p2)
  {
    hide P.Inv, P.Owed, P.Stack, P.Without, OneShots;
    P.InvShape(p0);
    P.InvShape(p1);
    P.InvShape(p2);
    OneShotsPush(t0, done, w);
    assert w in done + [w] && forall x :: x in done ==> x in done + [w];
    assert P.Owed(p2) == P.Owed(p0) - OneShots(t0, done + [w]);
    if NoneOwed(p0, done + [w]) {
      assert NoneOwed(p0, done);
      if t0.repeat[w] == 0.0 {
        StacksStay(p0, p1, p2, w);
      }
    }
  }

  ghost function Members(s: seq<nat>): set<nat> {
    set w | w in s
  }

  lemma MembersPush(s: seq<nat>, w: nat)
    ensures Members(s + [w]) == Members(s) + {w}
  {
    assert forall x :: x in s + [w] <==> x in s || x == w;
  }

  /** The loop of timers_reify: takes expired timers off the root. */
  method ExpireAll(t0: Timers, p0: P.Pend) returns (t: Timers, p: P.Pend, rfeeds: seq<nat>)
    requires Inv(t0) && P.Inv(p0) && Known(t0, p0)
    ensures Inv(t) && Expired(t0, rfeeds, t) && InTurn(t0, rfeeds) && Quieted(t0, p0, rfeeds, p)
    ensures t.cnt > 0 ==> HEAP0 < |t.heap| && t.now <= t.heap[HEAP0].at
  {
    hide P.Inv, P.Owed, P.Stack, Inv, Armed, Expired, InTurn, RestLater, Quieted, Again;
    t, p, rfeeds := t0, p0, [];
    BackLength(t0);
    P.InvShape(p0);
    Nothing(t0, p0);
    while t.cnt > 0 && t.heap[HEAP0].at < t.now
      invariant Inv(t) && P.Inv(p) && Known(t, p) && t.now == t0.now && |t.heap| >= t.cnt + HEAP0
      invariant t.active.Keys == t0.active.Keys == t0.repeat.Keys && t.repeat == t0.repeat
      invariant p.priority == p0.priority
      invariant Expired(t0, rfeeds, t) && InTurn(t0, rfeeds) && RestLater(t0, rfeeds)
      invariant Quieted(t0, p0, rfeeds, p)
      decreases Armed(t0).Keys - Members(rfeeds)
    {
      var w;
      ghost var t1, p1 := t, p;
      t, p, w := Expire(t, p);
      BackLength(t1);
      BackLength(t);
      P.InvShape(p);
      P.InvShape(p1);
      ExpiredLater(t0, rfeeds, t1, w);
      ExpireStep(t0, rfeeds, t1, t, w);
      StillLater(t0, rfeeds, t1, w);
      TurnStep(t0, rfeeds, w);
      QuietStep(t0, p0, rfeeds, p1, p, w);
      MembersPush(rfeeds, w);
      assert w in Armed(t0).Keys - Members(rfeeds);
      rfeeds := rfeeds + [w];
    }
  }

  /** timers_reify; `rfeeds` are the timers it found expired. */
  method TimersReify(t0: Timers, p0: P.Pend) returns (t: Timers, p: P.Pend, rfeeds: seq<nat>)
    requires Inv(t0) && P.Inv(p0) && Known(t0, p0)
    ensures Inv(t) && P.Inv(p) && p.priority == p0.priority
    ensures Expired(t0, rfeeds, t) && InTurn(t0, rfeeds)
    ensures forall w :: w in rfeeds <==> w in Armed(t0) && t0.at[w] < t0.now
    ensures forall w :: w in Armed(t) ==> t.now <= t.at[w]
    ensures Fed(t0, p0, rfeeds, p)
  {
    hide P.Inv, P.Owed, P.Stack, P.Reverse, P.OfQueue, P.After, Inv, Armed, Expired, InTurn, Quieted, Fed;
    t, p, rfeeds := ExpireAll(t0, p0);
    AllExpired(t0, rfeeds, t);
    ghost var p1 := p;
    QuietKnown(t0, p0, rfeeds, p);
    if rfeeds != [] {
      p := P.FeedReverseDone(p, rfeeds, EV_TIMER);
    } else {
      P.NothingFed(p, EV_TIMER);
    }
    FedAfter(t0, p0, rfeeds, p1, p);
  }

  /** The queues when those in `done` were also fed, in reverse. */
  ghost predicate Fed(t0: Timers, p0: P.Pend, done: seq<nat>, p: P.Pend)
    requires P.Inv(p0) && P.Inv(p)
  {
    && (forall w :: w in done ==> w in t0.repeat)
    && (forall w :: w in P.Reverse(done) ==> w in p0.priority)
    && P.Owed(p) == P.After(P.Owed(p0) - OneShots(t0, done), P.Feeds(P.Reverse(done), EV_TIMER))
    && (NoneOwed(p0, done) ==>
          forall q :: 0 <= q < P.NUMPRI ==> P.Stack(p, q) == P.Stack(p0, q) + P.OfQueue(p0, P.Reverse(done), q))
    && (NoneOwed(p0, done) ==> P.EarlierAbove(p, done))
  }

  lemma QuietKnown(t0: Timers, p0: P.Pend, done: seq<nat>, p: P.Pend)
    requires Inv(t0) && Known(t0, p0) && Quieted(t0, p0, done, p)
    ensures P.Inv(p) && p.priority == p0.priority && forall w :: w in done ==> w in p.pending
  {
  }

  lemma FedAfter(t0: Timers, p0: P.Pend, done: seq<nat>, p1: P.Pend, p: P.Pend)
    requires Quieted(t0, p0, done, p1) && InTurn(t0, done) && P.Inv(p)
    requires forall w :: w in P.Reverse(done) ==> w in p1.priority
    requires P.Owed(p) == P.After(P.Owed(p1), P.Feeds(P.Reverse(done), EV_TIMER))
    requires P.AllFresh(p1, done) ==>
      forall q :: 0 <= q < P.NUMPRI ==> P.Stack(p, q) == P.Stack(p1, q) + P.OfQueue(p1, P.Reverse(done), q)
    requires P.AllFresh(p1, done) ==> P.EarlierAbove(p, done)
    ensures Fed(t0, p0, done, p)
  {
    hide P.Inv, P.Owed, P.Stack, P.OfQueue, P.Reverse, P.After;
    P.InvShape(p0);
    P.InvShape(p1);
    P.InvShape(p);
    if NoneOwed(p0, done) {
      assert P.AllFresh(p1, done);
      forall q | 0 <= q < P.NUMPRI ensures P.OfQueue(p1, P.Reverse(done), q) == P.OfQueue(p0, P.Reverse(done), q) {
        P.OfQueueSame(p1, p0, P.Reverse(done), q);
      }
    }
  }

  lemma Nothing(t: Timers, p: P.Pend)
    requires Inv(t) && P.Inv(p)
    ensures Expired(t, [], t) && InTurn(t, []) && RestLater(t, []) && Quieted(t, p, [], p)
  {
  }

  lemma StillLater(t0: Timers, done: seq<nat>, t: Timers, w: nat)
    requires Inv(t0) && Inv(t) && Expired(t0, done, t) && w in Armed(t) && w in t0.at && t0.at[w] == t.at[w]
    requires forall x :: x in Armed(t) ==> t.at[w] <= t.at[x]
    ensures forall x :: x in Armed(t0) && x !in done ==> t0.at[w] <= t0.at[x]
  {
  }

  lemma AllExpired(t0: Timers, done: seq<nat>, t: Timers)
    requires Inv(t0) && Inv(t) && Expired(t0, done, t)
    requires t.cnt > 0 ==> HEAP0 < |t.heap| && t.now <= t.heap[HEAP0].at
    ensures forall w :: w in done <==> w in Armed(t0) && t0.at[w] < t0.now
    ensures forall w :: w in Armed(t) ==> t.now <= t.at[w]
  {
    forall w | w in Armed(t) ensures t.now <= t.at[w] {
      HasAt(t, w);
      AtRoot(t);
    }
    hide Inv;
  }

  /** Two timers of one priority, x due before y. */
  ghost predicate Sooner(t: Timers, p: P.Pend, x: nat, y: nat) {
    && x in t.at && y in t.at && x in p.priority && y in p.priority
    && p.priority[x] == p.priority[y] && t.at[x] < t.at[y]
  }

  /** A pass that expires timers and then runs the pending callbacks, the k-th
      of which does script[k]. Of two expired timers of one priority, neither
      pending before, the one that was due earlier is told first, unless a
      callback that ran before cleared one of them. */
  method ExpirePass(t0: Timers, p0: P.Pend, script: seq<seq<P.Action>>)
    returns (t: Timers, p: P.Pend, rfeeds: seq<nat>, calls: seq<P.Call>)
    requires Inv(t0) && P.Inv(p0) && Known(t0, p0)
    requires forall actions, a :: actions in script && a in actions ==> a.w in p0.pending
    ensures Inv(t) && P.Inv(p) && p.priority == p0.priority
    ensures forall w :: w in rfeeds <==> w in Armed(t0) && t0.at[w] < t0.now
    ensures NoneOwed(p0, rfeeds) ==>
      forall x, y, k :: x in rfeeds && y in rfeeds && Sooner(t0, p0, x, y) && 0 <= k < |calls| && calls[k].w == y ==>
        P.Disturbed(P.History(calls[..k], script), x, y)
    ensures forall w :: w in rfeeds ==> ExpiryTold(P.History(calls, script), w)
    ensures forall w :: w in P.Owed(p0) && w !in rfeeds ==> P.Answered(P.History(calls, script), w)
  {
    hide P.Answered, ExpiryTold, P.Inv, Inv, Armed, Expired, Fed, P.InTurn, InTurn, P.Disturbed, P.History, P.Owed,
         P.Legal, P.After, P.Order, P.Stacks;
    t, p, rfeeds := TimersReify(t0, p0);
    ghost var p1 := p;
    P.InvShape(p0);
    P.InvShape(p1);
    p, calls := P.InvokePending(p, script);
    ArmedKnown(t0, p0);
    if NoneOwed(p0, rfeeds) {
      forall x, y, k | x in rfeeds && y in rfeeds && Sooner(t0, p0, x, y) && 0 <= k < |calls| && calls[k].w == y
        ensures P.Disturbed(P.History(calls[..k], script), x, y)
      {
        InExpiryOrder(t0, p0, rfeeds, p1, calls, script, x, y, k);
      }
    }
    ExpiredOwed(t0, p0, rfeeds, p1);
    forall w | w in rfeeds ensures ExpiryTold(P.History(calls, script), w) {
      TimerTold(P.Owed(p1), P.History(calls, script), w);
    }
  }

  /** w was called, and told that its timer expired, before anything else was done
      about it, unless its event was cleared first. */
  ghost predicate ExpiryTold(t: seq<P.Event>, w: nat) {
    exists i :: 0 <= i < |t| && P.Undisturbed(t, 0, i, w) && P.Answers(t[i], w)
                && (t[i].Invoked? ==> P.Includes(t[i].events, EV_TIMER))
  }

  lemma TimerTold(owed: map<nat, P.Events>, t: seq<P.Event>, w: nat)
    requires P.Legal(owed, t) && P.Answered(t, w) && w in owed && P.Includes(owed[w], EV_TIMER)
    ensures ExpiryTold(t, w)
  {
    hide P.Legal, P.Answered, P.Or, P.Includes;
    var i := P.AnsweredFirst(owed, t, w);
    P.OrKeeps(owed[w], P.FedSince(t, 0, i, w), EV_TIMER);
  }

  lemma ExpiredOwed(t0: Timers, p0: P.Pend, rfeeds: seq<nat>, p: P.Pend)
    requires P.Inv(p0) && P.Inv(p) && Fed(t0, p0, rfeeds, p)
    ensures forall w :: w in rfeeds ==> w in P.Owed(p) && P.Includes(P.Owed(p)[w], EV_TIMER)
    ensures forall w :: w in P.Owed(p0) && w !in rfeeds ==> w in P.Owed(p)
  {
    hide P.Inv, P.Owed, P.After, P.Reverse, P.Stack, P.OfQueue, P.Feeds, NoneOwed, P.EarlierAbove, P.Includes;
    var owed := P.Owed(p0) - OneShots(t0, rfeeds);
    forall w | w in rfeeds ensures w in P.Owed(p) && P.Includes(P.Owed(p)[w], EV_TIMER) {
      P.ReverseIn(rfeeds, w);
      P.FedOwed(owed, P.Reverse(rfeeds), EV_TIMER, w);
    }
    forall w | w in P.Owed(p0) && w !in rfeeds ensures w in P.Owed(p) {
      P.FedKeys(owed, P.Reverse(rfeeds), EV_TIMER, w);
    }
  }

  lemma ArmedKnown(t: Timers, p: P.Pend)
    requires Inv(t) && P.Inv(p) && Known(t, p)
    ensures forall w :: w in Armed(t) ==> w in t.at && w in p.priority
  {
  }

  lemma InExpiryOrder(t0: Timers, p0: P.Pend, rfeeds: seq<nat>, p: P.Pend,
                      calls: seq<P.Call>, script: seq<seq<P.Action>>, x: nat, y: nat, k: nat)
    requires P.Inv(p0) && P.Inv(p) && p.priority == p0.priority
    requires Fed(t0, p0, rfeeds, p) && NoneOwed(p0, rfeeds) && InTurn(t0, rfeeds) && P.InTurn(p, calls, script)
    requires x in rfeeds && y in rfeeds && x in p0.priority && y in p0.priority
    requires p0.priority[x] == p0.priority[y] && t0.at[x] < t0.at[y]
    requires k < |calls| && calls[k].w == y
    ensures P.Disturbed(P.History(calls[..k], script), x, y)
  {
    hide P.Inv, P.Owed, P.Stack, P.OfQueue, P.Reverse, P.After, P.Above, P.Disturbed, P.History, NoneOwed;
    var i :| 0 <= i < |rfeeds| && rfeeds[i] == x;
    var j :| 0 <= j < |rfeeds| && rfeeds[j] == y;
    assert i < j;
    assert P.Above(p, rfeeds[i], rfeeds[j]);
  }

  /** The passing of time changes no timer. */
  lemma NowChanges(t: Timers, now: Tstamp)
    requires Inv(t)
    ensures Inv(t.(now := now)) && Armed(t.(now := now)) == Armed(t)
  {
    hide Ordered;
    var t1 := t.(now := now);
    forall k | In(k, t.cnt) ensures Cached(t1, k) {
      assert Cached(t, k);
    }
    forall w | w in t.active ensures Indexed(t1, w) {
      assert Indexed(t, w);
    }
  }

  lemma FedAnyTime(t: Timers, now: Tstamp, p0: P.Pend, done: seq<nat>, p: P.Pend)
    requires P.Inv(p0) && P.Inv(p) && Fed(t.(now := now), p0, done, p) && InTurn(t.(now := now), done)
    ensures Fed(t, p0, done, p) && InTurn(t, done)
  {
    hide P.Inv, P.Owed, P.Stack, P.OfQueue, P.Reverse, P.After, P.EarlierAbove, NoneOwed;
    if forall w :: w in done ==> w in t.repeat {
      assert OneShots(t.(now := now), done) == OneShots(t, done);
    }
  }

  lemma ExpiredKeys(t0: Timers, done: seq<nat>, t: Timers)
    requires Inv(t0) && Inv(t) && Expired(t0, done, t)
    ensures t.active.Keys == t0.active.Keys && t.now == t0.now
  {
  }
}
