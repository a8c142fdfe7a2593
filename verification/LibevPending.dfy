/** libev's pending events: a stack of (watcher, events) slots per priority,
    with a back-index in every watcher and a dummy watcher standing in for
    the ones whose event was cleared. */
module LibevPending {
  type Events = bv32

  function Or(a: Events, b: Events): Events {
    a | b
  }

  lemma OrAlgebra(a: Events, b: Events, c: Events)
    ensures Or(a, Or(b, c)) == Or(Or(a, b), c)
    ensures Or(a, 0) == a && Or(0, a) == a
  {
  }

  /** An event is in the union exactly if it is in one of the two. */
  lemma OrBits(a: Events, b: Events, bits: Events)
    ensures Or(a, b) & bits == Or(a & bits, b & bits)
    ensures Or(a, b) & bits == 0 <==> a & bits == 0 && b & bits == 0
  {
  }

  /** All events of r are among those of a. */
  ghost predicate Includes(a: Events, r: Events) {
    a & r == r
  }

  lemma OrKeeps(a: Events, b: Events, r: Events)
    ensures Includes(Or(a, r), r)
    ensures Includes(a, r) ==> Includes(Or(a, b), r)
  {
  }

  const EV_MINPRI := -2
  const EV_MAXPRI := 2
  const NUMPRI := EV_MAXPRI - EV_MINPRI + 1

  datatype Ref = PendingW | Watcher(id: nat)

  datatype Slot = Slot(w: Ref, events: Events)

  /** `pendings` of the loop; `pending` and `priority` of every watcher. */
  datatype Pend = Pend(pendings: seq<seq<Slot>>, pending: map<nat, nat>, priority: map<nat, int>)

  /** A live watcher knows its slot, and every slot that is not the dummy's
      belongs to the watcher that points back at it. */
  ghost predicate Inv(p: Pend) {
    && Shape(p)
    && (forall w :: w in p.pending ==> Held(p, w))
    && (forall q, i :: 0 <= q < NUMPRI && 0 <= i < |p.pendings[q]| ==> Points(p, q, i))
  }

  ghost predicate Shape(p: Pend) {
    && |p.pendings| == NUMPRI
    && p.pending.Keys == p.priority.Keys
    && (forall w :: w in p.priority ==> EV_MINPRI <= p.priority[w] <= EV_MAXPRI)
  }

  ghost predicate Held(p: Pend, w: nat)
    requires Shape(p) && w in p.pending
  {
    p.pending[w] != 0 ==>
      && p.pending[w] <= |p.pendings[AbsPri(p, w)]|
      && p.pendings[AbsPri(p, w)][p.pending[w] - 1].w == Watcher(w)
  }

  ghost predicate Points(p: Pend, q: nat, i: nat)
    requires Shape(p) && q < NUMPRI && i < |p.pendings[q]|
  {
    p.pendings[q][i].w.Watcher? ==>
      var w := p.pendings[q][i].w.id;
      w in p.pending && AbsPri(p, w) == q && p.pending[w] == i + 1
  }

  function AbsPri(p: Pend, w: nat): int
    requires w in p.priority
  {
    p.priority[w] - EV_MINPRI
  }

  /** What each watcher is still to be told: the meaning of the queues. */
  ghost function Owed(p: Pend): map<nat, Events>
    requires Inv(p)
  {
    map w | w in p.pending && p.pending[w] != 0 ::
      assert Held(p, w); p.pendings[AbsPri(p, w)][p.pending[w] - 1].events
  }

  /** The live watchers of a queue, first fed first. */
  ghost function Live(s: seq<Slot>): seq<nat> {
    if s == [] then []
    else Live(s[..|s| - 1]) + (if s[|s| - 1].w.Watcher? then [s[|s| - 1].w.id] else [])
  }

  ghost function Without(s: seq<nat>, w: nat): seq<nat> {
    if s == [] then []
    else Without(s[..|s| - 1], w) + (if s[|s| - 1] == w then [] else [s[|s| - 1]])
  }

  ghost function Reverse(s: seq<nat>): (r: seq<nat>)
    ensures |r| == |s|
  {
    if s == [] then [] else [s[|s| - 1]] + Reverse(s[..|s| - 1])
  }

  ghost function Stack(p: Pend, q: nat): seq<nat>
    requires |p.pendings| == NUMPRI && q < NUMPRI
  {
    Live(p.pendings[q])
  }

  ghost function Bits(owed: map<nat, Events>, w: nat): Events {
    if w in owed then owed[w] else 0
  }

  /** Two pending watchers of one priority, x on top of y. */
  ghost predicate Above(p: Pend, x: nat, y: nat) {
    && x in p.pending && y in p.pending && x in p.priority && y in p.priority
    && p.priority[x] == p.priority[y]
    && 0 < p.pending[y] < p.pending[x]
  }

  lemma LivePush(s: seq<Slot>, x: Slot)
    ensures Live(s + [x]) == Live(s) + (if x.w.Watcher? then [x.w.id] else [])
  {
    assert (s + [x])[..|s|] == s;
  }

  /** Changing the events of a slot changes nobody's place. */
  lemma {:induction false} LiveSameRefs(s: seq<Slot>, t: seq<Slot>)
    requires |s| == |t| && forall i :: 0 <= i < |s| ==> s[i].w == t[i].w
    ensures Live(s) == Live(t)
  {
    if s == [] {
    } else {
      LiveSameRefs(s[..|s| - 1], t[..|t| - 1]);
    }
  }

  lemma {:induction false} WithoutAbsent(s: seq<nat>, w: nat)
    requires w !in s
    ensures Without(s, w) == s
  {
    if s == [] {
    } else {
      WithoutAbsent(s[..|s| - 1], w);
      assert s == s[..|s| - 1] + [s[|s| - 1]];
    }
  }

  lemma {:induction false} LiveIn(s: seq<Slot>, w: nat)
    ensures w in Live(s) <==> exists i :: 0 <= i < |s| && s[i].w == Watcher(w)
  {
    if s == [] {
    } else {
      var t := s[..|s| - 1];
      LiveIn(t, w);
      assert forall i :: 0 <= i < |t| ==> t[i] == s[i];
      assert w in Live(s) <==> w in Live(t) || s[|s| - 1].w == Watcher(w);
      if exists i :: 0 <= i < |s| && s[i].w == Watcher(w) {
        var i :| 0 <= i < |s| && s[i].w == Watcher(w);
        if i < |t| {
          assert t[i].w == Watcher(w);
        }
      }
    }
  }

  lemma WithoutPush(s: seq<nat>, x: nat, w: nat)
    ensures Without(s + [x], w) == Without(s, w) + if x == w then [] else [x]
  {
    assert (s + [x])[..|s|] == s;
  }

  /** Handing the one slot of a watcher to the dummy takes it out. */
  lemma {:induction false} LiveClear(s: seq<Slot>, k: nat, w: nat)
    requires k < |s| && s[k].w == Watcher(w)
    requires forall i :: 0 <= i < |s| && s[i].w == Watcher(w) ==> i == k
    ensures Live(s[k := s[k].(w := PendingW)]) == Without(Live(s), w)
  {
    hide Live, Without;
    var n := |s| - 1;
    var r, x := s[..n], s[n];
    assert s == r + [x];
    LivePush(r, x);
    if k == n {
      var y := x.(w := PendingW);
      assert s[k := y] == r + [y];
      LivePush(r, y);
      LiveIn(r, w);
      WithoutAbsent(Live(r), w);
      WithoutPush(Live(r), w, w);
    } else {
      LiveClear(r, k, w);
      var r1 := r[k := r[k].(w := PendingW)];
      assert s[k := s[k].(w := PendingW)] == r1 + [x];
      LivePush(r1, x);
      if x.w.Watcher? {
        assert x.w.id != w;
        WithoutPush(Live(r), x.w.id, w);
      } else {
        assert Live(r) + [] == Live(r);
      }
    }
  }

  /** The queue of w becomes `queue` and its back-index `at`. */
  ghost predicate Moved(p0: Pend, w: nat, queue: seq<Slot>, at: nat, p: Pend)
    requires Inv(p0) && w in p0.pending
  {
    && p.priority == p0.priority
    && p.pendings == p0.pendings[AbsPri(p0, w) := queue]
    && p.pending == p0.pending[w := at]
  }

  /** An array store into one queue keeps the queues in order ... */
  lemma StoreInv(p0: Pend, w: nat, slot: Slot, at: nat, p: Pend)
    requires Inv(p0) && w in p0.pending && p0.pending[w] != 0
    requires (slot.w == Watcher(w) && at == p0.pending[w]) || (slot.w == PendingW && at == 0)
    requires Held(p0, w)
    requires Moved(p0, w, p0.pendings[AbsPri(p0, w)][p0.pending[w] - 1 := slot], at, p)
    ensures Inv(p)
  {
    forall q, i | 0 <= q < NUMPRI && 0 <= i < |p.pendings[q]| ensures Points(p, q, i) {
      assert Points(p0, q, i);
    }
    forall x | x in p.pending ensures Held(p, x) {
      assert Held(p0, x);
    }
  }

  lemma PushInv(p0: Pend, w: nat, slot: Slot, p: Pend)
    requires Inv(p0) && w in p0.pending && p0.pending[w] == 0 && slot.w == Watcher(w)
    requires Moved(p0, w, p0.pendings[AbsPri(p0, w)] + [slot], |p0.pendings[AbsPri(p0, w)]| + 1, p)
    ensures Inv(p)
  {
    forall q, i | 0 <= q < NUMPRI && 0 <= i < |p.pendings[q]| ensures Points(p, q, i) {
      if i < |p0.pendings[q]| {
        assert Points(p0, q, i);
      }
    }
    forall x | x in p.pending ensures Held(p, x) {
      assert Held(p0, x);
    }
  }

  /** ... and leaves the events of every other watcher where they were. */
  ghost predicate Elsewhere(p0: Pend, w: nat, queue: seq<Slot>)
    requires Inv(p0) && w in p0.pending
  {
    && |p0.pendings[AbsPri(p0, w)]| <= |queue|
    && forall i :: 0 <= i < |p0.pendings[AbsPri(p0, w)]| && i + 1 != p0.pending[w] ==>
         queue[i] == p0.pendings[AbsPri(p0, w)][i]
  }

  lemma OwedElsewhere(p0: Pend, w: nat, queue: seq<Slot>, at: nat, p: Pend, x: nat)
    requires Inv(p0) && w in p0.pending && Moved(p0, w, queue, at, p) && Inv(p) && x != w
    requires Elsewhere(p0, w, queue)
    ensures (x in Owed(p)) == (x in Owed(p0)) && Bits(Owed(p), x) == Bits(Owed(p0), x)
  {
    if x in p0.pending && p0.pending[x] != 0 {
      assert Held(p0, x) && Held(p0, w) && Held(p, x);
      assert p.pendings[AbsPri(p, x)][p.pending[x] - 1] == p0.pendings[AbsPri(p0, x)][p0.pending[x] - 1];
    }
  }

  lemma OwedHere(p: Pend, w: nat)
    requires Inv(p) && w in p.pending
    ensures p.pending[w] == 0 <==> w !in Owed(p)
    ensures p.pending[w] != 0 ==>
      p.pending[w] <= |p.pendings[AbsPri(p, w)]| && Owed(p)[w] == p.pendings[AbsPri(p, w)][p.pending[w] - 1].events
  {
    assert Held(p, w);
  }

  lemma OwedStored(p0: Pend, w: nat, queue: seq<Slot>, at: nat, p: Pend)
    requires Inv(p0) && w in p0.pending && Moved(p0, w, queue, at, p) && Inv(p)
    requires Elsewhere(p0, w, queue)
    ensures at != 0 ==> at <= |queue| && Owed(p) == Owed(p0)[w := queue[at - 1].events]
    ensures at == 0 ==> Owed(p) == Owed(p0) - {w}
  {
    OwedHere(p, w);
    hide Inv, Owed, Elsewhere;
    hide Moved, AbsPri;
    ghost var m0, m1 := Owed(p0), Owed(p);
    forall x | x != w ensures (x in m1) == (x in m0) && Bits(m1, x) == Bits(m0, x) {
      OwedElsewhere(p0, w, queue, at, p, x);
    }
    SameElsewhere(m0, m1, w);
  }

  lemma SameElsewhere(m0: map<nat, Events>, m1: map<nat, Events>, w: nat)
    requires forall x :: x != w ==> (x in m1) == (x in m0) && Bits(m1, x) == Bits(m0, x)
    ensures w in m1 ==> m1 == m0[w := m1[w]]
    ensures w !in m1 ==> m1 == m0 - {w}
  {
    forall x | x in m0 && x != w ensures m1[x] == m0[x] {
      assert Bits(m1, x) == m1[x] && Bits(m0, x) == m0[x];
    }
  }

  lemma PushedAbove(p0: Pend, w: nat, p: Pend)
    requires Inv(p0) && w in p0.pending && p0.pending[w] == 0 && p.priority == p0.priority
    requires p.pending == p0.pending[w := |p0.pendings[AbsPri(p0, w)]| + 1]
    ensures forall y :: y in Owed(p0) && p0.priority[y] == p0.priority[w] ==> Above(p, w, y)
  {
    forall y | y in Owed(p0) && p0.priority[y] == p0.priority[w] ensures Above(p, w, y) {
      assert Held(p0, y);
    }
  }

  method FeedEvent(p0: Pend, w: nat, revents: Events) returns (p: Pend)
    requires Inv(p0) && w in p0.pending
    ensures Inv(p) && p.priority == p0.priority
    ensures Owed(p) == Owed(p0)[w := Or(Bits(Owed(p0), w), revents)]
    ensures forall q :: 0 <= q < NUMPRI ==>
              Stack(p, q) == Stack(p0, q) + if q == AbsPri(p0, w) && w !in Owed(p0) then [w] else []
    ensures forall x, y :: Above(p0, x, y) ==> Above(p, x, y)
    ensures w !in Owed(p0) ==>
      forall y :: y in Owed(p0) && p0.priority[y] == p0.priority[w] ==> Above(p, w, y)
  {
    hide Live, Or;
    p := p0;
    var pri := AbsPri(p, w);
    if p.pending[w] != 0 {
      var slot := p.pendings[pri][p.pending[w] - 1];
      slot := slot.(events := Or(slot.events, revents));
      p := p.(pendings := p.pendings[pri := p.pendings[pri][p.pending[w] - 1 := slot]]);
      assert p.pending == p0.pending[w := p0.pending[w]];
      StoreInv(p0, w, slot, p.pending[w], p);
      OwedStored(p0, w, p.pendings[pri], p.pending[w], p);
      LiveSameRefs(p0.pendings[pri], p.pendings[pri]);
    } else {
      var slot := Slot(Watcher(w), revents);
      p := p.(pending := p.pending[w := |p.pendings[pri]| + 1]);
      p := p.(pendings := p.pendings[pri := p.pendings[pri] + [slot]]);
      PushInv(p0, w, slot, p);
      OwedStored(p0, w, p.pendings[pri], p.pending[w], p);
      LivePush(p0.pendings[pri], slot);
      OrAlgebra(revents, 0, 0);
      PushedAbove(p0, w, p);
    }
  }

  method ClearPending(p0: Pend, w: nat) returns (p: Pend, events: Events)
    requires Inv(p0) && w in p0.pending
    ensures Inv(p) && p.priority == p0.priority
    ensures events == Bits(Owed(p0), w)
    ensures Owed(p) == Owed(p0) - {w}
    ensures forall q :: 0 <= q < NUMPRI ==> Stack(p, q) == Without(Stack(p0, q), w)
    ensures forall x, y :: Above(p0, x, y) && w != x && w != y ==> Above(p, x, y)
  {
    hide Live, Without;
    p, events := p0, 0;
    var pri := AbsPri(p, w);
    if p.pending[w] != 0 {
      var i := p.pending[w] - 1;
      var slot := p.pendings[pri][i];
      events := slot.events;
      p := p.(pendings := p.pendings[pri := p.pendings[pri][i := slot.(w := PendingW)]]);
      p := p.(pending := p.pending[w := 0]);
      StoreInv(p0, w, slot.(w := PendingW), 0, p);
      OwedStored(p0, w, p.pendings[pri], 0, p);
      OneSlot(p0, w);
      LiveClear(p0.pendings[pri], i, w);
    } else {
      assert Owed(p) == Owed(p0) - {w};
    }
    forall q | 0 <= q < NUMPRI ensures Stack(p, q) == Without(Stack(p0, q), w) {
      if q != pri || p0.pending[w] == 0 {
        StackOwed(p0, q, w);
        WithoutAbsent(Stack(p0, q), w);
      }
    }
  }

  lemma OneSlot(p: Pend, w: nat)
    requires Inv(p) && w in p.pending
    ensures forall q, i :: 0 <= q < NUMPRI && 0 <= i < |p.pendings[q]| && p.pendings[q][i].w == Watcher(w) ==>
              q == AbsPri(p, w) && i + 1 == p.pending[w]
  {
    forall q, i | 0 <= q < NUMPRI && 0 <= i < |p.pendings[q]| && p.pendings[q][i].w == Watcher(w)
      ensures q == AbsPri(p, w) && i + 1 == p.pending[w]
    {
      assert Points(p, q, i);
    }
  }

  /** Who is in a stack: the watchers of that priority that are owed events. */
  lemma StackOwed(p: Pend, q: nat, w: nat)
    requires Inv(p) && q < NUMPRI
    ensures w in Stack(p, q) <==> w in Owed(p) && AbsPri(p, w) == q
  {
    LiveIn(p.pendings[q], w);
    if w in p.pending {
      OneSlot(p, w);
    }
    if w in Stack(p, q) {
      var i :| 0 <= i < |p.pendings[q]| && p.pendings[q][i].w == Watcher(w);
      assert Points(p, q, i);
    }
  }

  /** What a callback may do to the queues, and what a run of the loop did. */
  datatype Action = Feed(w: nat, events: Events) | Clear(w: nat)

  datatype Call = Call(w: nat, events: Events)

  datatype Event = Did(action: Action) | Invoked(w: nat, events: Events)

  /** The effect of one event on what is owed. */
  ghost function Apply(owed: map<nat, Events>, e: Event): map<nat, Events> {
    match e
    case Did(Feed(w, events)) => owed[w := Or(Bits(owed, w), events)]
    case Did(Clear(w)) => owed - {w}
    case Invoked(w, _) => owed - {w}
  }

  ghost function After(owed: map<nat, Events>, t: seq<Event>): map<nat, Events> {
    if t == [] then owed else Apply(After(owed, t[..|t| - 1]), t[|t| - 1])
  }

  /** Every callback is told exactly what its watcher was owed. */
  ghost predicate Legal(owed: map<nat, Events>, t: seq<Event>) {
    forall i :: 0 <= i < |t| && t[i].Invoked? ==>
      t[i].w in After(owed, t[..i]) && t[i].events == After(owed, t[..i])[t[i].w]
  }

  lemma AfterPush(owed: map<nat, Events>, t: seq<Event>, e: Event)
    ensures After(owed, t + [e]) == Apply(After(owed, t), e)
  {
    assert (t + [e])[..|t|] == t;
  }

  lemma LegalPush(owed: map<nat, Events>, t: seq<Event>, e: Event)
    requires Legal(owed, t)
    requires e.Invoked? ==> e.w in After(owed, t) && e.events == After(owed, t)[e.w]
    ensures Legal(owed, t + [e])
  {
    hide After;
    forall i | 0 <= i < |t + [e]| && (t + [e])[i].Invoked?
      ensures (t + [e])[i].w in After(owed, (t + [e])[..i])
      ensures (t + [e])[i].events == After(owed, (t + [e])[..i])[(t + [e])[i].w]
    {
      assert (t + [e])[..i] == t[..i];
      assert t[..|t|] == t;
    }
  }

  ghost predicate FeedsTo(e: Event, w: nat) {
    e.Did? && e.action.Feed? && e.action.w == w
  }

  /** Feeds of w after position i, up to position j, as one mask. */
  ghost function FedSince(t: seq<Event>, i: nat, j: nat, w: nat): Events
    requires i <= j <= |t|
    decreases j
  {
    if i == j then 0
    else if FeedsTo(t[j - 1], w) then Or(FedSince(t, i, j - 1, w), t[j - 1].action.events)
    else FedSince(t, i, j - 1, w)
  }

  /** w is neither told nor cleared between i and j. */
  ghost predicate Undisturbed(t: seq<Event>, i: nat, j: nat, w: nat)
    requires i <= j <= |t|
  {
    forall k :: i <= k < j ==> t[k] != Did(Clear(w)) && !(t[k].Invoked? && t[k].w == w)
  }

  /** One undisturbed event, as w sees it. */
  lemma AppliedTo(owed: map<nat, Events>, e: Event, w: nat)
    requires e != Did(Clear(w)) && !(e.Invoked? && e.w == w)
    ensures Bits(Apply(owed, e), w) == if FeedsTo(e, w) then Or(Bits(owed, w), e.action.events) else Bits(owed, w)
    ensures w in Apply(owed, e) <==> w in owed || FeedsTo(e, w)
  {
  }

  lemma {:induction false} OwedSince(owed: map<nat, Events>, t: seq<Event>, i: nat, j: nat, w: nat)
    requires i <= j <= |t| && Undisturbed(t, i, j, w)
    ensures Bits(After(owed, t[..j]), w) == Or(Bits(After(owed, t[..i]), w), FedSince(t, i, j, w))
    decreases j
  {
    hide After, Apply, Bits, Or;
    var before := Bits(After(owed, t[..i]), w);
    if i == j {
      OrAlgebra(before, 0, 0);
    } else {
      if FeedsTo(t[j - 1], w) {
        assert t[j - 1].action.Feed?;
        OrAlgebra(before, FedSince(t, i, j - 1, w), t[j - 1].action.events);
      }
      OwedSince(owed, t, i, j - 1, w);
      assert t[..j] == t[..j - 1] + [t[j - 1]];
      AfterPush(owed, t[..j - 1], t[j - 1]);
      AppliedTo(After(owed, t[..j - 1]), t[j - 1], w);
    }
  }

  lemma {:induction false} FedBefore(owed: map<nat, Events>, t: seq<Event>, i: nat, j: nat, w: nat)
    requires i <= j <= |t| && Undisturbed(t, i, j, w)
    requires w !in After(owed, t[..i]) && w in After(owed, t[..j])
    ensures exists k :: i <= k < j && FeedsTo(t[k], w)
    decreases j
  {
    hide After, Apply, Bits, FeedsTo;
    if i < j {
      assert t[..j] == t[..j - 1] + [t[j - 1]];
      AfterPush(owed, t[..j - 1], t[j - 1]);
      AppliedTo(After(owed, t[..j - 1]), t[j - 1], w);
      if !FeedsTo(t[j - 1], w) {
        FedBefore(owed, t, i, j - 1, w);
      }
    }
  }

  /** A watcher that was just told, or whose event was just cleared, is not
      invoked again before it is fed again; when it is invoked, it is told the
      union of what it was fed since, if nothing intervened. */
  lemma ToldOnceAsUnion(owed: map<nat, Events>, t: seq<Event>, i: nat, j: nat)
    requires Legal(owed, t) && i < j < |t| && t[j].Invoked?
    requires t[i] == Did(Clear(t[j].w)) || (t[i].Invoked? && t[i].w == t[j].w)
    requires Undisturbed(t, i + 1, j, t[j].w)
    ensures exists k :: i < k < j && FeedsTo(t[k], t[j].w)
    ensures t[j].events == FedSince(t, i + 1, j, t[j].w)
  {
    hide FedSince, Or;
    var w := t[j].w;
    assert t[..i + 1] == t[..i] + [t[i]];
    AfterPush(owed, t[..i], t[i]);
    OwedSince(owed, t, i + 1, j, w);
    FedBefore(owed, t, i + 1, j, w);
    OrAlgebra(FedSince(t, i + 1, j, w), 0, 0);
  }

  ghost function Stacks(p: Pend): (s: seq<seq<nat>>)
    requires Inv(p)
    ensures |s| == NUMPRI
  {
    seq(NUMPRI, q requires 0 <= q < NUMPRI => Stack(p, q))
  }

  /** Highest priority first, and within a priority last fed first. */
  ghost function Order(stacks: seq<seq<nat>>): seq<nat> {
    if stacks == [] then []
    else Reverse(stacks[|stacks| - 1]) + Order(stacks[..|stacks| - 1])
  }

  ghost function Who(calls: seq<Call>): (r: seq<nat>) {
    seq(|calls|, i requires 0 <= i < |calls| => calls[i].w)
  }

  ghost function Acts(actions: seq<Action>): seq<Event> {
    seq(|actions|, i requires 0 <= i < |actions| => Did(actions[i]))
  }

  /** The history of some calls, the k-th of which does script[k]. */
  ghost function History(calls: seq<Call>, script: seq<seq<Action>>): seq<Event> {
    if calls == [] then []
    else
      var k := |calls| - 1;
      History(calls[..k], script) + [Invoked(calls[k].w, calls[k].events)]
      + if k < |script| then Acts(script[k]) else []
  }

  lemma HistoryPush(calls: seq<Call>, c: Call, script: seq<seq<Action>>)
    ensures History(calls + [c], script) ==
            History(calls, script) + [Invoked(c.w, c.events)] + if |calls| < |script| then Acts(script[|calls|]) else []
  {
    assert (calls + [c])[..|calls|] == calls;
  }

  /** One turn of the loop in ev_invoke_pending, up to the callback. */
  method Pop(p0: Pend, pri: nat) returns (p: Pend, slot: Slot)
    requires Inv(p0) && pri < NUMPRI && p0.pendings[pri] != []
    ensures Inv(p) && p.priority == p0.priority && |p.pendings[pri]| < |p0.pendings[pri]|
    ensures slot.w == PendingW ==> Owed(p) == Owed(p0) && Stack(p, pri) == Stack(p0, pri)
    ensures slot.w != PendingW ==>
      && slot.w.id in Owed(p0) && slot.events == Owed(p0)[slot.w.id]
      && slot.w.id in p0.priority && AbsPri(p0, slot.w.id) == pri
      && Owed(p) == Owed(p0) - {slot.w.id}
      && Stack(p0, pri) == Stack(p, pri) + [slot.w.id]
    ensures forall q :: 0 <= q < NUMPRI && q != pri ==> p.pendings[q] == p0.pendings[q]
    ensures forall x, y :: Above(p0, x, y) && slot.w != Watcher(x) ==> Above(p, x, y)
    ensures forall x, y :: slot.w == Watcher(y) ==> !Above(p0, x, y)
  {
    hide Live, Owed;
    p := p0;
    var n := |p.pendings[pri]| - 1;
    slot := p.pendings[pri][n];
    p := p.(pendings := p.pendings[pri := p.pendings[pri][..n]]);
    assert p0.pendings[pri] == p.pendings[pri] + [slot];
    LivePush(p.pendings[pri], slot);
    assert Points(p0, pri, n);
    if slot.w.Watcher? {
      p := p.(pending := p.pending[slot.w.id := 0]);
      OwedHere(p0, slot.w.id);
    } else {
      assert Live(p.pendings[pri]) + [] == Live(p.pendings[pri]);
    }
    PoppedInv(p0, pri, p);
    PoppedOwed(p0, pri, p);
    forall x, y | Above(p0, x, y) && slot.w != Watcher(x)
      ensures Above(p, x, y)
    {
      assert Held(p0, x);
    }
    forall x, y | slot.w == Watcher(y) ensures !Above(p0, x, y) {
      assert x in p0.pending ==> Held(p0, x);
    }
  }

  ghost predicate Popped(p0: Pend, pri: nat, p: Pend)
    requires Inv(p0)
  {
    && pri < NUMPRI && p0.pendings[pri] != [] && p.priority == p0.priority
    && var n := |p0.pendings[pri]| - 1;
    && p.pendings == p0.pendings[pri := p0.pendings[pri][..n]]
    && var slot := p0.pendings[pri][n];
    && (slot.w.Watcher? ==> slot.w.id in p0.pending)
    && p.pending == if slot.w.Watcher? then p0.pending[slot.w.id := 0] else p0.pending
  }

  lemma PoppedInv(p0: Pend, pri: nat, p: Pend)
    requires Inv(p0) && Popped(p0, pri, p)
    ensures Inv(p)
  {
    assert Points(p0, pri, |p0.pendings[pri]| - 1);
    forall q, i | 0 <= q < NUMPRI && 0 <= i < |p.pendings[q]| ensures Points(p, q, i) {
      assert Points(p0, q, i);
    }
    forall x | x in p.pending ensures Held(p, x) {
      assert Held(p0, x);
    }
  }

  lemma PoppedOwed(p0: Pend, pri: nat, p: Pend)
    requires Inv(p0) && Popped(p0, pri, p) && Inv(p)
    ensures var w := p0.pendings[pri][|p0.pendings[pri]| - 1].w;
            Owed(p) == if w.Watcher? then Owed(p0) - {w.id} else Owed(p0)
  {
    var w := p0.pendings[pri][|p0.pendings[pri]| - 1].w;
    ghost var m0, m1 := Owed(p0), Owed(p);
    assert Points(p0, pri, |p0.pendings[pri]| - 1);
    assert w.Watcher? ==> w.id !in m1;
    forall x | w != Watcher(x) ensures (x in m1) == (x in m0) && Bits(m1, x) == Bits(m0, x) {
      PoppedElsewhere(p0, pri, p, x);
    }
    hide Owed, Inv, Popped, Points;
    if w.Watcher? {
      SameElsewhere(m0, m1, w.id);
    } else {
      forall x | x in m0 ensures x in m1 && m1[x] == m0[x] {
        assert Bits(m1, x) == m1[x] && Bits(m0, x) == m0[x];
      }
    }
  }

  lemma PoppedElsewhere(p0: Pend, pri: nat, p: Pend, x: nat)
    requires Inv(p0) && Popped(p0, pri, p) && Inv(p)
    requires p0.pendings[pri][|p0.pendings[pri]| - 1].w != Watcher(x)
    ensures (x in Owed(p)) == (x in Owed(p0)) && Bits(Owed(p), x) == Bits(Owed(p0), x)
  {
    if x in p0.pending && p0.pending[x] != 0 {
      assert Held(p0, x) && Held(p, x);
      assert p.pendings[AbsPri(p, x)][p.pending[x] - 1] == p0.pendings[AbsPri(p0, x)][p0.pending[x] - 1];
    }
  }

  /** Something was done that may bring y before x. */
  ghost predicate Disturbed(t: seq<Event>, x: nat, y: nat) {
    exists i :: 0 <= i < |t| && (t[i] == Did(Clear(x)) || t[i] == Did(Clear(y)) || (t[i].Invoked? && t[i].w == x))
  }

  /** What was above something stays above it, or was disturbed. */
  ghost predicate KeptOrder(p0: Pend, t: seq<Event>, p: Pend) {
    forall x, y :: Above(p0, x, y) ==> Disturbed(t, x, y) || Above(p, x, y)
  }

  lemma DisturbedMore(t: seq<Event>, u: seq<Event>, x: nat, y: nat)
    ensures Disturbed(t, x, y) ==> Disturbed(t + u, x, y)
    ensures Disturbed(u, x, y) ==> Disturbed(t + u, x, y)
  {
    if Disturbed(t, x, y) {
      var i :| 0 <= i < |t| && (t[i] == Did(Clear(x)) || t[i] == Did(Clear(y)) || (t[i].Invoked? && t[i].w == x));
      assert (t + u)[i] == t[i];
    }
    if Disturbed(u, x, y) {
      var i :| 0 <= i < |u| && (u[i] == Did(Clear(x)) || u[i] == Did(Clear(y)) || (u[i].Invoked? && u[i].w == x));
      assert (t + u)[|t| + i] == u[i];
    }
  }

  /** One event later. */
  lemma KeptStep(p0: Pend, t: seq<Event>, p1: Pend, e: Event, p2: Pend)
    requires KeptOrder(p0, t, p1)
    requires forall x, y :: Above(p1, x, y) ==> Disturbed([e], x, y) || Above(p2, x, y)
    ensures KeptOrder(p0, t + [e], p2)
  {
    hide Above, Disturbed;
    forall x, y | Above(p0, x, y) ensures Disturbed(t + [e], x, y) || Above(p2, x, y) {
      DisturbedMore(t, [e], x, y);
    }
  }

  method Act(p0: Pend, a: Action) returns (p: Pend)
    requires Inv(p0) && a.w in p0.pending
    ensures Inv(p) && p.priority == p0.priority && Owed(p) == Apply(Owed(p0), Did(a))
    ensures forall x, y :: Above(p0, x, y) ==> Disturbed([Did(a)], x, y) || Above(p, x, y)
  {
    hide Owed, Bits, Or, Above, Without, Inv;
    match a {
      case Feed(w, events) =>
        p := FeedEvent(p0, w, events);
      case Clear(w) =>
        var cleared, _ := ClearPending(p0, w);
        p := cleared;
        assert [Did(a)][0] == Did(Clear(w));
    }
  }

  /** A callback that does `actions`. */
  method Callback(p0: Pend, actions: seq<Action>, ghost start: Pend, ghost owed: map<nat, Events>, ghost t: seq<Event>)
    returns (p: Pend)
    requires KeptOrder(start, t, p0)
    requires Inv(p0) && Legal(owed, t) && After(owed, t) == Owed(p0)
    requires forall a :: a in actions ==> a.w in p0.pending
    ensures Inv(p) && p.priority == p0.priority
    ensures Legal(owed, t + Acts(actions)) && After(owed, t + Acts(actions)) == Owed(p)
    ensures KeptOrder(start, t + Acts(actions), p)
  {
    hide Owed, Bits, Legal, After, Live, Or, Above, KeptOrder, Without, Disturbed, Inv, Apply;
    p := p0;
    InvShape(p);
    assert t + Acts(actions[..0]) == t;
    for i := 0 to |actions|
      invariant Inv(p) && p.priority == p0.priority && p.pending.Keys == p0.pending.Keys
      invariant Legal(owed, t + Acts(actions[..i])) && After(owed, t + Acts(actions[..i])) == Owed(p)
      invariant KeptOrder(start, t + Acts(actions[..i]), p)
    {
      ghost var p1, sofar, e := p, t + Acts(actions[..i]), Did(actions[i]);
      AfterPush(owed, sofar, e);
      LegalPush(owed, sofar, e);
      assert t + Acts(actions[..i + 1]) == sofar + [e];
      p := Act(p, actions[i]);
      InvShape(p);
      KeptStep(start, sofar, p1, e, p);
    }
    assert actions[..|actions|] == actions;
  }

  lemma InvShape(p: Pend)
    requires Inv(p)
    ensures |p.pendings| == NUMPRI && p.pending.Keys == p.priority.Keys
  {
  }

  lemma ReversePush(s: seq<nat>, x: nat)
    ensures Reverse(s + [x]) == [x] + Reverse(s)
  {
    assert (s + [x])[..|s|] == s;
  }

  lemma Regroup(a: seq<nat>, x: nat, b: seq<nat>, c: seq<nat>)
    ensures a + (([x] + b) + c) == (a + [x]) + (b + c)
  {
  }

  /** The top queue goes first. */
  lemma OrderTop(p: Pend, pri: nat)
    requires Inv(p) && pri < NUMPRI
    ensures Order(Stacks(p)[..pri + 1]) == Reverse(Stack(p, pri)) + Order(Stacks(p)[..pri])
  {
    assert Stacks(p)[..pri + 1][..pri] == Stacks(p)[..pri];
  }

  /** Nothing happened yet. */
  lemma OrderStart(p: Pend, script: seq<seq<Action>>)
    requires Inv(p)
    ensures Who([]) + Order(Stacks(p)[..NUMPRI]) == Order(Stacks(p))
    ensures After(Owed(p), History([], script)) == Owed(p) && Legal(Owed(p), History([], script))
    ensures KeptOrder(p, History([], script), p) && InTurn(p, [], script)
  {
    assert Stacks(p)[..NUMPRI] == Stacks(p);
  }

  /** An empty queue adds nothing. */
  lemma OrderEmpty(p: Pend, pri: nat)
    requires Inv(p) && pri < NUMPRI && p.pendings[pri] == []
    ensures Reverse(Stack(p, pri)) + Order(Stacks(p)[..pri]) == Order(Stacks(p)[..pri])
  {
  }

  lemma OrderEnd(p: Pend, calls: seq<Call>)
    requires Inv(p)
    ensures Who(calls) + Order(Stacks(p)[..0]) == Who(calls)
  {
  }

  /** A watcher is not invoked before one that was above it, unless one of the
      two was cleared in the meantime. */
  ghost predicate InTurn(p0: Pend, calls: seq<Call>, script: seq<seq<Action>>) {
    forall x, y, k :: Above(p0, x, y) && 0 <= k < |calls| && calls[k].w == y ==>
      Disturbed(History(calls[..k], script), x, y)
  }

  lemma TurnStep(p0: Pend, calls: seq<Call>, c: Call, script: seq<seq<Action>>, p: Pend)
    requires InTurn(p0, calls, script) && KeptOrder(p0, History(calls, script), p)
    requires forall x :: !Above(p, x, c.w)
    ensures InTurn(p0, calls + [c], script)
  {
    hide Above, Disturbed, History;
    assert calls[..|calls|] == calls;
    forall x, y, k | Above(p0, x, y) && 0 <= k < |calls + [c]| && (calls + [c])[k].w == y
      ensures Disturbed(History((calls + [c])[..k], script), x, y)
    {
      assert (calls + [c])[..k] == calls[..k];
    }
  }

  lemma KeptPop(p0: Pend, t: seq<Event>, p1: Pend, e: Event, p2: Pend)
    requires KeptOrder(p0, t, p1) && e.Invoked?
    requires forall x, y :: Above(p1, x, y) && x != e.w ==> Above(p2, x, y)
    ensures KeptOrder(p0, t + [e], p2)
  {
    hide Above;
    assert [e][0] == e;
    KeptStep(p0, t, p1, e, p2);
  }

  lemma KeptSame(p0: Pend, t: seq<Event>, p1: Pend, p2: Pend)
    requires KeptOrder(p0, t, p1)
    requires forall x, y :: Above(p1, x, y) ==> Above(p2, x, y)
    ensures KeptOrder(p0, t, p2)
  {
    hide Above, Disturbed;
  }

  /** No callback runs after one of a lower priority. */
  ghost predicate Downward(p: Pend, calls: seq<Call>) {
    && (forall k :: 0 <= k < |calls| ==> calls[k].w in p.priority)
    && forall j, k :: 0 <= j < k < |calls| ==> p.priority[calls[j].w] >= p.priority[calls[k].w]
  }

  ghost predicate NotBelow(p: Pend, calls: seq<Call>, pri: nat) {
    forall k :: 0 <= k < |calls| ==> calls[k].w in p.priority && AbsPri(p, calls[k].w) >= pri
  }

  lemma DownwardNone(p: Pend)
    ensures Downward(p, []) && NotBelow(p, [], NUMPRI)
  {
  }

  lemma NotBelowLess(p: Pend, calls: seq<Call>, pri: nat)
    requires NotBelow(p, calls, pri + 1)
    ensures NotBelow(p, calls, pri)
  {
  }

  lemma DownwardMore(p: Pend, calls: seq<Call>, c: Call, pri: nat)
    requires Downward(p, calls) && NotBelow(p, calls, pri) && c.w in p.priority && AbsPri(p, c.w) == pri
    ensures Downward(p, calls + [c]) && NotBelow(p, calls + [c], pri)
  {
  }

  /** w was told, or its event was cleared. */
  ghost predicate Answered(t: seq<Event>, w: nat) {
    exists i :: 0 <= i < |t| && Answers(t[i], w)
  }

  ghost predicate Answers(e: Event, w: nat) {
    e == Did(Clear(w)) || (e.Invoked? && e.w == w)
  }

  /** The callback of a watcher of lower priority fed w. */
  ghost predicate FedBelow(p: Pend, calls: seq<Call>, script: seq<seq<Action>>, w: nat) {
    exists k :: 0 <= k < |calls| && k < |script| && Feeds1(script[k], w) && Lower(p, calls[k].w, w)
  }

  ghost predicate Lower(p: Pend, x: nat, w: nat) {
    x in p.priority && w in p.priority && p.priority[x] < p.priority[w]
  }

  ghost predicate Feeds1(actions: seq<Action>, w: nat) {
    exists a :: a in actions && a.Feed? && a.w == w
  }

  /** With the queues from `from` on done: what was owed there was answered, and
      what is owed there now was fed by a callback of lower priority. */
  ghost predicate Drained(p0: Pend, calls: seq<Call>, script: seq<seq<Action>>, p: Pend, from: nat)
    requires Inv(p0) && Inv(p)
  {
    && (forall w :: w in Owed(p0) && AbsPri(p0, w) >= from ==> Answered(History(calls, script), w))
    && forall w :: w in Owed(p) && AbsPri(p, w) >= from ==> FedBelow(p0, calls, script, w)
  }

  lemma DrainedNone(p: Pend, script: seq<seq<Action>>)
    requires Inv(p)
    ensures Drained(p, [], script, p, NUMPRI)
  {
  }

  lemma DrainedSame(p0: Pend, calls: seq<Call>, script: seq<seq<Action>>, p1: Pend, p: Pend, from: nat)
    requires Inv(p0) && Inv(p1) && Inv(p) && Drained(p0, calls, script, p1, from)
    requires Owed(p) == Owed(p1) && p.priority == p1.priority
    ensures Drained(p0, calls, script, p, from)
  {
    hide Answered, FedBelow, History;
  }

  lemma AllDrained(p0: Pend, calls: seq<Call>, script: seq<seq<Action>>, p: Pend)
    requires Inv(p0) && Inv(p) && Drained(p0, calls, script, p, 0)
    ensures forall w :: w in Owed(p0) ==> Answered(History(calls, script), w)
    ensures forall w :: w in Owed(p) ==> FedBelow(p0, calls, script, w)
  {
    hide Answered, FedBelow, History;
  }

  lemma AnsweredMore(t: seq<Event>, u: seq<Event>, w: nat)
    requires Answered(t, w)
    ensures Answered(t + u, w)
  {
    var i :| 0 <= i < |t| && Answers(t[i], w);
    assert (t + u)[i] == t[i];
  }

  /** One more call, from queue pri. */
  lemma DrainedMore(p0: Pend, calls: seq<Call>, c: Call, script: seq<seq<Action>>, p1: Pend, p: Pend, pri: nat)
    requires Inv(p0) && Inv(p1) && Inv(p) && Drained(p0, calls, script, p1, pri + 1)
    requires p1.priority == p0.priority == p.priority && c.w in p0.priority && AbsPri(p0, c.w) == pri
    requires forall w :: w in Owed(p) ==> w in Owed(p1) || (|calls| < |script| && Feeds1(script[|calls|], w))
    ensures Drained(p0, calls + [c], script, p, pri + 1)
  {
    hide Answered, History, Feeds1, Owed;
    HistoryPush(calls, c, script);
    var t, calls1 := History(calls, script), calls + [c];
    var u := [Invoked(c.w, c.events)] + if |calls| < |script| then Acts(script[|calls|]) else [];
    assert History(calls1, script) == t + u;
    OwedKnown(p0);
    forall w | w in Owed(p0) && AbsPri(p0, w) >= pri + 1 ensures Answered(History(calls1, script), w) {
      AnsweredMore(t, u, w);
    }
    OwedKnown(p);
    forall w | w in Owed(p) && AbsPri(p, w) >= pri + 1 ensures FedBelow(p0, calls1, script, w) {
      if w in Owed(p1) {
        var k :| 0 <= k < |calls| && k < |script| && Feeds1(script[k], w) && Lower(p0, calls[k].w, w);
        assert calls1[k] == calls[k];
      } else {
        assert calls1[|calls|] == c && Lower(p0, c.w, w);
      }
    }
  }

  lemma OwedKnown(p: Pend)
    requires Inv(p)
    ensures forall w :: w in Owed(p) ==> w in p.pending && w in p.priority
  {
  }

  /** What is owed after a callback and was not before, it fed. */
  lemma {:induction false} CallbackFeeds(owed: map<nat, Events>, t: seq<Event>, actions: seq<Action>)
    ensures forall w :: w in After(owed, t + Acts(actions)) ==> w in After(owed, t) || Feeds1(actions, w)
    decreases |actions|
  {
    hide After, Or, Bits;
    if actions == [] {
      assert t + Acts(actions) == t;
    } else {
      var k := |actions| - 1;
      CallbackFeeds(owed, t, actions[..k]);
      assert t + Acts(actions) == (t + Acts(actions[..k])) + [Did(actions[k])];
      AfterPush(owed, t + Acts(actions[..k]), Did(actions[k]));
      forall w | w in After(owed, t + Acts(actions)) ensures w in After(owed, t) || Feeds1(actions, w) {
        if w in After(owed, t + Acts(actions[..k])) && w !in After(owed, t) {
          var a :| a in actions[..k] && a.Feed? && a.w == w;
          assert a in actions;
        } else if w !in After(owed, t + Acts(actions[..k])) {
          assert actions[k] in actions && actions[k].Feed? && actions[k].w == w;
        }
      }
    }
  }

  /** Who was owed something and is not any more was answered. */
  lemma {:induction false} GoneAnswered(owed: map<nat, Events>, t: seq<Event>, w: nat)
    requires w in owed && w !in After(owed, t)
    ensures Answered(t, w)
    decreases |t|
  {
    hide Or, Bits;
    if t != [] {
      var k := |t| - 1;
      if w in After(owed, t[..k]) {
        assert Answers(t[k], w);
      } else {
        GoneAnswered(owed, t[..k], w);
        AnsweredMore(t[..k], [t[k]], w);
        assert t == t[..k] + [t[k]];
      }
    }
  }

  /** The first answer to w, if it is a call, tells it what it was owed at the
      start together with all it was fed until then. */
  ghost predicate FirstAnswer(owed: map<nat, Events>, t: seq<Event>, i: nat, w: nat) {
    && i < |t| && Undisturbed(t, 0, i, w) && Answers(t[i], w)
    && (t[i].Invoked? ==> t[i].events == Or(Bits(owed, w), FedSince(t, 0, i, w)))
  }

  lemma AnsweredFirst(owed: map<nat, Events>, t: seq<Event>, w: nat) returns (i: nat)
    requires Legal(owed, t) && Answered(t, w)
    ensures FirstAnswer(owed, t, i, w)
  {
    hide After, Or, FedSince;
    var j :| 0 <= j < |t| && Answers(t[j], w);
    i := LeastAnswer(t, j, w);
    OwedSince(owed, t, 0, i, w);
    AfterNothing(owed, t[..0]);
    assert t[i].Invoked? ==> t[i].events == Bits(After(owed, t[..i]), w);
  }

  lemma AfterNothing(owed: map<nat, Events>, t: seq<Event>)
    requires t == []
    ensures After(owed, t) == owed
  {
  }

  lemma {:induction false} LeastAnswer(t: seq<Event>, i: nat, w: nat) returns (k: nat)
    requires i < |t| && Answers(t[i], w)
    ensures k <= i && Answers(t[k], w) && Undisturbed(t, 0, k, w)
    decreases i
  {
    k := i;
    if exists j :: 0 <= j < i && Answers(t[j], w) {
      var j :| 0 <= j < i && Answers(t[j], w);
      k := LeastAnswer(t, j, w);
    }
  }

  /** Queue pri is empty. */
  lemma QueueDrained(p0: Pend, calls: seq<Call>, script: seq<seq<Action>>, p: Pend, pri: nat)
    requires Inv(p0) && Inv(p) && p.priority == p0.priority && pri < NUMPRI && p.pendings[pri] == []
    requires Drained(p0, calls, script, p, pri + 1) && After(Owed(p0), History(calls, script)) == Owed(p)
    ensures Drained(p0, calls, script, p, pri)
  {
    hide Answered, History, FedBelow, Owed, After, Inv;
    OwedAbsPri(p0);
    OwedAbsPri(p);
    forall w | w in Owed(p) ensures AbsPri(p, w) != pri {
      StackOwed(p, pri, w);
    }
    forall w | w in Owed(p0) && AbsPri(p0, w) == pri ensures Answered(History(calls, script), w) {
      GoneAnswered(Owed(p0), History(calls, script), w);
    }
  }

  lemma OwedAbsPri(p: Pend)
    requires Inv(p)
    ensures |p.pendings| == NUMPRI && forall w :: w in Owed(p) ==> w in p.priority
  {
  }

  /** ev_invoke_pending, when the k-th callback that it runs does script[k].
      The dummy watcher's callback does nothing. */
  method InvokePending(p0: Pend, script: seq<seq<Action>>) returns (p: Pend, calls: seq<Call>)
    requires Inv(p0)
    requires forall actions, a :: actions in script && a in actions ==> a.w in p0.pending
    ensures Inv(p) && p.priority == p0.priority
    ensures Legal(Owed(p0), History(calls, script)) && After(Owed(p0), History(calls, script)) == Owed(p)
    ensures p.pendings[0] == [] && Downward(p0, calls)
    ensures forall w :: w in Owed(p0) ==> Answered(History(calls, script), w)
    ensures forall w :: w in Owed(p) ==> FedBelow(p0, calls, script, w)
    ensures InTurn(p0, calls, script)
    ensures script == [] ==> Who(calls) == Order(Stacks(p0)) && forall q :: 0 <= q < NUMPRI ==> p.pendings[q] == []
  {
    hide Owed, Bits, Live, Inv, Order, Reverse, Legal, After, History, Above, Disturbed, KeptOrder, InTurn, Downward,
         Drained, Answered, FedBelow;
    p, calls := p0, [];
    ghost var owed := Owed(p0);
    InvShape(p0);
    var pri: nat := NUMPRI;
    OrderStart(p0, script);
    DownwardNone(p0);
    DrainedNone(p0, script);
    while pri > 0
      invariant pri <= NUMPRI
      invariant Inv(p) && p.priority == p0.priority && p.pending.Keys == p0.pending.Keys
      invariant Legal(owed, History(calls, script)) && After(owed, History(calls, script)) == Owed(p)
      invariant pri < NUMPRI ==> |p.pendings| == NUMPRI && p.pendings[pri] == []
      invariant KeptOrder(p0, History(calls, script), p) && InTurn(p0, calls, script)
      invariant Downward(p0, calls) && NotBelow(p0, calls, pri) && Drained(p0, calls, script, p, pri)
      invariant script == [] ==> Who(calls) + Order(Stacks(p)[..pri]) == Order(Stacks(p0))
      invariant script == [] ==> |p.pendings| == NUMPRI && forall q :: pri <= q < NUMPRI ==> p.pendings[q] == []
    {
      pri := pri - 1;
      InvShape(p);
      NotBelowLess(p0, calls, pri);
      OrderTop(p, pri);
      while p.pendings[pri] != []
        invariant Inv(p) && p.priority == p0.priority && p.pending.Keys == p0.pending.Keys
        invariant |p.pendings| == NUMPRI
        invariant Legal(owed, History(calls, script)) && After(owed, History(calls, script)) == Owed(p)
        invariant KeptOrder(p0, History(calls, script), p) && InTurn(p0, calls, script)
        invariant Downward(p0, calls) && NotBelow(p0, calls, pri) && Drained(p0, calls, script, p, pri + 1)
        invariant script == [] ==>
                    Who(calls) + (Reverse(Stack(p, pri)) + Order(Stacks(p)[..pri])) == Order(Stacks(p0))
        invariant script == [] ==> forall q :: pri < q < NUMPRI ==> p.pendings[q] == []
        decreases if |calls| < |script| then |script| - |calls| else 0, |p.pendings[pri]|
      {
        var slot;
        ghost var p1, t := p, History(calls, script);
        p, slot := Pop(p, pri);
        InvShape(p);
        assert Stacks(p)[..pri] == Stacks(p1)[..pri];
        if slot.w.Watcher? {
          ghost var e := Invoked(slot.w.id, slot.events);
          AfterPush(owed, t, e);
          LegalPush(owed, t, e);
          ReversePush(Stack(p, pri), slot.w.id);
          Regroup(Who(calls), slot.w.id, Reverse(Stack(p, pri)), Order(Stacks(p)[..pri]));
          TurnStep(p0, calls, Call(slot.w.id, slot.events), script, p1);
          KeptPop(p0, t, p1, e, p);
          DownwardMore(p0, calls, Call(slot.w.id, slot.events), pri);
          HistoryPush(calls, Call(slot.w.id, slot.events), script);
          assert Who(calls + [Call(slot.w.id, slot.events)]) == Who(calls) + [slot.w.id];
          assert t + [e] + [] == t + [e];
          if |calls| < |script| {
            p := Callback(p, script[|calls|], p0, owed, t + [e]);
            InvShape(p);
            CallbackFeeds(owed, t + [e], script[|calls|]);
          } else {
            assert t + [e] == History(calls + [Call(slot.w.id, slot.events)], script);
          }
          DrainedMore(p0, calls, Call(slot.w.id, slot.events), script, p1, p, pri);
          calls := calls + [Call(slot.w.id, slot.events)];
        } else {
          KeptSame(p0, t, p1, p);
          DrainedSame(p0, calls, script, p1, p, pri + 1);
        }
      }
      OrderEmpty(p, pri);
      QueueDrained(p0, calls, script, p, pri);
    }
    OrderEnd(p, calls);
    AllDrained(p0, calls, script, p);
  }

  /** The feeding of each of `ws` in turn. */
  ghost function Feeds(ws: seq<nat>, revents: Events): seq<Event> {
    seq(|ws|, i requires 0 <= i < |ws| => Did(Feed(ws[i], revents)))
  }

  /** Those of `ws` that have priority queue q. */
  ghost function OfQueue(p: Pend, ws: seq<nat>, q: nat): seq<nat>
    requires forall w :: w in ws ==> w in p.priority
  {
    if ws == [] then []
    else OfQueue(p, ws[..|ws| - 1], q) + if AbsPri(p, ws[|ws| - 1]) == q then [ws[|ws| - 1]] else []
  }

  ghost predicate AllFresh(p: Pend, ws: seq<nat>)
    requires Inv(p)
  {
    && (forall w :: w in ws ==> w !in Owed(p))
    && (forall i, j :: 0 <= i < j < |ws| ==> ws[i] != ws[j])
  }

  lemma {:induction false} ReverseFirst(s: seq<nat>)
    requires s != []
    ensures Reverse(s) == Reverse(s[1..]) + [s[0]]
  {
    if |s| > 1 {
      var r := s[..|s| - 1];
      ReverseFirst(r);
      assert r[1..] == s[1..][..|s| - 2];
      assert Reverse(s[1..]) == [s[|s| - 1]] + Reverse(r[1..]);
    }
  }

  lemma {:induction false} ReverseIn(s: seq<nat>, w: nat)
    ensures w in Reverse(s) <==> w in s
  {
    if s != [] {
      ReverseIn(s[..|s| - 1], w);
      assert s == s[..|s| - 1] + [s[|s| - 1]];
    }
  }

  lemma {:induction false} FedKeys(owed: map<nat, Events>, ws: seq<nat>, revents: Events, w: nat)
    ensures w in After(owed, Feeds(ws, revents)) <==> w in owed || w in ws
  {
    if ws != [] {
      var r := ws[..|ws| - 1];
      FedKeys(owed, r, revents, w);
      assert ws == r + [ws[|ws| - 1]];
      assert Feeds(ws, revents) == Feeds(r, revents) + [Did(Feed(ws[|ws| - 1], revents))];
      AfterPush(owed, Feeds(r, revents), Did(Feed(ws[|ws| - 1], revents)));
    }
  }

  lemma OfQueuePush(p: Pend, ws: seq<nat>, w: nat, q: nat)
    requires forall x :: x in ws ==> x in p.priority
    requires w in p.priority
    ensures OfQueue(p, ws + [w], q) == OfQueue(p, ws, q) + if AbsPri(p, w) == q then [w] else []
  {
    assert (ws + [w])[..|ws|] == ws;
  }

  lemma {:induction false} OfQueueSame(p: Pend, p1: Pend, ws: seq<nat>, q: nat)
    requires p.priority == p1.priority && forall w :: w in ws ==> w in p.priority
    ensures OfQueue(p, ws, q) == OfQueue(p1, ws, q)
  {
    if ws != [] {
      OfQueueSame(p, p1, ws[..|ws| - 1], q);
    }
  }

  /** Of two with the same priority, the one noted earlier is on top. */
  ghost predicate EarlierAbove(p: Pend, ws: seq<nat>) {
    forall i, j :: 0 <= i < j < |ws| ==>
      ws[i] in p.priority && ws[j] in p.priority && (p.priority[ws[i]] == p.priority[ws[j]] ==> Above(p, ws[i], ws[j]))
  }

  lemma AboveLate(p0: Pend, fed: seq<nat>, late: seq<nat>, revents: Events, p1: Pend, w: nat, p: Pend)
    requires Inv(p0) && Inv(p1) && p1.priority == p0.priority && p.priority == p0.priority
    requires fed == Reverse(late) && Owed(p1) == After(Owed(p0), Feeds(fed, revents))
    requires forall x :: x in fed ==> x in p0.priority
    requires w in p0.priority && EarlierAbove(p1, late)
    requires forall x, y :: Above(p1, x, y) ==> Above(p, x, y)
    requires forall y :: y in Owed(p1) && p1.priority[y] == p1.priority[w] ==> Above(p, w, y)
    ensures EarlierAbove(p, [w] + late)
  {
    hide Above, Owed, After, Reverse;
    forall j | 0 <= j < |late|
      ensures late[j] in p.priority && (p.priority[w] == p.priority[late[j]] ==> Above(p, w, late[j]))
    {
      ReverseIn(late, late[j]);
      FedKeys(Owed(p0), fed, revents, late[j]);
    }
    forall i, j | 0 <= i < j < |[w] + late|
      ensures ([w] + late)[i] in p.priority && ([w] + late)[j] in p.priority
      ensures p.priority[([w] + late)[i]] == p.priority[([w] + late)[j]] ==> Above(p, ([w] + late)[i], ([w] + late)[j])
    {
      assert ([w] + late)[j] == late[j - 1];
      if i > 0 {
        assert ([w] + late)[i] == late[i - 1];
      }
    }
  }

  /** feed_reverse_done: the last one noted is fed first. */
  method FeedReverseDone(p0: Pend, rfeeds: seq<nat>, revents: Events) returns (p: Pend)
    requires Inv(p0) && rfeeds != [] && forall w :: w in rfeeds ==> w in p0.pending
    ensures Inv(p) && p.priority == p0.priority
    ensures Owed(p) == After(Owed(p0), Feeds(Reverse(rfeeds), revents))
    ensures forall w :: w in Reverse(rfeeds) ==> w in p0.priority
    ensures AllFresh(p0, rfeeds) ==>
              forall q :: 0 <= q < NUMPRI ==> Stack(p, q) == Stack(p0, q) + OfQueue(p0, Reverse(rfeeds), q)
    ensures AllFresh(p0, rfeeds) ==> EarlierAbove(p, rfeeds)
  {
    hide Above, Owed, Live, After, Reverse, OfQueue, Bits, Or, Inv;
    p := p0;
    InvShape(p);
    var rfeedcnt := |rfeeds|;
    ghost var fed: seq<nat> := [];
    assert rfeeds[rfeedcnt..] == [];
    NothingFed(p0, revents);
    while true
      invariant 0 < rfeedcnt <= |rfeeds|
      invariant Inv(p) && p.priority == p0.priority && p.pending.Keys == p.priority.Keys
      invariant fed == Reverse(rfeeds[rfeedcnt..])
      invariant forall w :: w in fed ==> w in p0.priority
      invariant Owed(p) == After(Owed(p0), Feeds(fed, revents))
      invariant |p.pendings| == |p0.pendings| == NUMPRI
      invariant AllFresh(p0, rfeeds) ==>
                  forall q :: 0 <= q < NUMPRI ==> Stack(p, q) == Stack(p0, q) + OfQueue(p0, fed, q)
      invariant AllFresh(p0, rfeeds) ==> EarlierAbove(p, rfeeds[rfeedcnt..])
      decreases rfeedcnt
    {
      rfeedcnt := rfeedcnt - 1;
      ghost var p1, w, late := p, rfeeds[rfeedcnt], rfeeds[rfeedcnt + 1..];
      p := FeedEvent(p, rfeeds[rfeedcnt], revents);
      InvShape(p);
      assert rfeeds[rfeedcnt..][1..] == late;
      ReverseFirst(rfeeds[rfeedcnt..]);
      assert Feeds(fed + [w], revents) == Feeds(fed, revents) + [Did(Feed(w, revents))];
      AfterPush(Owed(p0), Feeds(fed, revents), Did(Feed(w, revents)));
      if AllFresh(p0, rfeeds) {
        FedKeys(Owed(p0), fed, revents, w);
        ReverseIn(late, w);
        AboveLate(p0, fed, late, revents, p1, w, p);
        assert rfeeds[rfeedcnt..] == [w] + late;
        forall q | 0 <= q < NUMPRI
          ensures Stack(p, q) == Stack(p0, q) + OfQueue(p0, fed + [w], q)
        {
          OfQueuePush(p0, fed, w, q);
        }
      }
      fed := fed + [w];
      if rfeedcnt == 0 {
        break;
      }
    }
    assert rfeeds[0..] == rfeeds;
  }

  lemma NothingFed(p: Pend, revents: Events)
    requires Inv(p)
    ensures Owed(p) == After(Owed(p), Feeds([], revents))
    ensures forall q :: 0 <= q < NUMPRI ==> Stack(p, q) == Stack(p, q) + OfQueue(p, [], q)
    ensures Reverse([]) == []
  {
  }

  /** With empty queues, nobody is owed anything. */
  lemma AllTold(p: Pend)
    requires Inv(p) && forall q :: 0 <= q < NUMPRI ==> p.pendings[q] == []
    ensures Owed(p) == map[]
  {
    forall w | w in p.pending ensures w !in Owed(p) {
      assert Held(p, w);
    }
  }

  /** Who was fed is owed at least that. */
  lemma {:induction false} FedOwed(owed: map<nat, Events>, ws: seq<nat>, revents: Events, w: nat)
    requires w in ws
    ensures w in After(owed, Feeds(ws, revents)) && Includes(After(owed, Feeds(ws, revents))[w], revents)
    decreases |ws|
  {
    hide After, Or, Includes;
    var k := |ws| - 1;
    var owed1 := After(owed, Feeds(ws[..k], revents));
    assert Feeds(ws, revents) == Feeds(ws[..k], revents) + [Did(Feed(ws[k], revents))];
    AfterPush(owed, Feeds(ws[..k], revents), Did(Feed(ws[k], revents)));
    OrKeeps(Bits(owed1, ws[k]), revents, revents);
    if w != ws[k] {
      FedOwed(owed, ws[..k], revents, w);
    }
  }
}
