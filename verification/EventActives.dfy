/** The active events of a libevent event base: one queue per priority, the
    priority that is running, and whether something more urgent turned up. */
module EventActives {
  import opened Lists

  /** EVLIST_ACTIVE, whether ev_res holds EV_TIMEOUT, and ev_pri of every event;
      activequeues, event_running_priority, event_continue and
      event_count_active of the base. */
  datatype Actives = Actives(
    on: map<nat, bool>,
    late: map<nat, bool>,
    pri: map<nat, nat>,
    queues: seq<seq<nat>>,
    running: int,
    cont: bool,
    count: int)

  ghost predicate Keys(a: Actives) {
    a.on.Keys == a.late.Keys == a.pri.Keys
  }

  ghost predicate QueueOk(a: Actives, q: nat)
    requires Keys(a) && q < |a.queues|
  {
    && Distinct(a.queues[q])
    && forall e :: e in a.queues[q] ==> e in a.on && a.on[e] && a.pri[e] == q
  }

  ghost predicate Placed(a: Actives, e: nat)
    requires Keys(a) && e in a.on
  {
    a.pri[e] < |a.queues| && (a.on[e] ==> e in a.queues[a.pri[e]])
  }

  ghost function On(on: map<nat, bool>): set<nat> {
    set e | e in on && on[e]
  }

  ghost predicate Inv(a: Actives) {
    && Keys(a)
    && (forall e :: e in a.on ==> Placed(a, e))
    && (forall q :: 0 <= q < |a.queues| ==> QueueOk(a, q))
    && a.count == |On(a.on)|
  }

  /** Unless told to look again, nothing more urgent than what runs is active. */
  ghost predicate Urgent(a: Actives) {
    !a.cont ==> forall q :: 0 <= q < |a.queues| && q < a.running ==> a.queues[q] == []
  }

  lemma OnOff(on: map<nat, bool>, e: nat)
    requires e in on && on[e]
    ensures On(on[e := false]) == On(on) - {e} && |On(on[e := false])| == |On(on)| - 1
  {
    assert On(on[e := false]) == On(on) - {e};
  }

  lemma OffOn(on: map<nat, bool>, e: nat)
    requires e in on && !on[e]
    ensures On(on[e := true]) == On(on) + {e} && |On(on[e := true])| == |On(on)| + 1
  {
    assert On(on[e := true]) == On(on) + {e};
  }

  /** event_queue_remove for EVLIST_ACTIVE */
  method Remove(a0: Actives, e: nat) returns (a: Actives)
    requires Inv(a0) && e in a0.on && a0.on[e]
    ensures Inv(a) && Keys(a) && a.on == a0.on[e := false] && a.late == a0.late && a.pri == a0.pri
    ensures a.running == a0.running && a.cont == a0.cont && (Urgent(a0) ==> Urgent(a))
    ensures |a.queues| == |a0.queues|
    ensures forall q :: 0 <= q < |a.queues| ==>
      a.queues[q] == if q == a0.pri[e] then Less(a0.queues[q], e) else a0.queues[q]
  {
    hide Less, Distinct, On;
    assert Placed(a0, e) && QueueOk(a0, a0.pri[e]);
    a := a0.(count := a0.count - 1);
    a := a.(on := a.on[e := false]);
    var pri := a.pri[e];
    var queue := TailqRemove(a.queues[pri], e);
    a := a.(queues := a.queues[pri := queue]);
    LessIn(a0.queues[pri], e);
    LessNone(e);
    OnOff(a0.on, e);
    Requeued(a0, e, false, a);
  }

  lemma LessNone(e: nat)
    ensures Less([], e) == []
  {
  }

  /** One event went onto its queue or off it. */
  ghost predicate Requeue(a0: Actives, e: nat, v: bool, a: Actives) {
    && Inv(a0) && e in a0.on && a.on == a0.on[e := v] && a.pri == a0.pri && a.late.Keys == a0.late.Keys
    && |a.queues| == |a0.queues| && a0.pri[e] < |a.queues|
    && (forall q :: 0 <= q < |a.queues| && q != a0.pri[e] ==> a.queues[q] == a0.queues[q])
    && Distinct(a.queues[a0.pri[e]])
    && (forall x :: x in a.queues[a0.pri[e]] <==> (x in a0.queues[a0.pri[e]] && x != e) || (x == e && v))
  }

  lemma RequeueQueue(a0: Actives, e: nat, v: bool, a: Actives, q: nat)
    requires Requeue(a0, e, v, a) && q < |a.queues|
    ensures QueueOk(a, q)
  {
    hide Distinct;
    assert QueueOk(a0, q);
  }

  lemma RequeuePlaced(a0: Actives, e: nat, v: bool, a: Actives, x: nat)
    requires Requeue(a0, e, v, a) && x in a.on
    ensures Placed(a, x)
  {
    hide Distinct;
    assert Placed(a0, x);
  }

  lemma Requeued(a0: Actives, e: nat, v: bool, a: Actives)
    requires Requeue(a0, e, v, a) && a.count == |On(a.on)|
    ensures Inv(a)
  {
    hide Distinct, QueueOk, Placed, On;
    assert Keys(a);
    forall q | 0 <= q < |a.queues| ensures QueueOk(a, q) {
      RequeueQueue(a0, e, v, a, q);
    }
    forall x | x in a.on ensures Placed(a, x) {
      RequeuePlaced(a0, e, v, a, x);
    }
  }

  /** event_active_nolock: an event that is active already only gains a reason. */
  method Activate(a0: Actives, e: nat, late: bool) returns (a: Actives)
    requires Inv(a0) && e in a0.on
    ensures Inv(a) && Keys(a) && a.on == a0.on[e := true] && a.pri == a0.pri && a.running == a0.running
    ensures a.late == a0.late[e := late || (a0.on[e] && a0.late[e])]
    ensures Urgent(a0) ==> Urgent(a)
    ensures |a.queues| == |a0.queues| && a0.pri[e] < |a0.queues|
    ensures a0.on[e] ==> a.queues == a0.queues && a.cont == a0.cont
    ensures !a0.on[e] ==>
      a.queues == a0.queues[a0.pri[e] := a0.queues[a0.pri[e]] + [e]] && a.cont == (a0.cont || a0.pri[e] < a0.running)
  {
    hide Distinct, On;
    assert Placed(a0, e) && QueueOk(a0, a0.pri[e]);
    a := a0;
    if a.on[e] {
      a := a.(late := a.late[e := a.late[e] || late]);
      Marked(a0, e, a);
    } else {
      a := a.(late := a.late[e := late]);
      if a.pri[e] < a.running {
        a := a.(cont := true);
      }
      a := a.(count := a.count + 1);
      a := a.(on := a.on[e := true]);
      a := a.(queues := a.queues[a.pri[e] := a.queues[a.pri[e]] + [e]]);
      OffOn(a0.on, e);
      DistinctPush(a0.queues[a0.pri[e]], e);
      Requeued(a0, e, true, a);
    }
  }

  /** Another reason to be active. */
  lemma Marked(a0: Actives, e: nat, a: Actives)
    requires Inv(a0) && e in a0.on && a0.on[e] && e in a.late && a == a0.(late := a0.late[e := a.late[e]])
    ensures Inv(a) && a.on == a0.on[e := true]
  {
    forall q | 0 <= q < |a.queues| ensures QueueOk(a, q) {
      assert QueueOk(a0, q);
    }
    forall x | x in a.on ensures Placed(a, x) {
      assert Placed(a0, x);
    }
  }

  lemma DistinctPush(s: seq<nat>, e: nat)
    requires Distinct(s) && e !in s
    ensures Distinct(s + [e]) && forall x :: x in s + [e] <==> x in s || x == e
  {
  }

  // What happens to the queues, step by step.

  /** An event becomes active, by a timeout or otherwise, at the end of its queue
      unless it is there; an event leaves; or a timeout is set for an event, unless
      that fails: the event leaves if a timeout made it active, as the timeout event
      of its common queue may. */
  datatype Move = Comes(e: nat, late: bool) | Leaves(e: nat) | Retimed(e: nat, sure: bool, common: int)

  /** The events of a queue that are still active, in their order. */
  ghost function Kept(q: seq<nat>, on: map<nat, bool>): seq<nat> {
    if q == [] then []
    else (if q[0] in on && on[q[0]] then [q[0]] else []) + Kept(q[1..], on)
  }

  ghost predicate Moved(a0: Actives, m: Move, timers: seq<nat>, a: Actives) {
    && a.pri == a0.pri && a.on.Keys == a0.on.Keys && |a.queues| == |a0.queues|
    && m.e in a0.on && m.e in a0.pri && OnMoved(a0.on, a0.late, m, timers, a.on, a.late)
    && forall p :: 0 <= p < |a.queues| ==> a.queues[p] == Kept(a0.queues[p], a.on) + Arrived(a0, m, p)
  }

  ghost predicate OnMoved(on0: map<nat, bool>, late0: map<nat, bool>, m: Move, timers: seq<nat>, on: map<nat, bool>,
      late: map<nat, bool>) {
    match m
    case Comes(e, l) => on == on0[e := true] && late == late0[e := l || (Has(on0, e) && Has(late0, e))]
    case Leaves(e) => on == on0[e := false] && late == late0
    case Retimed(e, sure, common) =>
      && late == late0 && (sure && Has(late0, e) ==> !Has(on, e))
      && forall x :: x in on ==>
           x in on0 && (on[x] ==> on0[x]) && (on0[x] && !on[x] ==> (x == e || Stands(timers, common, x)) && Has(late0, x))
  }

  /** x is the timeout event of this common queue. */
  predicate Stands(timers: seq<nat>, common: int, x: nat) {
    0 <= common < |timers| && timers[common] == x
  }

  predicate Has(m: map<nat, bool>, x: nat) {
    x in m && m[x]
  }

  ghost function Arrived(a0: Actives, m: Move, p: nat): seq<nat>
    requires m.e in a0.on && m.e in a0.pri
  {
    if m.Comes? && !a0.on[m.e] && a0.pri[m.e] == p then [m.e] else []
  }

  /** One move after the other. */
  ghost predicate Moves(a0: Actives, ms: seq<Move>, timers: seq<nat>, a: Actives)
    decreases |ms|
  {
    if ms == [] then SameQueues(a0, a)
    else
      var before, last := ms[..|ms| - 1], ms[|ms| - 1];
      exists a1 :: Moves(a0, before, timers, a1) && Moved(a1, last, timers, a)
  }

  predicate SameQueues(a0: Actives, a: Actives) {
    a.on == a0.on && a.late == a0.late && a.pri == a0.pri && a.queues == a0.queues
  }

  lemma MovesMore(a0: Actives, ms: seq<Move>, timers: seq<nat>, a1: Actives, m: Move, a: Actives)
    requires Moves(a0, ms, timers, a1) && Moved(a1, m, timers, a)
    ensures Moves(a0, ms + [m], timers, a)
  {
    assert (ms + [m])[..|ms|] == ms;
  }

  lemma MovesOne(a0: Actives, m: Move, timers: seq<nat>, a: Actives)
    requires Moved(a0, m, timers, a)
    ensures Moves(a0, [m], timers, a)
  {
    hide Moved;
    assert Moves(a0, [], timers, a0);
    MovesMore(a0, [], timers, a0, m, a);
    assert [] + [m] == [m];
  }

  lemma {:induction false} MovesJoin(a0: Actives, ms: seq<Move>, timers: seq<nat>, a1: Actives, ns: seq<Move>,
      a: Actives)
    requires Moves(a0, ms, timers, a1) && Moves(a1, ns, timers, a)
    ensures Moves(a0, ms + ns, timers, a)
    decreases |ns|
  {
    hide Moved;
    if ns == [] {
      assert ms + ns == ms;
      MovesSame(a0, a0, ms, timers, a1, a);
    } else {
      var k := |ns| - 1;
      var a2 :| Moves(a1, ns[..k], timers, a2) && Moved(a2, ns[k], timers, a);
      MovesJoin(a0, ms, timers, a1, ns[..k], a2);
      MovesMore(a0, ms + ns[..k], timers, a2, ns[k], a);
      assert ms + ns == (ms + ns[..k]) + [ns[k]];
    }
  }

  /** Only the queues and the events on them matter. */
  lemma {:induction false} MovesSame(a0: Actives, b0: Actives, ms: seq<Move>, timers: seq<nat>, a: Actives, b: Actives)
    requires Moves(a0, ms, timers, a) && SameQueues(a0, b0) && SameQueues(a, b)
    ensures Moves(b0, ms, timers, b)
    decreases |ms|
  {
    hide Kept, OnMoved;
    if ms != [] {
      var k := |ms| - 1;
      var a1 :| Moves(a0, ms[..k], timers, a1) && Moved(a1, ms[k], timers, a);
      MovesSame(a0, b0, ms[..k], timers, a1, a1);
      assert Moved(a1, ms[k], timers, b);
    }
  }

  lemma {:induction false} KeptAll(q: seq<nat>, on: map<nat, bool>)
    requires forall x :: x in q ==> x in on && on[x]
    ensures Kept(q, on) == q
  {
    if q != [] {
      KeptAll(q[1..], on);
    }
  }

  lemma {:induction false} KeptLess(q: seq<nat>, on: map<nat, bool>, e: nat)
    requires Distinct(q) && forall x :: x in q ==> x in on && (on[x] <==> x != e)
    ensures Kept(q, on) == Less(q, e)
  {
    if q != [] {
      assert q == [q[0]] + q[1..];
      assert Distinct(q[1..]);
      if q[0] == e {
        assert e !in q[1..];
        KeptAll(q[1..], on);
      } else {
        KeptLess(q[1..], on, e);
      }
    }
  }

  lemma {:induction false} KeptTwice(q: seq<nat>, on1: map<nat, bool>, on: map<nat, bool>)
    requires forall x :: x in on && on[x] ==> x in on1 && on1[x]
    ensures Kept(Kept(q, on1), on) == Kept(q, on)
  {
    if q != [] {
      KeptTwice(q[1..], on1, on);
      assert ([q[0]] + Kept(q[1..], on1))[1..] == Kept(q[1..], on1);
      assert [] + Kept(q[1..], on1) == Kept(q[1..], on1);
      assert [] + Kept(q[1..], on) == Kept(q[1..], on);
    }
  }

  lemma QueueOn(a: Actives, p: nat)
    requires Inv(a) && p < |a.queues|
    ensures Distinct(a.queues[p]) && forall x :: x in a.queues[p] ==>
      x in a.on && a.on[x] && x in a.pri && a.pri[x] == p
  {
    assert QueueOk(a, p);
  }

  lemma ComesIs(a0: Actives, e: nat, late: bool, timers: seq<nat>, a: Actives)
    requires Inv(a0) && e in a0.on && a.on == a0.on[e := true] && a.pri == a0.pri && |a.queues| == |a0.queues|
    requires e in a0.late && a.late == a0.late[e := late || (a0.on[e] && a0.late[e])]
    requires a0.on[e] ==> a.queues == a0.queues
    requires !a0.on[e] ==> a0.pri[e] < |a0.queues| && a.queues == a0.queues[a0.pri[e] := a0.queues[a0.pri[e]] + [e]]
    ensures Moved(a0, Comes(e, late), timers, a)
  {
    hide Distinct;
    forall p | 0 <= p < |a.queues| ensures a.queues[p] == Kept(a0.queues[p], a.on) + Arrived(a0, Comes(e, late), p) {
      QueueOn(a0, p);
      KeptAll(a0.queues[p], a.on);
    }
  }

  lemma LeavesIs(a0: Actives, e: nat, timers: seq<nat>, a: Actives)
    requires Inv(a0) && e in a0.on && a.on == a0.on[e := false] && a.late == a0.late && a.pri == a0.pri
    requires |a.queues| == |a0.queues|
    requires forall p :: 0 <= p < |a.queues| ==>
               a.queues[p] == if a0.on[e] && p == a0.pri[e] then Less(a0.queues[p], e) else a0.queues[p]
    ensures Moved(a0, Leaves(e), timers, a)
  {
    hide Distinct, Less;
    forall p | 0 <= p < |a.queues| ensures a.queues[p] == Kept(a0.queues[p], a.on) + Arrived(a0, Leaves(e), p) {
      QueueOn(a0, p);
      if a0.on[e] && p == a0.pri[e] {
        KeptLess(a0.queues[p], a.on, e);
      } else {
        KeptAll(a0.queues[p], a.on);
      }
    }
  }

  /** Leaving, if a timeout made it active, is what happens to an event for which
      a timeout is set. */
  lemma RetimedIs(a0: Actives, e: nat, sure: bool, common: int, timers: seq<nat>, a: Actives)
    requires Inv(a0) && e in a0.on && e in a0.late
    requires if a0.on[e] && a0.late[e] then Moved(a0, Leaves(e), timers, a) || (!sure && SameQueues(a0, a))
      else SameQueues(a0, a)
    ensures Moved(a0, Retimed(e, sure, common), timers, a)
  {
    hide Distinct;
    if SameQueues(a0, a) {
      forall p | 0 <= p < |a.queues| ensures a.queues[p] == Kept(a0.queues[p], a.on) + Arrived(a0, Retimed(e, sure, common), p) {
        QueueOn(a0, p);
        KeptAll(a0.queues[p], a.on);
      }
    }
  }

  lemma RetimedToo(a0: Actives, m: Move, n: Move, timers: seq<nat>, a1: Actives, a: Actives)
    requires Moved(a0, m, timers, a1) && Moved(a1, n, timers, a) && m.Retimed? && n.Retimed?
    requires (n.e == m.e && n.common == m.common) || (Stands(timers, m.common, n.e) && n.common == -1)
    ensures Moved(a0, m.(sure := m.sure || (n.e == m.e && n.sure)), timers, a)
  {
    var m1 := m.(sure := m.sure || (n.e == m.e && n.sure));
    forall p | 0 <= p < |a.queues| ensures a.queues[p] == Kept(a0.queues[p], a.on) + Arrived(a0, m1, p) {
      KeptTwice(a0.queues[p], a1.on, a.on);
      assert a1.queues[p] == Kept(a0.queues[p], a1.on);
    }
  }

  /** What becomes of the event itself, and of those that are no timeout events. */
  lemma RetimedOn(a0: Actives, m: Move, timers: seq<nat>, a: Actives)
    requires Moved(a0, m, timers, a) && m.Retimed?
    ensures a.late == a0.late && a.on.Keys == a0.on.Keys && m.e in a.on
    ensures m.sure && m.e in a0.late ==> a.on[m.e] == (a0.on[m.e] && !a0.late[m.e])
  {
    hide Kept, Arrived;
  }

  /** Saying less about it. */
  lemma RetimedLess(a0: Actives, m: Move, n: Move, timers: seq<nat>, a: Actives)
    requires Moved(a0, m, timers, a) && m.Retimed? && n.Retimed? && n.e == m.e
    requires (n.sure ==> m.sure) && (m.common == n.common || m.common == -1)
    ensures Moved(a0, n, timers, a)
  {
    hide Kept;
  }

  /** Events that are activated one after the other, each taken off first. */
  ghost function Fires(q: seq<nat>): seq<Move> {
    if q == [] then [] else Fires(q[..|q| - 1]) + [Leaves(q[|q| - 1]), Comes(q[|q| - 1], true)]
  }

  lemma FiresOne(a0: Actives, e: nat, timers: seq<nat>, a1: Actives, a: Actives)
    requires Moved(a0, Leaves(e), timers, a1) && Moved(a1, Comes(e, true), timers, a)
    ensures Moves(a0, Fires([e]), timers, a)
  {
    hide Moved;
    MovesOne(a0, Leaves(e), timers, a1);
    MovesMore(a0, [Leaves(e)], timers, a1, Comes(e, true), a);
    assert [][..0] + [e] == [e];
    FiresMore([], e);
    assert [Leaves(e)] + [Comes(e, true)] == [] + [Leaves(e), Comes(e, true)];
  }

  lemma FiresMore(q: seq<nat>, e: nat)
    ensures Fires(q + [e]) == Fires(q) + [Leaves(e), Comes(e, true)]
  {
    assert (q + [e])[..|q|] == q;
  }

  lemma FiresThen(a0: Actives, q: seq<nat>, timers: seq<nat>, a1: Actives, e: nat, a: Actives)
    requires Moves(a0, Fires(q), timers, a1) && Moves(a1, Fires([e]), timers, a)
    ensures Moves(a0, Fires(q + [e]), timers, a)
  {
    hide Moves;
    MovesJoin(a0, Fires(q), timers, a1, Fires([e]), a);
    FiresMore(q, e);
    assert [] + [e] == [e];
    FiresMore([], e);
    assert Fires([]) + [Leaves(e), Comes(e, true)] == [Leaves(e), Comes(e, true)];
  }
}
