/** One turn of libevent's event loop: how long to wait, correcting the clock,
    and running what is active. */
module EventLoop {
  import opened Lists
  import opened EventBase
  import opened Options
  import T = EventTimes
  import A = EventActives

  /** timeout_next: how long the heap allows to wait; None if there is no
      timeout in it. */
  method TimeoutNext(b: Base, now: int) returns (wait: Option<int>)
    requires Inv(b)
    ensures wait.None? <==> b.times.heap == {}
    ensures wait.Some? ==> wait.value >= 0
    ensures wait.Some? ==>
      exists e :: e in b.times.heap && e in b.times.at &&
                  wait.value == if b.times.at[e] <= now then 0 else b.times.at[e] - now
    ensures b.acts.count == 0 && b.serving == -1 ==> NotOverslept(b, now, wait)
  {
    hide Shape, T.Inv, A.Inv, InsertedOk, A.Urgent, Distinct, AllAwake, NotOverslept;
    HeapKnown(b);
    if b.times.heap == {} {
      wait := None;
      if b.acts.count == 0 && b.serving == -1 {
        NothingPending(b, now);
      }
      return;
    }
    ghost var top := T.TopExists(b.times, b.times.heap);
    var e :| e in b.times.heap && forall x :: x in b.times.heap ==> b.times.at[e] <= b.times.at[x];
    wait := Some(if b.times.at[e] <= now then 0 else b.times.at[e] - now);
    if b.acts.count == 0 && b.serving == -1 {
      TopBounds(b, e, now, wait);
    }
  }

  /** Waiting so long does not go past the time at which any pending event is
      due; without a bound, no event is pending. */
  ghost predicate NotOverslept(b: Base, now: int, wait: Option<int>)
    requires T.Keys(b.times)
  {
    forall e :: e in T.Due(b.times) ==> wait.Some? && (now + wait.value <= T.Due(b.times)[e] || wait.value == 0)
  }

  /** With nothing active, whatever is due has a herald in the heap. */
  lemma Herald(b: Base, e: nat) returns (h: nat)
    requires Inv(b) && b.acts.count == 0 && b.serving == -1 && e in T.Due(b.times)
    ensures h in b.times.heap && h in b.times.at && b.times.at[h] <= T.Due(b.times)[e]
  {
    hide A.Inv, InsertedOk, A.Urgent, Distinct, Counted, Awake;
    assert T.Placed(b.times, e);
    var c := b.times.common[e];
    if T.IsCommon(b.times, c) {
      h := b.timers[c];
      Queue(b, c);
      HeraldAwake(b, c, e);
    } else {
      h := e;
    }
  }

  lemma HeraldAwake(b: Base, c: nat, e: nat)
    requires Inv(b) && b.acts.count == 0 && b.serving == -1 && c < |b.times.queues| && e in b.times.queues[c]
    ensures c < |b.timers| && b.timers[c] in b.times.heap && b.timers[c] in b.times.at && e in b.times.at
    ensures b.times.at[b.timers[c]] <= b.times.at[e]
  {
    hide InsertedOk, A.Urgent, Distinct, Counted, A.On, A.Placed, A.QueueOk;
    assert TimerOk(b, c) && Awake(b, c);
    NoneActive(b, b.timers[c]);
    assert T.QueueOk(b.times, c);
    T.FirstNotAfter(b.times.at, b.times.queues[c], e);
    assert T.Placed(b.times, b.timers[c]);
  }

  lemma NoneActive(b: Base, e: nat)
    requires A.Inv(b.acts) && b.acts.count == 0 && e in b.acts.on
    ensures !b.acts.on[e]
  {
    assert e !in A.On(b.acts.on);
  }

  lemma NothingPending(b: Base, now: int)
    requires Inv(b) && b.acts.count == 0 && b.serving == -1 && b.times.heap == {}
    ensures NotOverslept(b, now, None)
  {
    hide Shape, AllAwake, A.Urgent;
    HeapKnown(b);
    forall e | e in T.Due(b.times) ensures false {
      var h := Herald(b, e);
    }
  }

  lemma TopBounds(b: Base, top: nat, now: int, wait: Option<int>)
    requires Inv(b) && b.acts.count == 0 && b.serving == -1
    requires T.Keys(b.times) && top in b.times.heap && b.times.heap <= b.times.at.Keys
    requires forall x :: x in b.times.heap ==> b.times.at[top] <= b.times.at[x]
    requires wait == Some(if b.times.at[top] <= now then 0 else b.times.at[top] - now)
    ensures NotOverslept(b, now, wait)
  {
    hide Shape, AllAwake, A.Urgent;
    forall e | e in T.Due(b.times) ensures now + wait.value <= T.Due(b.times)[e] || wait.value == 0 {
      var h := Herald(b, e);
    }
  }

  /** Every pending event due `off` earlier. */
  ghost function Shifted(t: T.Times, off: int): map<nat, int>
    requires T.Keys(t)
  {
    map e | e in t.at :: if t.on[e] then t.at[e] - off else t.at[e]
  }

  /** The events of a set due `off` earlier. */
  function ShiftSet(at: map<nat, int>, s: set<nat>, off: int): map<nat, int> {
    map e | e in at :: if e in s then at[e] - off else at[e]
  }

  /** The loop over one queue in timeout_correct. */
  method ShiftQueue(at0: map<nat, int>, q: seq<nat>, off: int) returns (at: map<nat, int>)
    requires Distinct(q) && forall e :: e in q ==> e in at0
    ensures at.Keys == at0.Keys
    ensures forall e :: e in at0 ==> at[e] == if e in q then at0[e] - off else at0[e]
  {
    at := at0;
    for k := 0 to |q|
      invariant at.Keys == at0.Keys
      invariant forall e :: e in at0 ==> at[e] == if e in q[..k] then at0[e] - off else at0[e]
    {
      assert q[k] !in q[..k];
      assert q[..k + 1] == q[..k] + [q[k]];
      at := at[q[k] := at[q[k]] - off];
    }
    assert q[..|q|] == q;
  }

  /** timeout_correct, when the clock is not monotonic: if it went back, every
      pending event is due that much earlier. */
  method TimeoutCorrect(b0: Base, now: int) returns (b: Base)
    requires Inv(b0)
    ensures Inv(b) && b.last == now
    ensures b == b0.(times := b.times, last := now) && b.times == b0.times.(at := b.times.at)
    ensures b.times.at == if now >= b0.last then b0.times.at else Shifted(b0.times, b0.last - now)
  {
    hide Shape, T.Inv, A.Inv, InsertedOk, A.Urgent, Distinct, AllAwake, ShiftSet;
    b := b0;
    HeapKnown(b0);
    if now >= b.last {
      b := b.(last := now);
      LastInv(b0, b);
      return;
    }
    var off := b.last - now;
    var at := ShiftSet(b.times.at, b.times.heap, off);
    ShiftSetAt(b.times.at, b.times.heap, off);
    for i := 0 to |b.times.queues|
      invariant at.Keys == b0.times.at.Keys
      invariant forall e :: e in at ==>
        at[e] == if ShiftedBy(b0.times, i, e) then b0.times.at[e] - off else b0.times.at[e]
    {
      Queue(b0, i);
      ShiftedOnce(b0, i);
      at := ShiftQueue(at, b.times.queues[i], off);
    }
    b := b.(times := b.times.(at := at));
    b := b.(last := now);
    AllShifted(b0);
    assert at == Shifted(b0.times, off);
    ShiftInv(b0, b, off);
  }

  lemma ShiftSetAt(at: map<nat, int>, s: set<nat>, off: int)
    ensures ShiftSet(at, s, off).Keys == at.Keys
    ensures forall e :: e in at ==> ShiftSet(at, s, off)[e] == if e in s then at[e] - off else at[e]
  {
  }

  /** e is in the heap or in one of the first i queues. */
  ghost predicate ShiftedBy(t: T.Times, i: int, e: nat) {
    e in t.heap || exists j :: 0 <= j < i && j < |t.queues| && e in t.queues[j]
  }

  lemma ShiftedOnce(b: Base, i: nat)
    requires Shape(b) && i < |b.times.queues|
    ensures forall e :: e in b.times.queues[i] ==> !ShiftedBy(b.times, i, e)
    ensures forall e :: ShiftedBy(b.times, i + 1, e) <==> ShiftedBy(b.times, i, e) || e in b.times.queues[i]
  {
    hide A.Inv, InsertedOk, Distinct, Counted;
    assert T.QueueOk(b.times, i);
    forall e | e in b.times.queues[i] ensures !ShiftedBy(b.times, i, e) {
      assert T.Placed(b.times, e);
      forall j | 0 <= j < i ensures e !in b.times.queues[j] {
        assert T.QueueOk(b.times, j);
      }
    }
  }

  lemma AllShifted(b: Base)
    requires Shape(b)
    ensures T.Keys(b.times) && forall e :: e in b.times.at ==>
      (ShiftedBy(b.times, |b.times.queues|, e) <==> b.times.on[e])
  {
    hide A.Inv, InsertedOk, Distinct, Counted;
    forall e | e in b.times.at ensures ShiftedBy(b.times, |b.times.queues|, e) <==> b.times.on[e] {
      assert T.Placed(b.times, e);
      forall j | 0 <= j < |b.times.queues| && e in b.times.queues[j] ensures b.times.on[e] {
        assert T.QueueOk(b.times, j);
      }
    }
  }

  lemma LastInv(b0: Base, b: Base)
    requires Inv(b0) && b == b0.(last := b.last)
    ensures Inv(b)
  {
    hide T.Inv, A.Inv, A.Urgent, Distinct;
    forall j | 0 <= j < |b.timers| ensures TimerOk(b, j) && Awake(b, j) {
      assert TimerOk(b0, j) && Awake(b0, j);
    }
  }

  lemma ShiftInv(b0: Base, b: Base, off: int)
    requires Inv(b0) && b == b0.(times := b0.times.(at := Shifted(b0.times, off)), last := b.last)
    ensures Inv(b)
  {
    hide A.Inv, A.Urgent, Distinct, T.Inv;
    ShiftTimes(b0.times, off);
    forall j | 0 <= j < |b.timers| ensures TimerOk(b, j) && Awake(b, j) {
      assert TimerOk(b0, j) && Awake(b0, j);
      Queue(b0, j);
    }
  }

  lemma ShiftTimes(t: T.Times, off: int)
    requires T.Inv(t)
    ensures T.Inv(t.(at := Shifted(t, off))) && T.Keys(t.(at := Shifted(t, off)))
  {
    hide Distinct;
    var t1 := t.(at := Shifted(t, off));
    forall e | e in t1.on ensures T.Placed(t1, e) {
      assert T.Placed(t, e);
    }
    forall i | 0 <= i < |t1.queues| ensures T.QueueOk(t1, i) {
      assert T.QueueOk(t, i);
      var q := t.queues[i];
      forall j, k | 0 <= j < k < |q| ensures T.NotAfter(t1.at, q[j], q[k]) {
        assert T.NotAfter(t.at, q[j], q[k]);
        assert q[j] in q && q[k] in q;
      }
    }
  }

  /** What a callback may do to the base. */
  datatype Action =
    | Activate(e: nat, late: bool)
    | Del(e: nat)
    | Add(e: nat, tv: Option<Tv>, absolute: bool, evmapOk: bool)

  /** Events of the base other than the timeout events it keeps for itself. */
  ghost predicate Allowed(b: Base, actions: seq<Action>) {
    forall a :: a in actions ==> a.e in b.internal && a.e !in b.timers
  }

  /** The events, their priorities and the timeout events are the same. */
  ghost predicate SameSetup(b0: Base, b: Base) {
    && b.timers == b0.timers && b.internal == b0.internal && b.persist == b0.persist && b.acts.pri == b0.acts.pri
    && b.acts.running == b0.acts.running && |b.acts.queues| == |b0.acts.queues|
  }

  /** What an action does to the active queues. */
  function MoveOf(a: Action): seq<A.Move> {
    match a
    case Activate(e, late) => [A.Comes(e, late)]
    case Del(e) => [A.Leaves(e)]
    case Add(e, tv, _, evmapOk) => if tv.None? then [] else [A.Retimed(e, evmapOk, tv.value.common)]
  }

  function MovesOf(actions: seq<Action>): seq<A.Move> {
    if actions == [] then [] else MovesOf(actions[..|actions| - 1]) + MoveOf(actions[|actions| - 1])
  }

  /** When an event is due, and the index of its common timeout. */
  datatype Timing = Timing(at: int, common: int)

  ghost function Pending(b: Base, x: nat): Option<Timing>
    requires Keys(b)
  {
    if x in b.times.on && b.times.on[x] then Some(Timing(b.times.at[x], b.times.common[x])) else None
  }

  /** All there is to an event that is not its place in a queue: its timeout,
      whether it waits for its descriptor or signal, and whether it is active, and
      by a timeout. */
  datatype EventState = EventState(pending: Option<Timing>, inserted: bool, active: bool, late: bool)

  ghost function StateOf(b: Base, x: nat): EventState
    requires Keys(b) && x in b.times.on
  {
    EventState(Pending(b, x), b.inserted[x], b.acts.on[x], b.acts.late[x])
  }

  /** What event_active, event_del and event_add make of it; `io` says whether it
      has a descriptor or signal. */
  ghost function Acted(st: EventState, io: bool, a: Action, now: int): EventState {
    match a
    case Activate(_, late) => st.(active := true, late := late || (st.active && st.late))
    case Del(_) => st.(pending := None, inserted := false, active := false)
    case Add(_, tv, absolute, evmapOk) =>
      if io && !st.inserted && !st.active && !evmapOk then st
      else
        var st1 := st.(inserted := st.inserted || (io && !st.active));
        if tv.None? then st1
        else
          var at := if absolute then tv.value.usec else now + tv.value.usec;
          st1.(pending := Some(Timing(at, tv.value.common)), active := st1.active && !st1.late)
  }

  ghost function AllActed(st: EventState, io: bool, actions: seq<Action>, now: int, x: nat): EventState
    decreases |actions|
  {
    if actions == [] then st
    else
      var st1, a := AllActed(st, io, actions[..|actions| - 1], now, x), actions[|actions| - 1];
      if a.e == x then Acted(st1, io, a, now) else st1
  }

  /** Every event but the timeout events is as the actions make it. */
  ghost predicate ActsAs(b0: Base, b: Base, actions: seq<Action>, now: int)
    requires Keys(b0) && Keys(b)
  {
    && b.io == b0.io && b.times.on.Keys == b0.times.on.Keys
    && forall x :: x in b0.times.on && x !in b0.timers ==> StateOf(b, x) == AllActed(StateOf(b0, x), b0.io[x], actions, now, x)
  }

  /** No action is about x. */
  predicate Untouched(actions: seq<Action>, x: nat) {
    forall a :: a in actions ==> a.e != x
  }

  /** Other events than those the actions are about stay as they were. */
  ghost predicate OnlyTouched(b0: Base, b: Base, actions: seq<Action>)
    requires Keys(b0) && Keys(b)
  {
    forall x :: x !in b0.timers && Untouched(actions, x) ==> SameEvent(b0, b, x)
  }

  lemma PerformedNone(b: Base, now: int)
    requires Keys(b)
    ensures A.Moves(b.acts, MovesOf([]), b.timers, b.acts) && OnlyTouched(b, b, []) && ActsAs(b, b, [], now)
  {
    SameRefl(b);
  }

  lemma PerformedMore(b0: Base, b1: Base, b: Base, actions: seq<Action>, a: Action)
    requires A.Moves(b0.acts, MovesOf(actions), b0.timers, b1.acts) && b1.timers == b0.timers
    requires A.Moves(b1.acts, MoveOf(a), b1.timers, b.acts)
    ensures A.Moves(b0.acts, MovesOf(actions + [a]), b0.timers, b.acts)
  {
    hide A.Moves, MoveOf;
    assert (actions + [a])[..|actions|] == actions;
    A.MovesJoin(b0.acts, MovesOf(actions), b0.timers, b1.acts, MoveOf(a), b.acts);
  }

  lemma ActsMore(b0: Base, b1: Base, b: Base, actions: seq<Action>, a: Action, now: int)
    requires Keys(b0) && Keys(b1) && Keys(b) && ActsAs(b0, b1, actions, now) && b1.timers == b0.timers
    requires ActsAs(b1, b, [a], now)
    ensures ActsAs(b0, b, actions + [a], now)
  {
    hide StateOf, AllActed;
    KeysIo(b0);
    forall x | x in b0.times.on && x !in b0.timers
      ensures StateOf(b, x) == AllActed(StateOf(b0, x), b0.io[x], actions + [a], now, x)
    {
      ActedThen(StateOf(b0, x), b0.io[x], actions, now, x, a);
    }
  }

  lemma KeysIo(b: Base)
    requires Keys(b)
    ensures b.io.Keys == b.times.on.Keys == b.inserted.Keys == b.acts.late.Keys == b.acts.on.Keys
  {
  }

  lemma ActedThen(st: EventState, io: bool, actions: seq<Action>, now: int, x: nat, a: Action)
    ensures AllActed(st, io, actions + [a], now, x) == AllActed(AllActed(st, io, actions, now, x), io, [a], now, x)
  {
    hide Acted;
    assert (actions + [a])[..|actions|] == actions && [a][..0] == [];
  }

  lemma TouchedMore(b0: Base, b1: Base, b: Base, actions: seq<Action>, a: Action)
    requires Keys(b0) && Keys(b1) && Keys(b) && OnlyTouched(b0, b1, actions) && b1.timers == b0.timers
    requires forall x :: x !in b1.timers && x != a.e ==> SameEvent(b1, b, x)
    ensures OnlyTouched(b0, b, actions + [a])
  {
    hide Keys, SameEvent;
    forall x | x !in b0.timers && Untouched(actions + [a], x) ensures SameEvent(b0, b, x) {
      assert a in actions + [a];
      assert forall y :: y in actions ==> y in actions + [a];
      assert Untouched(actions, x);
      SameTrans(b0, b1, b, x);
    }
  }

  lemma ActivatedActs(b1: Base, b: Base, a: Action, now: int)
    requires Keys(b1) && Keys(b) && a.Activate? && a.e in b1.acts.on && b == b1.(acts := b.acts, count := b.count)
    requires b.acts.on == b1.acts.on[a.e := true] && A.Moved(b1.acts, A.Comes(a.e, a.late), b1.timers, b.acts)
    requires b.acts.late == b1.acts.late[a.e := a.late || (b1.acts.on[a.e] && b1.acts.late[a.e])]
    ensures A.Moves(b1.acts, MoveOf(a), b1.timers, b.acts) && ActsAs(b1, b, [a], now)
    ensures forall x :: x != a.e ==> SameEvent(b1, b, x)
  {
    hide A.Moved, A.Moves, ActsAs;
    A.MovesOne(b1.acts, A.Comes(a.e, a.late), b1.timers, b.acts);
    ActsOne(b1, b, a, now);
  }

  lemma DeletedActs(b1: Base, b: Base, a: Action, now: int)
    requires Shape(b1) && Shape(b) && Keys(b1) && Keys(b) && a.Del? && Reduced(b1, b, a.e)
    requires a.e in b.times.on && !b.times.on[a.e] && !b.acts.on[a.e]
    requires a.e in b1.inserted && b.inserted == b1.inserted[a.e := false] && b.io == b1.io &&
      b.acts.late == b1.acts.late
    requires A.Moved(b1.acts, A.Leaves(a.e), b1.timers, b.acts)
    ensures A.Moves(b1.acts, MoveOf(a), b1.timers, b.acts) && ActsAs(b1, b, [a], now)
    ensures forall x :: x != a.e ==> SameEvent(b1, b, x)
  {
    hide Shape, A.Moved, A.Moves, SameEvent, ActsAs, Reduced;
    FireKept(b1, b, a.e);
    ReducedSame(b1, b, a.e);
    A.MovesOne(b1.acts, A.Leaves(a.e), b1.timers, b.acts);
    ActsOne(b1, b, a, now);
  }

  /** How event_add went. */
  ghost predicate Added(b1: Base, b: Base, a: Action, res: int, now: int)
    requires Keys(b1) && Keys(b) && a.Add?
  {
    && b.io == b1.io && b.times.on.Keys == b1.times.on.Keys
    && (a.tv.Some? ==> Calmer(b1, b, a.e, res == 0, a.tv.value.common))
    && (a.tv.None? ==> b.acts == b1.acts)
    && (forall x :: x !in b1.timers && !(x == a.e && res == 0 && a.tv.Some?) ==> SameEvent(b1, b, x))
    && a.e in b1.io
    && res == (if b1.io[a.e] && !b1.inserted[a.e] && !b1.acts.on[a.e] && !a.evmapOk then -1 else 0)
    && (res == -1 ==> b == b1)
    && (res == 0 ==> b.inserted == b1.inserted[a.e := b1.inserted[a.e] || (b1.io[a.e] && !b1.acts.on[a.e])])
    && (res == 0 && a.tv.Some? ==>
          Pending(b, a.e) == Some(Timing(if a.absolute then a.tv.value.usec else now + a.tv.value.usec, a.tv.value.common)))
  }

  lemma AddedActs(b1: Base, b: Base, a: Action, res: int, now: int)
    requires Keys(b1) && Keys(b) && a.Add? && Added(b1, b, a, res, now)
    ensures A.Moves(b1.acts, MoveOf(a), b1.timers, b.acts) && ActsAs(b1, b, [a], now)
  {
    hide A.Moves, SameEvent, ActsAs, StateOf, Acted, Calmer, Pending;
    AddedMoves(b1, b, a, res, now);
    AddedLate(b1, b, a, res, now);
    if a.e !in b1.timers {
      AddedState(b1, b, a, res, now);
    }
    ActsOne(b1, b, a, now);
  }

  lemma AddedMoves(b1: Base, b: Base, a: Action, res: int, now: int)
    requires Keys(b1) && Keys(b) && a.Add? && Added(b1, b, a, res, now)
    ensures A.Moves(b1.acts, MoveOf(a), b1.timers, b.acts)
  {
    hide A.Moved, A.Moves, SameEvent, Keys, Pending;
    if a.tv.Some? {
      var c := a.tv.value.common;
      A.RetimedLess(b1.acts, A.Retimed(a.e, res == 0, c), A.Retimed(a.e, a.evmapOk, c), b1.timers, b.acts);
      A.MovesOne(b1.acts, A.Retimed(a.e, a.evmapOk, c), b1.timers, b.acts);
    } else {
      NothingFired(b1);
    }
  }

  lemma AddedLate(b1: Base, b: Base, a: Action, res: int, now: int)
    requires Keys(b1) && Keys(b) && a.Add? && Added(b1, b, a, res, now)
    ensures b.acts.late == b1.acts.late
    ensures a.tv.Some? && res == 0 ==> b.acts.on[a.e] == (b1.acts.on[a.e] && !b1.acts.late[a.e])
  {
    hide A.Moved, SameEvent, Pending;
    if a.tv.Some? {
      A.RetimedOn(b1.acts, A.Retimed(a.e, res == 0, a.tv.value.common), b1.timers, b.acts);
    }
  }

  lemma AddedState(b1: Base, b: Base, a: Action, res: int, now: int)
    requires Keys(b1) && Keys(b) && a.Add? && Added(b1, b, a, res, now) && a.e !in b1.timers &&
      b.acts.late == b1.acts.late
    requires a.tv.Some? && res == 0 ==> b.acts.on[a.e] == (b1.acts.on[a.e] && !b1.acts.late[a.e])
    ensures StateOf(b, a.e) == Acted(StateOf(b1, a.e), b1.io[a.e], a, now)
  {
    hide Calmer, SameEvent;
    if res == 0 && a.tv.None? {
      SameTiming(b1, b, a.e);
    }
  }

  lemma SameTiming(b0: Base, b: Base, x: nat)
    requires Keys(b0) && Keys(b) && SameEvent(b0, b, x) && x in b.times.on
    ensures x in b0.times.on && Pending(b, x) == Pending(b0, x) && b.acts.on[x] == b0.acts.on[x]
  {
  }

  /** One action makes something of its own event only. */
  lemma ActsOne(b1: Base, b: Base, a: Action, now: int)
    requires Keys(b1) && Keys(b) && b.times.on.Keys == b1.times.on.Keys && b.io == b1.io
    requires forall x :: x !in b1.timers && x != a.e ==> SameEvent(b1, b, x)
    requires forall x :: x in b1.inserted && x != a.e ==>
      b.inserted[x] == b1.inserted[x] && b.acts.late[x] == b1.acts.late[x]
    requires a.e in b1.times.on && a.e !in b1.timers ==> StateOf(b, a.e) == Acted(StateOf(b1, a.e), b1.io[a.e], a, now)
    ensures ActsAs(b1, b, [a], now)
  {
    hide Acted, SameEvent;
    assert [a][..0] == [];
    forall x | x in b1.times.on && x !in b1.timers
      ensures StateOf(b, x) == AllActed(StateOf(b1, x), b1.io[x], [a], now, x)
    {
      if x != a.e {
        SameTiming(b1, b, x);
      }
    }
  }

  method Perform(b0: Base, actions: seq<Action>, now: int) returns (b: Base)
    requires Inv(b0) && b0.serving == -1 && Allowed(b0, actions)
    ensures Inv(b) && b.serving == -1 && SameSetup(b0, b) && Keys(b0) && Keys(b)
    ensures A.Moves(b0.acts, MovesOf(actions), b0.timers, b.acts)
    ensures OnlyTouched(b0, b, actions) && ActsAs(b0, b, actions, now) && b.times.on.Keys == b0.times.on.Keys
    ensures actions == [] ==> b == b0
    ensures b0.acts.running <= 0 ==> b.acts.cont == b0.acts.cont
  {
    hide Shape, AllAwake, A.Urgent, Reduced, OthersSame, SameEvent, A.Moves, MovesOf, MoveOf, OnlyTouched, ActsAs,
         Calmer, Keys;
    b := b0;
    Open(b0);
    PerformedNone(b0, now);
    assert actions[..0] == [];
    for k := 0 to |actions|
      invariant Inv(b) && b.serving == -1 && SameSetup(b0, b)
      invariant b.times.on.Keys == b0.times.on.Keys
      invariant A.Moves(b0.acts, MovesOf(actions[..k]), b0.timers, b.acts)
      invariant Keys(b) && OnlyTouched(b0, b, actions[..k]) && ActsAs(b0, b, actions[..k], now)
      invariant k == 0 ==> b == b0
      invariant b0.acts.running <= 0 ==> b.acts.cont == b0.acts.cont
    {
      assert actions[k] in actions;
      ghost var b1 := b;
      b := PerformOne(b, actions[k], now);
      assert actions[..k + 1] == actions[..k] + [actions[k]];
      PerformedMore(b0, b1, b, actions[..k], actions[k]);
      TouchedMore(b0, b1, b, actions[..k], actions[k]);
      ActsMore(b0, b1, b, actions[..k], actions[k], now);
    }
    assert actions[..|actions|] == actions;
  }

  method PerformOne(b1: Base, a: Action, now: int) returns (b: Base)
    requires Inv(b1) && b1.serving == -1 && a.e in b1.internal && a.e !in b1.timers
    ensures Inv(b) && b.serving == -1 && SameSetup(b1, b) && Keys(b1) && Keys(b)
    ensures A.Moves(b1.acts, MoveOf(a), b1.timers, b.acts) && ActsAs(b1, b, [a], now)
    ensures forall x :: x !in b1.timers && x != a.e ==> SameEvent(b1, b, x)
    ensures b.times.on.Keys == b1.times.on.Keys
    ensures b1.acts.running <= 0 ==> b.acts.cont == b1.acts.cont
  {
    hide Shape, AllAwake, A.Urgent, Reduced, OthersSame, SameEvent, A.Moves, A.Moved, MoveOf, ActsAs, Calmer, Keys,
         A.Inv, T.Inv, InsertedOk;
    KnownEvent(b1, a.e);
    match a {
      case Activate(e, late) =>
        b := ActiveNolock(b1, e, late);
        ActivatedAwake(b1, b, e);
        Open(b);
        assert b.times.on.Keys == b1.times.on.Keys;
        ActivatedActs(b1, b, a, now);
      case Del(e) =>
        b := EventDel(b1, e);
        Open(b);
        ReducedSetup(b1, b, e);
        FireKept(b1, b, e);
        DeletedActs(b1, b, a, now);
      case Add(e, tv, absolute, evmapOk) =>
        var added, res := EventBase.Add(b1, e, tv, absolute, now, evmapOk);
        b := added;
        Open(b);
        AddedActs(b1, b, a, res, now);
    }
  }

  lemma KnownEvent(b: Base, e: nat)
    requires Shape(b) && e in b.internal
    ensures Keys(b) && e in b.acts.on && e in b.acts.late && e in b.io && e in b.times.on && e in b.inserted
  {
    hide A.Inv, T.Inv, InsertedOk;
  }

  /** Events that become active one after the other. */
  ghost function Comings(ready: seq<nat>): seq<A.Move> {
    if ready == [] then [] else Comings(ready[..|ready| - 1]) + [A.Comes(ready[|ready| - 1], false)]
  }

  /** The poll: the backend makes what the kernel reports active, in its order. */
  method Report(b0: Base, ready: seq<nat>) returns (b: Base)
    requires Inv(b0) && b0.serving == -1 && b0.acts.running == -1 && !b0.acts.cont
    requires forall e :: e in ready ==> e in b0.acts.on
    ensures Inv(b) && b.acts.running == -1 && !b.acts.cont && b == b0.(acts := b.acts, count := b.count)
    ensures b.acts.on.Keys == b0.acts.on.Keys && b.acts.pri == b0.acts.pri && |b.acts.queues| == |b0.acts.queues|
    ensures Reported(b0, b, ready) && A.Moves(b0.acts, Comings(ready), b0.timers, b.acts)
  {
    hide Shape, AllAwake, A.Urgent, A.Moves, A.Moved, Reported, Comings;
    b := b0;
    ReportedNone(b0);
    assert ready[..0] == [];
    for i := 0 to |ready|
      invariant Inv(b) && b.acts.running == -1 && !b.acts.cont && b == b0.(acts := b.acts, count := b.count)
      invariant b.acts.on.Keys == b0.acts.on.Keys && b.acts.pri == b0.acts.pri && |b.acts.queues| == |b0.acts.queues|
      invariant Reported(b0, b, ready[..i]) && A.Moves(b0.acts, Comings(ready[..i]), b0.timers, b.acts)
    {
      ghost var b1 := b;
      assert ready[i] in ready;
      KnownPri(b, ready[i]);
      b := ActiveNolock(b, ready[i], false);
      ActivatedAwake(b1, b, ready[i]);
      assert ready[..i + 1] == ready[..i] + [ready[i]];
      ReportedMore(b0, b1, b, ready[..i], ready[i]);
    }
    assert ready[..|ready|] == ready;
  }

  /** Exactly what was reported became active. */
  ghost predicate Reported(b0: Base, b: Base, ready: seq<nat>) {
    && b.acts.on.Keys == b0.acts.on.Keys
    && forall e :: e in b.acts.on ==> b.acts.on[e] == (b0.acts.on[e] || e in ready)
  }

  lemma ReportedNone(b: Base)
    ensures Reported(b, b, []) && A.Moves(b.acts, Comings([]), b.timers, b.acts)
  {
  }

  lemma ReportedMore(b0: Base, b1: Base, b: Base, ready: seq<nat>, e: nat)
    requires Reported(b0, b1, ready) && A.Moves(b0.acts, Comings(ready), b0.timers, b1.acts) && b1.timers == b0.timers
    requires e in b1.acts.on && b.acts.on == b1.acts.on[e := true] &&
      A.Moved(b1.acts, A.Comes(e, false), b1.timers, b.acts)
    ensures Reported(b0, b, ready + [e]) && A.Moves(b0.acts, Comings(ready + [e]), b0.timers, b.acts)
  {
    hide A.Moves, A.Moved;
    assert (ready + [e])[..|ready|] == ready;
    A.MovesMore(b0.acts, Comings(ready), b0.timers, b1.acts, A.Comes(e, false), b.acts);
  }

  lemma KnownPri(b: Base, e: nat)
    requires Shape(b) && e in b.acts.on
    ensures e in b.acts.pri
  {
  }

  lemma ReducedSetup(b0: Base, b: Base, e: nat)
    requires Shape(b0) && Shape(b) && Reduced(b0, b, e)
    ensures SameSetup(b0, b) && b.serving == b0.serving
  {
  }

  /** Being activated disturbs no timeout. */
  lemma ActivatedAwake(b0: Base, b: Base, e: nat)
    requires Inv(b0) && Shape(b) && b == b0.(acts := b.acts, count := b.count)
    requires e in b0.acts.on && b.acts.on == b0.acts.on[e := true]
    ensures AllAwake(b)
  {
    hide T.Inv, A.Inv, A.Urgent, Distinct, InsertedOk, Counted;
    forall j | 0 <= j < |b.timers| ensures TimerOk(b, j) && Awake(b, j) {
      assert TimerOk(b0, j) && Awake(b0, j);
    }
  }

  /** The timeout events of the base that are active. */
  ghost function Heralds(b: Base): set<nat> {
    set e | e in b.timers && e in b.acts.on && b.acts.on[e]
  }

  /** Which common timeout queue an event stands for, or -1. */
  method FindTimer(timers: seq<nat>, e: nat) returns (i: int)
    ensures -1 <= i < |timers|
    ensures if e in timers then i >= 0 && timers[i] == e else i == -1
  {
    i := 0;
    while i < |timers|
      invariant 0 <= i <= |timers| && e !in timers[..i]
    {
      if timers[i] == e {
        return;
      }
      assert timers[..i + 1] == timers[..i] + [timers[i]];
      i := i + 1;
    }
    assert timers[..i] == timers;
    i := -1;
  }

  /** Nothing more urgent than queue pri is active. */
  ghost predicate MostUrgent(a: A.Actives, pri: nat) {
    pri < |a.queues| && a.queues[pri] != [] && forall q :: 0 <= q < pri ==> a.queues[q] == []
  }

  /** The common timeout queue that e stands for. */
  ghost function QueueOf(b: Base, e: nat): seq<nat> {
    var i := IndexOf(b.timers, e);
    if i < |b.times.queues| then b.times.queues[i] else []
  }

  /** x waits in the common timeout queue that e stands for, and is due. */
  ghost predicate DueIn(b: Base, e: nat, x: nat, now: int) {
    x in QueueOf(b, e) && x in b.times.at && b.times.at[x] <= now
  }

  /** What the callback of e does to the active queues. The event itself was
      taken off before; a timeout event makes active what is due in its queue,
      from the beginning, and any other event does its actions. */
  ghost function Doing(b: Base, e: nat, actions: seq<Action>, now: int): seq<A.Move> {
    [A.Leaves(e)] + if e in b.timers then A.Fires(DuePrefix(QueueOf(b, e), b.times.at, now)) else MovesOf(actions)
  }

  /** After the callback of timeout event e: what was due in its queue is active
      and not pending, nor waiting for its descriptor, and every other event is as
      before. */
  ghost predicate AfterServe(b0: Base, b: Base, e: nat, now: int)
    requires Keys(b0) && Keys(b)
  {
    && (forall x :: x != e ==> ServedOne(b0, b, e, now, x))
    && Unlisted(b0, b, [e] + DuePrefix(QueueOf(b0, e), b0.times.at, now))
  }

  ghost predicate ServedOne(b0: Base, b: Base, e: nat, now: int, x: nat)
    requires Keys(b0) && Keys(b)
  {
    if DueIn(b0, e, x, now) then x in b.times.on && !b.times.on[x] && b.acts.on[x] else SameEvent(b0, b, x)
  }

  lemma IndexIs(s: seq<nat>, i: nat)
    requires Distinct(s) && i < |s|
    ensures IndexOf(s, s[i]) == i
  {
    var k := IndexOf(s, s[i]);
    assert s[k] == s[i];
  }

  /** Taking e off did not disturb its common timeout queue. */
  lemma SameQueue(b0: Base, b1: Base, e: nat, i: nat)
    requires Shape(b0) && Shape(b1) && Reduced(b0, b1, e) && i < |b1.timers| && b1.timers[i] == e
    ensures b1.timers == b0.timers && e in b0.timers && b1.times.at == b0.times.at
    ensures i < |b1.times.queues| && QueueOf(b0, e) == b1.times.queues[i]
  {
    hide Shape, T.Inv, A.Inv, InsertedOk, Less, SameEvent, OthersSame;
    ReducedTimers(b0, b1, e);
    ShapeTimers(b0);
    IndexIs(b0.timers, i);
    Queue(b0, i);
    assert e !in b0.times.queues[i];
    LessAbsent(b0.times.queues[i], e);
    assert Lost(b0, b1, e, i);
  }

  lemma ShapeTimers(b: Base)
    requires Shape(b)
    ensures Distinct(b.timers) && |b.timers| == |b.times.queues|
  {
  }

  lemma ServedAfter(b0: Base, b1: Base, b2: Base, b: Base, e: nat, i: nat, now: int)
    requires Shape(b0) && Shape(b1) && Shape(b2) && Shape(b) && Reduced(b0, b1, e) && Keys(b0) && Keys(b)
    requires i < |b1.timers| && b1.timers[i] == e && b2 == b1.(serving := i) && Served(b2, b, i, now)
    requires forall x :: x in b.times.queues[i] ==> x in b.times.at && b.times.at[x] > now
    requires TakenRest(b0, b1, e) && e in b1.inserted && !b1.inserted[e]
    requires i < |b2.times.queues| && Unlisted(b2, b, DuePrefix(b2.times.queues[i], b2.times.at, now))
    ensures AfterServe(b0, b, e, now)
  {
    hide Shape, Keys, T.Inv, A.Inv, InsertedOk, Distinct, SameEvent, ServedLeft, ServedGone, ServedTimers, ServedElse,
         Reduced, ServedOne, Served, DuePrefix, QueueOf, Unlisted, TakenRest;
    SameQueue(b0, b1, e, i);
    ServedUnlisted(b0, b1, b2, b, e, DuePrefix(b2.times.queues[i], b2.times.at, now));
    forall x | x != e ensures ServedOne(b0, b, e, now, x) {
      ServedOneIs(b0, b1, b2, b, e, i, now, x);
    }
  }

  lemma ServedUnlisted(b0: Base, b1: Base, b2: Base, b: Base, e: nat, due: seq<nat>)
    requires TakenRest(b0, b1, e) && e in b1.inserted && !b1.inserted[e] && b2 == b1.(serving := b2.serving)
    requires Unlisted(b2, b, due)
    ensures Unlisted(b0, b, [e] + due)
  {
  }

  lemma ServedOneIs(b0: Base, b1: Base, b2: Base, b: Base, e: nat, i: nat, now: int, x: nat)
    requires Shape(b0) && Shape(b1) && Shape(b2) && Shape(b) && Reduced(b0, b1, e) && Keys(b0) && Keys(b)
    requires i < |b1.timers| && b1.timers[i] == e && b2 == b1.(serving := i) && Served(b2, b, i, now)
    requires forall y :: y in b.times.queues[i] ==> y in b.times.at && b.times.at[y] > now
    requires x != e
    ensures ServedOne(b0, b, e, now, x)
  {
    hide Shape, T.Inv, A.Inv, InsertedOk, Distinct, ServedTimers, QueueOf, Lost, Reduced;
    Open(b1);
    SameQueue(b0, b1, e, i);
    ReducedSame(b0, b1, e);
    hide Keys, SameEvent;
    SameServing(b1, b2, x);
    if x in b2.times.queues[i] {
      if x in b.times.queues[i] {
        assert SameEvent(b2, b, x);
        SameDue(b2, b, x);
        SameTrans(b0, b1, b2, x);
        SameTrans(b0, b2, b, x);
      } else {
        assert Gone(b2, b, x, now);
      }
    } else {
      assert SameEvent(b2, b, x);
      SameTrans(b0, b1, b2, x);
      SameTrans(b0, b2, b, x);
    }
  }

  lemma SameServing(b1: Base, b2: Base, x: nat)
    requires Keys(b1) && b2 == b1.(serving := b2.serving)
    ensures Keys(b2) && SameEvent(b1, b2, x)
  {
  }

  lemma CalledMoves(b0: Base, b1: Base, b: Base, e: nat, actions: seq<Action>, now: int)
    requires A.Moved(b0.acts, A.Leaves(e), b0.timers, b1.acts) && b1.timers == b0.timers && e !in b0.timers
    requires A.Moves(b1.acts, MovesOf(actions), b1.timers, b.acts)
    ensures A.Moves(b0.acts, Doing(b0, e, actions, now), b0.timers, b.acts)
  {
    hide A.Moved, A.Moves, MovesOf;
    A.MovesOne(b0.acts, A.Leaves(e), b0.timers, b1.acts);
    A.MovesJoin(b0.acts, [A.Leaves(e)], b0.timers, b1.acts, MovesOf(actions), b.acts);
  }

  lemma ServedMoves(b0: Base, b1: Base, b: Base, e: nat, i: nat, actions: seq<Action>, now: int)
    requires Shape(b0) && Shape(b1) && Reduced(b0, b1, e) && i < |b1.timers| && b1.timers[i] == e &&
      i < |b1.times.queues|
    requires A.Moved(b0.acts, A.Leaves(e), b0.timers, b1.acts)
    requires A.Moves(b1.acts, A.Fires(DuePrefix(b1.times.queues[i], b1.times.at, now)), b1.timers, b.acts)
    ensures A.Moves(b0.acts, Doing(b0, e, actions, now), b0.timers, b.acts)
  {
    hide Shape, Reduced, A.Moved, A.Moves, A.Fires, DuePrefix, QueueOf, MovesOf;
    SameQueue(b0, b1, e, i);
    A.MovesOne(b0.acts, A.Leaves(e), b0.timers, b1.acts);
    A.MovesJoin(b0.acts, [A.Leaves(e)], b0.timers, b1.acts, A.Fires(DuePrefix(b1.times.queues[i], b1.times.at, now)), b.acts);
  }

  /** The first event of queue pri ran, and that is all: it is not active any
      more, and still pending only if it persists. */
  ghost predicate RanQuietly(b0: Base, b: Base, e: nat, pri: nat)
    requires Keys(b0) && Keys(b)
  {
    && pri < |b0.acts.queues| && pri < |b.acts.queues| && b0.acts.queues[pri] != []
    && b.acts.queues[pri] == b0.acts.queues[pri][1..] && b.acts.cont == b0.acts.cont
    && StillPending(b0, b, e) && OthersSame(b0, b, e)
  }

  ghost predicate StillPending(b0: Base, b: Base, e: nat)
    requires Keys(b0) && Keys(b)
  {
    && e in b0.times.on && e in b.times.on && !b.acts.on[e]
    && b.times.on[e] == (b0.times.on[e] && b0.persist[e])
    && b.inserted[e] == (b0.inserted[e] && b0.persist[e])
  }

  lemma TakenQuietly(b0: Base, b: Base, e: nat, pri: nat)
    requires Shape(b0) && Shape(b) && Reduced(b0, b, e) && pri < |b0.acts.queues| && pri < |b.acts.queues|
    requires b0.acts.queues[pri] != [] && b0.acts.queues[pri][0] == e &&
      b.acts.queues[pri] == Less(b0.acts.queues[pri], e)
    requires Keys(b0) && Keys(b) && b.acts.cont == b0.acts.cont && StillPending(b0, b, e)
    ensures RanQuietly(b0, b, e, pri)
  {
    hide Shape, Keys, OthersSame;
  }

  /** After the callback of e, which is not a timeout event of the base: unless
      its actions say otherwise, e is not active any more, and every other event
      is as before, but for the timeout events; e is still pending only if it
      persists. Every such event is exactly as the actions make it. */
  ghost predicate AfterCall(b0: Base, b: Base, e: nat, actions: seq<Action>, now: int)
    requires Keys(b0) && Keys(b)
  {
    && (Untouched(actions, e) ==>
          && e in b0.times.on && e in b.times.on && !b.acts.on[e]
          && b.times.on[e] == (b0.times.on[e] && b0.persist[e]))
    && (forall x :: x !in b0.timers && x != e && Untouched(actions, x) ==> SameEvent(b0, b, x))
    && StatesAfter(b0, b, e, actions, now)
  }

  ghost predicate StatesAfter(b0: Base, b: Base, e: nat, actions: seq<Action>, now: int)
    requires Keys(b0) && Keys(b)
  {
    && b.io == b0.io && b.times.on.Keys == b0.times.on.Keys
    && forall x :: x in b0.times.on && x !in b0.timers ==>
         StateOf(b, x) == AllActed(StateTaken(b0, e, x), b0.io[x], actions, now, x)
  }

  /** x when e has been taken off for its callback: deleted, unless it persists. */
  ghost function StateTaken(b: Base, e: nat, x: nat): EventState
    requires Keys(b) && x in b.times.on
  {
    var st := StateOf(b, x);
    if x != e then st
    else if b.persist[e] then st.(active := false)
    else st.(pending := None, inserted := false, active := false)
  }

  lemma CalledAfter(b0: Base, b1: Base, b: Base, e: nat, actions: seq<Action>, now: int)
    requires Shape(b0) && Shape(b1) && Shape(b) && Reduced(b0, b1, e) && e !in b0.timers
    requires Keys(b1) && Keys(b) && StillPending(b0, b1, e) && OnlyTouched(b1, b, actions) &&
      ActsAs(b1, b, actions, now)
    requires b0.persist[e] ==> b1.times == b0.times
    requires TakenRest(b0, b1, e) && b.times.on.Keys == b1.times.on.Keys
    ensures AfterCall(b0, b, e, actions, now)
  {
    hide Shape, Less, SameEvent, Distinct, T.Inv, A.Inv, InsertedOk, StateOf, AllActed, StatesAfter, ActsAs;
    Open(b0);
    FireKept(b0, b1, e);
    ReducedTimers(b0, b1, e);
    ReducedSame(b0, b1, e);
    CalledStates(b0, b1, b, e, actions, now);
    forall x | x !in b0.timers && x != e && Untouched(actions, x) ensures SameEvent(b0, b, x) {
      SameTrans(b0, b1, b, x);
    }
    if Untouched(actions, e) {
      UntouchedPending(b1, b, e);
    }
  }

  lemma CalledStates(b0: Base, b1: Base, b: Base, e: nat, actions: seq<Action>, now: int)
    requires Keys(b0) && Keys(b1) && Keys(b) && StillPending(b0, b1, e) && ActsAs(b1, b, actions, now)
    requires b1.timers == b0.timers && b1.times.on.Keys == b0.times.on.Keys && TakenRest(b0, b1, e)
    requires b0.persist[e] ==> b1.times == b0.times
    requires forall x :: x != e ==> SameEvent(b0, b1, x)
    ensures StatesAfter(b0, b, e, actions, now)
  {
    hide AllActed, SameEvent, Acted, StateOf, StillPending, StateTaken;
    KeysIo(b0);
    forall x | x in b0.times.on && x !in b0.timers
      ensures StateOf(b, x) == AllActed(StateTaken(b0, e, x), b0.io[x], actions, now, x)
    {
      TakenState(b0, b1, e, x);
    }
  }

  /** Besides, only e's place among the events that wait changed. */
  ghost predicate TakenRest(b0: Base, b1: Base, e: nat) {
    && b1.io == b0.io && b1.acts.late == b0.acts.late && b1.inserted.Keys == b0.inserted.Keys
    && forall x :: x in b0.inserted && x != e ==> b1.inserted[x] == b0.inserted[x]
  }

  lemma TakenState(b0: Base, b1: Base, e: nat, x: nat)
    requires Keys(b0) && Keys(b1) && StillPending(b0, b1, e) && x in b0.times.on && b1.times.on.Keys == b0.times.on.Keys
    requires b0.persist[e] ==> b1.times == b0.times
    requires TakenRest(b0, b1, e) && (x != e ==> SameEvent(b0, b1, x))
    ensures StateOf(b1, x) == StateTaken(b0, e, x)
  {
  }

  lemma UntouchedPending(b1: Base, b: Base, e: nat)
    requires Keys(b1) && Keys(b) && SameEvent(b1, b, e) && e in b1.times.on && b.times.on.Keys == b1.times.on.Keys
    ensures e in b.times.on && b.times.on[e] == b1.times.on[e] && b.acts.on[e] == b1.acts.on[e]
  {
  }

  /** One turn of the loop in event_process_active_single_queue: the first event
      of queue pri, than which nothing may be more urgent, and its callback,
      which is the base's own for a timeout event and otherwise does `actions`. */
  method RunOne(b0: Base, pri: nat, actions: seq<Action>, now: int) returns (b: Base, e: nat)
    requires Inv(b0) && b0.serving == -1 && b0.acts.running == pri && MostUrgent(b0.acts, pri) && Allowed(b0, actions)
    ensures Inv(b) && b.serving == -1 && SameSetup(b0, b)
    ensures e == b0.acts.queues[pri][0] && e in b.internal
    ensures A.Moves(b0.acts, Doing(b0, e, actions, now), b0.timers, b.acts)
    ensures Keys(b0) && Keys(b) && b.times.on.Keys == b0.times.on.Keys
    ensures if e in b0.timers then AfterServe(b0, b, e, now) else AfterCall(b0, b, e, actions, now)
    ensures e in b0.timers ==> Heralds(b) < Heralds(b0)
    ensures e !in b0.timers && actions == [] ==> Heralds(b) == Heralds(b0) && RanQuietly(b0, b, e, pri)
    ensures pri == 0 ==> b.acts.cont == b0.acts.cont
  {
    hide Shape, AllAwake, A.Urgent, Reduced, OthersSame, SameEvent, Served, Less, Distinct, Allowed, T.Inv, A.Inv,
         InsertedOk, Heralds, Keys, RanQuietly, StillPending, A.Moves, A.Moved, MovesOf, Doing, OnlyTouched, ActsAs,
         TakenRest, AfterCall, AfterServe;
    e := b0.acts.queues[pri][0];
    FirstActive(b0, pri);
    b := TakeOff(b0, e);
    Open(b0);
    Open(b);
    ghost var b1 := b;
    ReducedSetup(b0, b, e);
    TakenHeralds(b0, b, e);
    TakenQuietly(b0, b, e, pri);
    var i := FindTimer(b.timers, e);
    if i >= 0 {
      TimerEphemeral(b0, e);
      b := Serve(b, e, i, now, b0, actions);
    } else {
      NotTimer(b0, b, e);
      StillAllowed(b0, b, actions);
      b := Perform(b, actions, now);
      CalledMoves(b0, b1, b, e, actions, now);
      CalledAfter(b0, b1, b, e, actions, now);
    }
    SetupTrans(b0, b1, b);
    Open(b);
  }

  lemma TimerEphemeral(b: Base, e: nat)
    requires Shape(b) && e in b.timers
    ensures e in b.persist && !b.persist[e]
  {
    hide T.Inv, A.Inv, InsertedOk, Distinct, Counted;
    var i :| 0 <= i < |b.timers| && b.timers[i] == e;
    assert TimerOk(b, i);
  }

  /** The callback of a timeout event of the base, off the active queues. */
  method Serve(b1: Base, e: nat, i: nat, now: int, ghost b0: Base, ghost actions: seq<Action>) returns (b: Base)
    requires Inv(b0) && Shape(b1) && Reduced(b0, b1, e) && A.Urgent(b1.acts) && b0.serving == -1
    requires i < |b1.timers| && b1.timers[i] == e && e in b1.acts.on && !b1.acts.on[e]
    requires A.Moved(b0.acts, A.Leaves(e), b0.timers, b1.acts)
    requires TakenRest(b0, b1, e) && e in b1.inserted && !b1.inserted[e]
    ensures Inv(b) && b.serving == -1 && SameSetup(b1, b) && Heralds(b) <= Heralds(b1)
    ensures A.Moves(b0.acts, Doing(b0, e, actions, now), b0.timers, b.acts)
    ensures Keys(b0) && Keys(b) && b.times.on.Keys == b1.times.on.Keys && AfterServe(b0, b, e, now)
    ensures b1.acts.running <= 0 ==> b.acts.cont == b1.acts.cont
  {
    hide Shape, AllAwake, A.Urgent, Reduced, Served, T.Inv, A.Inv, InsertedOk, Heralds, Distinct, A.Moves, A.Moved,
         A.Fires, DuePrefix, Doing, AfterServe, TakenRest, Unlisted;
    b := b1.(serving := i);
    Serving(b0, b1, b, e, i);
    ghost var b2 := b;
    b := CommonCallback(b, i, now);
    ServedSetup(b2, b, i, now);
    ServedHeralds(b1, b2, b, i, now);
    Open(b0);
    Open(b);
    ServedKeys(b2, b, i, now);
    ServedMoves(b0, b1, b, e, i, actions, now);
    ServedAfter(b0, b1, b2, b, e, i, now);
  }

  lemma SetupTrans(b0: Base, b1: Base, b: Base)
    requires SameSetup(b0, b1) && SameSetup(b1, b)
    ensures SameSetup(b0, b)
  {
  }

  lemma FirstActive(b: Base, pri: nat)
    requires Shape(b) && pri < |b.acts.queues| && b.acts.queues[pri] != []
    ensures var e := b.acts.queues[pri][0];
      e in b.acts.on && b.acts.on[e] && b.acts.pri[e] == pri && e in b.times.on && e in b.persist
  {
    hide T.Inv, InsertedOk, Distinct, Counted;
    assert A.QueueOk(b.acts, pri);
  }

  /** An event leaves the active events; unless it persists, all its queues. */
  method TakeOff(b0: Base, e: nat) returns (b: Base)
    requires Inv(b0) && e in b0.times.on && e in b0.acts.on && b0.acts.on[e]
    ensures Shape(b) && Reduced(b0, b, e) && A.Urgent(b.acts) && b.acts.cont == b0.acts.cont
    ensures e in b.acts.on && !b.acts.on[e] && StillPending(b0, b, e)
    ensures b.acts.queues[b0.acts.pri[e]] == Less(b0.acts.queues[b0.acts.pri[e]], e)
    ensures b0.acts.pri[e] < |b0.acts.queues| && (b0.persist[e] ==> b.times == b0.times)
    ensures A.Moved(b0.acts, A.Leaves(e), b0.timers, b.acts) && TakenRest(b0, b, e)
    ensures e in b.inserted && (!b0.persist[e] ==> !b.inserted[e])
  {
    hide Shape, A.Urgent, Less, Distinct, T.Inv, A.Inv, InsertedOk, AllAwake, Reduced, A.Moved, Keys, StillPending,
         TakenRest;
    InRange(b0, e);
    Open(b0);
    if b0.persist[e] {
      b := Deactivate(b0, e);
      Deactivated(b0, b, e);
    } else {
      b := EventBase.Del(b0, e);
      Open(b);
      DelMoved(b0, b, e);
      TakenDeleted(b0, b, e);
    }
    ReducedSetup(b0, b, e);
  }

  lemma TakenDeleted(b0: Base, b: Base, e: nat)
    requires Keys(b0) && Keys(b) && e in b0.times.on && e in b.times.on && !b0.persist[e]
    requires b.inserted == b0.inserted[e := false] && !b.times.on[e] && !b.acts.on[e]
    requires b.io == b0.io && b.acts.late == b0.acts.late
    ensures TakenRest(b0, b, e) && StillPending(b0, b, e)
  {
  }

  lemma InRange(b: Base, e: nat)
    requires Shape(b) && e in b.acts.on
    ensures e in b.acts.pri && b.acts.pri[e] < |b.acts.queues| && e in b.persist && e in b.inserted
  {
    assert A.Placed(b.acts, e);
  }

  lemma Deactivated(b0: Base, b: Base, e: nat)
    requires Shape(b0) && Shape(b) && b == b0.(acts := b.acts, count := b.count) && e in b0.acts.on
    requires b.acts.on == b0.acts.on[e := false] && b.acts.pri == b0.acts.pri && b.acts.running == b0.acts.running
    requires |b.acts.queues| == |b0.acts.queues| && b.acts.late == b0.acts.late
    ensures Reduced(b0, b, e) && TakenRest(b0, b, e)
    ensures Keys(b0) && Keys(b) && (e in b0.persist && b0.persist[e] ==> StillPending(b0, b, e))
  {
    hide Shape, T.Inv, A.Inv, InsertedOk, Less, Distinct;
    Open(b0);
    Open(b);
    forall x | x != e ensures SameEvent(b0, b, x) {
    }
    hide SameEvent;
  }

  lemma TakenHeralds(b0: Base, b: Base, e: nat)
    requires Shape(b0) && Shape(b) && Reduced(b0, b, e) && e in b.acts.on && !b.acts.on[e] && e in b0.acts.on &&
      b0.acts.on[e]
    ensures e in b0.timers ==> Heralds(b) < Heralds(b0)
    ensures e !in b0.timers ==> Heralds(b) == Heralds(b0)
  {
    hide Shape, T.Inv, A.Inv, InsertedOk, Less, Distinct;
    Open(b0);
    Open(b);
    FireKept(b0, b, e);
    ReducedTimers(b0, b, e);
    assert Heralds(b) == Heralds(b0) - {e};
    assert e in b0.timers <==> e in Heralds(b0);
  }

  lemma Serving(b0: Base, b1: Base, b: Base, e: nat, i: nat)
    requires Inv(b0) && Shape(b1) && Reduced(b0, b1, e) && A.Urgent(b1.acts) && b0.serving == -1
    requires b == b1.(serving := i) && i < |b1.timers| && b1.timers[i] == e
    ensures Inv(b) && i < |b.times.queues|
  {
    hide Reduced, A.Urgent, T.Inv, A.Inv, Less, Distinct, Counted, InsertedOk;
    ReducedTimers(b0, b1, e);
    ReducedServing(b0, b1, e);
    forall j | 0 <= j < |b0.timers| && b0.timers[j] == e ensures j == i {
      if j != i {
        DistinctTimers(b1, i, j);
      }
    }
    ReducedBut(b0, b1, e, i);
    ServingInv(b1, b, i);
  }

  lemma ServingInv(b1: Base, b: Base, i: nat)
    requires Shape(b1) && AwakeBut(b1, i) && A.Urgent(b1.acts) && b1.serving == -1
    requires b == b1.(serving := i) && i < |b1.timers|
    ensures Inv(b) && i < |b.times.queues|
  {
    hide A.Urgent, T.Inv, A.Inv, Less, Distinct, Counted, InsertedOk;
    SameInserted(b1, b);
    forall j | 0 <= j < |b.timers| ensures TimerOk(b, j) && Awake(b, j) {
      Queue(b1, j);
      if j != i {
        assert TimerOk(b1, j) && Awake(b1, j);
      } else {
        assert b.serving == j;
      }
    }
  }

  lemma ReducedServing(b0: Base, b: Base, e: nat)
    requires Shape(b0) && Shape(b) && Reduced(b0, b, e)
    ensures b.serving == b0.serving
  {
  }

  lemma NotTimer(b0: Base, b: Base, e: nat)
    requires Inv(b0) && Shape(b) && Reduced(b0, b, e) && A.Urgent(b.acts) && e !in b0.timers
    ensures Inv(b) && b.serving == b0.serving
  {
    hide Shape, Reduced, A.Urgent, AllAwake;
    forall j | 0 <= j < |b0.timers| ensures b0.timers[j] != e {
      TimerIn(b0, j);
    }
    ReducedBut(b0, b, e, -1);
    ReducedServing(b0, b, e);
  }

  lemma StillAllowed(b0: Base, b: Base, actions: seq<Action>)
    requires Allowed(b0, actions) && SameSetup(b0, b)
    ensures Allowed(b, actions)
  {
  }

  lemma ServedSetup(b0: Base, b: Base, i: nat, now: int)
    requires Shape(b0) && Shape(b) && Served(b0, b, i, now)
    ensures SameSetup(b0, b)
  {
  }

  lemma ServedKeys(b0: Base, b: Base, i: nat, now: int)
    requires Shape(b0) && Shape(b) && Served(b0, b, i, now)
    ensures b.times.on.Keys == b0.times.on.Keys
  {
  }

  lemma ServedHeralds(b1: Base, b0: Base, b: Base, i: nat, now: int)
    requires Shape(b0) && Shape(b) && Served(b0, b, i, now) && b1.timers == b0.timers && b1.acts == b0.acts
    ensures Heralds(b) <= Heralds(b1)
  {
    hide Shape, ServedLeft, ServedGone;
    forall e | e in Heralds(b) ensures e in Heralds(b0) {
      assert StillIdle(b0, b, e);
    }
  }

  /** A callback that ran: of which event, and from which queue. */
  datatype Call = Call(e: nat, pri: nat)

  function ActionsAt(script: seq<seq<Action>>, k: nat): (r: seq<Action>)
    ensures k < |script| ==> r == script[k]
    ensures k >= |script| ==> r == []
  {
    if k < |script| then script[k] else []
  }

  /** What happened, call by call: states[k] is the base when the k-th callback
      is chosen, states[k + 1] when it has returned. */
  ghost predicate Trace(states: seq<Base>, calls: seq<Call>, script: seq<seq<Action>>, now: int) {
    |states| == |calls| + 1 && forall k :: 0 <= k < |calls| ==> CallOk(states[k], calls[k], ActionsAt(script, k), now, states[k + 1])
  }

  /** The first event of the most urgent queue that is not empty is called. It
      leaves its queue, and then what its callback does happens to the queues and
      to the timeouts. */
  ghost predicate CallOk(b0: Base, call: Call, actions: seq<Action>, now: int, b: Base) {
    && Shape(b0) && AllAwake(b0) && Shape(b) && AllAwake(b) && SameEvents(b0, b)
    && MostUrgent(b0.acts, call.pri) && call.e == b0.acts.queues[call.pri][0]
    && A.Moves(b0.acts, Doing(b0, call.e, actions, now), b0.timers, b.acts)
    && if call.e in b0.timers then AfterServe(b0, b, call.e, now) else AfterCall(b0, b, call.e, actions, now)
  }

  /** The same events, with the same priorities. */
  ghost predicate SameEvents(b0: Base, b: Base) {
    && b.timers == b0.timers && b.internal == b0.internal && b.persist == b0.persist && b.times.on.Keys == b0.times.on.Keys
    && b.acts.pri == b0.acts.pri && |b.acts.queues| == |b0.acts.queues|
  }

  lemma CallIs(b0: Base, e: nat, pri: nat, actions: seq<Action>, now: int, b: Base)
    requires Inv(b0) && Inv(b) && SameSetup(b0, b) && Keys(b0) && Keys(b) && b.times.on.Keys == b0.times.on.Keys
    requires MostUrgent(b0.acts, pri) && e == b0.acts.queues[pri][0]
    requires A.Moves(b0.acts, Doing(b0, e, actions, now), b0.timers, b.acts)
    requires if e in b0.timers then AfterServe(b0, b, e, now) else AfterCall(b0, b, e, actions, now)
    ensures CallOk(b0, Call(e, pri), actions, now, b)
  {
    hide Shape, AllAwake, Doing, A.Moves, AfterServe, AfterCall;
  }

  /** Which priority runs does not matter. */
  lemma CallAnyRunning(b0: Base, b1: Base, call: Call, actions: seq<Action>, now: int, b: Base)
    requires SameButRunning(b0, b1) && CallOk(b1, call, actions, now, b)
    ensures CallOk(b0, call, actions, now, b)
  {
    hide Shape, AllAwake, A.Moves, AfterServe, AfterCall;
    RunningInv(b1, b0);
    Open(b0);
    Open(b1);
    Open(b);
    DoingAnyRunning(b0, b1, call.e, actions, now);
    A.MovesSame(b1.acts, b0.acts, Doing(b1, call.e, actions, now), b0.timers, b.acts, b.acts);
    hide Doing, Keys;
    if call.e in b0.timers {
      ServeAnyRunning(b0, b1, b, call.e, now);
    } else {
      AfterAnyRunning(b0, b1, b, call.e, actions, now);
    }
  }

  lemma DoingAnyRunning(b0: Base, b1: Base, e: nat, actions: seq<Action>, now: int)
    requires SameButRunning(b0, b1)
    ensures Doing(b0, e, actions, now) == Doing(b1, e, actions, now)
  {
    hide DuePrefix, MovesOf, A.Fires;
  }

  lemma ServeAnyRunning(b0: Base, b1: Base, b: Base, e: nat, now: int)
    requires Keys(b0) && Keys(b1) && Keys(b) && SameButRunning(b0, b1) && AfterServe(b1, b, e, now)
    ensures AfterServe(b0, b, e, now)
  {
    hide DuePrefix;
    forall x | x != e ensures ServedOne(b0, b, e, now, x) {
      assert ServedOne(b1, b, e, now, x);
    }
  }

  lemma AfterAnyRunning(b0: Base, b1: Base, b: Base, e: nat, actions: seq<Action>, now: int)
    requires Keys(b0) && Keys(b1) && Keys(b) && SameButRunning(b0, b1) && AfterCall(b1, b, e, actions, now)
    ensures AfterCall(b0, b, e, actions, now)
  {
    hide StatesAfter;
    StatesAnyRunning(b0, b1, b, e, actions, now);
    forall x | x !in b0.timers && x != e && Untouched(actions, x) ensures SameEvent(b0, b, x) {
      assert SameEvent(b1, b, x);
    }
  }

  lemma StatesAnyRunning(b0: Base, b1: Base, b: Base, e: nat, actions: seq<Action>, now: int)
    requires Keys(b0) && Keys(b1) && Keys(b) && SameButRunning(b0, b1) && StatesAfter(b1, b, e, actions, now)
    ensures StatesAfter(b0, b, e, actions, now)
  {
    hide AllActed, StateOf, StateTaken;
    KeysIo(b0);
    forall x | x in b0.times.on && x !in b0.timers
      ensures StateOf(b, x) == AllActed(StateTaken(b0, e, x), b0.io[x], actions, now, x)
    {
      TakenAnyRunning(b0, b1, e, x);
    }
  }

  lemma TakenAnyRunning(b0: Base, b1: Base, e: nat, x: nat)
    requires Keys(b0) && Keys(b1) && SameButRunning(b0, b1) && x in b0.times.on
    ensures StateTaken(b0, e, x) == StateTaken(b1, e, x)
  {
  }

  lemma TraceMore(states: seq<Base>, calls: seq<Call>, script: seq<seq<Action>>, now: int, b0: Base, call: Call,
      b: Base)
    requires Trace(states, calls, script, now) && CallOk(b0, call, ActionsAt(script, |calls|), now, b)
    requires SameButRunning(states[|calls|], b0)
    ensures Trace(states + [b], calls + [call], script, now)
  {
    hide CallOk;
    var states1, calls1 := states + [b], calls + [call];
    forall k | 0 <= k < |calls1| ensures CallOk(states1[k], calls1[k], ActionsAt(script, k), now, states1[k + 1]) {
      if k < |calls| {
        assert CallOk(states[k], calls[k], ActionsAt(script, k), now, states[k + 1]);
      } else {
        CallAnyRunning(states[k], b0, call, ActionsAt(script, k), now, b);
      }
    }
  }

  /** The callback of e makes x active. */
  ghost predicate Activates(b: Base, e: nat, actions: seq<Action>, now: int, x: nat) {
    if e in b.timers then DueIn(b, e, x, now) else exists late :: Activate(x, late) in actions
  }

  ghost predicate IsOn(b: Base, x: nat) {
    x in b.acts.on && b.acts.on[x]
  }

  /** An event that gets its callback twice was made active in between, by its
      own callback or a later one. */
  lemma ToldOnce(states: seq<Base>, calls: seq<Call>, script: seq<seq<Action>>, now: int, i: nat, k: nat)
    requires Trace(states, calls, script, now) && i < k < |calls| && calls[i].e == calls[k].e
    ensures exists j :: i <= j < k && Activates(states[j], calls[j].e, ActionsAt(script, j), now, calls[k].e)
  {
    hide CallOk, Activates;
    var x := calls[k].e;
    assert CallOk(states[i], calls[i], ActionsAt(script, i), now, states[i + 1]);
    assert CallOk(states[k], calls[k], ActionsAt(script, k), now, states[k + 1]);
    CalledOn(states[k], calls[k], ActionsAt(script, k), now, states[k + 1]);
    if !Activates(states[i], x, ActionsAt(script, i), now, x) {
      CalledOff(states[i], calls[i], ActionsAt(script, i), now, states[i + 1]);
      BecameOn(states, calls, script, now, i + 1, k, x);
    }
  }

  /** An event that gets its callback was active when callbacks started, or was
      made active since. */
  lemma ToldIfActive(states: seq<Base>, calls: seq<Call>, script: seq<seq<Action>>, now: int, k: nat)
    requires Trace(states, calls, script, now) && k < |calls|
    ensures IsOn(states[0], calls[k].e) ||
            exists j :: 0 <= j < k && Activates(states[j], calls[j].e, ActionsAt(script, j), now, calls[k].e)
  {
    hide CallOk, Activates;
    assert CallOk(states[k], calls[k], ActionsAt(script, k), now, states[k + 1]);
    CalledOn(states[k], calls[k], ActionsAt(script, k), now, states[k + 1]);
    if !IsOn(states[0], calls[k].e) {
      BecameOn(states, calls, script, now, 0, k, calls[k].e);
    }
  }

  lemma {:induction false} BecameOn(states: seq<Base>, calls: seq<Call>, script: seq<seq<Action>>, now: int, i: nat,
      k: nat, x: nat)
    requires Trace(states, calls, script, now) && i <= k <= |calls| && !IsOn(states[i], x) && IsOn(states[k], x)
    ensures exists j :: i <= j < k && Activates(states[j], calls[j].e, ActionsAt(script, j), now, x)
    decreases k - i
  {
    hide CallOk, Activates;
    if i < k && !Activates(states[i], calls[i].e, ActionsAt(script, i), now, x) {
      assert CallOk(states[i], calls[i], ActionsAt(script, i), now, states[i + 1]);
      StillOff(states[i], calls[i], ActionsAt(script, i), now, states[i + 1], x);
      BecameOn(states, calls, script, now, i + 1, k, x);
    }
  }

  /** What is called is active until then. */
  lemma CalledOn(b0: Base, call: Call, actions: seq<Action>, now: int, b: Base)
    requires CallOk(b0, call, actions, now, b)
    ensures IsOn(b0, call.e)
  {
    hide Shape, AllAwake, A.Moves, Doing, AfterServe, AfterCall;
    FirstActive(b0, call.pri);
  }

  lemma CalledOff(b0: Base, call: Call, actions: seq<Action>, now: int, b: Base)
    requires CallOk(b0, call, actions, now, b) && !Activates(b0, call.e, actions, now, call.e)
    ensures !IsOn(b, call.e)
  {
    hide Shape, AllAwake, A.Moves, AfterServe, AfterCall, A.Fires, DuePrefix, MovesOf, Activates, QueueOf;
    var ms := if call.e in b0.timers then A.Fires(DuePrefix(QueueOf(b0, call.e), b0.times.at, now)) else MovesOf(actions);
    ComesActivates(b0, call.e, actions, now, call.e);
    LeavesOff(b0.acts, call.e, ms, b0.timers, b.acts);
  }

  lemma StillOff(b0: Base, call: Call, actions: seq<Action>, now: int, b: Base, x: nat)
    requires CallOk(b0, call, actions, now, b) && !IsOn(b0, x) && !Activates(b0, call.e, actions, now, x)
    ensures !IsOn(b, x)
  {
    hide Shape, AllAwake, A.Moves, AfterServe, AfterCall, Doing, Activates;
    ComesActivates(b0, call.e, actions, now, x);
    StaysOff(b0.acts, Doing(b0, call.e, actions, now), b0.timers, b.acts, x);
  }

  /** Some move makes x active. */
  ghost predicate ComesIn(ms: seq<A.Move>, x: nat) {
    A.Comes(x, false) in ms || A.Comes(x, true) in ms
  }

  lemma {:induction false} StaysOff(a0: A.Actives, ms: seq<A.Move>, timers: seq<nat>, a: A.Actives, x: nat)
    requires A.Moves(a0, ms, timers, a) && !ComesIn(ms, x) && !(x in a0.on && a0.on[x])
    ensures !(x in a.on && a.on[x])
    decreases |ms|
  {
    hide A.Kept, A.Arrived;
    if ms != [] {
      var before, m := ms[..|ms| - 1], ms[|ms| - 1];
      var a1 :| A.Moves(a0, before, timers, a1) && A.Moved(a1, m, timers, a);
      StaysOff(a0, before, timers, a1, x);
      assert m in ms;
    }
  }

  lemma {:induction false} LeavesOff(a0: A.Actives, e: nat, ms: seq<A.Move>, timers: seq<nat>, a: A.Actives)
    requires A.Moves(a0, [A.Leaves(e)] + ms, timers, a) && !ComesIn(ms, e)
    ensures !(e in a.on && a.on[e])
    decreases |ms|
  {
    hide A.Kept, A.Arrived;
    var all := [A.Leaves(e)] + ms;
    var before, m := all[..|all| - 1], all[|all| - 1];
    var a1 :| A.Moves(a0, before, timers, a1) && A.Moved(a1, m, timers, a);
    if ms != [] {
      assert before == [A.Leaves(e)] + ms[..|ms| - 1] && m in ms;
      LeavesOff(a0, e, ms[..|ms| - 1], timers, a1);
    }
  }

  lemma ComesActivates(b: Base, e: nat, actions: seq<Action>, now: int, x: nat)
    ensures ComesIn(Doing(b, e, actions, now), x) ==> Activates(b, e, actions, now, x)
  {
    hide A.Fires, DuePrefix, MovesOf, QueueOf;
    if e in b.timers {
      FiresComes(DuePrefix(QueueOf(b, e), b.times.at, now), x);
      DuePrefixIn(QueueOf(b, e), b.times.at, now, x);
    } else {
      MovesOfComes(actions, x);
    }
  }

  lemma {:induction false} FiresComes(q: seq<nat>, x: nat)
    ensures ComesIn(A.Fires(q), x) ==> x in q
  {
    if q != [] {
      FiresComes(q[..|q| - 1], x);
    }
  }

  lemma {:induction false} DuePrefixIn(q: seq<nat>, at: map<nat, int>, now: int, x: nat)
    ensures x in DuePrefix(q, at, now) ==> x in q && x in at && at[x] <= now
  {
    if q != [] {
      DuePrefixIn(q[1..], at, now, x);
    }
  }

  lemma {:induction false} MovesOfComes(actions: seq<Action>, x: nat)
    ensures ComesIn(MovesOf(actions), x) ==> exists late :: Activate(x, late) in actions
  {
    if actions != [] {
      var before, a := actions[..|actions| - 1], actions[|actions| - 1];
      MovesOfComes(before, x);
      if ComesIn(MovesOf(before), x) {
        var late :| Activate(x, late) in before;
        assert Activate(x, late) in actions;
      } else if ComesIn(MoveOf(a), x) {
        assert a == Activate(x, a.late) && a in actions;
      }
    }
  }

  lemma TraceNone(b: Base, script: seq<seq<Action>>, now: int)
    ensures Trace([b], [], script, now)
  {
  }

  lemma TraceLength(states: seq<Base>, calls: seq<Call>, script: seq<seq<Action>>, now: int)
    requires Trace(states, calls, script, now)
    ensures |states| == |calls| + 1
  {
  }

  /** But for the priority that is running. */
  predicate SameButRunning(b0: Base, b: Base) {
    b == b0.(acts := b0.acts.(running := b.acts.running))
  }

  /** One turn of the loop, added to the trace; its callback does what the script
      has for it. */
  method RunCall(b0: Base, pri: nat, script: seq<seq<Action>>, calls: seq<Call>, now: int, ghost states0: seq<Base>)
    returns (b: Base, e: nat, ghost states: seq<Base>)
    requires Inv(b0) && b0.serving == -1 && b0.acts.running == pri && !b0.acts.cont && pri < |b0.acts.queues|
    requires b0.acts.queues[pri] != [] && Allowed(b0, ActionsAt(script, |calls|))
    requires Trace(states0, calls, script, now) && SameButRunning(states0[|calls|], b0)
    ensures Inv(b) && b.serving == -1 && SameSetup(b0, b) && e == b0.acts.queues[pri][0] && e in b.internal
    ensures Trace(states, calls + [Call(e, pri)], script, now) && states == states0 + [b]
    ensures e in b0.timers ==> Heralds(b) < Heralds(b0)
    ensures e !in b0.timers && ActionsAt(script, |calls|) == [] ==>
      && Heralds(b) == Heralds(b0) && b.acts.cont == b0.acts.cont && pri < |b.acts.queues|
      && b.acts.queues[pri] == b0.acts.queues[pri][1..] && |b.acts.queues[pri]| < |b0.acts.queues[pri]|
    ensures pri == 0 ==> b.acts.cont == b0.acts.cont
    ensures b.internal[e] ==> pri == 0
    ensures pri > 0 ==> !b.internal[e] && e !in b0.timers
  {
    hide Shape, AllAwake, A.Urgent, Allowed, Heralds, Keys, RanQuietly, Trace, CallOk, Doing, A.Moves, AfterCall,
         AfterServe;
    StillUrgent(b0, pri);
    InternalFirst(b0, pri);
    if pri > 0 {
      NotInternal(b0, pri);
    }
    b, e := RunOne(b0, pri, ActionsAt(script, |calls|), now);
    if e !in b0.timers && ActionsAt(script, |calls|) == [] {
      QuietQueue(b0, b, e, pri);
    }
    CallIs(b0, e, pri, ActionsAt(script, |calls|), now, b);
    TraceMore(states0, calls, script, now, b0, Call(e, pri), b);
    states := states0 + [b];
  }

  /** The calls since `calls0` are from queue pri, the first one for `first`. */
  ghost predicate OnePass(calls0: seq<Call>, calls: seq<Call>, pri: nat, first: nat) {
    && |calls0| <= |calls| && calls0 == calls[..|calls0|]
    && (forall k :: |calls0| <= k < |calls| ==> calls[k].pri == pri)
    && (|calls| > |calls0| ==> calls[|calls0|].e == first)
  }

  lemma OnePassNone(calls: seq<Call>, pri: nat, first: nat)
    ensures OnePass(calls, calls, pri, first)
  {
  }

  lemma OnePassMore(calls0: seq<Call>, calls: seq<Call>, pri: nat, first: nat, e: nat)
    requires OnePass(calls0, calls, pri, first) && (|calls| == |calls0| ==> e == first)
    ensures OnePass(calls0, calls + [Call(e, pri)], pri, first)
  {
  }

  /** event_process_active_single_queue; the k-th call of this pass does
      script[k]. Returns also how many were not internal. */
  method ProcessSingleQueue(b0: Base, pri: nat, script: seq<seq<Action>>, calls0: seq<Call>, now: int,
      ghost states0: seq<Base>)
    returns (b: Base, calls: seq<Call>, count: nat, ghost states: seq<Base>)
    requires Inv(b0) && b0.serving == -1 && b0.acts.running == pri && MostUrgent(b0.acts, pri) && !b0.acts.cont
    requires forall actions :: actions in script ==> Allowed(b0, actions)
    requires Trace(states0, calls0, script, now) && SameButRunning(states0[|calls0|], b0)
    ensures Inv(b) && b.serving == -1 && SameSetup(b0, b)
    ensures Trace(states, calls, script, now) && states[0] == states0[0] && states[|calls|] == b
    ensures |calls0| < |calls| && OnePass(calls0, calls, pri, b0.acts.queues[pri][0])
    ensures count > 0 || (pri == 0 && b.acts.queues[0] == [] && !b.acts.cont)
    ensures b.acts.queues[pri] == [] || b.acts.cont
    ensures Tallied(b0.internal, calls, |calls0|, count)
    ensures script == [] && pri > 0 ==>
      b.acts.queues[pri] == [] && !b.acts.cont && Ran(b0.acts.queues[pri], pri, calls[|calls0|..]) && count == |calls| - |calls0|
  {
    hide Shape, AllAwake, A.Urgent, Allowed, Heralds, Ran, RanSome, Trace, Tallied, OnePass;
    b, calls, count, states := b0, calls0, 0, states0;
    ghost var queue := b0.acts.queues[pri];
    TraceLength(states, calls, script, now);
    TalliedNone(b0.internal, calls);
    OnePassNone(calls, pri, queue[0]);
    RanNone(queue, pri, calls0);
    while b.acts.queues[pri] != []
      invariant Inv(b) && b.serving == -1 && SameSetup(b0, b) && !b.acts.cont
      invariant |calls0| <= |calls| && OnePass(calls0, calls, pri, queue[0])
      invariant Trace(states, calls, script, now)
      invariant |states| == |calls| + 1 && states[0] == states0[0] && SameButRunning(states[|calls|], b)
      invariant if |calls| > |calls0| then states[|calls|] == b && (count > 0 || pri == 0) else b == b0
      invariant Tallied(b0.internal, calls, |calls0|, count)
      invariant script == [] && pri > 0 ==> RanSome(queue, pri, calls[|calls0|..], b.acts.queues[pri], count)
      decreases if |calls| < |script| then |script| - |calls| else 0, Heralds(b), |b.acts.queues[pri]|
    {
      NothingAllowed(b0);
      StillAllowed(b0, b, ActionsAt(script, |calls|));
      ghost var b1, n1 := b, count;
      var e;
      b, e, states := RunCall(b, pri, script, calls, now, states);
      if !b.internal[e] {
        count := count + 1;
      }
      TalliedMore(b0.internal, calls, |calls0|, n1, Call(e, pri));
      OnePassMore(calls0, calls, pri, queue[0], e);
      if script == [] && pri > 0 {
        RanOneMore(queue, pri, calls0, calls, b1.acts.queues[pri], n1);
      }
      calls := calls + [Call(e, pri)];
      if b.acts.cont {
        break;
      }
    }
    if script == [] && pri > 0 {
      RanAll(queue, pri, calls[|calls0|..], count);
    }
  }

  /** Nothing is counted from the so many-th call on only if those are callbacks
      of internal events. */
  ghost predicate Tallied(internal: map<nat, bool>, calls: seq<Call>, from: nat, count: nat) {
    count == 0 <==> forall k :: from <= k < |calls| ==> IsInternal(internal, calls[k].e)
  }

  predicate IsInternal(internal: map<nat, bool>, e: nat) {
    e in internal && internal[e]
  }

  lemma TalliedMore(internal: map<nat, bool>, calls: seq<Call>, from: nat, count: nat, call: Call)
    requires Tallied(internal, calls, from, count) && from <= |calls|
    ensures Tallied(internal, calls + [call], from, count + if IsInternal(internal, call.e) then 0 else 1)
  {
    var calls1 := calls + [call];
    assert calls1[|calls|] == call;
    assert forall k :: from <= k < |calls| ==> calls1[k] == calls[k];
  }

  lemma TalliedNone(internal: map<nat, bool>, calls: seq<Call>)
    ensures Tallied(internal, calls, |calls|, 0)
  {
  }

  lemma TalliedJoin(internal: map<nat, bool>, calls0: seq<Call>, calls: seq<Call>, count: nat)
    requires Tallied(internal, calls0, 0, 0) && |calls0| <= |calls| && calls0 == calls[..|calls0|]
    requires Tallied(internal, calls, |calls0|, count)
    ensures Tallied(internal, calls, 0, count)
  {
    assert forall k :: 0 <= k < |calls0| ==> calls0[k] == calls[k];
  }

  /** The callbacks of the events of a queue, in order. */
  ghost predicate Ran(queue: seq<nat>, pri: nat, calls: seq<Call>) {
    |calls| == |queue| && forall k :: 0 <= k < |queue| ==> calls[k] == Call(queue[k], pri)
  }

  /** So many were called, and the others are left. */
  ghost predicate RanSome(queue: seq<nat>, pri: nat, calls: seq<Call>, left: seq<nat>, count: nat) {
    |calls| == count <= |queue| && left == queue[count..] && Ran(queue[..count], pri, calls)
  }

  lemma RanNone(queue: seq<nat>, pri: nat, calls: seq<Call>)
    ensures RanSome(queue, pri, calls[|calls|..], queue, 0)
  {
  }

  lemma RanAll(queue: seq<nat>, pri: nat, calls: seq<Call>, count: nat)
    requires RanSome(queue, pri, calls, [], count)
    ensures Ran(queue, pri, calls) && count == |calls|
  {
    assert queue[..|queue|] == queue;
  }

  lemma RanOneMore(queue: seq<nat>, pri: nat, calls0: seq<Call>, calls: seq<Call>, left: seq<nat>, count: nat)
    requires |calls0| <= |calls| && left != [] && RanSome(queue, pri, calls[|calls0|..], left, count)
    ensures RanSome(queue, pri, (calls + [Call(left[0], pri)])[|calls0|..], left[1..], count + 1)
  {
    assert (calls + [Call(left[0], pri)])[|calls0|..] == calls[|calls0|..] + [Call(left[0], pri)];
  }

  lemma QuietQueue(b0: Base, b: Base, e: nat, pri: nat)
    requires Shape(b0) && Shape(b) && RanQuietly(b0, b, e, pri)
    ensures pri < |b0.acts.queues| && pri < |b.acts.queues| && b0.acts.queues[pri] != []
    ensures b.acts.queues[pri] == b0.acts.queues[pri][1..] && |b.acts.queues[pri]| < |b0.acts.queues[pri]|
    ensures b.acts.cont == b0.acts.cont
  {
  }

  /** Internal events, and with them the timeout events, are in queue 0. */
  lemma NotInternal(b: Base, pri: nat)
    requires Shape(b) && 0 < pri < |b.acts.queues| && b.acts.queues[pri] != []
    ensures b.acts.queues[pri][0] in b.internal && !b.internal[b.acts.queues[pri][0]] &&
      b.acts.queues[pri][0] !in b.timers
  {
    hide T.Inv, A.Inv, InsertedOk, Distinct, Counted;
    InternalFirst(b, pri);
    forall j | 0 <= j < |b.timers| ensures b.timers[j] != b.acts.queues[pri][0] {
      assert TimerOk(b, j);
    }
  }

  lemma StillUrgent(b: Base, pri: nat)
    requires A.Urgent(b.acts) && !b.acts.cont && b.acts.running == pri && pri < |b.acts.queues| &&
      b.acts.queues[pri] != []
    ensures MostUrgent(b.acts, pri)
  {
  }

  lemma NothingAllowed(b: Base)
    ensures Allowed(b, [])
  {
  }

  /** Only queue 0 holds internal events. */
  lemma InternalFirst(b: Base, pri: nat)
    requires Shape(b) && pri < |b.acts.queues| && b.acts.queues[pri] != []
    ensures b.acts.queues[pri][0] in b.internal
    ensures b.internal[b.acts.queues[pri][0]] ==> pri == 0
  {
    hide T.Inv, A.Inv, InsertedOk, Distinct, Counted;
    FirstActive(b, pri);
  }

  /** The loop body of event_process_active: a queue that is not empty runs. */
  method RunQueue(b0: Base, i: nat, script: seq<seq<Action>>, calls0: seq<Call>, now: int, ghost states0: seq<Base>)
    returns (b: Base, calls: seq<Call>, count: nat, ghost states: seq<Base>)
    requires Inv(b0) && b0.serving == -1 && !b0.acts.cont && MostUrgent(b0.acts, i)
    requires AllAllowed(b0, script)
    requires Trace(states0, calls0, script, now) && SameButRunning(states0[|calls0|], b0)
    ensures Inv(b) && b.serving == -1 && |b.acts.queues| == |b0.acts.queues| && b.internal == b0.internal
    ensures AllAllowed(b, script)
    ensures Trace(states, calls, script, now) && states[0] == states0[0] && SameButRunning(states[|calls|], b)
    ensures |calls0| < |calls| && OnePass(calls0, calls, i, b0.acts.queues[i][0])
    ensures count > 0 || (i == 0 && b.acts.queues[0] == [] && !b.acts.cont)
    ensures b.acts.queues[i] == [] || b.acts.cont
    ensures Tallied(b0.internal, calls0, 0, 0) ==> Tallied(b0.internal, calls, 0, count)
    ensures script == [] && i > 0 ==>
      b.acts.queues[i] == [] && Ran(b0.acts.queues[i], i, calls[|calls0|..]) && count == |calls| - |calls0|
  {
    hide Shape, AllAwake, A.Urgent, Allowed, Ran, Trace, Tallied, OnePass;
    b := b0.(acts := b0.acts.(running := i));
    Runs(b0, b, i);
    forall actions | actions in script ensures Allowed(b, actions) {
      AllowedRunning(b0, b, actions);
    }
    ghost var b1 := b;
    b, calls, count, states := ProcessSingleQueue(b, i, script, calls0, now, states0);
    forall actions | actions in script ensures Allowed(b, actions) {
      StillAllowed(b1, b, actions);
    }
    OnePassPrefix(calls0, calls, i, b0.acts.queues[i][0]);
    if Tallied(b0.internal, calls0, 0, 0) {
      TalliedJoin(b0.internal, calls0, calls, count);
    }
  }

  lemma OnePassPrefix(calls0: seq<Call>, calls: seq<Call>, pri: nat, first: nat)
    requires OnePass(calls0, calls, pri, first)
    ensures |calls0| <= |calls| && calls0 == calls[..|calls0|]
  {
  }

  ghost predicate AllAllowed(b: Base, script: seq<seq<Action>>) {
    forall actions :: actions in script ==> Allowed(b, actions)
  }

  /** In the middle of event_process_active, before queue number i. */
  ghost predicate Sofar(a0: A.Actives, a: A.Actives, calls: seq<Call>, i: nat) {
    && |a.queues| == |a0.queues| && i <= |a.queues|
    && (forall q :: 0 <= q < i ==> a.queues[q] == [])
    && (calls == [] ==> a.queues == a0.queues)
    && (calls != [] ==> i > 0 && MostUrgent(a0, 0) && calls[0] == Call(a0.queues[0][0], 0))
    && forall k :: 0 <= k < |calls| ==> calls[k].pri == 0
  }

  /** What event_process_active has done, at the end. */
  ghost predicate PassIs(a0: A.Actives, a: A.Actives, calls: seq<Call>, count: nat, quiet: bool) {
    && (forall q :: 0 <= q < |a0.queues| && MostUrgent(a0, q) ==> calls != [] && calls[0] == Call(a0.queues[q][0], q))
    && (count == 0 ==> forall q :: 0 <= q < |a.queues| ==> a.queues[q] == [])
    && (calls != [] ==>
          var pri := calls[|calls| - 1].pri; pri < |a.queues| && (a.queues[pri] == [] || a.cont))
    && (forall k :: 0 <= k < |calls| && calls[k].pri != 0 ==> calls[k].pri == calls[|calls| - 1].pri)
    && (quiet ==> forall q :: 0 < q < |a0.queues| && MostUrgent(a0, q) ==>
          Ran(a0.queues[q], q, calls) && count == |calls| && q < |a.queues| && a.queues[q] == [])
  }

  lemma SofarNone(a: A.Actives)
    ensures Sofar(a, a, [], 0)
  {
  }

  lemma SofarMore(a0: A.Actives, a: A.Actives, calls: seq<Call>, i: nat)
    requires Sofar(a0, a, calls, i) && i < |a.queues| && a.queues[i] == []
    ensures Sofar(a0, a, calls, i + 1)
  {
  }

  lemma SofarUrgent(a0: A.Actives, a: A.Actives, calls: seq<Call>, i: nat)
    requires Sofar(a0, a, calls, i) && i < |a.queues| && a.queues[i] != []
    ensures MostUrgent(a, i)
  {
  }

  lemma SofarFirst(a0: A.Actives, a1: A.Actives, calls1: seq<Call>, a: A.Actives, calls: seq<Call>)
    requires Sofar(a0, a1, calls1, 0) && MostUrgent(a1, 0) && OnePass(calls1, calls, 0, a1.queues[0][0])
    requires |a.queues| == |a1.queues| && |calls1| < |calls| && a.queues[0] == []
    ensures Sofar(a0, a, calls, 1)
  {
    OnePassPrefix(calls1, calls, 0, a1.queues[0][0]);
  }

  lemma PassBroken(a0: A.Actives, a1: A.Actives, calls1: seq<Call>, i: nat, a: A.Actives, calls: seq<Call>, count: nat,
      quiet: bool)
    requires Sofar(a0, a1, calls1, i) && MostUrgent(a1, i) && OnePass(calls1, calls, i, a1.queues[i][0])
    requires |a.queues| == |a1.queues| && |calls1| < |calls| && count > 0 && (a.queues[i] == [] || a.cont)
    requires quiet && i > 0 ==>
      a.queues[i] == [] && Ran(a1.queues[i], i, calls[|calls1|..]) && count == |calls| - |calls1|
    ensures PassIs(a0, a, calls, count, quiet)
  {
    hide Ran;
    OnePassPrefix(calls1, calls, i, a1.queues[i][0]);
    assert calls1 == [] ==> calls[|calls1|..] == calls;
  }

  lemma PassWhole(a0: A.Actives, a: A.Actives, calls: seq<Call>, quiet: bool)
    requires Sofar(a0, a, calls, |a0.queues|)
    ensures PassIs(a0, a, calls, 0, quiet)
  {
    hide Ran;
  }

  lemma PassMeans(a0: A.Actives, a1: A.Actives, a: A.Actives, calls: seq<Call>, count: nat, quiet: bool)
    requires PassIs(a0, a1, calls, count, quiet) && a.queues == a1.queues && a.cont == a1.cont
    ensures PassIs(a0, a, calls, count, quiet)
  {
    hide Ran, MostUrgent;
  }

  /** event_process_active: the most urgent events that are active, and no
      others, get their callbacks run. */
  method ProcessActive(b0: Base, script: seq<seq<Action>>, now: int)
    returns (b: Base, calls: seq<Call>, count: nat, ghost states: seq<Base>)
    requires Inv(b0) && b0.serving == -1 && b0.acts.running == -1 && !b0.acts.cont
    requires AllAllowed(b0, script)
    ensures Inv(b) && b.serving == -1 && b.acts.running == -1
    ensures Trace(states, calls, script, now) && states[0] == b0 && SameButRunning(states[|calls|], b)
    ensures Tallied(b.internal, calls, 0, count) && PassIs(b0.acts, b.acts, calls, count, script == [])
  {
    hide Shape, AllAwake, A.Urgent, AllAllowed, Ran, Trace, Tallied, Sofar, PassIs, MostUrgent, OnePass;
    b, calls, count, states := b0, [], 0, [b0];
    TraceNone(b0, script, now);
    TalliedNone(b0.internal, []);
    SofarNone(b0.acts);
    for i := 0 to |b.acts.queues|
      invariant Inv(b) && b.serving == -1 && !b.acts.cont && |b.acts.queues| == |b0.acts.queues|
      invariant Trace(states, calls, script, now) && |states| == |calls| + 1 && states[0] == b0
      invariant SameButRunning(states[|calls|], b)
      invariant AllAllowed(b, script) && Sofar(b0.acts, b.acts, calls, i)
      invariant count == 0 && b.internal == b0.internal && Tallied(b0.internal, calls, 0, 0)
    {
      if b.acts.queues[i] != [] {
        ghost var c1, a1 := calls, b.acts;
        SofarUrgent(b0.acts, b.acts, calls, i);
        b, calls, count, states := RunQueue(b, i, script, calls, now, states);
        TraceLength(states, calls, script, now);
        if count > 0 {
          PassBroken(b0.acts, a1, c1, i, b.acts, calls, count, script == []);
          break;
        }
        SofarFirst(b0.acts, a1, c1, b.acts, calls);
      } else {
        SofarMore(b0.acts, b.acts, calls, i);
      }
    }
    if count == 0 {
      PassWhole(b0.acts, b.acts, calls, script == []);
    }
    ghost var b3 := b;
    b := b.(acts := b.acts.(running := -1));
    Rests(b3, b);
    PassMeans(b0.acts, b3.acts, b.acts, calls, count, script == []);
  }

  lemma AllowedRunning(b0: Base, b: Base, actions: seq<Action>)
    requires Allowed(b0, actions) && b.internal == b0.internal && b.timers == b0.timers
    ensures Allowed(b, actions)
  {
  }

  /** A queue starts to run when those before it are empty. */
  lemma Runs(b0: Base, b: Base, i: nat)
    requires Inv(b0) && b == b0.(acts := b0.acts.(running := i)) && forall q :: 0 <= q < i && q < |b0.acts.queues| ==>
      b0.acts.queues[q] == []
    ensures Inv(b)
  {
    RunningInv(b0, b);
  }

  lemma Rests(b0: Base, b: Base)
    requires Inv(b0) && b == b0.(acts := b0.acts.(running := -1))
    ensures Inv(b)
  {
    RunningInv(b0, b);
  }

  lemma RunningInv(b0: Base, b: Base)
    requires Shape(b0) && AllAwake(b0) && b == b0.(acts := b0.acts.(running := b.acts.running))
    ensures Shape(b) && AllAwake(b)
  {
    hide T.Inv, A.Urgent, Distinct, Counted;
    SameInserted(b0, b);
    RunningActs(b0.acts, b.acts);
    forall j | 0 <= j < |b.timers| ensures TimerOk(b, j) && Awake(b, j) {
      assert TimerOk(b0, j) && Awake(b0, j);
    }
  }

  lemma RunningActs(a0: A.Actives, a: A.Actives)
    requires A.Inv(a0) && a == a0.(running := a.running)
    ensures A.Inv(a)
  {
    forall e | e in a.on ensures A.Placed(a, e) {
      assert A.Placed(a0, e);
    }
    forall q | 0 <= q < |a.queues| ensures A.QueueOk(a, q) {
      assert A.QueueOk(a0, q);
    }
  }

  lemma ReducedSame(b0: Base, b: Base, e: nat)
    requires Shape(b0) && Shape(b) && Reduced(b0, b, e)
    ensures forall x :: x != e ==> SameEvent(b0, b, x)
  {
  }

  lemma KeysOf(b: Base)
    requires Shape(b)
    ensures T.Keys(b.times) && A.Keys(b.acts) && b.times.on.Keys == b.acts.on.Keys
  {
  }
}
