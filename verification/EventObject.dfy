/** The event_base object and the calls that change it. */
module EventObject {
  import opened Lists
  import opened EventBase
  import opened Options
  import T = EventTimes
  import A = EventActives
  import L = EventLoop

  class LibeventBase {
    var state: Base

    ghost predicate Valid()
      reads this
    {
      Inv(state) && state.serving == -1 && state.acts.running == -1
    }

    /** When each event with a timeout is due. */
    ghost function Due(): map<nat, int>
      reads this
      requires Valid()
    {
      T.Due(state.times)
    }

    /** The events that are active. */
    ghost function Active(): set<nat>
      reads this
    {
      A.On(state.acts.on)
    }

    /** A base with these events, none of them added yet, and a common timeout
        queue for each of `timers`. */
    constructor (pri: map<nat, nat>, internal: map<nat, bool>, io: map<nat, bool>, persist: map<nat, bool>,
                 timers: seq<nat>, priorities: nat, now: int)
      requires pri.Keys == internal.Keys == io.Keys == persist.Keys
      requires Distinct(timers) && forall e :: e in timers ==> e in internal && internal[e] && !persist[e]
      requires forall e :: e in pri ==> pri[e] < priorities && (internal[e] ==> pri[e] == 0)
      ensures Valid() && Due() == map[] && Active() == {}
      ensures state.timers == timers && state.internal == internal && state.io == io && state.persist == persist
      ensures state.acts.pri == pri && !state.acts.cont
    {
      var off := map e | e in pri :: false;
      var zero := map e | e in pri :: 0;
      var times := T.Times(off, zero, zero, {}, seq(|timers|, _ => []));
      var acts := A.Actives(off, off, pri, seq(priorities, _ => []), -1, false, 0);
      state := Base(times, acts, off, [], internal, io, persist, timers, 0, -1, now);
      new;
      NewTimes(times);
      NewActives(acts);
      NewBase(state);
    }

    method Add(e: nat, tv: Option<Tv>, now: int, evmapOk: bool) returns (res: int)
      requires Valid() && e in state.io && e !in state.timers
      modifies this
      ensures Valid() && state.timers == old(state.timers) && state.internal == old(state.internal)
      ensures e in old(state).inserted && e in old(state).acts.on
      ensures res == if old(state).io[e] && !old(state).inserted[e] && !old(state).acts.on[e] && !evmapOk then -1 else 0
      ensures res == -1 ==> state == old(state)
      ensures res == 0 && tv.Some? ==> e in Due() && Due()[e] == now + tv.value.usec
      ensures forall x :: x !in state.timers && x != e ==> SameEvent(old(state), state, x)
      ensures Keys(old(state)) && Keys(state) && L.ActsAs(old(state), state, [L.Add(e, tv, false, evmapOk)], now)
      ensures A.Moves(old(state.acts), L.MoveOf(L.Add(e, tv, false, evmapOk)), state.timers, state.acts)
    {
      hide Shape, AllAwake, A.Urgent, SameEvent, Calmer, L.ActsAs, A.Moves, L.MoveOf, A.Inv, T.Inv, InsertedOk, Keys,
           A.Keys, L.Added;
      ghost var b0 := state;
      KnownAdd(b0, e);
      state, res := EventBase.Add(state, e, tv, false, now, evmapOk);
      Open(state);
      AddedIs(b0, state, e, tv, res, now, evmapOk);
      L.AddedActs(b0, state, L.Add(e, tv, false, evmapOk), res, now);
    }

    method Del(e: nat)
      requires Valid() && e in state.times.on && e !in state.timers
      modifies this
      ensures Valid() && state.timers == old(state.timers)
      ensures e in state.times.on && !state.times.on[e] && !state.acts.on[e] && !state.inserted[e]
      ensures forall x :: x != e ==> SameEvent(old(state), state, x)
      ensures Keys(old(state)) && Keys(state) && L.ActsAs(old(state), state, [L.Del(e)], 0)
      ensures A.Moves(old(state.acts), [A.Leaves(e)], state.timers, state.acts)
    {
      hide Shape, AllAwake, A.Urgent, SameEvent, Reduced, L.ActsAs, A.Moves, A.Moved;
      ghost var b0 := state;
      Open(b0);
      state := EventDel(state, e);
      Open(state);
      L.DeletedActs(b0, state, L.Del(e), 0);
      L.ReducedSetup(b0, state, e);
      L.ReducedSame(b0, state, e);
    }

    /** event_active */
    method Activate(e: nat, late: bool)
      requires Valid() && e in state.acts.on
      modifies this
      ensures Valid() && Active() == old(Active()) + {e} && Due() == old(Due())
      ensures Keys(old(state)) && Keys(state) && L.ActsAs(old(state), state, [L.Activate(e, late)], 0)
      ensures A.Moves(old(state.acts), [A.Comes(e, late)], state.timers, state.acts)
    {
      hide Shape, AllAwake, A.Urgent, L.ActsAs, A.Moves, A.Moved, A.Inv, T.Inv, InsertedOk;
      ghost var b0 := state;
      Open(b0);
      state := ActiveNolock(state, e, late);
      Open(state);
      L.ActivatedActs(b0, state, L.Activate(e, late), 0);
      L.ActivatedAwake(b0, state, e);
    }

    /** How long the loop may wait. */
    method TimeoutNext(now: int) returns (wait: Option<int>)
      requires Valid()
      ensures state.acts.count == 0 ==> L.NotOverslept(state, now, wait)
      ensures wait.Some? ==> wait.value >= 0
    {
      wait := L.TimeoutNext(state, now);
    }

    method TimeoutCorrect(now: int)
      requires Valid()
      modifies this
      ensures Valid() && state.last == now && Active() == old(Active())
      ensures Due().Keys == old(Due()).Keys
      ensures forall e :: e in Due() ==>
        Due()[e] == old(Due())[e] - if now < old(state.last) then old(state.last) - now else 0
    {
      hide Shape, AllAwake, A.Urgent;
      L.KeysOf(state);
      ghost var b0 := state;
      state := L.TimeoutCorrect(state, now);
    }

    method TimeoutProcess(now: int)
      requires Valid()
      modifies this
      ensures Valid()
      ensures forall e :: e in old(state.times.heap) && e in old(state.times.at) && old(state.times.at)[e] <= now ==>
        e in Active()
      ensures forall e :: e in state.times.heap ==> e in state.times.at && state.times.at[e] > now
      ensures forall e :: !Expiring(old(state), e, now) ==> SameEvent(old(state), state, e)
    {
      hide Shape, AllAwake, A.Urgent, SameEvent, T.Sorted, Distinct, A.Moves;
      HeapKnown(state);
      ghost var fired;
      state, fired := EventBase.TimeoutProcess(state, now);
    }

    /** event_base_loop up to the poll: how long that may take. */
    method Prepare(now: int) returns (wait: Option<int>)
      requires Valid()
      modifies this
      ensures Valid() && state == old(state).(times := state.times, acts := old(state.acts).(cont := false), last := now)
      ensures state.times == old(state.times).(at := state.times.at)
      ensures Due().Keys == old(Due()).Keys
      ensures forall e :: e in Due() ==>
        Due()[e] == old(Due())[e] - if now < old(state.last) then old(state.last) - now else 0
      ensures if state.acts.count == 0 then L.NotOverslept(state, now, wait) else wait == Some(0)
    {
      hide Shape, AllAwake, A.Urgent, L.NotOverslept;
      ghost var b0 := state;
      state := state.(acts := state.acts.(cont := false));
      Continued(b0, state);
      L.KeysOf(state);
      ghost var b1 := state;
      state := L.TimeoutCorrect(state, now);
      L.KeysOf(state);
      Corrected(b1, state, now);
      if state.acts.count == 0 {
        wait := L.TimeoutNext(state, now);
      } else {
        wait := Some(0);
      }
    }

    /** event_base_loop after the poll, in which the kernel reported `ready`; what
        is due by `now` becomes active in the order of `fired`. */
    method Dispatched(last: int, now: int, ready: seq<nat>, script: seq<seq<L.Action>>)
      returns (calls: seq<L.Call>, ghost fired: seq<nat>, ghost states: seq<Base>)
      requires Valid() && !state.acts.cont && forall e :: e in ready ==> e in state.acts.on
      requires L.AllAllowed(state, script)
      modifies this
      ensures Valid()
      ensures L.Trace(states, calls, script, now) && L.SameButRunning(states[|calls|], state)
      ensures Inv(states[0]) && Collected(old(state), states[0], ready, fired, now) && Ended(states[0], calls, state)
    {
      hide Shape, AllAwake, A.Urgent, L.AllAllowed, L.Ran, L.Trace, L.Tallied, Collected;
      ghost var b0 := state;
      state, fired := Collect(state, last, now, ready);
      states, calls := [state], [];
      SameAllowed(b0, state, script);
      if state.acts.count > 0 {
        var count: nat;
        state, calls, count, states := L.ProcessActive(state, script, now);
        TalliedIs(state.internal, calls, count);
      } else {
        L.TraceNone(state, script, now);
        NoneOnQueues(state);
      }
    }

    /** One turn of event_base_loop: the clock is corrected at `now`, the kernel
        is polled for at most `wait`, and then, unless nothing is left to wait
        for, what it reports and what is due by `later` is processed. The base is
        `polled` at the time of the poll, and states[0] when callbacks start. */
    method LoopTurn(now: int, last: int, later: int, ready: seq<nat>, script: seq<seq<L.Action>>)
      returns (idle: bool, wait: Option<int>, calls: seq<L.Call>, ghost polled: Base, ghost fired: seq<nat>, ghost states: seq<Base>)
      requires Valid() && forall e :: e in ready ==> e in state.acts.on
      requires L.AllAllowed(state, script)
      modifies this
      ensures Valid() && Inv(polled) && T.Due(polled.times).Keys == old(Due()).Keys
      ensures polled == old(state).(times := polled.times, acts := old(state.acts).(cont := false), last := now)
      ensures polled.times == old(state.times).(at := polled.times.at)
      ensures forall e :: e in T.Due(polled.times) ==>
        T.Due(polled.times)[e] == old(Due())[e] - if now < old(state.last) then old(state.last) - now else 0
      ensures if polled.acts.count == 0 then L.NotOverslept(polled, now, wait) else wait == Some(0)
      ensures idle <==> polled.count <= 0 && polled.acts.count == 0
      ensures idle ==> calls == [] && state == polled
      ensures !idle ==>
        && L.Trace(states, calls, script, later) && L.SameButRunning(states[|calls|], state)
        && Inv(states[0]) && Collected(polled, states[0], ready, fired, later) && Ended(states[0], calls, state)
    {
      hide Shape, AllAwake, A.Urgent, L.AllAllowed, L.Trace, L.NotOverslept, T.Due, L.SameButRunning, Collected, Ended;
      ghost var b0 := state;
      wait := Prepare(now);
      polled, calls, fired, states := state, [], [], [];
      idle := state.count <= 0 && state.acts.count == 0;
      if !idle {
        SameAllowed(b0, state, script);
        calls, fired, states := Dispatched(last, later, ready, script);
      }
    }

    /** Runs the most urgent active events; the k-th callback does script[k]. */
    method ProcessActive(script: seq<seq<L.Action>>, now: int)
      returns (calls: seq<L.Call>, count: nat, ghost states: seq<Base>)
      requires Valid() && !state.acts.cont
      requires L.AllAllowed(state, script)
      modifies this
      ensures Valid()
      ensures L.Trace(states, calls, script, now) && states[0] == old(state) && L.SameButRunning(states[|calls|], state)
      ensures forall q :: 0 <= q < |old(state.acts.queues)| && L.MostUrgent(old(state.acts), q) ==>
        calls != [] && calls[0] == L.Call(old(state.acts.queues)[q][0], q)
      ensures count == 0 ==> forall q :: 0 <= q < |state.acts.queues| ==> state.acts.queues[q] == []
      ensures script == [] ==> forall q :: 0 < q < |old(state.acts.queues)| && L.MostUrgent(old(state.acts), q) ==>
        L.Ran(old(state.acts.queues)[q], q, calls) && count == |calls| && q < |state.acts.queues| && state.acts.queues[q] == []
    {
      hide Shape, AllAwake, A.Urgent, L.AllAllowed, L.Ran, L.Trace;
      state, calls, count, states := L.ProcessActive(state, script, now);
    }
  }

  lemma KnownAdd(b: Base, e: nat)
    requires Shape(b) && e in b.io
    ensures Keys(b) && T.Keys(b.times) && e in b.inserted && e in b.acts.on
  {
    hide A.Inv, T.Inv, InsertedOk;
  }

  lemma AddedIs(b0: Base, b: Base, e: nat, tv: Option<Tv>, res: int, now: int, evmapOk: bool)
    requires Keys(b0) && Keys(b) && b.io == b0.io && b.times.on.Keys == b0.times.on.Keys && e in b0.io
    requires tv.Some? ==> Calmer(b0, b, e, res == 0, tv.value.common)
    requires tv.None? ==> b.acts == b0.acts
    requires forall x :: x !in b0.timers && !(x == e && res == 0 && tv.Some?) ==> SameEvent(b0, b, x)
    requires res == if b0.io[e] && !b0.inserted[e] && !b0.acts.on[e] && !evmapOk then -1 else 0
    requires res == -1 ==> b == b0
    requires res == 0 ==> b.inserted == b0.inserted[e := b0.inserted[e] || (b0.io[e] && !b0.acts.on[e])]
    requires res == 0 && tv.Some? ==>
      e in b.times.on && b.times.on[e] && b.times.at[e] == now + tv.value.usec && b.times.common[e] == tv.value.common
    ensures L.Added(b0, b, L.Add(e, tv, false, evmapOk), res, now)
  {
    hide SameEvent, Calmer;
  }

  /** event_continue is cleared while nothing runs. */
  lemma Continued(b0: Base, b: Base)
    requires Inv(b0) && b0.acts.running == -1 && b == b0.(acts := b0.acts.(cont := false))
    ensures Inv(b)
  {
    hide T.Inv, A.Inv, Distinct, Counted;
    SameInserted(b0, b);
    ContinuedActs(b0.acts, b.acts);
    forall j | 0 <= j < |b.timers| ensures TimerOk(b, j) && Awake(b, j) {
      assert TimerOk(b0, j) && Awake(b0, j);
    }
  }

  lemma ContinuedActs(a0: A.Actives, a: A.Actives)
    requires A.Inv(a0) && a == a0.(cont := false)
    ensures A.Inv(a)
  {
    forall e | e in a.on ensures A.Placed(a, e) {
      assert A.Placed(a0, e);
    }
    forall q | 0 <= q < |a.queues| ensures A.QueueOk(a, q) {
      assert A.QueueOk(a0, q);
    }
  }

  lemma Corrected(b0: Base, b: Base, now: int)
    requires T.Keys(b0.times) && T.Keys(b.times) && b == b0.(times := b.times, last := now) &&
      b.times == b0.times.(at := b.times.at)
    requires b.times.at == if now >= b0.last then b0.times.at else L.Shifted(b0.times, b0.last - now)
    ensures T.Due(b.times).Keys == T.Due(b0.times).Keys
    ensures forall e :: e in T.Due(b.times) ==>
      T.Due(b.times)[e] == T.Due(b0.times)[e] - if now < b0.last then b0.last - now else 0
  {
  }

  /** What is there when callbacks start: to what was active when the kernel was
      polled come the events it reported, and then, earliest first, exactly those
      of the heap that are due, which are not pending any more, nor wait for their
      descriptors. */
  ghost predicate Collected(polled: Base, b: Base, ready: seq<nat>, fired: seq<nat>, now: int) {
    && L.SameEvents(polled, b) && b.times.at == polled.times.at && b.acts.on.Keys == polled.acts.on.Keys
    && T.Sorted(polled.times.at, fired) && Distinct(fired) && (forall e :: e in fired <==> Expiring(polled, e, now))
    && A.Moves(polled.acts, L.Comings(ready) + A.Fires(fired), polled.timers, b.acts) && Unlisted(polled, b, fired)
    && forall e :: e in polled.times.on ==> CollectedEvent(polled, b, ready, e, now)
  }

  /** The same of a single event. */
  ghost predicate CollectedEvent(polled: Base, b: Base, ready: seq<nat>, e: nat, now: int) {
    && e in polled.times.on && e in b.times.on && e in polled.acts.on && e in b.acts.on
    && e in polled.times.common && e in b.times.common
    && b.times.on[e] == (polled.times.on[e] && !Expiring(polled, e, now))
    && (!Expiring(polled, e, now) ==> b.times.common[e] == polled.times.common[e])
    && b.acts.on[e] == (polled.acts.on[e] || e in ready || Expiring(polled, e, now))
  }

  /** The part of event_base_loop between the poll and the callbacks. */
  method Collect(b0: Base, last: int, now: int, ready: seq<nat>) returns (b: Base, ghost fired: seq<nat>)
    requires Inv(b0) && b0.serving == -1 && b0.acts.running == -1 && !b0.acts.cont
    requires forall e :: e in ready ==> e in b0.acts.on
    ensures Inv(b) && b.serving == -1 && b.acts.running == -1 && !b.acts.cont
    ensures b.timers == b0.timers && b.internal == b0.internal && Collected(b0, b, ready, fired, now)
  {
    hide Shape, AllAwake, A.Urgent, SameEvent, Collected, A.Moves, A.Fires, L.Reported, L.Comings, T.Sorted, Distinct;
    b := b0.(last := last);
    L.LastInv(b0, b);
    ghost var b1 := b;
    b := L.Report(b, ready);
    ghost var b2 := b;
    HeapKnown(b);
    b, fired := EventBase.TimeoutProcess(b, now);
    Open(b2);
    Open(b);
    CollectedIs(b0, b1, b2, b, ready, fired, now);
  }

  lemma CollectedIs(b0: Base, b1: Base, b2: Base, b: Base, ready: seq<nat>, fired: seq<nat>, now: int)
    requires Inv(b0) && b1 == b0.(last := b1.last) && b2 == b1.(acts := b2.acts, count := b2.count) && Shape(b2) &&
      Shape(b)
    requires L.Reported(b1, b2, ready) && b2.acts.on.Keys == b1.acts.on.Keys &&
      A.Moves(b1.acts, L.Comings(ready), b1.timers, b2.acts)
    requires b.timers == b2.timers && b.times.at == b2.times.at && b.acts.on.Keys == b2.acts.on.Keys
    requires b.internal == b2.internal && b.persist == b2.persist && b.acts.pri == b2.acts.pri &&
      b2.acts.pri == b1.acts.pri
    requires |b.acts.queues| == |b2.acts.queues| == |b1.acts.queues|
    requires forall e :: e in b2.times.heap ==> e in b2.times.at && e in b.acts.on
    requires forall e :: e in b2.times.heap && b2.times.at[e] <= now ==> e !in b.times.heap && b.acts.on[e]
    requires Keys(b2) && Keys(b) && forall e :: !Expiring(b2, e, now) ==> SameEvent(b2, b, e)
    requires forall e :: Expiring(b2, e, now) ==> e in b.times.on && !b.times.on[e]
    requires T.Sorted(b2.times.at, fired) && Distinct(fired) && forall e :: e in fired <==> Expiring(b2, e, now)
    requires A.Moves(b2.acts, A.Fires(fired), b2.timers, b.acts) && Unlisted(b2, b, fired)
    ensures Collected(b0, b, ready, fired, now)
  {
    hide Shape, AllAwake, A.Urgent, A.Moves, A.Fires, L.Comings, T.Sorted, Distinct;
    Open(b0);
    hide Keys, SameEvent, L.Reported, Unlisted, CollectedEvent;
    A.MovesJoin(b0.acts, L.Comings(ready), b0.timers, b2.acts, A.Fires(fired), b.acts);
    forall e | e in b0.times.on ensures CollectedEvent(b0, b, ready, e, now) {
      CollectedOne(b0, b2, b, ready, e, now);
    }
  }

  lemma CollectedOne(b0: Base, b2: Base, b: Base, ready: seq<nat>, e: nat, now: int)
    requires Keys(b0) && b2 == b0.(acts := b2.acts, count := b2.count, last := b2.last) && L.Reported(b0, b2, ready)
    requires Keys(b2) && Keys(b) && (!Expiring(b2, e, now) ==> SameEvent(b2, b, e)) && b.acts.on.Keys == b2.acts.on.Keys
    requires Expiring(b2, e, now) ==> b.acts.on[e] && !b.times.on[e]
    requires e in b0.times.on
    ensures CollectedEvent(b0, b, ready, e, now)
  {
  }

  /** When callbacks stop: the most urgent event of the start was called first;
      the priority that ran last has nothing left, unless something more urgent
      turned up; and no event is left if there was none, or if only internal ones
      were called. */
  ghost predicate Ended(start: Base, calls: seq<L.Call>, b: Base) {
    && (forall q :: 0 <= q < |start.acts.queues| && L.MostUrgent(start.acts, q) ==>
          calls != [] && calls[0] == L.Call(start.acts.queues[q][0], q))
    && (calls != [] ==> var pri := calls[|calls| - 1].pri;
          pri < |b.acts.queues| && (b.acts.queues[pri] == [] || b.acts.cont))
    && ((forall k :: 0 <= k < |calls| ==> L.IsInternal(b.internal, calls[k].e)) ==>
          forall q :: 0 <= q < |b.acts.queues| ==> b.acts.queues[q] == [])
  }

  lemma TalliedIs(internal: map<nat, bool>, calls: seq<L.Call>, count: nat)
    requires L.Tallied(internal, calls, 0, count)
    ensures (forall k :: 0 <= k < |calls| ==> L.IsInternal(internal, calls[k].e)) ==> count == 0
  {
  }

  lemma NoneOnQueues(b: Base)
    requires Shape(b) && b.acts.count <= 0
    ensures forall q :: 0 <= q < |b.acts.queues| ==> b.acts.queues[q] == []
  {
    hide T.Inv, InsertedOk;
    forall q | 0 <= q < |b.acts.queues| ensures b.acts.queues[q] == [] {
      assert A.QueueOk(b.acts, q);
      assert b.acts.queues[q] != [] ==> b.acts.queues[q][0] in A.On(b.acts.on);
    }
  }

  lemma SameAllowed(b0: Base, b: Base, script: seq<seq<L.Action>>)
    requires L.AllAllowed(b0, script) && b.internal == b0.internal && b.timers == b0.timers
    ensures L.AllAllowed(b, script)
  {
    forall actions | actions in script ensures L.Allowed(b, actions) {
      assert L.Allowed(b0, actions);
    }
  }

  lemma NewTimes(t: T.Times)
    requires T.Keys(t) && t.heap == {} && (forall e :: e in t.on ==> !t.on[e])
    requires forall i :: 0 <= i < |t.queues| ==> t.queues[i] == []
    ensures T.Inv(t) && T.Due(t) == map[]
  {
  }

  lemma NewActives(a: A.Actives)
    requires A.Keys(a) && (forall e :: e in a.on ==> !a.on[e] && a.pri[e] < |a.queues|) && a.count == 0
    requires forall q :: 0 <= q < |a.queues| ==> a.queues[q] == []
    ensures A.Inv(a) && A.On(a.on) == {}
  {
    assert A.On(a.on) == {};
  }

  lemma NewBase(b: Base)
    requires Keys(b) && T.Inv(b.times) && A.Inv(b.acts) && b.eventqueue == [] && b.count == 0 && b.acts.running == -1
    requires (forall e :: e in b.times.on ==> !b.times.on[e] && !b.acts.on[e] && !b.inserted[e])
    requires |b.timers| == |b.times.queues| && Distinct(b.timers) && forall i :: 0 <= i < |b.times.queues| ==>
      b.times.queues[i] == []
    requires forall e :: e in b.timers ==> e in b.internal && b.internal[e] && !b.persist[e]
    requires forall e :: e in b.internal && b.internal[e] ==> b.acts.pri[e] == 0
    ensures Inv(b)
  {
    hide T.Inv, A.Inv;
    assert Counted(b.internal, b.times.on) == {} && Counted(b.internal, b.acts.on) == {} && Counted(b.internal, b.inserted) == {};
    forall i | 0 <= i < |b.timers| ensures TimerOk(b, i) && Awake(b, i) {
      assert b.timers[i] in b.timers;
    }
  }
}
