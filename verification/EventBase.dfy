/** A libevent event base: adding, deleting and activating events, timeouts kept
    in a heap and in common timeout queues, and running what is active. */
module EventBase {
  import opened Lists
  import opened Options
  import T = EventTimes
  import A = EventActives

  /** EVLIST_INSERTED, EVLIST_INTERNAL, whether an event waits for a descriptor
      or signal, and EV_PERSIST; the queue of inserted events, event_count, the
      timeout_event of every common timeout queue, event_tv, and the queue whose
      timeout callback is in progress, if any. */
  datatype Base = Base(
    times: T.Times,
    acts: A.Actives,
    inserted: map<nat, bool>,
    eventqueue: seq<nat>,
    internal: map<nat, bool>,
    io: map<nat, bool>,
    persist: map<nat, bool>,
    timers: seq<nat>,
    count: int,
    serving: int,
    last: int)

  /** The events on a queue that count. */
  ghost function Counted(internal: map<nat, bool>, on: map<nat, bool>): set<nat> {
    set e | e in on && on[e] && e in internal && !internal[e]
  }

  ghost function Tally(b: Base): int {
    |Counted(b.internal, b.times.on)| + |Counted(b.internal, b.acts.on)| + |Counted(b.internal, b.inserted)|
  }

  ghost predicate Keys(b: Base) {
    && T.Keys(b.times) && A.Keys(b.acts)
    && b.times.on.Keys == b.acts.on.Keys == b.inserted.Keys == b.internal.Keys == b.io.Keys == b.persist.Keys
  }

  ghost predicate InsertedOk(b: Base) {
    && Distinct(b.eventqueue)
    && (forall e :: e in b.eventqueue ==> e in b.inserted && b.inserted[e])
    && (forall e :: e in b.inserted && b.inserted[e] ==> e in b.eventqueue)
  }

  /** The event that stands for common timeout queue i. */
  ghost predicate TimerOk(b: Base, i: nat)
    requires Keys(b) && i < |b.timers|
  {
    var e := b.timers[i];
    e in b.internal && b.internal[e] && !b.persist[e] && (b.times.on[e] ==> !T.IsCommon(b.times, b.times.common[e]))
  }

  ghost predicate Shape(b: Base) {
    && Keys(b) && T.Inv(b.times) && A.Inv(b.acts) && InsertedOk(b)
    && b.count == Tally(b)
    && |b.timers| == |b.times.queues| && Distinct(b.timers)
    && (forall i :: 0 <= i < |b.timers| ==> TimerOk(b, i))
    && (forall e :: e in b.internal && b.internal[e] ==> b.acts.pri[e] == 0)
  }

  /** Queue i is not forgotten: its callback runs or is about to, or the heap
      holds its timeout event no later than its first event is due. */
  ghost predicate Awake(b: Base, i: nat)
    requires Keys(b) && i < |b.timers| == |b.times.queues| && b.timers[i] in b.internal
  {
    b.times.queues[i] != [] ==>
      || b.serving == i
      || b.acts.on[b.timers[i]]
      || (b.times.on[b.timers[i]] && b.times.queues[i][0] in b.times.at
          && b.times.at[b.timers[i]] <= b.times.at[b.times.queues[i][0]])
  }

  ghost predicate AllAwake(b: Base)
    requires Shape(b)
  {
    forall i :: 0 <= i < |b.timers| ==> TimerOk(b, i) && Awake(b, i)
  }

  ghost predicate AwakeBut(b: Base, i: int)
    requires Shape(b)
  {
    forall j :: 0 <= j < |b.timers| && j != i ==> TimerOk(b, j) && Awake(b, j)
  }

  ghost predicate Inv(b: Base) {
    Shape(b) && AllAwake(b) && A.Urgent(b.acts)
  }

  lemma CountOff(internal: map<nat, bool>, on: map<nat, bool>, e: nat)
    requires e in on && on[e] && e in internal
    ensures |Counted(internal, on[e := false])| == |Counted(internal, on)| - if internal[e] then 0 else 1
  {
    assert Counted(internal, on[e := false]) == Counted(internal, on) - {e};
  }

  lemma CountOn(internal: map<nat, bool>, on: map<nat, bool>, e: nat)
    requires e in on && !on[e] && e in internal
    ensures |Counted(internal, on[e := true])| == |Counted(internal, on)| + if internal[e] then 0 else 1
  {
    assert Counted(internal, on[e := true]) == Counted(internal, on) + if internal[e] then {} else {e};
  }

  /** The timeouts changed, and the count with them. */
  lemma TimesChanged(b0: Base, b: Base)
    requires Shape(b0) && b == b0.(times := b.times, count := b.count)
    requires T.Inv(b.times) && b.times.on.Keys == b0.times.on.Keys && |b.times.queues| == |b0.times.queues|
    requires b.count - b0.count == |Counted(b.internal, b.times.on)| - |Counted(b0.internal, b0.times.on)|
    requires T.Keys(b.times)
    requires forall e :: e in b.timers && e in b.times.on && b.times.on[e] ==>
               (e in b0.times.on && b0.times.on[e] && b.times.common[e] == b0.times.common[e])
               || !T.IsCommon(b.times, b.times.common[e])
    ensures Shape(b)
  {
    hide T.Inv, A.Inv, Counted, Distinct;
    forall i | 0 <= i < |b.timers| ensures TimerOk(b, i) {
      assert TimerOk(b0, i);
    }
  }

  /** The active events changed, and the count with them. */
  lemma ActsChanged(b0: Base, b: Base)
    requires Shape(b0) && b == b0.(acts := b.acts, count := b.count)
    requires A.Inv(b.acts) && A.Keys(b.acts) && b.acts.on.Keys == b0.acts.on.Keys && b.acts.pri == b0.acts.pri
    requires b.count - b0.count == |Counted(b.internal, b.acts.on)| - |Counted(b0.internal, b0.acts.on)|
    ensures Shape(b)
  {
    hide T.Inv, A.Inv, Counted, Distinct;
    forall i | 0 <= i < |b.timers| ensures TimerOk(b, i) {
      assert TimerOk(b0, i);
    }
  }

  lemma InsertedChanged(b0: Base, b: Base)
    requires Shape(b0) && b == b0.(inserted := b.inserted, eventqueue := b.eventqueue, count := b.count)
    requires InsertedOk(b) && b.inserted.Keys == b0.inserted.Keys
    requires b.count - b0.count == |Counted(b.internal, b.inserted)| - |Counted(b0.internal, b0.inserted)|
    ensures Shape(b)
  {
    hide T.Inv, A.Inv, InsertedOk, Counted, Distinct;
    forall i | 0 <= i < |b.timers| ensures TimerOk(b, i) {
      assert TimerOk(b0, i);
    }
  }

  lemma Open(b: Base)
    requires Shape(b)
    ensures Keys(b) && T.Keys(b.times) && A.Keys(b.acts) && T.Inv(b.times) && A.Inv(b.acts) && InsertedOk(b)
    ensures |b.timers| == |b.times.queues|
    ensures forall e :: e in b.times.on ==> e in b.internal && e in b.acts.on && e in b.inserted
  {
  }

  /** event_queue_remove and event_queue_insert, for each of the three queues. */
  method Unpend(b0: Base, e: nat) returns (b: Base)
    requires Shape(b0) && e in b0.times.on && b0.times.on[e]
    ensures Shape(b) && b == b0.(times := b.times, count := b.count)
    ensures b.times.on == b0.times.on[e := false] && b.times.at == b0.times.at && b.times.common == b0.times.common
    ensures b.times.heap == b0.times.heap - {e} && |b.times.queues| == |b0.times.queues|
    ensures forall i :: 0 <= i < |b.times.queues| ==>
              b.times.queues[i] == if i == b0.times.common[e] then Less(b0.times.queues[i], e) else b0.times.queues[i]
    ensures T.Due(b.times) == T.Due(b0.times) - {e}
  {
    hide A.Inv, T.Inv, InsertedOk, Less, Counted, Shape, Distinct;
    Open(b0);
    b := b0;
    if !b.internal[e] {
      b := b.(count := b.count - 1);
    }
    CountOff(b.internal, b.times.on, e);
    var times := T.Remove(b.times, e);
    b := b.(times := times);
    TimesChanged(b0, b);
  }

  method Pend(b0: Base, e: nat, at: int, common: int) returns (b: Base)
    requires Shape(b0) && e in b0.times.on && !b0.times.on[e]
    requires e in b0.timers ==> !T.IsCommon(b0.times, common)
    ensures Shape(b) && b == b0.(times := b.times, count := b.count)
    ensures b.times.on == b0.times.on[e := true] && b.times.at == b0.times.at[e := at] &&
      b.times.common == b0.times.common[e := common]
    ensures b.times.heap == if T.IsCommon(b0.times, common) then b0.times.heap else b0.times.heap + {e}
    ensures |b.times.queues| == |b0.times.queues|
    ensures forall i :: 0 <= i < |b.times.queues| && i != common ==> b.times.queues[i] == b0.times.queues[i]
    ensures T.IsCommon(b0.times, common) ==>
      && b.times.queues[common] != []
      && (b.times.queues[common][0] == e
          || (b0.times.queues[common] != [] && b.times.queues[common][0] == b0.times.queues[common][0]))
    ensures T.Due(b.times) == T.Due(b0.times)[e := at]
  {
    hide A.Inv, T.Inv, InsertedOk, Counted, Shape, Distinct;
    Open(b0);
    b := b0;
    if !b.internal[e] {
      b := b.(count := b.count + 1);
    }
    CountOn(b.internal, b.times.on, e);
    var times := T.Insert(b.times, e, at, common);
    b := b.(times := times);
    TimesChanged(b0, b);
  }

  method Deactivate(b0: Base, e: nat) returns (b: Base)
    requires Shape(b0) && e in b0.acts.on && b0.acts.on[e]
    ensures Shape(b) && b == b0.(acts := b.acts, count := b.count)
    ensures b.acts.on == b0.acts.on[e := false] && b.acts.late == b0.acts.late && b.acts.pri == b0.acts.pri
    ensures b.acts.running == b0.acts.running && b.acts.cont == b0.acts.cont
    ensures A.Urgent(b0.acts) ==> A.Urgent(b.acts)
    ensures |b.acts.queues| == |b0.acts.queues|
    ensures forall q :: 0 <= q < |b.acts.queues| ==>
              b.acts.queues[q] == if q == b0.acts.pri[e] then Less(b0.acts.queues[q], e) else b0.acts.queues[q]
    ensures A.Moved(b0.acts, A.Leaves(e), b0.timers, b.acts)
  {
    hide A.Moved, A.Inv, T.Inv, InsertedOk, Less, Counted, A.Urgent, Shape, Distinct;
    Open(b0);
    b := b0;
    if !b.internal[e] {
      b := b.(count := b.count - 1);
    }
    CountOff(b.internal, b.acts.on, e);
    var acts := A.Remove(b.acts, e);
    b := b.(acts := acts);
    ActsChanged(b0, b);
    A.LeavesIs(b0.acts, e, b0.timers, b.acts);
  }

  /** event_active_nolock */
  method ActiveNolock(b0: Base, e: nat, late: bool) returns (b: Base)
    requires Shape(b0) && e in b0.acts.on
    ensures Shape(b) && b == b0.(acts := b.acts, count := b.count)
    ensures b.acts.on == b0.acts.on[e := true] && b.acts.pri == b0.acts.pri && b.acts.running == b0.acts.running
    ensures b.acts.late == b0.acts.late[e := late || (b0.acts.on[e] && b0.acts.late[e])]
    ensures A.Urgent(b0.acts) ==> A.Urgent(b.acts)
    ensures |b.acts.queues| == |b0.acts.queues|
    ensures b0.acts.on[e] ==> b.acts.cont == b0.acts.cont
    ensures !b0.acts.on[e] ==> b.acts.cont == (b0.acts.cont || b0.acts.pri[e] < b0.acts.running)
    ensures A.Moved(b0.acts, A.Comes(e, late), b0.timers, b.acts)
  {
    hide A.Moved, A.Inv, T.Inv, InsertedOk, Counted, A.Urgent, Shape, Distinct;
    Open(b0);
    b := b0;
    if !b.acts.on[e] {
      if !b.internal[e] {
        b := b.(count := b.count + 1);
      }
      CountOn(b.internal, b.acts.on, e);
    }
    if b0.acts.on[e] {
      assert b0.acts.on[e := true] == b0.acts.on;
    }
    var acts := A.Activate(b.acts, e, late);
    b := b.(acts := acts);
    ActsChanged(b0, b);
    A.ComesIs(b0.acts, e, late, b0.timers, b.acts);
  }

  lemma InsertedIn(b: Base, e: nat)
    requires InsertedOk(b) && e in b.inserted && b.inserted[e]
    ensures e in b.eventqueue
  {
  }

  lemma LessInserted(b0: Base, e: nat, b: Base)
    requires InsertedOk(b0) && b.inserted == b0.inserted[e := false] && b.eventqueue == Less(b0.eventqueue, e)
    ensures InsertedOk(b)
  {
    hide Distinct, Less;
    LessIn(b0.eventqueue, e);
  }

  lemma MoreInserted(b0: Base, e: nat, b: Base)
    requires InsertedOk(b0) && e in b0.inserted && !b0.inserted[e]
    requires b.inserted == b0.inserted[e := true] && b.eventqueue == b0.eventqueue + [e]
    ensures InsertedOk(b)
  {
    hide Distinct;
    A.DistinctPush(b0.eventqueue, e);
  }

  method Uninsert(b0: Base, e: nat) returns (b: Base)
    requires Shape(b0) && e in b0.inserted && b0.inserted[e]
    ensures Shape(b) && b == b0.(inserted := b0.inserted[e := false], eventqueue := b.eventqueue, count := b.count)
  {
    hide A.Inv, T.Inv, Counted, Shape, Less, Distinct, InsertedOk;
    Open(b0);
    b := b0;
    if !b.internal[e] {
      b := b.(count := b.count - 1);
    }
    CountOff(b.internal, b.inserted, e);
    InsertedIn(b0, e);
    var q := TailqRemove(b.eventqueue, e);
    b := b.(inserted := b.inserted[e := false], eventqueue := q);
    LessInserted(b0, e, b);
    InsertedChanged(b0, b);
  }

  method Insert(b0: Base, e: nat) returns (b: Base)
    requires Shape(b0) && e in b0.inserted && !b0.inserted[e]
    ensures Shape(b) && b == b0.(inserted := b0.inserted[e := true], eventqueue := b.eventqueue, count := b.count)
  {
    hide A.Inv, T.Inv, Counted, Shape, Less, Distinct, InsertedOk;
    Open(b0);
    b := b0;
    if !b.internal[e] {
      b := b.(count := b.count + 1);
    }
    CountOn(b.internal, b.inserted, e);
    b := b.(inserted := b.inserted[e := true], eventqueue := b.eventqueue + [e]);
    MoreInserted(b0, e, b);
    InsertedChanged(b0, b);
  }

  /** Event e is as it was: pending, due and active. */
  ghost predicate SameEvent(b0: Base, b: Base, e: nat)
    requires Keys(b0) && Keys(b)
  {
    e in b.times.on ==>
      && e in b0.times.on
      && b.times.on[e] == b0.times.on[e] && b.times.at[e] == b0.times.at[e]
      && b.times.common[e] == b0.times.common[e] && b.acts.on[e] == b0.acts.on[e]
  }

  ghost predicate OthersSame(b0: Base, b: Base, e: nat)
    requires Keys(b0) && Keys(b)
  {
    forall x :: x != e ==> SameEvent(b0, b, x)
  }

  /** As far as queue i is concerned: its timeout event is as it was, and if a
      new event is first, it was in the queue before. */
  ghost predicate Steady(b0: Base, b: Base, i: nat)
    requires Shape(b0) && Shape(b) && i < |b0.timers|
  {
    && b.timers == b0.timers && b.serving == b0.serving
    && TimerOk(b0, i) && TimerOk(b, i)
    && b.times.on[b0.timers[i]] == b0.times.on[b0.timers[i]]
    && b.times.at[b0.timers[i]] == b0.times.at[b0.timers[i]]
    && b.acts.on[b0.timers[i]] == b0.acts.on[b0.timers[i]]
    && (b.times.queues[i] != [] ==>
          && b.times.queues[i][0] in b0.times.queues[i]
          && b.times.queues[i][0] in b0.times.at && b.times.queues[i][0] in b.times.at
          && b.times.at[b.times.queues[i][0]] == b0.times.at[b.times.queues[i][0]])
  }

  lemma SteadyAwake(b0: Base, b: Base, i: nat)
    requires Shape(b0) && Shape(b) && i < |b0.timers| && Steady(b0, b, i) && Awake(b0, i)
    ensures Awake(b, i)
  {
    hide T.Placed, A.Inv, InsertedOk, Counted, Distinct;
    if b.times.queues[i] != [] {
      assert T.QueueOk(b0.times, i);
      T.FirstNotAfter(b0.times.at, b0.times.queues[i], b.times.queues[i][0]);
    }
  }

  lemma Queue(b: Base, i: nat)
    requires Shape(b) && i < |b.times.queues|
    ensures i < |b.timers| && TimerOk(b, i) && Distinct(b.times.queues[i])
    ensures forall e :: e in b.times.queues[i] ==>
              e in b.times.on && b.times.on[e] && b.times.common[e] == i && e !in b.timers
  {
    assert T.QueueOk(b.times, i);
    forall e, j | e in b.times.queues[i] && 0 <= j < |b.timers| ensures e != b.timers[j] {
      assert TimerOk(b, j);
    }
  }

  method Unschedule(b0: Base, e: nat) returns (b: Base)
    requires Shape(b0) && e in b0.times.on
    ensures Shape(b) && b == b0.(times := b.times, acts := b.acts, count := b.count)
    ensures b.times.on == b0.times.on[e := false] && b.times.at == b0.times.at && b.times.common == b0.times.common
    ensures e in b0.acts.late && e in b0.acts.on
    ensures b.acts.on == (if b0.acts.on[e] && b0.acts.late[e] then b0.acts.on[e := false] else b0.acts.on)
    ensures b.acts.pri == b0.acts.pri && b.acts.running == b0.acts.running && (A.Urgent(b0.acts) ==> A.Urgent(b.acts))
    ensures b.acts.cont == b0.acts.cont
    ensures |b.times.queues| == |b0.times.queues| && |b.acts.queues| == |b0.acts.queues|
    ensures forall i :: 0 <= i < |b.times.queues| ==>
              b.times.queues[i] == if b0.times.on[e] && i == b0.times.common[e] then Less(b0.times.queues[i], e) else b0.times.queues[i]
    ensures T.Due(b.times) == T.Due(b0.times) - {e}
    ensures Calmer(b0, b, e, true, -1) && (!b0.acts.on[e] ==> b.acts == b0.acts)
  {
    hide Calmer, A.Moved, A.Inv, T.Inv, InsertedOk, Counted, A.Urgent, Shape, Distinct, Less, T.Due;
    Open(b0);
    OffSame(b0, e);
    NotDue(b0, e);
    b := b0;
    if b.times.on[e] {
      b := Unpend(b, e);
    }
    if b.acts.on[e] && b.acts.late[e] {
      b := Deactivate(b, e);
    }
    CalmerOne(b0, b, e, true, -1);
  }

  lemma NotDue(b: Base, e: nat)
    requires Keys(b) && e in b.times.on
    ensures !b.times.on[e] ==> T.Due(b.times) == T.Due(b.times) - {e}
  {
  }

  /** The part of event_add_internal that sets a timeout: takes the event off
      its old timeout, and off the active events if a timeout put it there. */
  method Reschedule(b0: Base, e: nat, at: int, common: int) returns (b: Base)
    requires Shape(b0) && e in b0.times.on && (e in b0.timers ==> !T.IsCommon(b0.times, common))
    ensures Shape(b) && b == b0.(times := b.times, acts := b.acts, count := b.count)
    ensures b.times.on == b0.times.on[e := true] && b.times.at == b0.times.at[e := at] &&
      b.times.common == b0.times.common[e := common]
    ensures e in b0.acts.late && e in b0.acts.on
    ensures b.acts.on == (if b0.acts.on[e] && b0.acts.late[e] then b0.acts.on[e := false] else b0.acts.on)
    ensures b.acts.pri == b0.acts.pri && b.acts.running == b0.acts.running && (A.Urgent(b0.acts) ==> A.Urgent(b.acts))
    ensures b.acts.cont == b0.acts.cont
    ensures |b.times.queues| == |b0.times.queues| && |b.acts.queues| == |b0.acts.queues|
    ensures forall i :: 0 <= i < |b.times.queues| && i != common ==>
              b.times.queues[i] == if b0.times.on[e] && i == b0.times.common[e] then Less(b0.times.queues[i], e) else b0.times.queues[i]
    ensures T.IsCommon(b0.times, common) ==>
      && b.times.queues[common] != []
      && (b.times.queues[common][0] == e || b.times.queues[common][0] in b0.times.queues[common])
    ensures T.Due(b.times) == T.Due(b0.times)[e := at]
    ensures Calmer(b0, b, e, true, -1) && (!b0.acts.on[e] ==> b.acts == b0.acts)
  {
    hide Calmer, A.Inv, T.Inv, InsertedOk, Counted, A.Urgent, Shape, Distinct, Less, T.Due;
    Open(b0);
    b := b0;
    if T.IsCommon(b0.times, common) {
      Queue(b0, common);
      LessIn(b0.times.queues[common], e);
    }
    b := Unschedule(b0, e);
    ghost var b1 := b;
    b := Pend(b, e, at, common);
    CalmerActs(b0, b1, b, e, true, -1);
  }

  /** No event became active; e left if a timeout had made it active, if that is
      sure, and so may have the timeout event of its common queue. */
  ghost predicate Calmer(b0: Base, b: Base, e: nat, sure: bool, common: int) {
    A.Moved(b0.acts, A.Retimed(e, sure, common), b0.timers, b.acts)
  }

  lemma CalmerOne(b0: Base, b: Base, e: nat, sure: bool, common: int)
    requires A.Inv(b0.acts) && e in b0.acts.on && e in b0.acts.late
    requires if b0.acts.on[e] && b0.acts.late[e]
      then A.Moved(b0.acts, A.Leaves(e), b0.timers, b.acts) || (!sure && b.acts == b0.acts)
             else b.acts == b0.acts
    ensures Calmer(b0, b, e, sure, common)
  {
    hide A.Inv, A.Moved;
    A.RetimedIs(b0.acts, e, sure, common, b0.timers, b.acts);
  }

  lemma CalmerActs(b0: Base, b1: Base, b: Base, e: nat, sure: bool, common: int)
    requires Calmer(b0, b1, e, sure, common) && b.acts == b1.acts
    ensures Calmer(b0, b, e, sure, common)
  {
  }

  lemma CalmerLess(b0: Base, b: Base, e: nat, common: int)
    requires Calmer(b0, b, e, true, -1)
    ensures Calmer(b0, b, e, true, common)
  {
    hide A.Moved;
    A.RetimedLess(b0.acts, A.Retimed(e, true, -1), A.Retimed(e, true, common), b0.timers, b.acts);
  }

  lemma CalmerTwice(b0: Base, b1: Base, b: Base, e: nat, s: bool, r: bool, common: int)
    requires Calmer(b0, b1, e, s, common) && Calmer(b1, b, e, r, common) && b1.timers == b0.timers
    ensures Calmer(b0, b, e, s || r, common)
  {
    hide A.Moved;
    A.RetimedToo(b0.acts, A.Retimed(e, s, common), A.Retimed(e, r, common), b0.timers, b1.acts, b.acts);
  }

  /** The timeout event of the queue is rescheduled as well. */
  lemma CalmerTimer(b: Base, b1: Base, e: nat, common: int)
    requires A.Inv(b.acts) && e in b.acts.on && e in b.acts.late
    requires 0 <= common < |b.timers| && Calmer(b, b1, b.timers[common], true, -1)
    ensures Calmer(b, b1, e, false, common)
  {
    hide A.Moved, A.Inv;
    CalmerSame(b, e, common);
    A.RetimedToo(b.acts, A.Retimed(e, false, common), A.Retimed(b.timers[common], true, -1), b.timers, b.acts, b1.acts);
    if b.timers[common] == e {
      A.RetimedLess(b.acts, A.Retimed(e, true, common), A.Retimed(e, false, common), b.timers, b1.acts);
    }
  }

  lemma CalmerSame(b: Base, e: nat, common: int)
    requires A.Inv(b.acts) && e in b.acts.on && e in b.acts.late
    ensures Calmer(b, b, e, false, common)
  {
    hide A.Inv, A.Moved;
    A.RetimedIs(b.acts, e, false, common, b.timers, b.acts);
  }

  /** common_timeout_schedule: the timeout event of queue i, for its first event. */
  method Schedule(b0: Base, i: nat) returns (b: Base)
    requires Shape(b0) && i < |b0.times.queues| && b0.times.queues[i] != [] && A.Urgent(b0.acts)
    requires AwakeBut(b0, i)
    ensures Inv(b) && b == b0.(times := b.times, acts := b.acts, count := b.count)
    ensures b.times.queues == b0.times.queues && |b.acts.queues| == |b0.acts.queues|
    ensures b.acts.running == b0.acts.running && b.acts.pri == b0.acts.pri && b.acts.cont == b0.acts.cont
    ensures b.times.on.Keys == b0.times.on.Keys
    ensures i < |b0.timers| && b0.timers[i] in b.acts.on && b0.timers[i] in b0.acts.on
    ensures b.acts.on[b0.timers[i]] ==> b0.acts.on[b0.timers[i]]
    ensures i < |b0.timers| && OthersSame(b0, b, b0.timers[i]) && Calmer(b0, b, b0.timers[i], true, -1)
    ensures !b0.acts.on[b0.timers[i]] ==> b.acts == b0.acts
    ensures b.times.queues[i][0] in b0.times.at &&
      T.Due(b.times) == T.Due(b0.times)[b0.timers[i] := b0.times.at[b.times.queues[i][0]]]
  {
    hide Calmer, A.Inv, T.Inv, InsertedOk, Counted, A.Urgent, Shape, Less, T.Due;
    Open(b0);
    Queue(b0, i);
    b := Reschedule(b0, b0.timers[i], b0.times.at[b0.times.queues[i][0]], -1);
    assert b.times.queues == b0.times.queues;
    ScheduledInv(b0, b, i);
  }

  lemma ScheduledInv(b0: Base, b: Base, i: nat)
    requires Shape(b0) && Shape(b) && i < |b0.times.queues| && b0.times.queues[i] != [] && A.Urgent(b.acts) &&
      AwakeBut(b0, i)
    requires i < |b0.timers| && b.timers == b0.timers && b.serving == b0.serving && b.times.queues == b0.times.queues
    requires b0.timers[i] in b.times.on && b.times.on[b0.timers[i]] && b0.times.queues[i][0] in b0.times.at
    requires b.times.at == b0.times.at[b0.timers[i] := b0.times.at[b0.times.queues[i][0]]]
    requires OthersSame(b0, b, b0.timers[i])
    ensures Inv(b)
  {
    hide Shape, Distinct, T.Inv, A.Inv, InsertedOk, A.Urgent, OthersSame;
    Open(b);
    Queue(b, i);
    forall j | 0 <= j < |b.timers| ensures TimerOk(b, j) && Awake(b, j) {
      if j != i {
        ScheduledAwake(b0, b, i, j);
      }
    }
  }

  lemma ScheduledAwake(b0: Base, b: Base, i: nat, j: nat)
    requires Shape(b0) && Shape(b) && b.times.queues == b0.times.queues && b.timers == b0.timers &&
      b.serving == b0.serving
    requires i < |b0.timers| && j < |b0.timers| && i != j && TimerOk(b0, j) && Awake(b0, j)
    requires OthersSame(b0, b, b0.timers[i])
    ensures TimerOk(b, j) && Awake(b, j)
  {
    hide Shape, Distinct, T.Inv, A.Inv, InsertedOk, Awake;
    Open(b0);
    Open(b);
    Queue(b, j);
    Queue(b, i);
    DistinctTimers(b, i, j);
    assert SameEvent(b0, b, b.timers[j]);
    if b.times.queues[j] != [] {
      assert SameEvent(b0, b, b.times.queues[j][0]);
    }
    SteadyAwake(b0, b, j);
  }

  lemma DistinctTimers(b: Base, i: nat, j: nat)
    requires Shape(b) && i < |b.timers| && j < |b.timers| && i != j
    ensures b.timers[i] != b.timers[j]
  {
    assert forall k, l :: 0 <= k < l < |b.timers| ==> b.timers[k] != b.timers[l];
  }

  /** Queue i lost at most e. */
  ghost predicate Lost(b0: Base, b: Base, e: nat, i: nat)
    requires i < |b.times.queues| == |b0.times.queues|
  {
    b.times.queues[i] == b0.times.queues[i] || b.times.queues[i] == Less(b0.times.queues[i], e)
  }

  /** A timeout was set for e: what Reschedule leaves. */
  ghost predicate Rescheduled(b0: Base, b: Base, e: nat, common: int)
    requires Shape(b0) && Shape(b)
  {
    && b.timers == b0.timers && b.serving == b0.serving && e !in b0.timers
    && OthersSame(b0, b, e) && |b.times.queues| == |b0.times.queues|
    && (forall i :: 0 <= i < |b.times.queues| && i != common ==> Lost(b0, b, e, i))
    && (T.IsCommon(b.times, common) ==>
          && b.times.queues[common] != []
          && (b.times.queues[common][0] == e || b.times.queues[common][0] in b0.times.queues[common]))
    && e in b.times.common && b.times.common[e] == common
  }

  lemma RescheduledAwake(b0: Base, b: Base, e: nat, common: int, j: nat)
    requires Shape(b0) && Shape(b) && j < |b0.timers| && Rescheduled(b0, b, e, common)
    requires TimerOk(b0, j) && Awake(b0, j)
    requires j == common ==> j < |b.times.queues| && b.times.queues[j] != [] && b.times.queues[j][0] != e
    ensures TimerOk(b, j) && Awake(b, j)
  {
    hide Shape, Distinct, T.Inv, A.Inv, InsertedOk, Awake, Less;
    Open(b0);
    Open(b);
    Queue(b, j);
    Queue(b0, j);
    assert SameEvent(b0, b, b.timers[j]);
    if b.times.queues[j] != [] {
      assert j != common ==> Lost(b0, b, e, j);
      LessIn(b0.times.queues[j], e);
      var head := b.times.queues[j][0];
      assert head in b.times.queues[j];
      assert head in b0.times.queues[j];
      assert SameEvent(b0, b, head);
    }
    SteadyAwake(b0, b, j);
  }

  /** The timeout part of event_add_internal: a common timeout that comes first
      in its queue also reschedules the queue's timeout event. */
  method SetTimeout(b0: Base, e: nat, at: int, common: int) returns (b: Base)
    requires Inv(b0) && e in b0.times.on && e !in b0.timers
    ensures Inv(b) && b == b0.(times := b.times, acts := b.acts, count := b.count)
    ensures b.acts.running == b0.acts.running && b.acts.pri == b0.acts.pri && b.acts.cont == b0.acts.cont
    ensures |b.acts.queues| == |b0.acts.queues| && |b.times.queues| == |b0.times.queues|
    ensures b.times.on.Keys == b0.times.on.Keys
    ensures forall x :: x !in b0.timers && x != e ==> SameEvent(b0, b, x)
    ensures e in b.times.on && b.times.on[e] && b.times.at[e] == at && b.times.common[e] == common
    ensures Calmer(b0, b, e, true, common)
  {
    hide Shape, Distinct, T.Inv, A.Inv, InsertedOk, AllAwake, A.Urgent, Less, T.Due, OthersSame, Calmer;
    Open(b0);
    b := Reschedule(b0, e, at, common);
    Open(b);
    RescheduledIs(b0, b, e, common);
    ghost var b1 := b;
    b := ScheduleIfFirst(b, e, common, b0);
    CalmerLess(b0, b1, e, common);
    CalmerTwice(b0, b1, b, e, true, false, common);
  }

  /** After a timeout was set for e, which may now be the first of its queue. */
  method ScheduleIfFirst(b1: Base, e: nat, common: int, ghost b0: Base) returns (b: Base)
    requires Inv(b0) && Shape(b1) && Rescheduled(b0, b1, e, common) && A.Urgent(b1.acts)
    requires e in b1.times.on && b1.times.on.Keys == b0.times.on.Keys
    ensures Inv(b) && b == b1.(times := b.times, acts := b.acts, count := b.count)
    ensures b.acts.running == b1.acts.running && b.acts.pri == b1.acts.pri && b.acts.cont == b1.acts.cont
    ensures |b.acts.queues| == |b1.acts.queues| && |b.times.queues| == |b1.times.queues|
    ensures b.times.on.Keys == b1.times.on.Keys && Calmer(b1, b, e, false, common)
    ensures forall x :: x !in b0.timers && x != e ==> SameEvent(b0, b, x)
    ensures b.times.on[e] == b1.times.on[e] && b.times.at[e] == b1.times.at[e] &&
      b.times.common[e] == b1.times.common[e]
  {
    hide Shape, Distinct, T.Inv, A.Inv, InsertedOk, AllAwake, A.Urgent, Less, T.Due, OthersSame, AwakeBut, Awake,
         Calmer, SameEvent;
    Open(b0);
    Open(b1);
    b := b1;
    if T.IsCommon(b.times, common) && b.times.queues[common][0] == e {
      RescheduledBut(b0, b, e, common, common);
      b := Schedule(b, common);
      Open(b);
      TimerIn(b1, common);
      TwiceSame(b0, b1, b, e, b1.timers[common]);
      CalmerTimer(b1, b, e, common);
    } else {
      RescheduledBut(b0, b, e, common, -1);
      OthersSame1(b0, b, e);
      CalmerSame(b, e, common);
    }
  }

  lemma TimerIn(b: Base, i: nat)
    requires Shape(b) && i < |b.timers|
    ensures b.timers[i] in b.timers
  {
  }

  lemma OthersSame1(b0: Base, b: Base, e: nat)
    requires Keys(b0) && Keys(b) && OthersSame(b0, b, e)
    ensures forall x :: x != e ==> SameEvent(b0, b, x)
  {
  }

  lemma TwiceSame(b0: Base, b1: Base, b: Base, e: nat, f: nat)
    requires Keys(b0) && Keys(b1) && Keys(b) && OthersSame(b0, b1, e) && OthersSame(b1, b, f) && e != f
    requires b1.times.on.Keys == b0.times.on.Keys == b.times.on.Keys
    ensures forall x :: x != e && x != f ==> SameEvent(b0, b, x)
    ensures e in b1.times.on ==>
      b.times.on[e] == b1.times.on[e] && b.times.at[e] == b1.times.at[e] && b.times.common[e] == b1.times.common[e]
  {
    forall x | x != e && x != f ensures SameEvent(b0, b, x) {
      assert SameEvent(b0, b1, x) && SameEvent(b1, b, x);
    }
    assert SameEvent(b1, b, e);
  }

  lemma RescheduledIs(b0: Base, b: Base, e: nat, common: int)
    requires Shape(b0) && Shape(b) && b == b0.(times := b.times, acts := b.acts, count := b.count) && e !in b0.timers
    requires e in b0.times.on && b.times.on == b0.times.on[e := true]
    requires e in b.times.at && b.times.at == b0.times.at[e := b.times.at[e]] &&
      b.times.common == b0.times.common[e := common]
    requires e in b0.acts.on && (b.acts.on == b0.acts.on[e := false] || b.acts.on == b0.acts.on)
    requires |b.times.queues| == |b0.times.queues|
    requires forall i :: 0 <= i < |b.times.queues| && i != common ==> Lost(b0, b, e, i)
    requires T.IsCommon(b0.times, common) ==>
      && b.times.queues[common] != []
      && (b.times.queues[common][0] == e || b.times.queues[common][0] in b0.times.queues[common])
    ensures Rescheduled(b0, b, e, common)
  {
    hide Shape, Lost, T.Inv, A.Inv, InsertedOk;
    Open(b0);
    Open(b);
    hide OthersSame;
    ElseSame(b0, b, e);
  }

  /** What a change of e alone leaves of the other events. */
  lemma ElseSame(b0: Base, b: Base, e: nat)
    requires Keys(b0) && Keys(b) && e in b0.times.on && e in b.times.at && e in b.times.common
    requires b.times.on == b0.times.on[e := true] || b.times.on == b0.times.on[e := false]
    requires b.times.at == b0.times.at[e := b.times.at[e]] || b.times.at == b0.times.at
    requires b.times.common == b0.times.common[e := b.times.common[e]] || b.times.common == b0.times.common
    requires b.acts.on == b0.acts.on[e := false] || b.acts.on == b0.acts.on
    ensures OthersSame(b0, b, e)
  {
  }

  lemma RescheduledBut(b0: Base, b: Base, e: nat, common: int, skip: int)
    requires Shape(b0) && AllAwake(b0) && Shape(b) && Rescheduled(b0, b, e, common)
    requires T.IsCommon(b.times, common) && b.times.queues[common][0] == e ==> skip == common
    ensures AwakeBut(b, skip)
    ensures skip == -1 ==> AllAwake(b)
  {
    hide Shape, Less, Awake, Rescheduled;
    Open(b0);
    Open(b);
    forall j | 0 <= j < |b.timers| && j != skip ensures TimerOk(b, j) && Awake(b, j) {
      Queue(b, j);
      RescheduledQueue(b0, b, e, common, j);
      RescheduledAwake(b0, b, e, common, j);
    }
  }

  lemma RescheduledQueue(b0: Base, b: Base, e: nat, common: int, j: nat)
    requires Shape(b0) && Shape(b) && Rescheduled(b0, b, e, common) && j < |b.times.queues|
    ensures b.timers == b0.timers && (j == common ==> b.times.queues[j] != [])
  {
  }

  /** Nothing that matters to the timeouts or the active events changed. */
  lemma InsertedInv(b0: Base, b: Base)
    requires Inv(b0) && Shape(b) && b == b0.(inserted := b.inserted, eventqueue := b.eventqueue, count := b.count)
    ensures Inv(b) && OthersSame(b0, b, 0) && SameEvent(b0, b, 0)
  {
    hide Shape, T.Inv, A.Inv, InsertedOk, A.Urgent;
    Open(b0);
    Open(b);
    forall j | 0 <= j < |b.timers| ensures TimerOk(b, j) && Awake(b, j) {
      assert TimerOk(b0, j) && Awake(b0, j);
    }
  }

  /** A timeout: how long, and the index of a common timeout, or -1. */
  datatype Tv = Tv(usec: int, common: int)

  /** The part of event_add_internal that registers a descriptor or signal. */
  method Register(b0: Base, e: nat, evmapOk: bool) returns (b: Base, res: int)
    requires Inv(b0) && e in b0.io
    ensures Inv(b) && b == b0.(inserted := b.inserted, eventqueue := b.eventqueue, count := b.count)
    ensures e in b0.inserted && e in b0.acts.on
    ensures res == if b0.io[e] && !b0.inserted[e] && !b0.acts.on[e] && !evmapOk then -1 else 0
    ensures res == -1 ==> b == b0
    ensures res == 0 ==> b.inserted == b0.inserted[e := b0.inserted[e] || (b0.io[e] && !b0.acts.on[e])]
  {
    hide Shape, T.Inv, A.Inv, InsertedOk, AllAwake, A.Urgent, OthersSame, SameEvent;
    Open(b0);
    b, res := b0, 0;
    if b.io[e] && !b.inserted[e] && !b.acts.on[e] {
      if !evmapOk {
        return b, -1;
      }
      b := Insert(b, e);
      InsertedInv(b0, b);
    }
    assert b0.inserted[e] ==> b0.inserted[e := true] == b0.inserted;
    assert !b0.inserted[e] ==> b0.inserted[e := false] == b0.inserted;
  }

  /** event_add_internal, on an event other than a timeout event of the base;
      `evmapOk` says whether the descriptor or signal could be registered. */
  method Add(b0: Base, e: nat, tv: Option<Tv>, absolute: bool, now: int, evmapOk: bool) returns (b: Base, res: int)
    requires Inv(b0) && e in b0.io && e !in b0.timers
    ensures Inv(b)
    ensures b.acts.cont == b0.acts.cont
    ensures b.acts.running == b0.acts.running && b.acts.pri == b0.acts.pri && b.timers == b0.timers &&
      b.serving == b0.serving
    ensures b.io == b0.io && b.internal == b0.internal && b.last == b0.last && b.persist == b0.persist &&
      b.times.on.Keys == b0.times.on.Keys
    ensures |b.acts.queues| == |b0.acts.queues| && |b.times.queues| == |b0.times.queues|
    ensures e in b0.inserted && e in b0.acts.on
    ensures res == if b0.io[e] && !b0.inserted[e] && !b0.acts.on[e] && !evmapOk then -1 else 0
    ensures res == -1 ==> b == b0
    ensures res == 0 ==> b.inserted == b0.inserted[e := b0.inserted[e] || (b0.io[e] && !b0.acts.on[e])]
    ensures forall x :: x !in b0.timers && !(x == e && res == 0 && tv.Some?) ==> SameEvent(b0, b, x)
    ensures res == 0 && tv.Some? ==>
      && e in b.times.on && b.times.on[e] && b.times.at[e] == (if absolute then tv.value.usec else now + tv.value.usec)
      && b.times.common[e] == tv.value.common
    ensures tv.Some? ==> Calmer(b0, b, e, res == 0, tv.value.common)
    ensures tv.None? ==> b.acts == b0.acts
  {
    hide Shape, Distinct, T.Inv, A.Inv, InsertedOk, AllAwake, A.Urgent, OthersSame, SameEvent, Calmer;
    Open(b0);
    b, res := Register(b0, e, evmapOk);
    RegisteredSame(b0, b);
    if tv.Some? {
      CalmerSame(b0, e, tv.value.common);
      CalmerActs(b0, b0, b, e, false, tv.value.common);
    }
    if res != -1 && tv.Some? {
      ghost var b1 := b;
      b := SetTimeout(b, e, if absolute then tv.value.usec else now + tv.value.usec, tv.value.common);
      Open(b);
      forall x | x !in b0.timers && x != e ensures SameEvent(b0, b, x) {
        SameTrans(b0, b1, b, x);
      }
      CalmerTwice(b0, b1, b, e, false, true, tv.value.common);
    }
  }

  lemma RegisteredSame(b0: Base, b: Base)
    requires Shape(b0) && Shape(b) && b == b0.(inserted := b.inserted, eventqueue := b.eventqueue, count := b.count)
    ensures Keys(b0) && Keys(b) && forall x :: SameEvent(b0, b, x)
  {
    hide Shape, T.Inv, A.Inv, InsertedOk;
    Open(b0);
    Open(b);
  }

  lemma SameRefl(b: Base)
    requires Keys(b)
    ensures forall x :: SameEvent(b, b, x)
  {
  }

  lemma SameTrans(b0: Base, b1: Base, b: Base, x: nat)
    requires Keys(b0) && Keys(b1) && Keys(b) && SameEvent(b0, b1, x) && SameEvent(b1, b, x)
    ensures SameEvent(b0, b, x)
  {
  }

  /** Only e changed, and perhaps left its timeout queue. */
  ghost predicate Reduced(b0: Base, b: Base, e: nat)
    requires Shape(b0) && Shape(b)
  {
    && b.timers == b0.timers && b.serving == b0.serving && |b.times.queues| == |b0.times.queues|
    && b.internal == b0.internal && b.persist == b0.persist && b.last == b0.last
    && b.acts.pri == b0.acts.pri && b.acts.running == b0.acts.running && |b.acts.queues| == |b0.acts.queues|
    && b.times.at == b0.times.at && OthersSame(b0, b, e)
    && (forall i :: 0 <= i < |b.times.queues| ==> Lost(b0, b, e, i))
  }

  lemma ReducedAwake(b0: Base, b: Base, e: nat, j: nat)
    requires Shape(b0) && Shape(b) && j < |b0.timers| && b0.timers[j] != e && Reduced(b0, b, e)
    requires TimerOk(b0, j) && Awake(b0, j)
    ensures TimerOk(b, j) && Awake(b, j)
  {
    hide Shape, Distinct, T.Inv, A.Inv, InsertedOk, Awake, Less;
    Open(b0);
    Open(b);
    Queue(b, j);
    Queue(b0, j);
    if b.times.queues[j] != [] {
      ReducedHead(b0, b, e, j);
    }
    assert SameEvent(b0, b, b.timers[j]);
    SteadyAwake(b0, b, j);
  }

  lemma ReducedHead(b0: Base, b: Base, e: nat, j: nat)
    requires Shape(b0) && Shape(b) && j < |b.times.queues| && Reduced(b0, b, e) && b.times.queues[j] != []
    ensures var head := b.times.queues[j][0];
      j < |b0.times.queues| && head in b0.times.queues[j] && head in b0.times.at && head in b.times.at
      && b.times.at[head] == b0.times.at[head]
  {
    hide Shape, Distinct, T.Inv, A.Inv, InsertedOk, Less;
    Open(b0);
    Open(b);
    Queue(b0, j);
    Queue(b, j);
    LessIn(b0.times.queues[j], e);
    assert Lost(b0, b, e, j);
    assert b.times.queues[j][0] in b.times.queues[j];
  }

  /** event_del_internal */
  method Del(b0: Base, e: nat) returns (b: Base)
    requires Shape(b0) && e in b0.times.on
    ensures Shape(b) && Reduced(b0, b, e)
    ensures e in b.times.on && !b.times.on[e] && !b.acts.on[e] && !b.inserted[e]
    ensures b.times.heap == b0.times.heap - {e}
    ensures forall i :: 0 <= i < |b.times.queues| ==>
              b.times.queues[i] == if b0.times.on[e] && i == b0.times.common[e] then Less(b0.times.queues[i], e) else b0.times.queues[i]
    ensures b.acts.cont == b0.acts.cont && (A.Urgent(b0.acts) ==> A.Urgent(b.acts))
    ensures b.inserted == b0.inserted[e := false] && b.io == b0.io
    ensures |b.acts.queues| == |b0.acts.queues| && b.acts.late == b0.acts.late
    ensures forall q :: 0 <= q < |b.acts.queues| ==>
              b.acts.queues[q] == if b0.acts.on[e] && q == b0.acts.pri[e] then Less(b0.acts.queues[q], e) else b0.acts.queues[q]
  {
    hide A.Moved, Shape, Distinct, T.Inv, A.Inv, InsertedOk, A.Urgent, Less, T.Due, Counted, Reduced;
    Open(b0);
    HeapOn(b0, e);
    OffSame(b0, e);
    NotInserted(b0, e);
    b := b0;
    if b.times.on[e] {
      b := Unpend(b, e);
    }
    if b.acts.on[e] {
      b := Deactivate(b, e);
    }
    if b.inserted[e] {
      b := Uninsert(b, e);
    }
    DelIs(b0, b, e);
  }

  lemma DelMoved(b0: Base, b: Base, e: nat)
    requires Shape(b0) && Shape(b) && Reduced(b0, b, e) && e in b0.acts.on && e in b.acts.on && !b.acts.on[e]
    requires b.acts.late == b0.acts.late && e in b0.acts.pri && |b.acts.queues| == |b0.acts.queues|
    requires forall q :: 0 <= q < |b.acts.queues| ==>
               b.acts.queues[q] == if b0.acts.on[e] && q == b0.acts.pri[e] then Less(b0.acts.queues[q], e) else b0.acts.queues[q]
    ensures A.Moved(b0.acts, A.Leaves(e), b0.timers, b.acts)
  {
    hide A.Inv, T.Inv, InsertedOk, Less, A.Moved, OthersSame, Shape, Keys, A.Keys;
    Open(b0);
    FireKept(b0, b, e);
    ReducedActs(b0, b, e);
    hide Reduced;
    A.LeavesIs(b0.acts, e, b0.timers, b.acts);
  }

  lemma ReducedActs(b0: Base, b: Base, e: nat)
    requires Shape(b0) && Shape(b) && Reduced(b0, b, e) && e in b0.acts.on && e in b.acts.on && !b.acts.on[e]
    requires b.acts.on.Keys == b0.acts.on.Keys && forall x :: x in b.acts.on && x != e ==> b.acts.on[x] == b0.acts.on[x]
    ensures b.acts.on == b0.acts.on[e := false] && b.acts.pri == b0.acts.pri
  {
    hide Shape, OthersSame;
  }

  lemma NotInserted(b: Base, e: nat)
    requires Keys(b) && e in b.times.on
    ensures !b.inserted[e] ==> b.inserted[e := false] == b.inserted
  {
  }

  lemma OffSame(b: Base, e: nat)
    requires Keys(b) && e in b.times.on
    ensures !b.times.on[e] ==> b.times.on[e := false] == b.times.on
    ensures !b.acts.on[e] ==> b.acts.on[e := false] == b.acts.on
  {
  }

  lemma DelIs(b0: Base, b: Base, e: nat)
    requires Shape(b0) && Shape(b) && e in b0.times.on && e in b0.acts.on
    requires b == b0.(times := b.times, acts := b.acts, inserted := b.inserted, eventqueue := b.eventqueue, count := b.count)
    requires b.times.on == b0.times.on[e := false] && b.times.at == b0.times.at && b.times.common == b0.times.common
    requires b.acts.on == b0.acts.on[e := false] && b.acts.pri == b0.acts.pri && b.acts.running == b0.acts.running
    requires |b.times.queues| == |b0.times.queues| && |b.acts.queues| == |b0.acts.queues|
    requires forall i :: 0 <= i < |b.times.queues| ==> Lost(b0, b, e, i)
    ensures Reduced(b0, b, e)
  {
    hide Shape, T.Inv, A.Inv, InsertedOk, Lost;
    Open(b0);
    Open(b);
    hide OthersSame;
    ElseSame(b0, b, e);
  }

  lemma HeapOn(b: Base, e: nat)
    requires Shape(b) && e in b.times.on
    ensures e in b.times.heap ==> b.times.on[e]
    ensures b.times.heap <= b.times.on.Keys
  {
    assert T.Placed(b.times, e);
  }

  lemma ReducedBut(b0: Base, b: Base, e: nat, i: int)
    requires Inv(b0) && Shape(b) && Reduced(b0, b, e)
    requires forall j :: 0 <= j < |b0.timers| && b0.timers[j] == e ==> j == i
    ensures AwakeBut(b, i)
    ensures (forall j :: 0 <= j < |b0.timers| ==> b0.timers[j] != e) ==> AllAwake(b)
  {
    hide Shape, Less, Awake, Distinct, T.Inv, A.Inv, InsertedOk, A.Urgent, Reduced;
    ReducedTimers(b0, b, e);
    Open(b0);
    Open(b);
    forall j | 0 <= j < |b.timers| && b0.timers[j] != e ensures TimerOk(b, j) && Awake(b, j) {
      ReducedAwake(b0, b, e, j);
    }
  }

  lemma ReducedTimers(b0: Base, b: Base, e: nat)
    requires Shape(b0) && Shape(b) && Reduced(b0, b, e)
    ensures b.timers == b0.timers && |b.timers| == |b.times.queues|
  {
  }

  /** event_del, on an event other than a timeout event of the base. */
  method EventDel(b0: Base, e: nat) returns (b: Base)
    requires Inv(b0) && e in b0.times.on && e !in b0.timers
    ensures Inv(b) && Reduced(b0, b, e) && b.acts.cont == b0.acts.cont
    ensures e in b.times.on && !b.times.on[e] && !b.acts.on[e] && !b.inserted[e]
    ensures A.Moved(b0.acts, A.Leaves(e), b0.timers, b.acts)
    ensures b.inserted == b0.inserted[e := false] && b.io == b0.io && b.acts.late == b0.acts.late
  {
    hide A.Moved, Shape, T.Inv, A.Inv, InsertedOk, A.Urgent, Less, AllAwake, Reduced;
    b := Del(b0, e);
    Open(b0);
    Open(b);
    DelMoved(b0, b, e);
    forall j | 0 <= j < |b0.timers| ensures b0.timers[j] != e {
      TimerIn(b0, j);
    }
    ReducedBut(b0, b, e, -1);
  }

  /** A timeout has passed: the event leaves all queues and becomes active. */
  method Fire(b0: Base, e: nat) returns (b: Base)
    requires Inv(b0) && e in b0.times.on
    ensures Inv(b) && Reduced(b0, b, e)
    ensures e in b.times.on && !b.times.on[e] && e in b.acts.on && b.acts.on[e] && e in b.acts.late && b.acts.late[e]
    ensures b.times.heap == b0.times.heap - {e}
    ensures forall i :: 0 <= i < |b.times.queues| ==>
              b.times.queues[i] == if b0.times.on[e] && i == b0.times.common[e] then Less(b0.times.queues[i], e) else b0.times.queues[i]
    ensures b0.acts.pri[e] >= b0.acts.running ==> b.acts.cont == b0.acts.cont
    ensures A.Moves(b0.acts, A.Fires([e]), b0.timers, b.acts)
    ensures b.inserted == b0.inserted[e := false] && b.io == b0.io
  {
    hide A.Moved, A.Moves, Shape, T.Inv, A.Inv, InsertedOk, A.Urgent, Less, Distinct;
    Open(b0);
    b := Del(b0, e);
    Open(b);
    ghost var b1 := b;
    b := ActiveNolock(b, e, true);
    FiredIs(b0, b1, b, e);
    FiredAwake(b0, b, e);
    DelMoved(b0, b1, e);
    A.FiresOne(b0.acts, e, b0.timers, b1.acts, b.acts);
  }

  lemma FiredIs(b0: Base, b1: Base, b: Base, e: nat)
    requires Shape(b0) && Shape(b1) && Shape(b) && Reduced(b0, b1, e) && b == b1.(acts := b.acts, count := b.count)
    requires e in b1.acts.on && b.acts.on == b1.acts.on[e := true] && b.acts.pri == b1.acts.pri
    requires b.acts.running == b1.acts.running && |b.acts.queues| == |b1.acts.queues|
    ensures Reduced(b0, b, e)
  {
    hide Shape, Distinct, T.Inv, A.Inv, InsertedOk;
    Open(b0);
    Open(b1);
    Open(b);
    forall x | x != e ensures SameEvent(b0, b, x) {
      assert SameEvent(b0, b1, x);
    }
    forall i | 0 <= i < |b.times.queues| ensures Lost(b0, b, e, i) {
      assert Lost(b0, b1, e, i);
    }
    hide SameEvent, Keys, Lost;
  }

  lemma FiredAwake(b0: Base, b: Base, e: nat)
    requires Inv(b0) && Shape(b) && Reduced(b0, b, e) && e in b.acts.on && b.acts.on[e]
    ensures AllAwake(b)
  {
    hide Shape, Distinct, T.Inv, A.Inv, InsertedOk, Less, A.Urgent, Reduced;
    ReducedTimers(b0, b, e);
    Open(b0);
    Open(b);
    forall j | 0 <= j < |b.timers| ensures TimerOk(b, j) && Awake(b, j) {
      Queue(b, j);
      if b0.timers[j] != e {
        ReducedAwake(b0, b, e, j);
      }
    }
  }

  /** An event of the heap whose time has come. */
  ghost predicate Expiring(b: Base, e: nat, now: int) {
    e in b.times.heap && e in b.times.at && b.times.at[e] <= now
  }

  /** timeout_process: activates every event of the heap that is due,
      the earliest first. */
  method TimeoutProcess(b0: Base, now: int) returns (b: Base, ghost fired: seq<nat>)
    requires Inv(b0)
    ensures Inv(b) && b.times.heap <= b0.times.heap && b.times.at == b0.times.at && b.serving == b0.serving
    ensures forall e :: e in b0.times.heap ==> e in b0.times.at && e in b.acts.on
    ensures forall e :: e in b0.times.heap && b0.times.at[e] <= now ==> e !in b.times.heap && b.acts.on[e]
    ensures forall e :: Expiring(b0, e, now) ==> e in b.times.on && !b.times.on[e]
    ensures forall e :: e in b0.times.heap && b0.times.at[e] > now ==> e in b.times.heap
    ensures forall e :: !Expiring(b0, e, now) ==> SameEvent(b0, b, e)
    ensures b.acts.running == b0.acts.running && |b.acts.queues| == |b0.acts.queues|
    ensures b.timers == b0.timers && b.internal == b0.internal && b.acts.on.Keys == b0.acts.on.Keys
    ensures b.persist == b0.persist && b.acts.pri == b0.acts.pri
    ensures b0.acts.running <= 0 ==> b.acts.cont == b0.acts.cont
    ensures T.Sorted(b0.times.at, fired) && Distinct(fired) && forall e :: e in fired <==> Expiring(b0, e, now)
    ensures A.Moves(b0.acts, A.Fires(fired), b0.timers, b.acts) && Unlisted(b0, b, fired)
  {
    hide Unlisted, InOrder, A.Moves, A.Fires, T.Sorted, Shape, T.Inv, A.Inv, InsertedOk, A.Urgent, Less, Distinct,
         AllAwake, OthersSame, SameEvent, Reduced, AllGone, Gone;
    b, fired := b0, [];
    NothingFired(b0);
    UnlistedNone(b0);
    NothingInOrder(b0);
    HeapKnown(b0);
    Open(b0);
    SameRefl(b0);
    NoneGone(b0, now);
    while b.times.heap != {}
      invariant Inv(b) && b.times.heap <= b0.times.heap && b.times.at == b0.times.at && b.serving == b0.serving
      invariant b.acts.running == b0.acts.running && |b.acts.queues| == |b0.acts.queues|
      invariant b.timers == b0.timers && b.internal == b0.internal && b.acts.on.Keys == b0.acts.on.Keys
      invariant b.persist == b0.persist && b.acts.pri == b0.acts.pri
      invariant b0.acts.running <= 0 ==> b.acts.cont == b0.acts.cont
      invariant AllGone(b0, b, now)
      invariant Keys(b) && forall e :: !Expiring(b0, e, now) ==> SameEvent(b0, b, e)
      invariant Unlisted(b0, b, fired) && InOrder(b0, b, fired) && A.Moves(b0.acts, A.Fires(fired), b0.timers, b.acts)
      decreases b.times.heap
    {
      HeapKnown(b);
      ghost var top := T.TopExists(b.times, b.times.heap);
      var e :| e in b.times.heap && forall x :: x in b.times.heap ==> b.times.at[e] <= b.times.at[x];
      if b.times.at[e] > now {
        break;
      }
      ghost var b1 := b;
      b := Fire(b, e);
      FireKept(b1, b, e);
      Open(b);
      FireElse(b0, b1, b, e);
      FireGone(b0, b1, b, e, now);
      InOrderMore(b0, b1, b, fired, e);
      A.FiresThen(b0.acts, fired, b0.timers, b1.acts, e, b.acts);
      UnlistedMore(b0, b1, b, fired, e);
      fired := fired + [e];
    }
    AllGoneOn(b0, b, now);
    InOrderIs(b0, b, fired);
  }

  lemma NothingFired(b: Base)
    ensures A.Fires([]) == [] && A.Moves(b.acts, [], b.timers, b.acts)
  {
  }

  /** What has left the heap, in the order of its deadlines; what is left is due
      no earlier. */
  ghost predicate InOrder(b0: Base, b: Base, fired: seq<nat>) {
    && T.Sorted(b0.times.at, fired) && Distinct(fired)
    && (forall e :: e in fired <==> e in b0.times.heap && e !in b.times.heap)
    && forall e, x :: e in fired && x in b.times.heap ==> T.NotAfter(b0.times.at, e, x)
  }

  lemma NothingInOrder(b: Base)
    ensures InOrder(b, b, [])
  {
  }

  lemma InOrderMore(b0: Base, b1: Base, b: Base, fired: seq<nat>, e: nat)
    requires InOrder(b0, b1, fired) && b.times.heap == b1.times.heap - {e} && e in b1.times.heap &&
      b1.times.heap <= b0.times.heap
    requires forall x :: x in b1.times.heap ==> T.NotAfter(b0.times.at, e, x)
    ensures InOrder(b0, b, fired + [e])
  {
    var f := fired + [e];
    A.DistinctPush(fired, e);
    assert T.NotAfter(b0.times.at, e, e);
    forall i, j | 0 <= i < j < |f| ensures T.NotAfter(b0.times.at, f[i], f[j]) {
      assert fired[i] in fired;
      if j < |fired| {
        assert T.NotAfter(b0.times.at, fired[i], fired[j]);
      }
    }
    forall i | 0 <= i < |f| ensures f[i] in b0.times.at {
      if i < |fired| {
        assert fired[i] in b0.times.at;
      }
    }
  }

  lemma InOrderIs(b0: Base, b: Base, fired: seq<nat>)
    requires InOrder(b0, b, fired)
    ensures T.Sorted(b0.times.at, fired) && Distinct(fired) && forall e :: e in fired <==>
      e in b0.times.heap && e !in b.times.heap
  {
  }

  /** What left the heap was due, and is active. */
  ghost predicate AllGone(b0: Base, b: Base, now: int) {
    forall e :: e in b0.times.heap && e !in b.times.heap ==> Gone(b0, b, e, now)
  }

  lemma NoneGone(b: Base, now: int)
    ensures AllGone(b, b, now)
  {
  }

  lemma FireGone(b0: Base, b1: Base, b: Base, e: nat, now: int)
    requires AllGone(b0, b1, now) && b.times.heap == b1.times.heap - {e}
    requires e in b0.times.at && b0.times.at[e] <= now && e in b.acts.on && b.acts.on[e]
    requires e in b.times.on && !b.times.on[e]
    requires b.acts.on.Keys == b1.acts.on.Keys && forall x :: x in b.acts.on && x != e ==> b.acts.on[x] == b1.acts.on[x]
    requires b.times.on.Keys == b1.times.on.Keys && forall x :: x in b.times.on && x != e ==>
      b.times.on[x] == b1.times.on[x]
    ensures AllGone(b0, b, now)
  {
    forall x | x in b0.times.heap && x !in b.times.heap ensures Gone(b0, b, x, now) {
      assert x != e ==> Gone(b0, b1, x, now);
    }
  }

  lemma AllGoneOn(b0: Base, b: Base, now: int)
    requires AllGone(b0, b, now)
    ensures forall e :: e in b0.times.heap && e !in b.times.heap ==>
              && e in b0.times.at && b0.times.at[e] <= now && e in b.acts.on && b.acts.on[e]
              && e in b.times.on && !b.times.on[e]
  {
    forall e | e in b0.times.heap && e !in b.times.heap ensures Gone(b0, b, e, now) {
    }
  }

  /** What was as before and is not the event fired still is as before. */
  lemma FireElse(b0: Base, b1: Base, b: Base, e: nat)
    requires Keys(b0) && Shape(b1) && Shape(b) && Reduced(b1, b, e)
    ensures Keys(b1) && Keys(b) && b.times.at == b1.times.at && b.serving == b1.serving
    ensures b.timers == b1.timers && b.internal == b1.internal && b.persist == b1.persist && b.acts.pri == b1.acts.pri
    ensures b.acts.running == b1.acts.running && |b.acts.queues| == |b1.acts.queues|
    ensures forall x :: x != e && SameEvent(b0, b1, x) ==> SameEvent(b0, b, x)
  {
    hide Shape, T.Inv, A.Inv, InsertedOk, SameEvent, Lost;
    Open(b1);
    Open(b);
    OthersSame1(b1, b, e);
    forall x | x != e && SameEvent(b0, b1, x) ensures SameEvent(b0, b, x) {
      SameTrans(b0, b1, b, x);
    }
  }

  lemma HeapKnown(b: Base)
    requires Shape(b)
    ensures T.Keys(b.times) && b.times.heap <= b.times.on.Keys
    ensures forall e :: e in b.times.heap ==> e in b.times.at && e in b.acts.on && e in b.times.on
  {
  }

  lemma FireKept(b0: Base, b: Base, e: nat)
    requires Shape(b0) && Shape(b) && Reduced(b0, b, e)
    ensures b.acts.on.Keys == b0.acts.on.Keys
    ensures forall x :: x in b.acts.on && x != e ==> b.acts.on[x] == b0.acts.on[x]
    ensures b.times.on.Keys == b0.times.on.Keys
    ensures forall x :: x in b.times.on && x != e ==> b.times.on[x] == b0.times.on[x]
  {
    hide Shape, T.Inv, A.Inv, InsertedOk, Less;
    Open(b0);
    Open(b);
    assert b.acts.on.Keys == b.times.at.Keys && b0.acts.on.Keys == b0.times.at.Keys;
    forall x | x in b.acts.on && x != e ensures b.acts.on[x] == b0.acts.on[x] && b.times.on[x] == b0.times.on[x] {
      assert SameEvent(b0, b, x);
    }
  }

  ghost function Active(b: Base): set<nat> {
    set e | e in b.acts.on && b.acts.on[e]
  }

  ghost function Timers(b: Base): set<nat> {
    set e | e in b.timers
  }

  /** The events of queue i that were due are active; the rest is as it was. */
  ghost predicate Served(b0: Base, b: Base, i: nat, now: int)
    requires Shape(b0) && Shape(b)
  {
    && b.timers == b0.timers && |b.times.queues| == |b0.times.queues| && i < |b.times.queues|
    && b.internal == b0.internal && b.persist == b0.persist && b.last == b0.last && b.times.on.Keys == b0.times.on.Keys
    && b.acts.pri == b0.acts.pri && b.acts.running == b0.acts.running && |b.acts.queues| == |b0.acts.queues|
    && ServedLeft(b0, b, i) && ServedGone(b0, b, i, now) && ServedTimers(b0, b) && ServedElse(b0, b, i)
  }

  /** Nothing but the events of queue i and its timeout event changed. */
  ghost predicate ServedElse(b0: Base, b: Base, i: nat)
    requires Keys(b0) && Keys(b) && i < |b0.times.queues|
  {
    forall e :: e !in b0.times.queues[i] && !(i < |b0.timers| && e == b0.timers[i]) ==> SameEvent(b0, b, e)
  }

  ghost predicate ServedLeft(b0: Base, b: Base, i: nat)
    requires Keys(b0) && Keys(b) && i < |b.times.queues| == |b0.times.queues|
  {
    forall e :: e in b.times.queues[i] ==> e in b0.times.queues[i] && SameEvent(b0, b, e)
  }

  ghost predicate ServedGone(b0: Base, b: Base, i: nat, now: int)
    requires i < |b.times.queues| == |b0.times.queues|
  {
    forall e :: e in b0.times.queues[i] && e !in b.times.queues[i] ==> Gone(b0, b, e, now)
  }

  /** No timeout event of the base became active. */
  ghost predicate ServedTimers(b0: Base, b: Base) {
    forall e :: e in b.timers ==> StillIdle(b0, b, e)
  }

  ghost predicate StillIdle(b0: Base, b: Base, e: nat) {
    e in b.acts.on && b.acts.on[e] ==> e in b0.acts.on && b0.acts.on[e]
  }

  ghost predicate Gone(b0: Base, b: Base, e: nat, now: int) {
    && e in b0.times.at && b0.times.at[e] <= now && e in b.acts.on && b.acts.on[e]
    && e in b.times.on && !b.times.on[e]
  }

  lemma ServedNone(b: Base, i: nat, now: int)
    requires Shape(b) && i < |b.times.queues|
    ensures Served(b, b, i, now)
  {
    hide Shape, T.Inv, A.Inv, InsertedOk;
    Open(b);
    SameRefl(b);
    hide SameEvent;
  }

  lemma ServedStep(b0: Base, b1: Base, b: Base, i: nat, now: int, e: nat)
    requires Shape(b0) && Shape(b1) && Shape(b) && Served(b0, b1, i, now) && Reduced(b1, b, e)
    requires e in b1.times.queues[i] && e in b.acts.on && b.acts.on[e] && e in b1.times.at && b1.times.at[e] <= now
    requires e in b.times.on && !b.times.on[e]
    requires b.times.queues[i] == Less(b1.times.queues[i], e)
    ensures Served(b0, b, i, now)
  {
    hide Shape, T.Inv, A.Inv, InsertedOk, Less, Distinct, SameEvent, OthersSame, ServedLeft, ServedGone, ServedTimers,
         ServedElse;
    Open(b0);
    Open(b1);
    Open(b);
    Queue(b1, i);
    LessIn(b1.times.queues[i], e);
    OthersSame1(b1, b, e);
    StepLeft(b0, b1, b, i, e);
    StepGone(b0, b1, b, i, now, e);
    FireKept(b1, b, e);
    StepTimers(b0, b1, b, e);
    StepElse(b0, b1, b, i, e);
  }

  lemma StepElse(b0: Base, b1: Base, b: Base, i: nat, e: nat)
    requires Keys(b0) && Keys(b1) && Keys(b) && i < |b.times.queues| == |b1.times.queues| == |b0.times.queues|
    requires ServedLeft(b0, b1, i) && ServedElse(b0, b1, i) && e in b1.times.queues[i] && forall x :: x != e ==>
      SameEvent(b1, b, x)
    ensures ServedElse(b0, b, i)
  {
    hide Keys, SameEvent;
    forall x | x !in b0.times.queues[i] && !(i < |b0.timers| && x == b0.timers[i]) ensures SameEvent(b0, b, x) {
      SameTrans(b0, b1, b, x);
    }
  }

  lemma StepLeft(b0: Base, b1: Base, b: Base, i: nat, e: nat)
    requires Keys(b0) && Keys(b1) && Keys(b) && i < |b.times.queues| == |b1.times.queues| == |b0.times.queues|
    requires ServedLeft(b0, b1, i) && forall x :: x != e ==> SameEvent(b1, b, x)
    requires forall x :: x in b.times.queues[i] <==> x in b1.times.queues[i] && x != e
    ensures ServedLeft(b0, b, i)
  {
    hide Keys, SameEvent;
    forall x | x in b.times.queues[i] ensures SameEvent(b0, b, x) {
      SameTrans(b0, b1, b, x);
    }
  }

  lemma StepGone(b0: Base, b1: Base, b: Base, i: nat, now: int, e: nat)
    requires Keys(b0) && Keys(b1) && Keys(b) && i < |b.times.queues| == |b1.times.queues| == |b0.times.queues|
    requires ServedLeft(b0, b1, i) && ServedGone(b0, b1, i, now) && b.times.at == b1.times.at
    requires forall x :: x != e ==> SameEvent(b1, b, x)
    requires forall x :: x in b.times.queues[i] <==> x in b1.times.queues[i] && x != e
    requires e in b1.times.queues[i] && e in b.acts.on && b.acts.on[e] && e in b1.times.at && b1.times.at[e] <= now
    requires e in b.times.on && !b.times.on[e]
    ensures ServedGone(b0, b, i, now)
  {
    forall x | x in b0.times.queues[i] && x !in b.times.queues[i] ensures Gone(b0, b, x, now) {
      if x == e {
        SameDue(b0, b1, e);
      } else {
        assert Gone(b0, b1, x, now);
        assert SameEvent(b1, b, x);
      }
    }
  }

  lemma StepTimers(b0: Base, b1: Base, b: Base, e: nat)
    requires ServedTimers(b0, b1) && b.timers == b1.timers && e !in b1.timers
    requires b.acts.on.Keys == b1.acts.on.Keys
    requires forall x :: x in b.acts.on && x != e ==> b.acts.on[x] == b1.acts.on[x]
    ensures ServedTimers(b0, b)
  {
    forall x | x in b.timers ensures StillIdle(b0, b, x) {
      assert StillIdle(b0, b1, x);
    }
  }

  lemma SameDue(b0: Base, b: Base, e: nat)
    requires Keys(b0) && Keys(b) && SameEvent(b0, b, e) && e in b.times.at
    ensures e in b0.times.at && b.times.at[e] == b0.times.at[e]
  {
  }

  /** The events of a sorted queue that are due: its beginning. */
  ghost function DuePrefix(q: seq<nat>, at: map<nat, int>, now: int): seq<nat> {
    if q == [] || q[0] !in at || at[q[0]] > now then [] else [q[0]] + DuePrefix(q[1..], at, now)
  }

  /** These events do not wait for a descriptor or signal any more. */
  ghost predicate Unlisted(b0: Base, b: Base, fired: seq<nat>) {
    && b.io == b0.io && b.inserted.Keys == b0.inserted.Keys
    && forall x :: x in b0.inserted ==> b.inserted[x] == (b0.inserted[x] && x !in fired)
  }

  lemma UnlistedNone(b: Base)
    ensures Unlisted(b, b, [])
  {
  }

  lemma UnlistedMore(b0: Base, b1: Base, b: Base, fired: seq<nat>, e: nat)
    requires Unlisted(b0, b1, fired) && e in b1.inserted && b.inserted == b1.inserted[e := false] && b.io == b1.io
    ensures Unlisted(b0, b, fired + [e])
  {
  }

  lemma UnlistedSame(b0: Base, b1: Base, b: Base, fired: seq<nat>)
    requires Unlisted(b0, b1, fired) && b.inserted == b1.inserted && b.io == b1.io
    ensures Unlisted(b0, b, fired)
  {
  }

  /** So many events of queue i became active, in their order. */
  ghost predicate FiredFirst(b0: Base, b: Base, i: nat, n: nat, now: int)
    requires i < |b0.times.queues| == |b.times.queues|
  {
    var q := b0.times.queues[i];
    && n <= |q| && b.times.queues[i] == q[n..] && b.times.at == b0.times.at && b.timers == b0.timers
    && (forall e :: e in q[..n] ==> e in b0.times.at && b0.times.at[e] <= now)
    && A.Moves(b0.acts, A.Fires(q[..n]), b0.timers, b.acts) && Unlisted(b0, b, q[..n])
  }

  lemma FiredNone(b: Base, i: nat, now: int)
    requires i < |b.times.queues|
    ensures FiredFirst(b, b, i, 0, now)
  {
    UnlistedNone(b);
    assert A.Fires([]) == [];
    assert b.times.queues[i][..0] == [] && b.times.queues[i][0..] == b.times.queues[i];
  }

  lemma FiredOneMore(b0: Base, b1: Base, b: Base, i: nat, n: nat, now: int)
    requires i < |b0.times.queues| == |b1.times.queues| == |b.times.queues| && FiredFirst(b0, b1, i, n, now)
    requires b1.times.queues[i] != []
    requires var e := b1.times.queues[i][0];
      && e in b1.times.at && b1.times.at[e] <= now && A.Moves(b1.acts, A.Fires([e]), b1.timers, b.acts)
      && b.times.queues[i] == Less(b1.times.queues[i], e)
    requires b.times.at == b1.times.at && b.timers == b1.timers
    requires var e := b1.times.queues[i][0];
      e in b1.inserted && b.inserted == b1.inserted[e := false] && b.io == b1.io
    ensures FiredFirst(b0, b, i, n + 1, now)
  {
    hide A.Moves, A.Fires, Unlisted;
    var q, e := b0.times.queues[i], b1.times.queues[i][0];
    assert e == q[n] && q[..n + 1] == q[..n] + [e];
    LessFirst(b1.times.queues[i], e);
    assert q[n..][1..] == q[n + 1..];
    UnlistedMore(b0, b1, b, q[..n], e);
    A.FiresThen(b0.acts, q[..n], b0.timers, b1.acts, e, b.acts);
  }

  lemma {:induction false} DueIsPrefix(q: seq<nat>, at: map<nat, int>, now: int, n: nat)
    requires n <= |q| && forall e :: e in q[..n] ==> e in at && at[e] <= now
    requires n < |q| ==> q[n] in at && at[q[n]] > now
    ensures DuePrefix(q, at, now) == q[..n]
  {
    if n > 0 {
      assert q[0] in q[..n];
      assert q[..n] == [q[0]] + q[1..][..n - 1];
      assert forall e :: e in q[1..][..n - 1] ==> e in q[..n];
      DueIsPrefix(q[1..], at, now, n - 1);
    }
  }

  lemma AllFired(b0: Base, b: Base, i: nat, n: nat, now: int)
    requires i < |b0.times.queues| == |b.times.queues| && FiredFirst(b0, b, i, n, now)
    requires b.times.queues[i] != [] ==> b.times.queues[i][0] in b.times.at && b.times.at[b.times.queues[i][0]] > now
    ensures A.Moves(b0.acts, A.Fires(DuePrefix(b0.times.queues[i], b0.times.at, now)), b0.timers, b.acts)
    ensures Unlisted(b0, b, DuePrefix(b0.times.queues[i], b0.times.at, now))
  {
    hide A.Moves, A.Fires, DuePrefix, Unlisted;
    DueIsPrefix(b0.times.queues[i], b0.times.at, now, n);
  }

  lemma ReducedAt(b0: Base, b: Base, e: nat)
    requires Shape(b0) && Shape(b) && Reduced(b0, b, e)
    ensures b.times.at == b0.times.at && b.timers == b0.timers
  {
  }

  /** The loop of common_timeout_callback: activates what is due in queue i, from
      its beginning. */
  method FireQueue(b0: Base, i: nat, now: int) returns (b: Base)
    requires Inv(b0) && b0.serving == i && i < |b0.times.queues|
    ensures Inv(b) && b.serving == i && Served(b0, b, i, now) && |b.times.queues| == |b0.times.queues|
    ensures b.acts.running == b0.acts.running && (b0.acts.running <= 0 ==> b.acts.cont == b0.acts.cont)
    ensures b.times.queues[i] != [] ==> b.times.queues[i][0] in b.times.at && b.times.at[b.times.queues[i][0]] > now
    ensures A.Moves(b0.acts, A.Fires(DuePrefix(b0.times.queues[i], b0.times.at, now)), b0.timers, b.acts)
    ensures Unlisted(b0, b, DuePrefix(b0.times.queues[i], b0.times.at, now))
  {
    hide Shape, T.Inv, A.Inv, InsertedOk, A.Urgent, Less, Distinct, AllAwake, OthersSame, Served, SameEvent, Reduced,
         FiredFirst, DuePrefix, Unlisted, A.Moves, A.Fires;
    b := b0;
    ghost var n := 0;
    ServedNone(b0, i, now);
    FiredNone(b0, i, now);
    Open(b0);
    while b.times.queues[i] != []
      invariant Inv(b) && b.serving == i && Served(b0, b, i, now) && |b.times.queues| == |b0.times.queues|
      invariant b.acts.running == b0.acts.running && (b0.acts.running <= 0 ==> b.acts.cont == b0.acts.cont)
      invariant n >= 0 && FiredFirst(b0, b, i, n, now)
      decreases |b.times.queues[i]|
    {
      Open(b);
      Queue(b, i);
      var e := b.times.queues[i][0];
      if b.times.at[e] > now {
        break;
      }
      ghost var b1 := b;
      b := Fire(b, e);
      ReducedTimers2(b1, b, e);
      ReducedAt(b1, b, e);
      ServedStep(b0, b1, b, i, now, e);
      FiredOneMore(b0, b1, b, i, n, now);
      LessShorter(b1.times.queues[i], e);
      n := n + 1;
    }
    AllFired(b0, b, i, n, now);
  }

  /** common_timeout_callback of queue i, whose timeout event has been taken off
      the active events: activates what is due in the queue, in order, and
      reschedules the timeout event for what is left. */
  method CommonCallback(b0: Base, i: nat, now: int) returns (b: Base)
    requires Inv(b0) && b0.serving == i && i < |b0.times.queues|
    ensures Inv(b) && b.serving == -1 && Served(b0, b, i, now)
    ensures forall e :: e in b.times.queues[i] ==> e in b.times.at && b.times.at[e] > now
    ensures b0.acts.running <= 0 ==> b.acts.cont == b0.acts.cont
    ensures i < |b0.timers| && b0.timers[i] in b0.acts.on && !b0.acts.on[b0.timers[i]] ==>
      A.Moves(b0.acts, A.Fires(DuePrefix(b0.times.queues[i], b0.times.at, now)), b0.timers, b.acts)
    ensures Unlisted(b0, b, DuePrefix(b0.times.queues[i], b0.times.at, now))
  {
    hide Shape, T.Inv, A.Inv, InsertedOk, A.Urgent, Less, Distinct, AllAwake, OthersSame, Served, SameEvent, Reduced,
         Calmer, DuePrefix, Unlisted, A.Moves, A.Fires;
    b := FireQueue(b0, i, now);
    Open(b);
    Queue(b, i);
    RestLater(b, i, now);
    IdleStill(b0, b, i, now);
    ghost var b1 := b;
    b := b.(serving := -1);
    ghost var due := DuePrefix(b0.times.queues[i], b0.times.at, now);
    UnlistedSame(b0, b1, b, due);
    Unserved(b1, b, i);
    ServedUnserved(b0, b1, b, i, now);
    if b.times.queues[i] != [] {
      ghost var b2 := b;
      b := Schedule(b, i);
      ServedScheduled(b0, b2, b, i, now);
      LaterStays(b2, b, i, now);
      UnlistedSame(b0, b2, b, due);
    } else {
      EmptyAwake(b, i);
    }
  }

  lemma IdleStill(b0: Base, b: Base, i: nat, now: int)
    requires Shape(b0) && Shape(b) && Served(b0, b, i, now) && i < |b.timers|
    ensures b.timers == b0.timers && b.timers[i] in b.acts.on
    ensures b0.timers[i] in b0.acts.on && !b0.acts.on[b0.timers[i]] ==> !b.acts.on[b.timers[i]]
  {
    hide T.Inv, A.Inv, InsertedOk, Distinct, ServedLeft, ServedGone, ServedElse;
    assert TimerOk(b, i);
    assert b.timers[i] in b.timers;
    assert StillIdle(b0, b, b.timers[i]);
  }

  lemma ReducedTimers2(b0: Base, b: Base, e: nat)
    requires Shape(b0) && Shape(b) && Reduced(b0, b, e)
    ensures b.serving == b0.serving && b.acts.running == b0.acts.running && |b.times.queues| == |b0.times.queues|
  {
  }

  lemma LessShorter(s: seq<nat>, e: nat)
    requires s != [] && s[0] == e
    ensures |Less(s, e)| < |s|
  {
  }

  /** A sorted queue whose first event is later than now. */
  lemma RestLater(b: Base, i: nat, now: int)
    requires Shape(b) && i < |b.times.queues|
    requires b.times.queues[i] != [] ==> b.times.queues[i][0] in b.times.at && b.times.at[b.times.queues[i][0]] > now
    ensures forall e :: e in b.times.queues[i] ==> e in b.times.at && b.times.at[e] > now
  {
    hide T.Placed, A.Inv, InsertedOk, Distinct, Counted;
    assert T.QueueOk(b.times, i);
    forall e | e in b.times.queues[i] ensures e in b.times.at && b.times.at[e] > now {
      T.FirstNotAfter(b.times.at, b.times.queues[i], e);
    }
  }

  lemma Unserved(b1: Base, b: Base, i: nat)
    requires Inv(b1) && b1.serving == i && b == b1.(serving := -1) && i < |b1.timers|
    ensures Shape(b) && AwakeBut(b, i) && A.Urgent(b.acts)
  {
    hide T.Inv, A.Inv, InsertedOk, A.Urgent, Distinct;
    assert InsertedOk(b) by {
      SameInserted(b1, b);
    }
    forall j | 0 <= j < |b.timers| ensures TimerOk(b, j) && (j != i ==> Awake(b, j)) {
      assert TimerOk(b1, j) && Awake(b1, j);
    }
  }

  lemma SameInserted(b1: Base, b: Base)
    requires InsertedOk(b1) && b.inserted == b1.inserted && b.eventqueue == b1.eventqueue
    ensures InsertedOk(b)
  {
  }

  lemma ServedUnserved(b0: Base, b1: Base, b: Base, i: nat, now: int)
    requires Shape(b0) && Shape(b1) && Shape(b) && Served(b0, b1, i, now) && b == b1.(serving := -1)
    ensures Served(b0, b, i, now)
  {
    hide Shape, T.Inv, A.Inv, InsertedOk, Distinct;
    Open(b0);
    Open(b);
    forall e | e in b.times.queues[i] ensures SameEvent(b0, b, e) {
      assert SameEvent(b0, b1, e);
    }
    forall e | e in b0.times.queues[i] && e !in b.times.queues[i] ensures Gone(b0, b, e, now) {
      assert Gone(b0, b1, e, now);
    }
    forall e | e in b.timers ensures StillIdle(b0, b, e) {
      assert StillIdle(b0, b1, e);
    }
    forall e | e !in b0.times.queues[i] && !(i < |b0.timers| && e == b0.timers[i]) ensures SameEvent(b0, b, e) {
      assert SameEvent(b0, b1, e);
    }
  }

  lemma ScheduledElse(b0: Base, b1: Base, b: Base, i: nat, t: nat)
    requires Keys(b0) && Keys(b1) && Keys(b) && i < |b0.times.queues| && ServedElse(b0, b1, i)
    requires i < |b0.timers| && t == b0.timers[i] && forall x :: x != t ==> SameEvent(b1, b, x)
    ensures ServedElse(b0, b, i)
  {
    hide Keys, SameEvent;
    forall x | x !in b0.times.queues[i] && x != t ensures SameEvent(b0, b, x) {
      SameTrans(b0, b1, b, x);
    }
  }

  lemma ScheduledLeft(b0: Base, b1: Base, b: Base, i: nat, t: nat)
    requires Keys(b0) && Keys(b1) && Keys(b) && i < |b.times.queues| == |b1.times.queues| == |b0.times.queues|
    requires ServedLeft(b0, b1, i) && b.times.queues == b1.times.queues && t !in b1.times.queues[i]
    requires forall x :: x != t ==> SameEvent(b1, b, x)
    ensures ServedLeft(b0, b, i)
  {
    hide Keys, SameEvent;
    forall e | e in b.times.queues[i] ensures SameEvent(b0, b, e) {
      SameTrans(b0, b1, b, e);
    }
  }

  lemma ScheduledGone(b0: Base, b1: Base, b: Base, i: nat, now: int, t: nat)
    requires Keys(b1) && Keys(b) && i < |b.times.queues| == |b1.times.queues| == |b0.times.queues|
    requires ServedGone(b0, b1, i, now) && b.times.queues == b1.times.queues && t !in b0.times.queues[i]
    requires b.times.on.Keys == b1.times.on.Keys && forall x :: x != t ==> SameEvent(b1, b, x)
    ensures ServedGone(b0, b, i, now)
  {
    hide SameEvent;
    forall e | e in b0.times.queues[i] && e !in b.times.queues[i] ensures Gone(b0, b, e, now) {
      assert Gone(b0, b1, e, now);
      SameActive(b1, b, e);
    }
  }

  lemma ScheduledTimers(b0: Base, b1: Base, b: Base, t: nat)
    requires Keys(b1) && Keys(b) && ServedTimers(b0, b1) && b.timers == b1.timers
    requires t in b.acts.on && t in b1.acts.on && (b.acts.on[t] ==> b1.acts.on[t])
    requires b.times.on.Keys == b1.times.on.Keys && forall x :: x != t ==> SameEvent(b1, b, x)
    ensures ServedTimers(b0, b)
  {
    hide SameEvent;
    forall e | e in b.timers ensures StillIdle(b0, b, e) {
      assert StillIdle(b0, b1, e);
      if e != t {
        SameActive(b1, b, e);
      }
    }
  }

  lemma ServedScheduled(b0: Base, b1: Base, b: Base, i: nat, now: int)
    requires Shape(b0) && Shape(b1) && Shape(b) && Served(b0, b1, i, now)
    requires b == b1.(times := b.times, acts := b.acts, count := b.count)
    requires b.times.queues == b1.times.queues && i < |b1.timers| && OthersSame(b1, b, b1.timers[i])
    requires b1.timers[i] in b.acts.on && b1.timers[i] in b1.acts.on &&
      (b.acts.on[b1.timers[i]] ==> b1.acts.on[b1.timers[i]])
    requires b.acts.pri == b1.acts.pri && b.acts.running == b1.acts.running && |b.acts.queues| == |b1.acts.queues|
    requires b.times.on.Keys == b1.times.on.Keys
    ensures Served(b0, b, i, now)
  {
    hide Shape, T.Inv, A.Inv, InsertedOk, Distinct;
    Open(b0);
    Open(b1);
    Open(b);
    Queue(b0, i);
    Queue(b1, i);
    TimerIn(b1, i);
    hide SameEvent, ServedElse, ServedLeft, ServedGone, ServedTimers;
    OthersSame1(b1, b, b1.timers[i]);
    ScheduledLeft(b0, b1, b, i, b1.timers[i]);
    ScheduledGone(b0, b1, b, i, now, b1.timers[i]);
    ScheduledTimers(b0, b1, b, b1.timers[i]);
    ScheduledElse(b0, b1, b, i, b1.timers[i]);
  }

  lemma SameActive(b1: Base, b: Base, e: nat)
    requires Keys(b1) && Keys(b) && SameEvent(b1, b, e) && b.times.on.Keys == b1.times.on.Keys
    ensures e in b.acts.on <==> e in b1.acts.on
    ensures e in b.acts.on ==> b.acts.on[e] == b1.acts.on[e] && e in b.times.on && b.times.on[e] == b1.times.on[e]
  {
  }

  lemma LaterStays(b1: Base, b: Base, i: nat, now: int)
    requires Shape(b1) && Shape(b) && i < |b1.timers| && b.times.queues == b1.times.queues &&
      OthersSame(b1, b, b1.timers[i])
    requires i < |b1.times.queues| && forall e :: e in b1.times.queues[i] ==> e in b1.times.at && b1.times.at[e] > now
    ensures forall e :: e in b.times.queues[i] ==> e in b.times.at && b.times.at[e] > now
  {
    hide Shape, T.Inv, A.Inv, InsertedOk, Distinct;
    Open(b1);
    Open(b);
    Queue(b, i);
    Queue(b1, i);
    TimerIn(b1, i);
    forall e | e in b.times.queues[i] ensures e in b.times.at && b.times.at[e] > now {
      assert SameEvent(b1, b, e);
    }
  }

  lemma EmptyAwake(b: Base, i: nat)
    requires Shape(b) && AwakeBut(b, i) && i < |b.times.queues| && b.times.queues[i] == []
    ensures AllAwake(b)
  {
    hide T.Inv, A.Inv, InsertedOk, Distinct;
    Queue(b, i);
  }
}
