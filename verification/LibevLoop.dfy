/** The event loop object: its queues, timers, descriptors and kernel set, and
    the public calls that change them. */
module LibevLoop {
  import opened LibevHeap
  import opened LibevBackend
  import P = LibevPending
  import T = LibevTimers
  import F = LibevFds

  class EvLoop {
    var pend: P.Pend
    var timers: T.Timers
    var fds: F.Fds
    var backend: Backend
    ghost var lists: seq<seq<nat>>  // the io watchers of each descriptor

    ghost predicate Valid()
      reads this
    {
      && P.Inv(pend) && T.Inv(timers) && F.Inv(fds, lists) && F.InStep(fds, backend)
      && T.Known(timers, pend) && F.Known(fds, pend)
    }

    /** When each started timer is due. */
    ghost function Armed(): map<nat, Tstamp>
      reads this
      requires Valid()
    {
      T.Armed(timers)
    }

    /** What each watcher is still to be told. */
    ghost function Owed(): map<nat, P.Events>
      reads this
      requires Valid()
    {
      P.Owed(pend)
    }

    /** A loop with these watchers, all stopped. */
    constructor (priority: map<nat, int>, watchers: F.Watchers, repeat: map<nat, Tstamp>, now: Tstamp, poll: bool)
      requires forall w :: w in priority ==> P.EV_MINPRI <= priority[w] <= P.EV_MAXPRI
      requires F.Keys(watchers) && watchers.active.Keys <= priority.Keys && repeat.Keys <= priority.Keys
      requires forall w :: w in watchers.active ==> !watchers.active[w]
      ensures Valid() && Armed() == map[] && Owed() == map[]
    {
      pend := P.Pend(seq(P.NUMPRI, _ => []), map w | w in priority :: 0, priority);
      timers := T.Timers(seq(HEAP0, _ => Anhe(0.0, 0)), 0, map w | w in repeat :: 0, map w | w in repeat :: 0.0, repeat, now);
      fds := F.Fds([], [], watchers);
      backend := if poll then Poll(PollSet([], [])) else Select(SelectSet([], []));
      lists := [];
      new;
      hide P.Inv, P.Owed, T.Inv, T.Armed, F.Inv, F.InStep;
      NewPend(pend);
      NewTimers(timers);
      NewFds(fds, backend);
    }

    method FeedEvent(w: nat, revents: P.Events)
      requires Valid() && w in pend.pending
      modifies this`pend
      ensures Valid() && Owed() == old(Owed())[w := P.Or(P.Bits(old(Owed()), w), revents)]
    {
      hide P.Inv, P.Owed, T.Inv, F.Inv, F.InStep, P.Or;
      ghost var p := pend;
      pend := P.FeedEvent(pend, w, revents);
      P.InvShape(p);
      P.InvShape(pend);
    }

    method ClearPending(w: nat) returns (events: P.Events)
      requires Valid() && w in pend.pending
      modifies this`pend
      ensures Valid() && Owed() == old(Owed()) - {w} && events == P.Bits(old(Owed()), w)
    {
      hide P.Inv, P.Owed, T.Inv, F.Inv, F.InStep;
      ghost var p := pend;
      pend, events := P.ClearPending(pend, w);
      P.InvShape(p);
      P.InvShape(pend);
    }

    method TimerStart(w: nat)
      requires Valid() && w in timers.active && timers.repeat[w] >= 0.0
      modifies this`timers
      ensures Valid() && timers.now == old(timers.now) && timers.repeat == old(timers.repeat)
      ensures Armed() == if w in old(Armed()) then old(Armed()) else old(Armed())[w := old(timers.at[w] + timers.now)]
    {
      hide P.Inv, P.Owed, T.Inv, T.Armed, F.Inv, F.InStep;
      T.BackLength(timers);
      timers := T.TimerStart(timers, w);
    }

    method TimerStop(w: nat)
      requires Valid() && w in timers.active
      modifies this`timers, this`pend
      ensures Valid() && timers.now == old(timers.now) && timers.repeat == old(timers.repeat)
      ensures Armed() == old(Armed()) - {w} && Owed() == old(Owed()) - {w}
    {
      hide P.Inv, P.Owed, T.Inv, T.Armed, F.Inv, F.InStep;
      ghost var p := pend;
      timers, pend := T.TimerStop(timers, pend, w);
      P.InvShape(p);
      P.InvShape(pend);
    }

    method TimerAgain(w: nat)
      requires Valid() && w in timers.active && timers.repeat[w] >= 0.0
      modifies this`timers, this`pend
      ensures Valid() && timers.now == old(timers.now) && timers.repeat == old(timers.repeat)
      ensures Armed() == if timers.repeat[w] != 0.0 then old(Armed())[w := timers.now + timers.repeat[w]]
        else old(Armed()) - {w}
      ensures Owed() == old(Owed()) - {w}
    {
      hide P.Inv, P.Owed, T.Inv, T.Armed, F.Inv, F.InStep;
      ghost var p := pend;
      T.BackLength(timers);
      timers, pend := T.TimerAgain(timers, pend, w);
      P.InvShape(p);
      P.InvShape(pend);
    }

    /** Time has passed: expired timers become pending. */
    method TimersReify(now: Tstamp) returns (ghost expired: seq<nat>)
      requires Valid()
      modifies this`timers, this`pend
      ensures Valid() && timers.now == now
      ensures T.Inv(old(timers).(now := now)) && P.Inv(old(pend))
      ensures T.Expired(old(timers).(now := now), expired, timers) && T.InTurn(old(timers), expired)
      ensures forall w :: w in expired <==> w in old(Armed()) && old(timers).at[w] < now
      ensures forall w :: w in Armed() ==> now <= timers.at[w]
      ensures T.Fed(old(timers), old(pend), expired, pend)
    {
      hide P.Inv, P.Owed, T.Inv, T.Armed, F.Inv, F.InStep, T.Expired, T.Fed, T.InTurn;
      T.ArmedKnown(timers, pend);
      T.NowChanges(timers, now);
      ghost var p, t0 := pend, timers;
      timers := timers.(now := now);
      timers, pend, expired := T.TimersReify(timers, pend);
      T.FedAnyTime(t0, now, p, expired, pend);
      T.ExpiredKeys(t0.(now := now), expired, timers);
      P.InvShape(p);
      P.InvShape(pend);
    }

    /** Runs the pending callbacks, the k-th of which does script[k]. */
    method InvokePending(script: seq<seq<P.Action>>) returns (calls: seq<P.Call>)
      requires Valid()
      requires forall actions, a :: actions in script && a in actions ==> a.w in pend.pending
      modifies this`pend
      ensures Valid() && pend.pendings[0] == []
      ensures P.Legal(old(Owed()), P.History(calls, script)) && P.After(old(Owed()), P.History(calls, script)) == Owed()
      ensures P.InTurn(old(pend), calls, script) && P.Downward(old(pend), calls)
      ensures forall w :: w in old(Owed()) ==> P.Answered(P.History(calls, script), w)
      ensures forall w :: w in Owed() ==> P.FedBelow(old(pend), calls, script, w)
      ensures script == [] ==> Owed() == map[]
    {
      hide P.Answered, P.FedBelow, P.Downward, P.Inv, P.Owed, P.Legal, P.After, P.History, P.InTurn, P.Order, T.Inv,
           F.Inv, F.InStep;
      ghost var p := pend;
      pend, calls := P.InvokePending(pend, script);
      P.InvShape(p);
      P.InvShape(pend);
      if script == [] {
        P.AllTold(pend);
      }
    }

    method IoSet(w: nat, fd: int, events: Mask)
      requires Valid() && w in fds.ws.active && !fds.ws.active[w]
      modifies this`fds
      ensures Valid()
      ensures fds.ws.fd == old(fds.ws.fd)[w := fd] &&
        fds.ws.events == old(fds.ws.events)[w := P.Or(events, F.EV__IOFDSET)]
      ensures fds.ws.active == old(fds.ws.active)
    {
      hide P.Inv, T.Inv, F.Inv, P.Or;
      ghost var f := fds;
      fds := F.IoSet(fds, w, fd, events, lists);
      hide F.InStep;
      F.SameBelief(f, fds, backend);
    }

    method IoStart(w: nat)
      requires Valid() && w in fds.ws.active
      requires !fds.ws.active[w] ==> fds.ws.fd[w] >= 0 && F.StartMask(fds.ws.events[w])
      modifies this`fds, this`lists
      ensures Valid() && fds.ws.active == old(fds.ws.active)[w := true] && fds.ws.fd == old(fds.ws.fd)
      ensures F.EventsKept(old(fds.ws), fds.ws, w)
      ensures w in old(fds.ws.active) && old(fds.ws.active)[w] ==> lists == old(lists)
      ensures w in old(fds.ws.active) && !old(fds.ws.active)[w] ==>
        w in fds.ws.fd && F.Joined(old(lists), w, fds.ws.fd[w], lists)
    {
      hide P.Inv, T.Inv, F.Inv, Agrees, F.Believed, F.EventsKept, F.Joined;
      F.InvKeys(fds, lists);
      fds, lists := F.IoStart(fds, w, lists);
    }

    method IoStop(w: nat)
      requires Valid() && w in fds.ws.active
      modifies this`fds, this`lists, this`pend
      ensures Valid() && fds.ws.active == old(fds.ws.active)[w := false]
      ensures fds.ws.fd == old(fds.ws.fd) && fds.ws.events == old(fds.ws.events)
      ensures Owed() == old(Owed()) - {w}
    {
      hide P.Inv, P.Owed, T.Inv, F.Inv, Agrees, F.Believed;
      ghost var p := pend;
      fds, pend, lists := F.IoStop(fds, pend, w, lists);
      P.InvShape(p);
      P.InvShape(pend);
    }

    /** Brings the kernel set in step with the watchers. */
    method FdReify()
      requires Valid()
      modifies this`fds, this`backend
      ensures Valid() && fds.ws == old(fds.ws) && fds.fdchanges == []
      ensures forall d: nat, ev :: ev == EV_READ || ev == EV_WRITE ==>
        (Asked(backend, d, ev) <==> exists w :: F.Wanting(fds.ws, w, d, ev))
    {
      hide P.Inv, T.Inv, F.Inv, F.InStep, F.Wanting, Asked;
      fds, backend := F.FdReify(fds, backend, lists);
      forall d: nat, ev | ev == EV_READ || ev == EV_WRITE
        ensures Asked(backend, d, ev) <==> exists w :: F.Wanting(fds.ws, w, d, ev)
      {
        F.KernelMatches(fds, lists, backend, d, ev);
      }
    }

    /** A watcher is started, and the kernel set brought in step: from then on the
        kernel is asked for whatever the watcher wanted before. */
    method StartAndReify(w: nat)
      requires Valid() && w in fds.ws.active && w in fds.ws.fd && w in fds.ws.events
      requires fds.ws.fd[w] >= 0 && (!fds.ws.active[w] ==> F.StartMask(fds.ws.events[w]))
      modifies this`fds, this`lists, this`backend
      ensures Valid() && fds.ws.active == old(fds.ws.active)[w := true] && fds.ws.fd == old(fds.ws.fd)
      ensures w in old(fds.ws.fd) && w in old(fds.ws.events) && old(fds.ws.fd)[w] >= 0
      ensures forall ev :: (ev == EV_READ || ev == EV_WRITE) && Wants(old(fds.ws.events)[w], ev) ==>
        Asked(backend, old(fds.ws.fd)[w], ev)
    {
      hide P.Inv, T.Inv, F.Inv, F.InStep, Asked, F.Joined, Wants, F.StartMask, IoMask;
      ghost var events := fds.ws.events;
      IoStart(w);
      FdReify();
      F.InStepValid(fds, backend);
      var d: nat := fds.ws.fd[w];
      forall ev | (ev == EV_READ || ev == EV_WRITE) && Wants(events[w], ev) ensures Asked(backend, d, ev) {
        assert F.Wanting(fds.ws, w, d, ev);
      }
    }

    /** The kernel reports events on a descriptor. */
    method FdEvent(fd: nat, revents: Mask)
      requires Valid() && fd < |fds.anfds|
      modifies this`pend
      ensures Valid() && fd < |lists| && P.Inv(old(pend))
      ensures F.ToldOf(fds.ws, old(pend), if fds.anfds[fd].reify == 0 then lists[fd] else [], revents, pend)
      ensures F.ToldEvents(fds.ws, old(pend), if fds.anfds[fd].reify == 0 then lists[fd] else [], revents, pend)
    {
      hide F.ToldEvents, P.Inv, T.Inv, F.Inv, F.InStep;
      ghost var p := pend;
      pend := F.FdEvent(fds, pend, fd, revents, lists);
      P.InvShape(p);
      P.InvShape(pend);
    }
  }

  lemma NewPend(p: P.Pend)
    requires P.Shape(p) && (forall w :: w in p.pending ==> p.pending[w] == 0)
    requires forall q :: 0 <= q < P.NUMPRI ==> p.pendings[q] == []
    ensures P.Inv(p) && P.Owed(p) == map[]
  {
    assert P.Inv(p);
    P.AllTold(p);
  }

  lemma NewTimers(t: T.Timers)
    requires t.cnt == 0 && |t.heap| == HEAP0 && t.active.Keys == t.at.Keys == t.repeat.Keys
    requires forall w :: w in t.active ==> t.active[w] == 0
    ensures T.Inv(t) && T.Armed(t) == map[]
  {
  }

  lemma NewFds(f: F.Fds, b: Backend)
    requires f.anfds == [] && f.fdchanges == [] && F.Keys(f.ws) && forall w :: w in f.ws.active ==> !f.ws.active[w]
    requires b == Poll(PollSet([], [])) || b == Select(SelectSet([], []))
    ensures F.Inv(f, []) && F.InStep(f, b)
  {
    EmptyAgrees(0);
    forall d: nat ensures Agrees(b, d, 0) {
      EmptyAgrees(d);
    }
  }
}
