/** libev's file descriptors: watcher lists per descriptor, the list of changed
    descriptors, and the kernel set that fd_reify brings in step with them. */
module LibevFds {
  import opened Lists
  import opened LibevList
  import opened B = LibevBackend
  import P = LibevPending

  const EV_ANFD_REIFY: Mask := 1
  const EV__IOFDSET: Mask := 0x80
  const EV_ERROR: Mask := 0x8000_0000

  datatype Anfd = Anfd(head: Ptr, events: Mask, reify: Mask)

  /** `fd`, `events`, `active` and `next` of every io watcher. */
  datatype Watchers = Watchers(fd: map<nat, int>, events: map<nat, Mask>, active: map<nat, bool>, next: Links)

  /** `anfds` and `fdchanges` of the loop. */
  datatype Fds = Fds(anfds: seq<Anfd>, fdchanges: seq<nat>, ws: Watchers)

  ghost predicate Keys(ws: Watchers) {
    ws.fd.Keys == ws.events.Keys == ws.active.Keys == ws.next.Keys
  }

  /** The list of descriptor d: started watchers for d. */
  ghost predicate ListOk(ws: Watchers, head: Ptr, s: seq<nat>, d: nat)
    requires Keys(ws)
  {
    && Linked(ws.next, head, s) && Distinct(s)
    && forall w :: w in s ==> w in ws.active && ws.active[w] && ws.fd[w] == d && IoMask(ws.events[w])
  }

  /** A started watcher is in the list of its descriptor. */
  ghost predicate Listed(ws: Watchers, ls: seq<seq<nat>>, w: nat)
    requires Keys(ws) && w in ws.active
  {
    ws.active[w] ==> 0 <= ws.fd[w] < |ls| && w in ls[ws.fd[w]]
  }

  /** What the watchers in a list want, together. */
  ghost function OrAll(events: map<nat, Mask>, s: seq<nat>): Mask
    requires forall w :: w in s ==> w in events
  {
    if s == [] then 0 else P.Or(events[s[0]], OrAll(events, s[1..]))
  }

  /** An unlisted descriptor needs no change. */
  ghost predicate Uptodate(ws: Watchers, a: Anfd, s: seq<nat>)
    requires Keys(ws) && forall w :: w in s ==> w in ws.events
  {
    && IoMask(a.events)
    && (a.reify == 0 ==> a.events == OrAll(ws.events, s))
  }

  /** A descriptor is listed as changed exactly once if it is marked, and
      otherwise not at all. */
  ghost predicate Changes(anfds: seq<Anfd>, fdchanges: seq<nat>) {
    && Distinct(fdchanges)
    && (forall d :: d in fdchanges ==> d < |anfds| && anfds[d].reify != 0)
    && (forall d :: 0 <= d < |anfds| && anfds[d].reify != 0 ==> d in fdchanges)
  }

  ghost predicate FdOk(f: Fds, s: seq<nat>, d: nat)
    requires Keys(f.ws) && d < |f.anfds|
  {
    ListOk(f.ws, f.anfds[d].head, s, d) && Uptodate(f.ws, f.anfds[d], s)
  }

  /** The invariant, for the lists `ls`. */
  ghost predicate Inv(f: Fds, ls: seq<seq<nat>>) {
    && Keys(f.ws) && |ls| == |f.anfds|
    && (forall d :: 0 <= d < |ls| ==> FdOk(f, ls[d], d))
    && (forall w :: w in f.ws.active ==> Listed(f.ws, ls, w))
    && Changes(f.anfds, f.fdchanges)
  }

  /** The events the loop believes the kernel to watch d for. */
  function Believed(f: Fds, d: nat): Mask {
    if d < |f.anfds| then f.anfds[d].events else 0
  }

  ghost predicate InStep(f: Fds, b: Backend) {
    Valid(b) && forall d: nat :: Agrees(b, d, Believed(f, d))
  }

  lemma InStepValid(f: Fds, b: Backend)
    requires InStep(f, b)
    ensures Valid(b)
  {
  }

  lemma {:induction false} OrAllFrame(e0: map<nat, Mask>, e1: map<nat, Mask>, s: seq<nat>)
    requires forall w :: w in s ==> w in e0 && w in e1 && e0[w] == e1[w]
    ensures OrAll(e0, s) == OrAll(e1, s)
  {
    if s != [] {
      OrAllFrame(e0, e1, s[1..]);
    }
  }

  lemma OrIo(a: Mask, b: Mask)
    ensures IoMask(a) && IoMask(b) ==> IoMask(P.Or(a, b))
    ensures IoMask(0)
  {
  }

  lemma OrZero(x: Mask, y: Mask)
    ensures x | y == 0 <==> x == 0 && y == 0
  {
  }

  lemma OrWants(a: Mask, b: Mask, ev: Mask)
    ensures Wants(P.Or(a, b), ev) <==> Wants(a, ev) || Wants(b, ev)
    ensures !Wants(0, ev)
  {
    assert (a | b) & ev == (a & ev) | (b & ev);
    OrZero(a & ev, b & ev);
  }

  /** The union holds an event exactly if some watcher in the list wants it. */
  lemma {:induction false} OrAllWants(events: map<nat, Mask>, s: seq<nat>, ev: Mask)
    requires forall w :: w in s ==> w in events
    ensures Wants(OrAll(events, s), ev) <==> exists w :: w in s && Wants(events[w], ev)
    ensures (forall w :: w in s ==> IoMask(events[w])) ==> IoMask(OrAll(events, s))
  {
    hide P.Or, Wants, IoMask;
    OrIo(0, 0);
    OrWants(0, 0, ev);
    if s != [] {
      OrAllWants(events, s[1..], ev);
      OrIo(events[s[0]], OrAll(events, s[1..]));
      OrWants(events[s[0]], OrAll(events, s[1..]), ev);
      assert s == [s[0]] + s[1..];
      assert forall w :: w in s <==> w == s[0] || w in s[1..];
    }
  }

  /** fd_change */
  method FdChange(anfds0: seq<Anfd>, fdchanges0: seq<nat>, fd: nat, flags: Mask)
    returns (anfds: seq<Anfd>, fdchanges: seq<nat>)
    requires fd < |anfds0| && Changes(anfds0, fdchanges0)
    requires P.Or(anfds0[fd].reify, flags) != 0
    ensures Changes(anfds, fdchanges)
    ensures |anfds| == |anfds0| && anfds[fd].reify != 0
    ensures anfds == anfds0[fd := anfds0[fd].(reify := P.Or(anfds0[fd].reify, flags))]
  {
    hide P.Or;
    var reify := anfds0[fd].reify;
    anfds := anfds0[fd := anfds0[fd].(reify := P.Or(reify, flags))];
    fdchanges := fdchanges0;
    if reify == 0 {
      fdchanges := fdchanges + [fd];
      assert forall d :: d in fdchanges <==> d in fdchanges0 || d == fd;
    }
  }

  /** ev_io_set, allowed while the watcher is stopped. */
  method IoSet(f0: Fds, w: nat, fd: int, events: Mask, ghost ls: seq<seq<nat>>) returns (f: Fds)
    requires Inv(f0, ls) && w in f0.ws.active && !f0.ws.active[w]
    ensures Inv(f, ls) && f.anfds == f0.anfds && f.fdchanges == f0.fdchanges
    ensures f.ws == f0.ws.(fd := f0.ws.fd[w := fd], events := f0.ws.events[w := P.Or(events, EV__IOFDSET)])
  {
    hide P.Or;
    f := f0.(ws := f0.ws.(fd := f0.ws.fd[w := fd], events := f0.ws.events[w := P.Or(events, EV__IOFDSET)]));
    forall d | 0 <= d < |ls| ensures FdOk(f, ls[d], d) {
      assert FdOk(f0, ls[d], d);
      assert w !in ls[d];
      OrAllFrame(f0.ws.events, f.ws.events, ls[d]);
    }
    forall x | x in f.ws.active ensures Listed(f.ws, ls, x) {
      assert Listed(f0.ws, ls, x);
    }
  }

  /** The masks ev_io_start admits. */
  predicate StartMask(m: Mask) {
    m & !(EV__IOFDSET | EV_READ | EV_WRITE) == 0
  }

  function Clear(m: Mask, bits: Mask): Mask {
    m & !bits
  }

  function Common(m: Mask, bits: Mask): Mask {
    m & bits
  }

  lemma StartMasks(m: Mask, reify: Mask)
    ensures StartMask(m) ==> IoMask(Clear(m, EV__IOFDSET))
    ensures P.Or(reify, P.Or(Common(m, EV__IOFDSET), EV_ANFD_REIFY)) != 0
    ensures P.Or(reify, EV_ANFD_REIFY) != 0
  {
  }

  /** `anfds` with room for fd, new descriptors having no watchers. */
  function Room(anfds: seq<Anfd>, fd: nat): (r: seq<Anfd>)
    ensures |r| >= |anfds| && fd < |r|
  {
    if fd < |anfds| then anfds else anfds + seq(fd + 1 - |anfds|, _ => Anfd(NULL, 0, 0))
  }

  ghost function RoomLists(ls: seq<seq<nat>>, fd: nat): (r: seq<seq<nat>>)
    ensures |r| >= |ls| && fd < |r|
  {
    if fd < |ls| then ls else ls + seq(fd + 1 - |ls|, _ => [])
  }

  lemma RoomInv(f0: Fds, ls: seq<seq<nat>>, fd: nat)
    requires Inv(f0, ls)
    ensures Inv(f0.(anfds := Room(f0.anfds, fd)), RoomLists(ls, fd))
    ensures forall d: nat :: Believed(f0.(anfds := Room(f0.anfds, fd)), d) == Believed(f0, d)
  {
    var f, ls1 := f0.(anfds := Room(f0.anfds, fd)), RoomLists(ls, fd);
    OrIo(0, 0);
    hide IoMask;
    forall d | 0 <= d < |ls1| ensures FdOk(f, ls1[d], d) {
      if d < |ls| {
        assert FdOk(f0, ls[d], d);
      }
    }
    forall w | w in f.ws.active ensures Listed(f.ws, ls1, w) {
      assert Listed(f0.ws, ls, w);
    }
  }

  /** w joins the list of descriptor d, or leaves it. */
  ghost predicate Rewired(f0: Fds, ls: seq<seq<nat>>, w: nat, d: nat, s: seq<nat>, f: Fds)
  {
    && Inv(f0, ls) && d < |ls| && Keys(f.ws) && f.ws.active.Keys == f0.ws.active.Keys && w in f0.ws.active
    && |f.anfds| == |f0.anfds| && Changes(f.anfds, f.fdchanges)
    && (forall e :: 0 <= e < |ls| && e != d ==> f.anfds[e] == f0.anfds[e])
    && f.anfds[d].events == f0.anfds[d].events && f.anfds[d].reify != 0
    && (forall x :: x in f0.ws.active && x != w ==>
          f.ws.active[x] == f0.ws.active[x] && f.ws.fd[x] == f0.ws.fd[x] && f.ws.events[x] == f0.ws.events[x])
    && f.ws.fd[w] == d && f0.ws.fd[w] == d
    && ListOk(f.ws, f.anfds[d].head, s, d)
    && (forall x :: x in s && x != w <==> x in ls[d] && x != w)
    && (w in s <==> f.ws.active[w])
    && (forall x :: x in f0.ws.next && x != w && x !in ls[d] ==> f.ws.next[x] == f0.ws.next[x])
  }

  lemma RewiredFd(f0: Fds, ls: seq<seq<nat>>, w: nat, d: nat, s: seq<nat>, f: Fds, e: nat)
    requires Rewired(f0, ls, w, d, s, f) && e < |ls| && e != d
    ensures FdOk(f, ls[e], e)
  {
    assert FdOk(f0, ls[e], e) && FdOk(f0, ls[d], d);
    assert w !in ls[e] && forall x :: x in ls[e] ==> x !in ls[d];
    LinkedKnown(f0.ws.next, f0.anfds[e].head, ls[e]);
    LinkedFrame(f0.ws.next, f.ws.next, f0.anfds[e].head, ls[e]);
    OrAllFrame(f0.ws.events, f.ws.events, ls[e]);
  }

  lemma RewiredInv(f0: Fds, ls: seq<seq<nat>>, w: nat, d: nat, s: seq<nat>, f: Fds)
    requires Rewired(f0, ls, w, d, s, f)
    ensures Inv(f, ls[d := s])
    ensures forall e: nat :: Believed(f, e) == Believed(f0, e)
  {
    hide ListOk, Uptodate, Changes, FdOk;
    var ls1 := ls[d := s];
    forall e | 0 <= e < |ls1| ensures FdOk(f, ls1[e], e) {
      if e != d {
        RewiredFd(f0, ls, w, d, s, f, e);
      } else {
        RewiredHere(f0, ls, w, d, s, f);
      }
    }
    forall x | x in f.ws.active ensures Listed(f.ws, ls1, x) {
      assert Listed(f0.ws, ls, x);
    }
  }

  lemma RewiredHere(f0: Fds, ls: seq<seq<nat>>, w: nat, d: nat, s: seq<nat>, f: Fds)
    requires Rewired(f0, ls, w, d, s, f)
    ensures FdOk(f, s, d)
  {
    assert FdOk(f0, ls[d], d);
  }

  /** A watcher that starts wants of the descriptor what it wanted before, and
      nothing else; what the others want is the same. */
  ghost predicate EventsKept(ws0: Watchers, ws: Watchers, w: nat) {
    && ws.events.Keys == ws0.events.Keys && w in ws.events
    && (Wants(ws.events[w], EV_READ) <==> Wants(ws0.events[w], EV_READ))
    && (Wants(ws.events[w], EV_WRITE) <==> Wants(ws0.events[w], EV_WRITE))
    && (w in ws0.active && !ws0.active[w] ==> IoMask(ws.events[w]))
    && forall x :: x in ws.events && x != w ==> ws.events[x] == ws0.events[x]
  }

  lemma ClearedKept(m: Mask)
    ensures Wants(Clear(m, EV__IOFDSET), EV_READ) <==> Wants(m, EV_READ)
    ensures Wants(Clear(m, EV__IOFDSET), EV_WRITE) <==> Wants(m, EV_WRITE)
  {
  }

  method IoStart(f0: Fds, w: nat, ghost ls0: seq<seq<nat>>) returns (f: Fds, ghost ls: seq<seq<nat>>)
    requires Inv(f0, ls0) && w in f0.ws.active
    requires !f0.ws.active[w] ==> f0.ws.fd[w] >= 0 && StartMask(f0.ws.events[w])
    ensures Inv(f, ls) && forall d: nat :: Believed(f, d) == Believed(f0, d)
    ensures f0.ws.active[w] ==> f == f0 && ls == ls0
    ensures f.ws.active == f0.ws.active[w := true] && f.ws.fd == f0.ws.fd
    ensures EventsKept(f0.ws, f.ws, w)
    ensures !f0.ws.active[w] ==> f0.ws.fd[w] in f.fdchanges && Joined(ls0, w, f0.ws.fd[w], ls)
  {
    hide P.Or, ListOk, Changes, Uptodate, FdOk, Listed, Clear, Common, StartMask, IoMask, Room, RoomLists, Joined,
         Wants;
    f, ls := f0, ls0;
    InvKeys(f0, ls0);
    if f.ws.active[w] {
      return;
    }
    var fd := f.ws.fd[w];
    RoomInv(f, ls, fd);
    ghost var f1;
    f := f.(anfds := Room(f.anfds, fd));
    f1, ls := f, RoomLists(ls, fd);
    f := f.(ws := f.ws.(active := f.ws.active[w := true]));
    NotListed(f1, ls, w, fd);
    var next, head := WlistAdd(f.ws.next, f.anfds[fd].head, w, ls[fd]);
    f := f.(anfds := f.anfds[fd := f.anfds[fd].(head := head)], ws := f.ws.(next := next));
    StartMasks(f.ws.events[w], f.anfds[fd].reify);
    ClearedKept(f.ws.events[w]);
    SameMarks(f1.anfds, f.anfds, f.fdchanges);
    var flags := P.Or(Common(f.ws.events[w], EV__IOFDSET), EV_ANFD_REIFY);
    var anfds, fdchanges := FdChange(f.anfds, f.fdchanges, fd, flags);
    f := f.(anfds := anfds, fdchanges := fdchanges);
    f := f.(ws := f.ws.(events := f.ws.events[w := Clear(f.ws.events[w], EV__IOFDSET)]));
    JoinedOk(f1, ls, w, fd, f);
    RewiredInv(f1, ls, w, fd, [w] + ls[fd], f);
    ls := ls[fd := [w] + ls[fd]];
    ListedChange(f.anfds, f.fdchanges, fd);
    RoomJoined(ls0, w, fd);
  }

  /** w is the first watcher of descriptor fd, before those that were there. */
  ghost predicate Joined(ls0: seq<seq<nat>>, w: nat, fd: int, ls: seq<seq<nat>>) {
    && 0 <= fd < |ls| && |ls| == (if fd < |ls0| then |ls0| else fd + 1)
    && ls[fd] == [w] + (if fd < |ls0| then ls0[fd] else [])
    && forall d :: 0 <= d < |ls| && d != fd ==> ls[d] == if d < |ls0| then ls0[d] else []
  }

  lemma RoomJoined(ls0: seq<seq<nat>>, w: nat, fd: nat)
    ensures var ls := RoomLists(ls0, fd); fd < |ls| && Joined(ls0, w, fd, ls[fd := [w] + ls[fd]])
  {
  }

  lemma ListedChange(anfds: seq<Anfd>, fdchanges: seq<nat>, fd: nat)
    requires Changes(anfds, fdchanges) && fd < |anfds| && anfds[fd].reify != 0
    ensures fd in fdchanges
  {
  }

  lemma NotListed(f: Fds, ls: seq<seq<nat>>, w: nat, d: nat)
    requires Inv(f, ls) && w in f.ws.active && !f.ws.active[w] && d < |ls|
    ensures w !in ls[d] && Linked(f.ws.next, f.anfds[d].head, ls[d])
  {
    assert FdOk(f, ls[d], d);
  }

  lemma SameMarks(a: seq<Anfd>, b: seq<Anfd>, fdchanges: seq<nat>)
    requires Changes(a, fdchanges) && |a| == |b| && forall d :: 0 <= d < |a| ==> a[d].reify == b[d].reify
    ensures Changes(b, fdchanges)
  {
  }

  lemma JoinedOk(f0: Fds, ls: seq<seq<nat>>, w: nat, d: nat, f: Fds)
    requires Inv(f0, ls) && d < |ls| && w in f0.ws.active && !f0.ws.active[w] && f0.ws.fd[w] == d
    requires |f.anfds| == |f0.anfds| && Linked(f.ws.next, f.anfds[d].head, [w] + ls[d])
    requires f.ws.active == f0.ws.active[w := true] && f.ws.fd == f0.ws.fd
    requires f.ws.next == f0.ws.next[w := f.ws.next[w]]
    requires w in f.ws.events && f.ws.events == f0.ws.events[w := f.ws.events[w]] && IoMask(f.ws.events[w])
    requires Changes(f.anfds, f.fdchanges)
    requires f.anfds[d].events == f0.anfds[d].events && f.anfds[d].reify != 0
    requires forall e :: 0 <= e < |ls| && e != d ==> f.anfds[e] == f0.anfds[e]
    ensures Rewired(f0, ls, w, d, [w] + ls[d], f)
  {
    hide IoMask, Changes, Uptodate;
    assert FdOk(f0, ls[d], d);
    assert forall x :: x in [w] + ls[d] <==> x == w || x in ls[d];
    assert Distinct([w] + ls[d]);
  }

  ghost predicate Known(f: Fds, p: P.Pend) {
    f.ws.active.Keys <= p.pending.Keys
  }

  method IoStop(f0: Fds, p0: P.Pend, w: nat, ghost ls0: seq<seq<nat>>)
    returns (f: Fds, p: P.Pend, ghost ls: seq<seq<nat>>)
    requires Inv(f0, ls0) && P.Inv(p0) && Known(f0, p0) && w in f0.ws.active
    ensures Inv(f, ls) && forall d: nat :: Believed(f, d) == Believed(f0, d)
    ensures !f0.ws.active[w] ==> f == f0 && ls == ls0
    ensures f.ws.active == f0.ws.active[w := false] && f.ws.fd == f0.ws.fd && f.ws.events == f0.ws.events
    ensures f0.ws.active[w] ==> 0 <= f0.ws.fd[w] < |ls0| && ls == ls0[f0.ws.fd[w] := Less(ls0[f0.ws.fd[w]], w)]
    ensures f0.ws.active[w] ==> f0.ws.fd[w] in f.fdchanges
    ensures P.Inv(p) && p.priority == p0.priority && P.Owed(p) == P.Owed(p0) - {w}
  {
    hide P.Or, ListOk, Changes, Uptodate, FdOk, IoMask, P.Inv, P.Owed;
    f, ls := f0, ls0;
    var cleared, _ := P.ClearPending(p0, w);
    p := cleared;
    if !f.ws.active[w] {
      return;
    }
    assert Listed(f.ws, ls, w);
    var fd := f.ws.fd[w];
    InList(f, ls, fd);
    var next, head := WlistDel(f.ws.next, f.anfds[fd].head, w, ls[fd]);
    f := f.(anfds := f.anfds[fd := f.anfds[fd].(head := head)], ws := f.ws.(next := next));
    f := f.(ws := f.ws.(active := f.ws.active[w := false]));
    StartMasks(0, f.anfds[fd].reify);
    SameMarks(f0.anfds, f.anfds, f.fdchanges);
    var anfds, fdchanges := FdChange(f.anfds, f.fdchanges, fd, EV_ANFD_REIFY);
    f := f.(anfds := anfds, fdchanges := fdchanges);
    LeftOk(f0, ls, w, fd, f);
    RewiredInv(f0, ls, w, fd, Less(ls[fd], w), f);
    ls := ls[fd := Less(ls[fd], w)];
    ListedChange(f.anfds, f.fdchanges, fd);
  }

  lemma InList(f: Fds, ls: seq<seq<nat>>, d: nat)
    requires Inv(f, ls) && d < |ls|
    ensures Linked(f.ws.next, f.anfds[d].head, ls[d]) && Distinct(ls[d]) && |ls| == |f.anfds|
    ensures forall w :: w in ls[d] ==> w in f.ws.active && f.ws.active[w] && f.ws.fd[w] == d && IoMask(f.ws.events[w])
    ensures IoMask(f.anfds[d].events)
    ensures f.anfds[d].reify == 0 ==> f.anfds[d].events == OrAll(f.ws.events, ls[d])
  {
    assert FdOk(f, ls[d], d);
  }

  lemma LeftOk(f0: Fds, ls: seq<seq<nat>>, w: nat, d: nat, f: Fds)
    requires Inv(f0, ls) && d < |ls| && w in ls[d] && w in f0.ws.active && f0.ws.fd[w] == d
    requires |f.anfds| == |f0.anfds| && Linked(f.ws.next, f.anfds[d].head, Less(ls[d], w))
    requires f.ws.active == f0.ws.active[w := false] && f.ws.fd == f0.ws.fd && f.ws.events == f0.ws.events
    requires f.ws.next.Keys == f0.ws.next.Keys
    requires forall x :: x in f0.ws.next && x !in ls[d] ==> f.ws.next[x] == f0.ws.next[x]
    requires Changes(f.anfds, f.fdchanges)
    requires f.anfds[d].events == f0.anfds[d].events && f.anfds[d].reify != 0
    requires forall e :: 0 <= e < |ls| && e != d ==> f.anfds[e] == f0.anfds[e]
    ensures Rewired(f0, ls, w, d, Less(ls[d], w), f)
  {
    hide Inv, IoMask, Changes, ListOk, Less, Linked, Distinct;
    InvKeys(f0, ls);
    LeftList(f0, ls, w, d, f);
    InList(f0, ls, d);
    LessIn(ls[d], w);
  }

  lemma InvKeys(f: Fds, ls: seq<seq<nat>>)
    requires Inv(f, ls)
    ensures Keys(f.ws) && |ls| == |f.anfds|
  {
  }

  lemma LeftList(f0: Fds, ls: seq<seq<nat>>, w: nat, d: nat, f: Fds)
    requires Inv(f0, ls) && d < |ls| && w in f0.ws.active
    requires |f.anfds| == |f0.anfds| && Linked(f.ws.next, f.anfds[d].head, Less(ls[d], w))
    requires f.ws.active == f0.ws.active[w := false] && f.ws.fd == f0.ws.fd && f.ws.events == f0.ws.events
    requires Keys(f.ws)
    ensures ListOk(f.ws, f.anfds[d].head, Less(ls[d], w), d)
  {
    InList(f0, ls, d);
    LessIn(ls[d], w);
    hide Inv, Changes, FdOk, Less, Linked, Distinct, IoMask;
  }

  /** The watchers of fd are stopped and told. */
  ghost predicate Killed(f0: Fds, p0: P.Pend, gone: seq<nat>, f: Fds, p: P.Pend)
    requires P.Inv(p0) && P.Inv(p)
  {
    && f.ws.fd == f0.ws.fd && f.ws.events == f0.ws.events && f.ws.active.Keys == f0.ws.active.Keys
    && p.priority == p0.priority
    && (forall w :: w in f0.ws.active ==> f.ws.active[w] == (f0.ws.active[w] && w !in gone))
    && (forall w :: P.Bits(P.Owed(p), w) == if w in gone then KILLED else P.Bits(P.Owed(p0), w))
  }

  const KILLED: Mask := 0x8000_0003

  lemma KilledMask()
    ensures P.Or(P.Or(EV_ERROR, EV_READ), EV_WRITE) == KILLED
  {
  }

  lemma KilledStep(f0: Fds, p0: P.Pend, gone: seq<nat>, f1: Fds, p1: P.Pend, w: nat, f2: Fds, p2: P.Pend, p3: P.Pend)
    requires P.Inv(p0) && P.Inv(p1) && P.Inv(p2) && P.Inv(p3) && Killed(f0, p0, gone, f1, p1) && w in f1.ws.active
    requires f2.ws.fd == f1.ws.fd && f2.ws.events == f1.ws.events && f2.ws.active == f1.ws.active[w := false]
    requires p2.priority == p1.priority && p3.priority == p2.priority
    requires P.Owed(p2) == P.Owed(p1) - {w}
    requires P.Owed(p3) == P.Owed(p2)[w := P.Or(P.Bits(P.Owed(p2), w), KILLED)]
    ensures Killed(f0, p0, gone + [w], f2, p3)
  {
    hide P.Inv, P.Owed, P.Or;
    P.OrAlgebra(KILLED, 0, 0);
    assert forall x :: x in gone + [w] <==> x in gone || x == w;
  }

  /** One turn of the loop in fd_kill. */
  method KillHead(f1: Fds, p1: P.Pend, fd: nat, ghost ls1: seq<seq<nat>>, ghost f0: Fds, ghost p0: P.Pend,
      ghost gone: seq<nat>)
    returns (f: Fds, p: P.Pend, ghost ls: seq<seq<nat>>, w: nat)
    requires Inv(f1, ls1) && P.Inv(p1) && Known(f1, p1) && fd < |f1.anfds| && f1.anfds[fd].head != NULL
    requires P.Inv(p0) && Killed(f0, p0, gone, f1, p1)
    ensures Inv(f, ls) && forall d: nat :: Believed(f, d) == Believed(f1, d)
    ensures P.Inv(p) && Known(f, p) && p.priority == p1.priority && Killed(f0, p0, gone + [w], f, p)
    ensures |ls1| == |f1.anfds| && ls1[fd] != [] && w == ls1[fd][0] && ls == ls1[fd := Less(ls1[fd], w)]
    ensures |f.anfds| == |f1.anfds|
  {
    hide P.Or, FdOk, Listed, Changes, P.Inv, P.Owed, P.Bits, Killed, Believed, IoMask, Inv, Less;
    f, p, ls := f1, p1, ls1;
    InvKeys(f, ls);
    InList(f, ls, fd);
    w := f.anfds[fd].head.w;
    f, p, ls := IoStop(f, p, w, ls);
    InvKeys(f, ls);
    P.InvShape(p1);
    P.InvShape(p);
    ghost var p2 := p;
    KilledMask();
    p := P.FeedEvent(p, w, P.Or(P.Or(EV_ERROR, EV_READ), EV_WRITE));
    P.InvShape(p);
    KilledStep(f0, p0, gone, f1, p1, w, f, p2, p);
  }

  /** fd_kill */
  method FdKill(f0: Fds, p0: P.Pend, fd: nat, ghost ls0: seq<seq<nat>>)
    returns (f: Fds, p: P.Pend, ghost ls: seq<seq<nat>>)
    requires Inv(f0, ls0) && P.Inv(p0) && Known(f0, p0) && fd < |f0.anfds|
    ensures Inv(f, ls) && forall d: nat :: Believed(f, d) == Believed(f0, d)
    ensures P.Inv(p) && Killed(f0, p0, ls0[fd], f, p)
    ensures ls == ls0[fd := []]
  {
    hide P.Or, FdOk, Listed, Changes, P.Inv, P.Owed, P.Bits, Killed, Believed, IoMask, Inv;
    f, p, ls := f0, p0, ls0;
    InvKeys(f, ls);
    InList(f, ls, fd);
    P.InvShape(p0);
    NoneKilled(f0, p0);
    ghost var gone: seq<nat> := [];
    assert gone + ls[fd] == ls0[fd];
    while f.anfds[fd].head != NULL
      invariant Inv(f, ls) && |ls| == |ls0| == |f.anfds| && ls == ls0[fd := ls[fd]]
      invariant forall d: nat :: Believed(f, d) == Believed(f0, d)
      invariant P.Inv(p) && Known(f, p)
      invariant Killed(f0, p0, gone, f, p) && gone + ls[fd] == ls0[fd]
      decreases |ls[fd]|
    {
      ghost var l := ls[fd];
      var w;
      f, p, ls, w := KillHead(f, p, fd, ls, f0, p0, gone);
      assert Less(l, w) == l[1..];
      gone := gone + [w];
    }
    InList(f, ls, fd);
    assert ls[fd] == [];
    assert gone == ls0[fd];
  }

  lemma NoneKilled(f: Fds, p: P.Pend)
    requires P.Inv(p)
    ensures Killed(f, p, [], f, p)
  {
  }

  /** The loop over a watcher list in fd_reify. */
  method Union(ws: Watchers, head: Ptr, ghost s: seq<nat>) returns (m: Mask)
    requires Keys(ws) && Linked(ws.next, head, s)
    ensures (forall w :: w in s ==> w in ws.events) && m == OrAll(ws.events, s)
  {
    hide P.Or;
    LinkedKnown(ws.next, head, s);
    m := 0;
    var w := head;
    ghost var rest := s;
    P.OrAlgebra(OrAll(ws.events, s), 0, 0);
    while w != NULL
      invariant Linked(ws.next, w, rest) && forall x :: x in rest ==> x in ws.events
      invariant P.Or(m, OrAll(ws.events, rest)) == OrAll(ws.events, s)
      decreases |rest|
    {
      P.OrAlgebra(m, ws.events[w.w], OrAll(ws.events, rest[1..]));
      m := P.Or(m, ws.events[w.w]);
      w := ws.next[w.w];
      rest := rest[1..];
    }
    P.OrAlgebra(m, 0, 0);
  }

  /** Descriptor d is settled: not marked, and believed to be watched for what
      its watchers want. */
  ghost predicate Settled(ws: Watchers, a: Anfd, s: seq<nat>)
    requires forall w :: w in s ==> w in ws.events
  {
    a.reify == 0 && a.events == OrAll(ws.events, s)
  }

  /** fd_reify when the descriptors in `left` are still to be done. */
  ghost predicate Reifying(f0: Fds, ls: seq<seq<nat>>, left: seq<nat>, f: Fds) {
    && Inv(f0, ls) && f.ws == f0.ws && |f.anfds| == |f0.anfds|
    && (forall d :: 0 <= d < |f.anfds| ==> IoMask(f.anfds[d].events) && f.anfds[d].head == f0.anfds[d].head)
    && (forall d :: 0 <= d < |f.anfds| && d !in left ==> Reified(f0, ls, f, d))
  }

  ghost predicate Reified(f0: Fds, ls: seq<seq<nat>>, f: Fds, d: nat)
    requires Inv(f0, ls) && f.ws == f0.ws && d < |f.anfds| == |f0.anfds|
  {
    (forall w :: w in ls[d] ==> w in f.ws.events) && Settled(f.ws, f.anfds[d], ls[d])
  }

  lemma ReifyStarts(f: Fds, ls: seq<seq<nat>>)
    requires Inv(f, ls)
    ensures Reifying(f, ls, f.fdchanges, f)
  {
    hide IoMask;
    forall d | 0 <= d < |f.anfds|
      ensures IoMask(f.anfds[d].events) && (d !in f.fdchanges ==> Reified(f, ls, f, d))
    {
      InList(f, ls, d);
    }
  }

  lemma ReifyEnds(f0: Fds, ls: seq<seq<nat>>, f: Fds)
    requires Reifying(f0, ls, [], f)
    ensures Inv(f.(fdchanges := []), ls)
    ensures |ls| == |f.anfds| && forall d :: 0 <= d < |ls| ==> Reified(f0, ls, f.(fdchanges := []), d)
  {
    hide IoMask;
    var f1 := f.(fdchanges := []);
    forall d | 0 <= d < |ls| ensures FdOk(f1, ls[d], d) {
      InList(f0, ls, d);
      assert Reified(f0, ls, f, d);
    }
    forall w | w in f1.ws.active ensures Listed(f1.ws, ls, w) {
      assert Listed(f0.ws, ls, w);
    }
    forall d | 0 <= d < |ls| ensures f1.anfds[d].reify == 0 && Reified(f0, ls, f1, d) {
      assert Reified(f0, ls, f, d);
    }
  }

  lemma ReifyStep(f0: Fds, ls: seq<seq<nat>>, left: seq<nat>, f1: Fds, f: Fds)
    requires left != [] && Reifying(f0, ls, left, f1) && left[0] < |f1.anfds|
    requires f.ws == f1.ws && |f.anfds| == |f1.anfds|
    requires f.anfds == f1.anfds[left[0] := f1.anfds[left[0]].(reify := 0, events := f.anfds[left[0]].events)]
    requires IoMask(f.anfds[left[0]].events)
    requires |ls| == |f.anfds| && (forall w :: w in ls[left[0]] ==> w in f.ws.events)
    requires f.anfds[left[0]].events == OrAll(f.ws.events, ls[left[0]])
    ensures Reifying(f0, ls, left[1..], f)
  {
    hide IoMask, Inv, OrAll;
    InvKeys(f0, ls);
    assert left == [left[0]] + left[1..];
    forall d | 0 <= d < |f.anfds| && d !in left[1..] ensures Reified(f0, ls, f, d) {
      assert d != left[0] ==> Reified(f0, ls, f1, d);
    }
  }

  /** One descriptor of fd_reify. */
  method Reify(f0: Fds, b0: Backend, fd: nat, ghost s: seq<nat>) returns (f: Fds, b: Backend)
    requires Keys(f0.ws) && fd < |f0.anfds| && Linked(f0.ws.next, f0.anfds[fd].head, s)
    requires forall w :: w in s ==> w in f0.ws.events && IoMask(f0.ws.events[w])
    requires IoMask(f0.anfds[fd].events) && InStep(f0, b0)
    ensures f == f0.(anfds := f0.anfds[fd := f0.anfds[fd].(reify := 0, events := OrAll(f0.ws.events, s))])
    ensures IoMask(OrAll(f0.ws.events, s)) && InStep(f, b)
  {
    hide Common, OrAll, Agrees, Valid, IoMask;
    f, b := f0, b0;
    var o_events, o_reify := f.anfds[fd].events, f.anfds[fd].reify;
    f := f.(anfds := f.anfds[fd := f.anfds[fd].(reify := 0)]);
    var events := Union(f.ws, f.anfds[fd].head, s);
    f := f.(anfds := f.anfds[fd := f.anfds[fd].(events := events)]);
    OrAllWants(f.ws.events, s, 0);
    if o_events != events {
      o_reify := EV__IOFDSET;
    }
    IofdsetAlone();
    if Common(o_reify, EV__IOFDSET) != 0 {
      assert Believed(f0, fd) == o_events;
      b := BackendModify(b, fd, o_events, events);
      assert forall d: nat :: d != fd ==> Believed(f, d) == Believed(f0, d);
      assert forall d: nat :: d != fd ==> Agrees(b, d, Believed(f0, d));
    } else {
      assert forall d: nat :: Believed(f, d) == Believed(f0, d);
    }
  }

  lemma IofdsetAlone()
    ensures Common(EV__IOFDSET, EV__IOFDSET) != 0
  {
  }

  /** fd_reify: afterwards the kernel watches every descriptor for exactly the
      events that its started watchers want. */
  method FdReify(f0: Fds, b0: Backend, ghost ls: seq<seq<nat>>) returns (f: Fds, b: Backend)
    requires Inv(f0, ls) && InStep(f0, b0)
    ensures Inv(f, ls) && InStep(f, b) && Valid(b)
    ensures f.ws == f0.ws && f.fdchanges == [] && |f.anfds| == |f0.anfds|
    ensures forall d :: 0 <= d < |ls| ==> Reified(f0, ls, f, d)
  {
    hide Inv, Settled, InStep, OrAll, IoMask;
    f, b := f0, b0;
    InvKeys(f0, ls);
    ReifyStarts(f0, ls);
    ChangesInRange(f0, ls);
    assert f0.fdchanges[0..] == f0.fdchanges;
    for i := 0 to |f.fdchanges|
      invariant f.fdchanges == f0.fdchanges && |f.anfds| == |f0.anfds| && f.ws == f0.ws
      invariant Reifying(f0, ls, f0.fdchanges[i..], f) && InStep(f, b)
    {
      var fd := f.fdchanges[i];
      ghost var f1 := f;
      InList(f0, ls, fd);
      f, b := Reify(f, b, fd, ls[fd]);
      assert f0.fdchanges[i..][1..] == f0.fdchanges[i + 1..];
      ReifyStep(f0, ls, f0.fdchanges[i..], f1, f);
    }
    assert f0.fdchanges[|f0.fdchanges|..] == [];
    ReifyEnds(f0, ls, f);
    ghost var f1 := f;
    f := f.(fdchanges := []);
    SameBelief(f1, f, b);
  }

  lemma ChangesInRange(f: Fds, ls: seq<seq<nat>>)
    requires Inv(f, ls)
    ensures forall i :: 0 <= i < |f.fdchanges| ==> f.fdchanges[i] < |f.anfds|
  {
    forall i | 0 <= i < |f.fdchanges| ensures f.fdchanges[i] < |f.anfds| {
      assert f.fdchanges[i] in f.fdchanges;
    }
  }

  lemma SameBelief(f: Fds, f1: Fds, b: Backend)
    requires InStep(f, b) && f1.anfds == f.anfds
    ensures InStep(f1, b) && Valid(b)
  {
    assert forall d: nat :: Believed(f1, d) == Believed(f, d);
  }

  /** The watchers in `s` are told what they want of revents. */
  ghost predicate ToldOf(ws: Watchers, p0: P.Pend, s: seq<nat>, revents: Mask, p: P.Pend)
    requires P.Inv(p0) && P.Inv(p)
  {
    && p.priority == p0.priority
    && (forall w :: w in s ==> w in ws.events)
    && forall w :: P.Bits(P.Owed(p), w) ==
         if w in s then P.Or(P.Bits(P.Owed(p0), w), Common(ws.events[w], revents)) else P.Bits(P.Owed(p0), w)
  }

  /** Of one event, w is owed the report exactly if it wants it and it came. */
  ghost predicate ToldEvent(ws: Watchers, p0: P.Pend, s: seq<nat>, revents: Mask, p: P.Pend, w: nat, ev: Mask)
    requires P.Inv(p0) && P.Inv(p)
  {
    Wants(P.Bits(P.Owed(p), w), ev) <==>
      || Wants(P.Bits(P.Owed(p0), w), ev)
      || (w in s && w in ws.events && Wants(ws.events[w], ev) && Wants(revents, ev))
  }

  /** Who is owed something after some of them were told: only those that want
      some of it become pending. */
  ghost predicate ToldWho(ws: Watchers, p0: P.Pend, s: seq<nat>, revents: Mask, p: P.Pend)
    requires P.Inv(p0) && P.Inv(p)
  {
    forall w :: w in P.Owed(p) <==> w in P.Owed(p0) || (w in s && w in ws.events && Wants(ws.events[w], revents))
  }

  /** So for every watcher and event. */
  ghost predicate ToldEvents(ws: Watchers, p0: P.Pend, s: seq<nat>, revents: Mask, p: P.Pend)
    requires P.Inv(p0) && P.Inv(p)
  {
    && (forall w, ev :: ev == EV_READ || ev == EV_WRITE ==> ToldEvent(ws, p0, s, revents, p, w, ev))
    && ToldWho(ws, p0, s, revents, p)
  }

  lemma CommonWants(m: Mask, n: Mask, ev: Mask)
    requires ev == EV_READ || ev == EV_WRITE
    ensures Wants(Common(m, n), ev) <==> Wants(m, ev) && Wants(n, ev)
  {
  }

  lemma ToldMeans(ws: Watchers, p0: P.Pend, s: seq<nat>, revents: Mask, p: P.Pend, w: nat, ev: Mask)
    requires P.Inv(p0) && P.Inv(p) && ToldOf(ws, p0, s, revents, p) && (ev == EV_READ || ev == EV_WRITE)
    ensures ToldEvent(ws, p0, s, revents, p, w, ev)
  {
    hide P.Inv, P.Owed, P.Or, Common, Wants, P.Bits;
    if w in s {
      OrWants(P.Bits(P.Owed(p0), w), Common(ws.events[w], revents), ev);
      CommonWants(ws.events[w], revents, ev);
    }
  }

  lemma ToldWhoStep(ws: Watchers, p0: P.Pend, s: seq<nat>, revents: Mask, p1: P.Pend, w: nat, p: P.Pend)
    requires P.Inv(p0) && P.Inv(p1) && P.Inv(p) && ToldWho(ws, p0, s, revents, p1) && w in ws.events
    requires if Common(ws.events[w], revents) != 0 then P.Owed(p).Keys == P.Owed(p1).Keys + {w} else p == p1
    ensures ToldWho(ws, p0, s + [w], revents, p)
  {
    hide P.Inv, P.Owed;
    assert forall x :: x in s + [w] <==> x in s || x == w;
  }

  lemma ToldStep(ws: Watchers, p0: P.Pend, s: seq<nat>, revents: Mask, p1: P.Pend, w: nat, p: P.Pend)
    requires P.Inv(p0) && P.Inv(p1) && P.Inv(p) && ToldOf(ws, p0, s, revents, p1)
    requires w in ws.events && w !in s && p.priority == p1.priority
    requires if Common(ws.events[w], revents) != 0
             then P.Owed(p) == P.Owed(p1)[w := P.Or(P.Bits(P.Owed(p1), w), Common(ws.events[w], revents))]
             else p == p1
    ensures ToldOf(ws, p0, s + [w], revents, p)
  {
    hide P.Inv, P.Owed, P.Or, Common;
    P.OrAlgebra(P.Bits(P.Owed(p0), w), 0, 0);
    assert forall x :: x in s + [w] <==> x in s || x == w;
  }

  lemma ToldNone(ws: Watchers, p: P.Pend, revents: Mask)
    requires P.Inv(p)
    ensures ToldOf(ws, p, [], revents, p) && ToldWho(ws, p, [], revents, p)
  {
  }

  lemma AllToldMeans(ws: Watchers, p0: P.Pend, s: seq<nat>, revents: Mask, p: P.Pend)
    requires P.Inv(p0) && P.Inv(p) && ToldOf(ws, p0, s, revents, p) && ToldWho(ws, p0, s, revents, p)
    ensures ToldEvents(ws, p0, s, revents, p)
  {
    hide P.Inv, P.Owed, ToldOf, ToldEvent, ToldWho;
    forall w, ev | ev == EV_READ || ev == EV_WRITE ensures ToldEvent(ws, p0, s, revents, p, w, ev) {
      ToldMeans(ws, p0, s, revents, p, w, ev);
    }
  }

  lemma NextTold(s: seq<nat>, told: seq<nat>, rest: seq<nat>)
    requires told + rest == s && rest != [] && Distinct(s)
    ensures rest[0] !in told && told + [rest[0]] + rest[1..] == s
  {
    forall i | 0 <= i < |told| ensures told[i] != rest[0] {
      assert s[i] == told[i] && s[|told|] == rest[0];
    }
  }

  /** fd_event: a descriptor that changed since the kernel was asked is skipped. */
  method FdEvent(f: Fds, p0: P.Pend, fd: nat, revents: Mask, ghost ls: seq<seq<nat>>) returns (p: P.Pend)
    requires Inv(f, ls) && P.Inv(p0) && Known(f, p0) && fd < |f.anfds|
    ensures P.Inv(p) && |ls| == |f.anfds|
    ensures ToldOf(f.ws, p0, if f.anfds[fd].reify == 0 then ls[fd] else [], revents, p)
    ensures ToldEvents(f.ws, p0, if f.anfds[fd].reify == 0 then ls[fd] else [], revents, p)
  {
    hide ToldEvents, ToldWho, P.Inv, P.Owed, P.Or, Common, ToldOf, Inv, FdOk, IoMask, P.Bits, Distinct, P.Above, OrAll;
    p := p0;
    InvKeys(f, ls);
    InList(f, ls, fd);
    P.InvShape(p0);
    ToldNone(f.ws, p, revents);
    AllToldMeans(f.ws, p0, [], revents, p);
    if f.anfds[fd].reify != 0 {
      return;
    }
    var w := f.anfds[fd].head;
    ghost var told, rest: seq<nat> := [], ls[fd];
    assert told + rest == ls[fd];
    while w != NULL
      invariant told + rest == ls[fd] && Linked(f.ws.next, w, rest)
      invariant P.Inv(p) && p.pending.Keys == p0.pending.Keys && ToldOf(f.ws, p0, told, revents, p)
      invariant ToldWho(f.ws, p0, told, revents, p)
      decreases |rest|
    {
      var x := w.w;
      var ev := Common(f.ws.events[x], revents);
      NextTold(ls[fd], told, rest);
      ghost var p1 := p;
      P.InvShape(p1);
      if ev != 0 {
        p := P.FeedEvent(p, x, ev);
        P.InvShape(p);
      }
      ToldStep(f.ws, p0, told, revents, p1, x, p);
      ToldWhoStep(f.ws, p0, told, revents, p1, x, p);
      told, rest := told + [x], rest[1..];
      w := f.ws.next[x];
    }
    assert told == ls[fd];
    AllToldMeans(f.ws, p0, ls[fd], revents, p);
  }

  /** w is a started watcher for descriptor d that wants `ev`. */
  ghost predicate Wanting(ws: Watchers, w: nat, d: nat, ev: Mask) {
    && w in ws.active && ws.active[w] && w in ws.fd && ws.fd[w] == d
    && w in ws.events && Wants(ws.events[w], ev)
  }

  /** Unless d is listed as changed, the kernel is asked to report an event on
      it exactly if some started watcher wants it. */
  lemma KernelMatches(f: Fds, ls: seq<seq<nat>>, b: Backend, d: nat, ev: Mask)
    requires Inv(f, ls) && InStep(f, b) && d !in f.fdchanges && (ev == EV_READ || ev == EV_WRITE)
    ensures Asked(b, d, ev) <==> exists w :: Wanting(f.ws, w, d, ev)
  {
    hide IoMask, Wants, Agrees, Asked;
    AgreesAsked(b, d, Believed(f, d), ev);
    if d < |f.anfds| {
      InList(f, ls, d);
      OrAllWants(f.ws.events, ls[d], ev);
      forall w | Wanting(f.ws, w, d, ev) ensures w in ls[d] {
        assert Listed(f.ws, ls, w);
      }
      if exists w :: w in ls[d] && Wants(f.ws.events[w], ev) {
        var w :| w in ls[d] && Wants(f.ws.events[w], ev);
        assert Wanting(f.ws, w, d, ev);
      }
    } else {
      OrWants(0, 0, ev);
      forall w ensures !Wanting(f.ws, w, d, ev) {
        assert w in f.ws.active ==> Listed(f.ws, ls, w);
      }
    }
  }
}
