/** The poll and select backends of libev: two representations of the set of
    descriptors, each with its events, that the kernel is to watch. */
module LibevBackend {
  type Mask = bv32

  const EV_READ: Mask := 1
  const EV_WRITE: Mask := 2

  const POLLIN: bv16 := 1
  const POLLOUT: bv16 := 4

  datatype PollFd = PollFd(fd: int, events: bv16)

  /** `polls` up to pollcnt, dense, and `pollidxs`, sparse. */
  datatype PollSet = PollSet(polls: seq<PollFd>, pollidxs: seq<int>)

  /** Each entry is indexed by its descriptor, and each index leads to an entry. */
  ghost predicate PollInv(b: PollSet) {
    && (forall i :: 0 <= i < |b.polls| ==> Entry(b, i))
    && (forall d :: 0 <= d < |b.pollidxs| ==> Index(b, d))
  }

  ghost predicate Entry(b: PollSet, i: nat)
    requires i < |b.polls|
  {
    && 0 <= b.polls[i].fd < |b.pollidxs| && b.pollidxs[b.polls[i].fd] == i
    && b.polls[i].events != 0
  }

  ghost predicate Index(b: PollSet, d: nat)
    requires d < |b.pollidxs|
  {
    b.pollidxs[d] >= 0 ==> b.pollidxs[d] < |b.polls| && b.polls[b.pollidxs[d]].fd == d
  }

  function ToPoll(nev: Mask): bv16 {
    (if nev & EV_READ != 0 then POLLIN else 0) | (if nev & EV_WRITE != 0 then POLLOUT else 0)
  }

  /** What poll is to watch descriptor d for. */
  ghost function PollEvents(b: PollSet, d: nat): bv16
    requires PollInv(b)
  {
    if d < |b.pollidxs| && b.pollidxs[d] >= 0 then
      assert Index(b, d); b.polls[b.pollidxs[d]].events
    else 0
  }

  predicate IoMask(m: Mask) {
    m & !(EV_READ | EV_WRITE) == 0
  }

  lemma ToPollInjective(m: Mask, n: Mask)
    requires IoMask(m) && IoMask(n)
    ensures ToPoll(m) == ToPoll(n) <==> m == n
    ensures ToPoll(m) == 0 <==> m == 0
  {
  }

  /** `pollidxs` grown with -1. */
  lemma Grown(b0: PollSet, b: PollSet)
    requires PollInv(b0) && b.polls == b0.polls && |b0.pollidxs| <= |b.pollidxs|
    requires forall d :: 0 <= d < |b.pollidxs| ==> b.pollidxs[d] == if d < |b0.pollidxs| then b0.pollidxs[d] else -1
    ensures PollInv(b) && forall d: nat :: PollEvents(b, d) == PollEvents(b0, d)
  {
    forall i | 0 <= i < |b.polls| ensures Entry(b, i) {
      assert Entry(b0, i);
    }
    forall d | 0 <= d < |b.pollidxs| ensures Index(b, d) {
      assert d < |b0.pollidxs| ==> Index(b0, d);
    }
  }

  /** An entry with other events. */
  lemma Changed(b0: PollSet, fd: nat, events: bv16, b: PollSet)
    requires PollInv(b0) && fd < |b0.pollidxs| && 0 <= b0.pollidxs[fd] < |b0.polls| && events != 0
    requires b == b0.(polls := b0.polls[b0.pollidxs[fd] := PollFd(fd, events)])
    ensures PollInv(b) && forall d: nat :: PollEvents(b, d) == if d == fd then events else PollEvents(b0, d)
  {
    forall i | 0 <= i < |b.polls| ensures Entry(b, i) {
      assert Entry(b0, i) && Index(b0, fd);
    }
    forall d | 0 <= d < |b.pollidxs| ensures Index(b, d) {
      assert Index(b0, d) && Index(b0, fd);
    }
    forall d: nat ensures PollEvents(b, d) == if d == fd then events else PollEvents(b0, d) {
      assert d < |b0.pollidxs| ==> Index(b0, d);
    }
  }

  /** A new entry at the end. */
  lemma Added(b0: PollSet, fd: nat, events: bv16, b: PollSet)
    requires PollInv(b0) && fd < |b0.pollidxs| && b0.pollidxs[fd] < 0 && events != 0
    requires b.pollidxs == b0.pollidxs[fd := |b0.polls|] && b.polls == b0.polls + [PollFd(fd, events)]
    ensures PollInv(b) && forall d: nat :: PollEvents(b, d) == if d == fd then events else PollEvents(b0, d)
  {
    forall i | 0 <= i < |b.polls| ensures Entry(b, i) {
      assert i < |b0.polls| ==> Entry(b0, i);
    }
    forall d | 0 <= d < |b.pollidxs| ensures Index(b, d) {
      assert Index(b0, d);
    }
    forall d: nat ensures PollEvents(b, d) == if d == fd then events else PollEvents(b0, d) {
      assert d < |b0.pollidxs| ==> Index(b0, d);
    }
  }

  /** An entry gone, and the last one in its place. */
  lemma Dropped(b0: PollSet, fd: nat, b: PollSet)
    requires PollInv(b0) && fd < |b0.pollidxs| && 0 <= b0.pollidxs[fd] < |b0.polls|
    requires var idx, last := b0.pollidxs[fd], |b0.polls| - 1;
      && 0 <= b0.polls[last].fd < |b0.pollidxs|
      && b.polls == b0.polls[idx := b0.polls[last]][..last]
      && b.pollidxs == if idx < last then b0.pollidxs[fd := -1][b0.polls[last].fd := idx] else b0.pollidxs[fd := -1]
    ensures PollInv(b) && forall d: nat :: PollEvents(b, d) == if d == fd then 0 else PollEvents(b0, d)
  {
    assert Index(b0, fd) && Entry(b0, |b0.polls| - 1);
    forall i | 0 <= i < |b.polls| ensures Entry(b, i) {
      assert Entry(b0, i);
    }
    forall d | 0 <= d < |b.pollidxs| ensures Index(b, d) {
      assert Index(b0, d);
    }
    forall d: nat ensures PollEvents(b, d) == if d == fd then 0 else PollEvents(b0, d) {
      assert d < |b0.pollidxs| ==> Index(b0, d);
    }
  }

  method PollModify(b0: PollSet, fd: nat, oev: Mask, nev: Mask) returns (b: PollSet)
    requires PollInv(b0) && IoMask(oev) && IoMask(nev) && PollEvents(b0, fd) == ToPoll(oev)
    ensures PollInv(b)
    ensures forall d: nat :: PollEvents(b, d) == if d == fd then ToPoll(nev) else PollEvents(b0, d)
  {
    hide PollEvents, ToPoll, IoMask, PollInv;
    b := b0;
    ToPollInjective(oev, nev);
    ToPollInjective(nev, oev);
    if oev == nev {
      return;
    }
    if |b.pollidxs| <= fd {
      b := b.(pollidxs := b.pollidxs + seq(fd + 1 - |b.pollidxs|, _ => -1));
      Grown(b0, b);
    }
    ghost var b1 := b;
    IndexAt(b, fd);
    var idx := b.pollidxs[fd];
    if idx < 0 {
      idx := |b.polls|;
      b := b.(pollidxs := b.pollidxs[fd := idx], polls := b.polls + [PollFd(fd, 0)]);
    }
    assert b.polls[idx].fd == fd;
    if nev != 0 {
      b := b.(polls := b.polls[idx := b.polls[idx].(events := ToPoll(nev))]);
      if b1.pollidxs[fd] < 0 {
        assert b.polls == b1.polls + [PollFd(fd, ToPoll(nev))];
        Added(b1, fd, ToPoll(nev), b);
      } else {
        Changed(b1, fd, ToPoll(nev), b);
      }
    } else {
      b := b.(pollidxs := b.pollidxs[fd := -1]);
      var pollcnt := |b.polls| - 1;
      EntryAt(b1, pollcnt);
      if idx < pollcnt {
        b := b.(polls := b.polls[idx := b.polls[pollcnt]]);
        b := b.(pollidxs := b.pollidxs[b.polls[idx].fd := idx]);
      }
      b := b.(polls := b.polls[..pollcnt]);
      Dropped(b1, fd, b);
    }
  }

  lemma IndexAt(b: PollSet, d: nat)
    requires PollInv(b) && d < |b.pollidxs|
    ensures b.pollidxs[d] >= 0 ==> b.pollidxs[d] < |b.polls| && b.polls[b.pollidxs[d]].fd == d
    ensures b.pollidxs[d] < 0 <==> PollEvents(b, d) == 0
  {
    assert Index(b, d);
    assert b.pollidxs[d] >= 0 ==> Entry(b, b.pollidxs[d]);
  }

  lemma EntryAt(b: PollSet, i: nat)
    requires PollInv(b) && i < |b.polls|
    ensures 0 <= b.polls[i].fd < |b.pollidxs|
  {
    assert Entry(b, i);
  }

  /** The 32-bit words of `vec_ri` and `vec_wi`. */
  const NFDBITS := 32

  datatype SelectSet = SelectSet(ri: seq<bv32>, wi: seq<bv32>)

  /** 1UL << k, by doubling. */
  function Bit(k: nat): bv32 {
    if k == 0 then 1 else Bit(k - 1) << 1
  }

  predicate Apart(x: bv32, y: bv32) {
    x & y == 0
  }

  predicate Meets(x: bv32, mask: bv32) {
    x & mask != 0
  }

  lemma {:induction false} BitsApart(j: nat, k: nat)
    requires j < k
    ensures Apart(Bit(j), Bit(k))
  {
    if j == 0 {
      assert (Bit(k - 1) << 1) & 1 == 0;
    } else {
      BitsApart(j - 1, k - 1);
      var a, b := Bit(j - 1), Bit(k - 1);
      assert (a << 1) & (b << 1) == (a & b) << 1;
    }
  }

  lemma BitUp4(k: nat)
    ensures Bit(k + 4) == Bit(k) << 4
  {
    assert Bit(k + 2) == Bit(k) << 2;
  }

  lemma LastBit()
    ensures Bit(NFDBITS - 1) == 0x8000_0000
  {
    BitUp4(3);
    BitUp4(7);
    BitUp4(11);
    BitUp4(15);
    BitUp4(19);
    BitUp4(23);
    BitUp4(27);
    assert Bit(1) == 2 && Bit(2) == 4;
  }

  /** No bit of a word is shifted out. */
  lemma {:induction false} BitSet(k: nat)
    requires k < NFDBITS
    ensures Bit(k) != 0
    decreases NFDBITS - k
  {
    if k == NFDBITS - 1 {
      LastBit();
    } else {
      BitSet(k + 1);
    }
  }

  predicate Watches(v: seq<bv32>, fd: nat) {
    fd / NFDBITS < |v| && Meets(v[fd / NFDBITS], Bit(fd % NFDBITS))
  }

  ghost predicate SelectInv(b: SelectSet) {
    |b.ri| == |b.wi|
  }

  function SetBits(x: bv32, mask: bv32): bv32 {
    x | mask
  }

  function ClearBits(x: bv32, mask: bv32): bv32 {
    x & !mask
  }

  /** The store of one bit in a word, as the code does it. */
  function Stored(x: bv32, mask: bv32, on: bool): bv32 {
    if on then SetBits(x, mask) else ClearBits(SetBits(x, mask), mask)
  }

  lemma StoredOther(x: bv32, mask: bv32, other: bv32, on: bool)
    requires Apart(mask, other) || Apart(other, mask)
    ensures Meets(Stored(x, mask, on), other) <==> Meets(x, other)
  {
  }

  lemma StoredSame(x: bv32, mask: bv32, on: bool)
    requires mask != 0
    ensures Meets(Stored(x, mask, on), mask) <==> on
  {
  }

  predicate Wants(m: Mask, ev: Mask) {
    m & ev != 0
  }

  method SelectModify(b0: SelectSet, fd: nat, oev: Mask, nev: Mask) returns (b: SelectSet)
    requires SelectInv(b0)
    requires Watches(b0.ri, fd) <==> Wants(oev, EV_READ)
    requires Watches(b0.wi, fd) <==> Wants(oev, EV_WRITE)
    ensures SelectInv(b)
    ensures forall d: nat :: Watches(b.ri, d) <==> if d == fd then Wants(nev, EV_READ) else Watches(b0.ri, d)
    ensures forall d: nat :: Watches(b.wi, d) <==> if d == fd then Wants(nev, EV_WRITE) else Watches(b0.wi, d)
  {
    hide Bit, Watches, Wants;
    b := b0;
    if oev == nev {
      return;
    }
    var word := fd / NFDBITS;
    if |b.ri| <= word {
      var zeros: seq<bv32> := seq(word + 1 - |b.ri|, _ => 0);
      b := b.(ri := b.ri + zeros, wi := b.wi + zeros);
    }
    GrownWords(b0.ri, b.ri);
    GrownWords(b0.wi, b.wi);
    var ri := StoreBit(b.ri, fd, Wants(nev, EV_READ));
    var wi := StoreBit(b.wi, fd, Wants(nev, EV_WRITE));
    b := SelectSet(ri, wi);
  }

  lemma GrownWords(v0: seq<bv32>, v: seq<bv32>)
    requires |v0| <= |v| && forall i :: 0 <= i < |v| ==> v[i] == if i < |v0| then v0[i] else 0
    ensures forall d: nat :: Watches(v, d) <==> Watches(v0, d)
  {
    hide Bit, Meets;
    forall d: nat ensures Watches(v, d) <==> Watches(v0, d) {
      ZeroAnd(Bit(d % NFDBITS));
    }
  }

  /** Sets the bit, and clears it again if it is not wanted. */
  method StoreBit(v0: seq<bv32>, fd: nat, on: bool) returns (v: seq<bv32>)
    requires fd / NFDBITS < |v0|
    ensures |v| == |v0|
    ensures forall d: nat :: Watches(v, d) <==> if d == fd then on else Watches(v0, d)
  {
    hide SetBits, ClearBits, Bit, Watches;
    v := v0;
    var word := fd / NFDBITS;
    var mask := Bit(fd % NFDBITS);
    v := v[word := SetBits(v[word], mask)];
    if !on {
      v := v[word := ClearBits(v[word], mask)];
    }
    WordStored(v0, fd, on, v);
  }

  lemma BitStored(x: bv32, j: nat, k: nat, on: bool)
    requires j < NFDBITS && k < NFDBITS
    ensures Meets(Stored(x, Bit(j), on), Bit(k)) <==> if j == k then on else Meets(x, Bit(k))
  {
    hide *;
    BitSet(j);
    if k == j {
      StoredSame(x, Bit(j), on);
    } else if k < j {
      BitsApart(k, j);
      StoredOther(x, Bit(j), Bit(k), on);
    } else {
      BitsApart(j, k);
      StoredOther(x, Bit(j), Bit(k), on);
    }
  }

  lemma WordStored(v0: seq<bv32>, fd: nat, on: bool, v: seq<bv32>)
    requires fd / NFDBITS < |v0| == |v|
    requires v == v0[fd / NFDBITS := Stored(v0[fd / NFDBITS], Bit(fd % NFDBITS), on)]
    ensures forall d: nat :: Watches(v, d) <==> if d == fd then on else Watches(v0, d)
  {
    hide Bit, Stored, Meets;
    forall d: nat ensures Watches(v, d) <==> if d == fd then on else Watches(v0, d) {
      if d / NFDBITS == fd / NFDBITS {
        BitStored(v0[fd / NFDBITS], fd % NFDBITS, d % NFDBITS, on);
      }
    }
  }

  lemma ZeroAnd(x: bv32)
    ensures !Meets(0, x)
  {
  }

  /** The backend the loop was set up with. */
  datatype Backend = Poll(polls: PollSet) | Select(vecs: SelectSet)

  ghost predicate Valid(b: Backend) {
    match b
    case Poll(polls) => PollInv(polls)
    case Select(vecs) => SelectInv(vecs)
  }

  /** The kernel is to watch d for exactly the events in m. */
  ghost predicate Agrees(b: Backend, d: nat, m: Mask)
    requires Valid(b)
  {
    match b
    case Poll(polls) => PollEvents(polls, d) == ToPoll(m)
    case Select(vecs) => (Watches(vecs.ri, d) <==> Wants(m, EV_READ)) && (Watches(vecs.wi, d) <==> Wants(m, EV_WRITE))
  }

  /** backend_modify: changes the registration of one descriptor. */
  method BackendModify(b0: Backend, fd: nat, oev: Mask, nev: Mask) returns (b: Backend)
    requires Valid(b0) && IoMask(oev) && IoMask(nev) && Agrees(b0, fd, oev)
    ensures Valid(b) && Agrees(b, fd, nev)
    ensures forall d: nat, m :: d != fd ==> (Agrees(b, d, m) <==> Agrees(b0, d, m))
  {
    hide PollInv, PollEvents, ToPoll, Watches, Wants, IoMask;
    match b0 {
      case Poll(polls0) =>
        var polls := PollModify(polls0, fd, oev, nev);
        b := Poll(polls);
      case Select(vecs0) =>
        var vecs := SelectModify(vecs0, fd, oev, nev);
        b := Select(vecs);
    }
  }

  /** No descriptor is watched yet. */
  lemma EmptyAgrees(d: nat)
    ensures Valid(Poll(PollSet([], []))) && Agrees(Poll(PollSet([], [])), d, 0)
    ensures Valid(Select(SelectSet([], []))) && Agrees(Select(SelectSet([], [])), d, 0)
  {
  }

  /** The kernel is asked to report event `ev` on d. */
  ghost predicate Asked(b: Backend, d: nat, ev: Mask)
    requires Valid(b)
  {
    match b
    case Poll(polls) => PollEvents(polls, d) & (if ev == EV_READ then POLLIN else POLLOUT) != 0
    case Select(vecs) => if ev == EV_READ then Watches(vecs.ri, d) else Watches(vecs.wi, d)
  }

  lemma AgreesAsked(b: Backend, d: nat, m: Mask, ev: Mask)
    requires Valid(b) && Agrees(b, d, m) && (ev == EV_READ || ev == EV_WRITE)
    ensures Asked(b, d, ev) <==> Wants(m, ev)
  {
    hide PollEvents, Watches;
  }
}
