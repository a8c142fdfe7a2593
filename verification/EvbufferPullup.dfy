/** evbuffer_pullup: making the front of an evbuffer contiguous. */
module EvbufferPullup {
  import opened EvbufferStore
  import opened Lists
  import opened EvbufferOps
  import opened EvbufferFront

  /** The chain being filled: `done` of its `size` bytes are in place. */
  ghost predicate Filling(c: Chain, size: nat, done: seq<byte>) {
    && c.Ok() && c.off == size && |done| <= size
    && c.buffer[c.misalign..c.misalign + |done|] == done
  }

  /** memcpy of `d` behind what has already been copied. */
  function Filled(c: Chain, pos: nat, d: seq<byte>): (r: Chain)
    requires pos + |d| <= |c.buffer|
  {
    c.(buffer := CopyIn(c.buffer, pos, d))
  }

  lemma FilledMore(c: Chain, size: nat, done: seq<byte>, d: seq<byte>)
    requires Filling(c, size, done) && |done| + |d| <= size
    ensures Filling(Filled(c, c.misalign + |done|, d), size, done + d)
  {
    var r := Filled(c, c.misalign + |done|, d);
    assert r.buffer[c.misalign..c.misalign + |done|] == r.buffer[..c.misalign + |done|][c.misalign..];
    assert r.buffer[c.misalign..c.misalign + |done + d|] == r.buffer[c.misalign..c.misalign + |done|] + d;
  }

  lemma FilledUp(c: Chain, size: nat, done: seq<byte>)
    requires Filling(c, size, done) && |done| == size
    ensures c.Data() == done
  {
  }

  /** Chain number `k` copied out and freed, seen from the memory in which the
      first `k` chains never existed. */
  lemma FreeNext(m0: Memory, s: seq<Addr>, k: nat, tmp: Addr, t: Chain)
    requires k < |s| && s[k] != tmp
    ensures Elems(s[..k + 1]) == Elems(s[..k]) + {s[k]}
    ensures (m0 - Elems(s[..k]))[tmp := t] - {s[k]} == (m0 - Elems(s[..k + 1]))[tmp := t]
  {
    assert s[..k + 1] == s[..k] + [s[k]];
  }

  /** The list of the filled chain and what is left behind it. */
  lemma PulledPart(m0: Memory, b0: Evb, s0: seq<Addr>, k: nat, n: nat, tmp: Addr, t: Chain)
    requires Inv(m0, b0, s0) && k < |s0| && s0[k] in m0 && m0[s0[k]].Ok() && n < m0[s0[k]].off
    requires tmp != NULL && (tmp !in m0 || tmp in Elems(s0[..k]))
    requires t.Ok() && t.off > 0 && t.next == s0[k]
    requires t.Data() == Flat(m0, s0[..k]) + m0[s0[k]].Data()[..n]
    ensures var m1 := (m0 - Elems(s0[..k]))[s0[k] := Drained(m0[s0[k]], n)][tmp := t];
      var dp := if k + 1 == |s0| then NextOf(tmp) else b0.lastWithDatap;
      && Inv(m1, b0.(first := tmp, lastWithDatap := dp), [tmp] + s0[k..])
      && Flat(m1, [tmp] + s0[k..]) == Flat(m0, s0)
      && Frame(m0, Elems(s0), m1, Elems([tmp] + s0[k..]))
  {
    hide Inv, Shape, Linked, Flat, Frame, Elems, Distinct, Chain.Data, Drained;
    Walk(m0, b0, s0, k);
    Ends(m0, b0, s0);
    DropPrefix(m0, b0, s0, k);
    var ma := m0 - Elems(s0[..k]);
    var rest := s0[k..];
    var ba := Dropped(b0, s0[k], k + 1 == |s0|, |Flat(m0, s0[..k])|);
    ShrinkFirst(ma, ba, rest, n);
    FirstBytes(ma, ba, rest, n);
    var mb := ma[s0[k] := Drained(m0[s0[k]], n)];
    var bb := ba.(totalLen := ba.totalLen - n);
    InvAlloc(mb, bb, rest, tmp, t);
    var m1 := mb[tmp := t];
    assert Flat(mb, rest) == Flat(m0, rest)[n..];
    assert |Flat(m0, rest)| == ba.totalLen;
    PushFront(m1, bb, rest, tmp);
    FrameTrans(m0, Elems(s0), ma, Elems(rest), mb, Elems(rest));
    FrameTrans(m0, Elems(s0), mb, Elems(rest), m1, Elems(rest) + {tmp});
    RestOf(Flat(m0, s0), Flat(m0, s0[..k]), Flat(m0, rest), n);
    LastSlot(m0, b0, s0, k);
  }

  lemma RestOf(x: seq<byte>, a: seq<byte>, y: seq<byte>, n: nat)
    requires x == a + y && n <= |y|
    ensures a + y[..n] + y[n..] == x
  {
  }

  /** The slot of the last chain after the first `k` chains gave way to one. */
  lemma LastSlot(m: Memory, b: Evb, s: seq<Addr>, k: nat)
    requires Inv(m, b, s) && k < |s|
    ensures b.lastWithDatap == if |s| == 1 then FirstSlot else NextOf(s[|s| - 2])
  {
    hide Flat, Distinct;
  }

  /** Everything pulled into one chain. */
  lemma PulledAll(m0: Memory, b0: Evb, s0: seq<Addr>, tmp: Addr, t: Chain)
    requires Inv(m0, b0, s0)
    requires tmp != NULL && (tmp !in m0 || tmp in Elems(s0))
    requires t.Ok() && t.next == NULL && t.Data() == Flat(m0, s0)
    ensures var m1 := (m0 - Elems(s0))[tmp := t];
      && Inv(m1, b0.(first := tmp, last := tmp, lastWithDatap := FirstSlot), [tmp])
      && Flat(m1, [tmp]) == Flat(m0, s0)
      && Frame(m0, Elems(s0), m1, Elems([tmp]))
  {
    hide Shape, Linked, Flat, Frame, Elems, Distinct, Chain.Data;
    Ends(m0, b0, s0);
    FreedAll(m0, b0, s0);
    ElemsNil();
    var ma := m0 - Elems(s0);
    FrameAlloc(ma, {}, tmp, t);
    SoleChain(ma[tmp := t], tmp);
    ElemsOne(tmp);
    FrameTrans(m0, Elems(s0), ma, {}, ma[tmp := t], {tmp});
  }

  lemma ElemsOne(p: Addr)
    ensures Elems([p]) == {p}
  {
  }

  /** Memory while chains are pulled into `tmp`: the first `k` chains of the
      old list are gone, except that `tmp` may have been the first of them. */
  ghost predicate Pulling(m0: Memory, s0: seq<Addr>, k: nat, tmp: Addr, size: nat, m: Memory) {
    && k <= |s0| && tmp in m
    && m == (m0 - Elems(s0[..k]))[tmp := m[tmp]]
    && Filling(m[tmp], size, Flat(m0, s0[..k]))
  }

  lemma PullStep(m0: Memory, b0: Evb, s0: seq<Addr>, from: nat, k: nat, tmp: Addr)
    requires Inv(m0, b0, s0) && from <= k < |s0| && from <= 1
    requires if from == 0 then tmp !in m0 else tmp == s0[0]
    ensures s0[k] != tmp && s0[k] != NULL && s0[k] in m0 && m0[s0[k]].Ok() && s0[k] !in Elems(s0[..k])
    ensures k + 1 < |s0| ==> s0[k] != s0[|s0| - 1]
  {
    hide Flat, Distinct;
    DistinctPairs(s0);
  }

  lemma SlotIs(m: Memory, b: Evb, s: seq<Addr>, k: nat)
    requires Inv(m, b, s) && k < |s|
    ensures b.lastWithDatap == NextOf(s[k]) <==> k + 2 == |s|
  {
    hide Flat, Distinct;
    DistinctPairs(s);
  }

  lemma FilledFits(c: Chain, size: nat, done: seq<byte>, d: seq<byte>)
    requires Filling(c, size, done) && |done| + |d| <= size
    ensures c.misalign + |done| + |d| <= |c.buffer|
  {
  }

  /** The copying loop of evbuffer_pullup, from chain number `from` on. */
  method PullLoop(m0: Memory, b0: Evb, ghost s0: seq<Addr>, m1: Memory, tmp: Addr, first: Addr, lastWithData: Addr,
      start: nat, need: nat, ghost size: nat, ghost from: nat)
    returns (m: Memory, chain: Addr, pos: nat, left: nat, lastGone: bool, slotGone: bool, ghost k: nat)
    requires Inv(m0, b0, s0) && size <= b0.totalLen
    requires from <= 1 && from < |s0| && Pulling(m0, s0, from, tmp, size, m1)
    requires first == s0[from] && lastWithData == s0[|s0| - 1] && need + |Flat(m0, s0[..from])| == size
    requires start == m1[tmp].misalign + |Flat(m0, s0[..from])|
    requires if from == 0 then tmp !in m0 else tmp == s0[0]
    ensures from <= k <= |s0| && Pulling(m0, s0, k, tmp, size, m)
    ensures m[tmp] == m1[tmp].(buffer := m[tmp].buffer)
    ensures chain == (if k < |s0| then s0[k] else NULL) && left + |Flat(m0, s0[..k])| == size
    ensures pos == m[tmp].misalign + |Flat(m0, s0[..k])|
    ensures k < |s0| ==>
      chain in m0 && m0[chain].Ok() && left < m0[chain].off && chain in m &&
      m[chain] == m0[chain] && chain != tmp
    ensures lastGone <==> k == |s0|
    ensures k < |s0| ==> (slotGone <==> k + 1 == |s0| && from + 2 <= |s0|)
  {
    hide Inv, Shape, Linked, Flat, Elems, Distinct, Filling, Chain.Data, DataAt, CopyIn;
    Ends(m0, b0, s0);
    m, chain, left, k := m1, first, need, from;
    pos := start;
    lastGone, slotGone := false, false;
    PullStep(m0, b0, s0, from, k, tmp);
    while chain != NULL && left >= m[chain].off
      invariant from <= k <= |s0| && Pulling(m0, s0, k, tmp, size, m)
      invariant m[tmp] == m1[tmp].(buffer := m[tmp].buffer)
      invariant chain == (if k < |s0| then s0[k] else NULL) && left + |Flat(m0, s0[..k])| == size
      invariant pos == m[tmp].misalign + |Flat(m0, s0[..k])|
      invariant k < |s0| ==>
        chain in m0 && m0[chain].Ok() && chain in m && m[chain] == m0[chain] && chain != tmp &&
        chain != NULL
      invariant lastGone <==> k == |s0|
      invariant k < |s0| ==> (slotGone <==> k + 1 == |s0| && from + 2 <= |s0|)
      decreases |s0| - k
    {
      var next := m[chain].next;
      Walk(m0, b0, s0, k);
      LastSlot(m0, b0, s0, k);
      SlotIs(m0, b0, s0, k);
      FilledMore(m[tmp], size, Flat(m0, s0[..k]), m[chain].Data());
      FilledFits(m[tmp], size, Flat(m0, s0[..k]), m[chain].Data());
      m := m[tmp := Filled(m[tmp], pos, m[chain].Data())];
      left := left - m[chain].off;
      pos := pos + m[chain].off;
      if chain == lastWithData {
        lastGone := true;
      }
      if b0.lastWithDatap == NextOf(chain) {
        slotGone := true;
      }
      FreeNext(m0, s0, k, tmp, m[tmp]);
      m := m - {chain};
      if k + 1 < |s0| {
        PullStep(m0, b0, s0, from, k + 1, tmp);
      }
      chain, k := next, k + 1;
    }
  }

  /** The number of bytes asked for; a negative size asks for all of them. */
  function Wanted(size: int, total: nat): nat {
    if size < 0 then total else size
  }

  /** evbuffer_pullup. The result points at `at` in chain `p`; NULL is no result. */
  method Pullup(m0: Memory, b0: Evb, ghost s0: seq<Addr>, size: int, canAlloc: bool)
    returns (m: Memory, b: Evb, ghost s: seq<Addr>, p: Addr, at: nat)
    requires Inv(m0, b0, s0)
    ensures Inv(m, b, s) && Frame(m0, Elems(s0), m, Elems(s))
    ensures b.freezeStart == b0.freezeStart && b.freezeEnd == b0.freezeEnd
    ensures Flat(m, s) == Flat(m0, s0)
    ensures p == NULL ==> m == m0 && b == b0 && s == s0
    ensures p != NULL ==>
      && p == b.first && p in m && at == m[p].misalign
      && var n: nat := if size < 0 then b0.totalLen else size;
      && n <= b0.totalLen && at + n <= |m[p].buffer| && m[p].buffer[at..at + n] == Flat(m0, s0)[..n]
    ensures p != NULL <==>
      var n: nat := if size < 0 then b0.totalLen else size;
      && 0 < n <= b0.totalLen
      && b0.first in m0
      && (n <= m0[b0.first].off || n <= |m0[b0.first].buffer| - m0[b0.first].misalign
          || (canAlloc && n <= EVBUFFER_CHAIN_MAX - EVBUFFER_CHAIN_SIZE))
  {
    hide Inv, Shape, Linked, Flat, Frame, Elems, Distinct, Filling, Filled, Chain.Data, DataAt, Drained, CopyIn;
    m, b, s, p, at := m0, b0, s0, NULL, 0;
    Ends(m, b, s);
    FrameRefl(m, Elems(s));
    var n := Wanted(size, b.totalLen);
    if n == 0 || n > b.totalLen {
      return;
    }
    var chain := b.first;
    if m[chain].off >= n {
      FirstBytes(m, b, s, n);
      DataSlice(m[chain], n);
      p, at := chain, m[chain].misalign;
      return;
    }
    m, b, s, p, at := PullMany(m, b, s, n, canAlloc);
  }

  lemma DataSlice(c: Chain, n: nat)
    requires c.Ok() && n <= c.off
    ensures c.Data()[..n] == c.buffer[c.misalign..c.misalign + n]
  {
  }

  lemma TwoChains(m: Memory, b: Evb, s: seq<Addr>, n: nat)
    requires Inv(m, b, s) && s != [] && s[0] in m && m[s[0]].Ok() && m[s[0]].off < n <= b.totalLen
    ensures |s| >= 2 && m[s[0]].next == s[1]
    ensures Flat(m, s[..1]) == m[s[0]].Data()
    ensures s[|s| - 2] in m && m[s[|s| - 2]].next == s[|s| - 1]
  {
    hide Distinct;
    FlatSingle(m, s[0]);
    assert s[..1] == [s[0]];
    assert |s| == 1 <==> s == [s[0]];
  }

  /** Beginning in the first chain, which has the room. */
  lemma StartReuse(m: Memory, s: seq<Addr>, n: nat)
    requires s != [] && s[0] in m && m[s[0]].Ok() && Flat(m, s[..1]) == m[s[0]].Data()
    requires m[s[0]].off < n <= |m[s[0]].buffer| - m[s[0]].misalign
    ensures Pulling(m, s, 1, s[0], n, m[s[0] := m[s[0]].(off := n)])
  {
    hide Flat, Distinct;
    assert s[..1] == [s[0]];
    ElemsOne(s[0]);
  }

  /** Beginning in a new chain. */
  lemma StartNew(m: Memory, s: seq<Addr>, n: nat, tmp: Addr, t: Chain)
    requires t.Ok() && t.off == n
    ensures Pulling(m, s, 0, tmp, n, m[tmp := t])
    ensures Flat(m, s[..0]) == []
  {
    hide Distinct;
    assert s[..0] == [];
    FlatNil(m);
    ElemsNil();
  }

  /** The end of evbuffer_pullup: the last partial copy and the repairs of
      `last`, of the new chain's link and of last_with_datap. */
  method PullEnd(ghost m0: Memory, ghost b0: Evb, ghost s0: seq<Addr>, m1: Memory, b1: Evb, tmp: Addr, ghost n: nat,
                 chain: Addr, pos: nat, left: nat, lastGone: bool, slotGone: bool, ghost from: nat, ghost k: nat)
    returns (m: Memory, b: Evb, ghost s: seq<Addr>)
    requires Inv(m0, b0, s0) && 0 < n <= b0.totalLen && |s0| >= 2
    requires from <= 1 && from <= k <= |s0| && Pulling(m0, s0, k, tmp, n, m1)
    requires if from == 0 then tmp !in m0 && tmp != NULL else tmp == s0[0]
    requires chain == (if k < |s0| then s0[k] else NULL) && left + |Flat(m0, s0[..k])| == n
    requires pos == m1[tmp].misalign + |Flat(m0, s0[..k])|
    requires k < |s0| ==>
      chain in m0 && m0[chain].Ok() && left < m0[chain].off && chain in m1 &&
      m1[chain] == m0[chain] && chain != tmp && chain != NULL
    requires lastGone <==> k == |s0|
    requires k < |s0| ==> (slotGone <==> k + 1 == |s0| && from + 2 <= |s0|)
    requires b1 == b0.(first := tmp)
    ensures Inv(m, b, s) && Frame(m0, Elems(s0), m, Elems(s)) && Flat(m, s) == Flat(m0, s0)
    ensures b.freezeStart == b0.freezeStart && b.freezeEnd == b0.freezeEnd
    ensures tmp == b.first && tmp in m && m[tmp].misalign + n <= |m[tmp].buffer|
    ensures m[tmp].buffer[m[tmp].misalign..m[tmp].misalign + n] == Flat(m0, s0)[..n]
  {
    hide Inv, Shape, Linked, Flat, Frame, Elems, Distinct, Filling, Filled, Chain.Data, DataAt, Drained, CopyIn;
    m, b := m1, b1;
    Ends(m0, b0, s0);
    ghost var done := Flat(m0, s0[..k]);
    if chain != NULL {
      Walk(m0, b0, s0, k);
      ghost var d := m0[chain].Data()[..left];
      FilledFits(m[tmp], n, done, d);
      FilledMore(m[tmp], n, done, d);
      m := m[tmp := Filled(m[tmp], pos, m[chain].Data()[..left])];
      m := m[chain := Drained(m[chain], left)];
      done := done + d;
    } else {
      b := b.(last := tmp);
      assert s0[..k] == s0;
    }
    FilledUp(m[tmp], n, done);
    FillingOk(m[tmp], n, done);
    m := m[tmp := m[tmp].(next := chain)];
    NextData(m[tmp], n, done, chain);
    if lastGone {
      b := b.(lastWithDatap := FirstSlot);
    } else if slotGone {
      if m[b.first].next != NULL && m[m[b.first].next].off > 0 {
        b := b.(lastWithDatap := NextOf(b.first));
      } else {
        b := b.(lastWithDatap := FirstSlot);
      }
    }
    if k < |s0| {
      TmpApart(m0, b0, s0, from, k, tmp);
      LastSlot(m0, b0, s0, k);
      assert m == (m0 - Elems(s0[..k]))[s0[k] := Drained(m0[s0[k]], left)][tmp := m[tmp]];
      PulledPart(m0, b0, s0, k, left, tmp, m[tmp]);
      s := [tmp] + s0[k..];
      assert b == b0.(first := tmp, lastWithDatap := if k + 1 == |s0| then NextOf(tmp) else b0.lastWithDatap);
      assert Inv(m, b, s);
      FlatSplit(m0, s0, k);
      PrefixOf(Flat(m0, s0), Flat(m0, s0[..k]), Flat(m0, s0[k..]), m0[s0[k]].Data(), Flat(m0, s0[k + 1..]), left);
    } else {
      ElemIn(s0, 0);
      PulledAll(m0, b0, s0, tmp, m[tmp]);
      s := [tmp];
      assert m == (m0 - Elems(s0))[tmp := m[tmp]];
      assert b == b0.(first := tmp, last := tmp, lastWithDatap := FirstSlot);
      assert Inv(m, b, s);
    }
  }

  lemma FillingOk(c: Chain, n: nat, done: seq<byte>)
    requires Filling(c, n, done) && |done| == n
    ensures c.Ok() && c.off == n && c.misalign + n <= |c.buffer| && c.buffer[c.misalign..c.misalign + n] == done
  {
  }

  lemma NextData(c: Chain, n: nat, done: seq<byte>, next: Addr)
    requires c.Ok() && c.off == n && c.buffer[c.misalign..c.misalign + n] == done && c.next == next
    ensures c.Data() == done
  {
  }

  lemma TmpApart(m0: Memory, b0: Evb, s0: seq<Addr>, from: nat, k: nat, tmp: Addr)
    requires Inv(m0, b0, s0) && from <= 1 && from <= k < |s0|
    requires if from == 0 then tmp !in m0 && tmp != NULL else tmp == s0[0]
    ensures tmp != NULL && (tmp !in m0 || tmp in Elems(s0[..k]))
    ensures s0[k] !in Elems(s0[..k])
  {
    hide Flat, Distinct;
    DistinctPairs(s0);
    if from == 1 {
      assert s0[..k][0] == tmp;
    }
  }

  lemma PrefixOf(x: seq<byte>, a: seq<byte>, y: seq<byte>, d: seq<byte>, z: seq<byte>, left: nat)
    requires x == a + y && left <= |d| && y == d + z
    ensures x[..|a| + left] == a + d[..left]
  {
  }

  /** evbuffer_pullup when the first chain does not hold enough. */
  method PullMany(m0: Memory, b0: Evb, ghost s0: seq<Addr>, n: nat, canAlloc: bool)
    returns (m: Memory, b: Evb, ghost s: seq<Addr>, p: Addr, at: nat)
    requires Inv(m0, b0, s0) && b0.first in m0 && m0[b0.first].Ok()
    requires m0[b0.first].off < n <= b0.totalLen
    ensures Inv(m, b, s) && Frame(m0, Elems(s0), m, Elems(s))
    ensures b.freezeStart == b0.freezeStart && b.freezeEnd == b0.freezeEnd
    ensures Flat(m, s) == Flat(m0, s0)
    ensures p == NULL ==> m == m0 && b == b0 && s == s0
    ensures p != NULL ==>
      && p == b.first && p in m && at == m[p].misalign
      && at + n <= |m[p].buffer| && m[p].buffer[at..at + n] == Flat(m0, s0)[..n]
    ensures p != NULL <==>
      n <= |m0[b0.first].buffer| - m0[b0.first].misalign || (canAlloc && n <= EVBUFFER_CHAIN_MAX - EVBUFFER_CHAIN_SIZE)
  {
    hide Inv, Shape, Linked, Flat, Frame, Elems, Distinct, Filling, Filled, Chain.Data, DataAt, Drained, CopyIn;
    m, b, s, p, at := m0, b0, s0, NULL, 0;
    Ends(m, b, s);
    FrameRefl(m, Elems(s));
    TwoChains(m, b, s, n);
    var chain := b.first;
    var tmp: Addr, need: nat, start: nat;
    ghost var from: nat;
    if |m[chain].buffer| - m[chain].misalign >= n {
      tmp, from := chain, 1;
      StartReuse(m, s, n);
      m := m[tmp := m[tmp].(off := n)];
      need := n - m0[chain].off;
      start := m0[chain].misalign + m0[chain].off;
      chain := m0[chain].next;
    } else {
      m, tmp := ChainNew(m, n, canAlloc);
      if tmp == NULL {
        return;
      }
      from := 0;
      m := m[tmp := m[tmp].(off := n)];
      StartNew(m0, s, n, tmp, m[tmp]);
      need, start := n, 0;
      b := b.(first := tmp);
    }
    LastSlot(m0, b0, s0, 0);
    var lastWithData := Deref(m, b, b.lastWithDatap);
    var pos: nat, left: nat, lastGone: bool, slotGone: bool;
    ghost var k: nat;
    m, chain, pos, left, lastGone, slotGone, k := PullLoop(m0, b0, s0, m, tmp, chain, lastWithData, start, need, n, from);
    m, b, s := PullEnd(m0, b0, s0, m, b, tmp, n, chain, pos, left, lastGone, slotGone, from, k);
    p, at := tmp, m[tmp].misalign;
  }
}
