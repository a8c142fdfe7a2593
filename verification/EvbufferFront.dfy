/** Writing in front of an evbuffer, and reading from its front. */
module EvbufferFront {
  import opened EvbufferStore
  import opened Lists
  import opened EvbufferOps

  lemma PushLinked(m: Memory, s: seq<Addr>, p: Addr)
    requires Linked(m, s) && s != []
    requires p in m && p !in Elems(s) && m[p].Ok() && m[p].next == s[0]
    ensures Linked(m, [p] + s) && Elems([p] + s) == Elems(s) + {p}
  {
    assert ([p] + s)[1..] == s;
    assert forall i :: 0 < i < |s| + 1 ==> ([p] + s)[i] == s[i - 1];
  }

  lemma PushFlat(m: Memory, s: seq<Addr>, p: Addr)
    ensures Flat(m, [p] + s) == DataAt(m, p) + Flat(m, s)
  {
    assert ([p] + s)[1..] == s;
  }

  lemma PushShape(m: Memory, b: Evb, s: seq<Addr>, p: Addr)
    requires Inv(m, b, s) && s != []
    requires p in m && p !in Elems(s) && m[p].Ok() && m[p].off > 0 && m[p].next == s[0] && m[s[0]].off > 0
    ensures Shape(m, [p] + s, p, b.last, if b.lastWithDatap == FirstSlot then NextOf(p) else b.lastWithDatap)
  {
    hide Flat, Distinct;
    PushLinked(m, s, p);
    assert forall i :: 0 < i < |s| + 1 ==> ([p] + s)[i] == s[i - 1];
  }

  /** A non-empty chain in front of a list without empty chains. */
  lemma PushFront(m: Memory, b: Evb, s: seq<Addr>, p: Addr)
    requires Inv(m, b, s) && s != []
    requires p in m && p !in Elems(s) && m[p].Ok() && m[p].off > 0 && m[p].next == s[0]
    requires s[0] in m && m[s[0]].off > 0
    requires b.totalLen + m[p].off <= EV_SIZE_MAX
    ensures Inv(m, b.(first := p, totalLen := b.totalLen + m[p].off,
                      lastWithDatap := if b.lastWithDatap == FirstSlot then NextOf(p) else b.lastWithDatap), [p] + s)
    ensures Flat(m, [p] + s) == m[p].Data() + Flat(m, s)
    ensures Elems([p] + s) == Elems(s) + {p}
  {
    hide Flat, Shape, Distinct, Linked, Chain.Data;
    Ends(m, b, s);
    PushLinked(m, s, p);
    PushFlat(m, s, p);
    PushShape(m, b, s, p);
  }

  /** The bytes evbuffer_prepend can write into the first chain. */
  function FrontRoom(c: Chain): nat
  {
    if c.off == 0 then |c.buffer| else c.misalign
  }

  /** How much of `data` a call of evbuffer_prepend writes before it needs a
      new chain; on an empty list the new chain comes first. */
  function Absorbed(m: Memory, b: Evb, n: nat): (k: nat)
    ensures k <= n
  {
    if b.first !in m then 0
    else if FrontRoom(m[b.first]) <= n then FrontRoom(m[b.first]) else n
  }

  /** What a call of evbuffer_prepend that fails has put in front: the end of
      the data, as far as the first chain had room for it. */
  function Leftover(m: Memory, b: Evb, data: seq<byte>): seq<byte> {
    if b.freezeStart || |data| > EV_SIZE_MAX - b.totalLen then []
    else data[|data| - Absorbed(m, b, |data|)..]
  }

  lemma SplitPrepend(base: seq<byte>, data: seq<byte>, k: nat)
    requires k <= |data|
    ensures data[..k] + (data[k..] + base) == data + base
  {
    assert data[..k] + data[k..] == data;
  }

  /** evbuffer_prepend, once there is a first chain. */
  method PrependTo(m0: Memory, b0: Evb, ghost s0: seq<Addr>, data: seq<byte>, canAlloc: bool)
    returns (m: Memory, b: Evb, ghost s: seq<Addr>, result: int)
    requires Inv(m0, b0, s0) && b0.first != NULL && b0.first in m0
    requires |data| <= EV_SIZE_MAX - b0.totalLen
    ensures Inv(m, b, s) && Frame(m0, Elems(s0), m, Elems(s))
    ensures b.freezeStart == b0.freezeStart && b.freezeEnd == b0.freezeEnd
    ensures result == 0 || result == -1
    ensures result == 0 ==> Flat(m, s) == data + Flat(m0, s0)
    ensures result == -1 ==> Flat(m, s) == data[|data| - Absorbed(m0, b0, |data|)..] + Flat(m0, s0)
    ensures result == 0 <==>
      || |data| == Absorbed(m0, b0, |data|)
      || (canAlloc && |data| - Absorbed(m0, b0, |data|) <= EVBUFFER_CHAIN_MAX - EVBUFFER_CHAIN_SIZE)
  {
    hide Inv, Shape, Linked, Flat, Frame, Elems, Chain.Data, DataAt, Prepended, CopyIn;
    m, b, s, result := m0, b0, s0, -1;
    ghost var own := Elems(s0);
    Ends(m, b, s);
    var chain := b.first;
    m := m[chain := Emptied(m[chain])];
    GrowFirst(m0, b, s, m[chain], [], m);
    Ends(m, b, s);
    ghost var m1 := m;
    var room := m[chain].misalign;
    assert room == FrontRoom(m0[chain]);
    if room >= |data| {
      m := m[chain := Prepended(m[chain], data)];
      b := b.(totalLen := b.totalLen + |data|);
      GrowFirst(m1, b0, s, m[chain], data, m);
      FrameTrans(m0, own, m1, own, m, own);
      result := 0;
      return;
    }
    m, b, s, result := PrependPart(m, b, s, data, canAlloc);
    FrameTrans(m0, own, m1, own, m, Elems(s));
  }

  /** evbuffer_prepend when the first chain has too little room: its room takes
      the end of the data, a new chain the rest. */
  method PrependPart(m0: Memory, b0: Evb, ghost s0: seq<Addr>, data: seq<byte>, canAlloc: bool)
    returns (m: Memory, b: Evb, ghost s: seq<Addr>, result: int)
    requires Inv(m0, b0, s0) && b0.first in m0 && m0[b0.first].Ok()
    requires m0[b0.first].misalign < |data| <= EV_SIZE_MAX - b0.totalLen
    requires m0[b0.first].off == 0 ==> m0[b0.first].misalign == |m0[b0.first].buffer|
    ensures Inv(m, b, s) && Frame(m0, Elems(s0), m, Elems(s))
    ensures b.freezeStart == b0.freezeStart && b.freezeEnd == b0.freezeEnd
    ensures result == if canAlloc &&
      |data| - m0[b0.first].misalign <= EVBUFFER_CHAIN_MAX - EVBUFFER_CHAIN_SIZE then 0 else -1
    ensures Flat(m, s) == (if result == 0 then data else data[|data| - m0[b0.first].misalign..]) + Flat(m0, s0)
  {
    hide Inv, Shape, Linked, Flat, Frame, Elems, Chain.Data, DataAt, Prepended, CopyIn;
    m, b, s := m0, b0, s0;
    ghost var own := Elems(s0);
    Ends(m, b, s);
    var chain := b.first;
    var room := m[chain].misalign;
    var rest := data[..|data| - room];
    if room > 0 {
      m := m[chain := Prepended(m[chain], data[|data| - room..])];
      b := b.(totalLen := b.totalLen + room);
    }
    PartialPrepend(m0, b0, s0, data[|data| - room..], m, b);
    ghost var m1 := m;
    m, b, s, result := PushNewChain(m, b, s, rest, canAlloc);
    FrameTrans(m0, own, m1, own, m, Elems(s));
    SplitPrepend(Flat(m0, s0), data, |data| - room);
  }

  /** The last part of evbuffer_prepend: what is left of the data goes into a
      new first chain, at its end. */
  method PushNewChain(m0: Memory, b0: Evb, ghost s0: seq<Addr>, rest: seq<byte>, canAlloc: bool)
    returns (m: Memory, b: Evb, ghost s: seq<Addr>, result: int)
    requires Inv(m0, b0, s0) && b0.first != NULL && b0.first in m0 && m0[b0.first].off > 0
    requires 0 < |rest| <= EV_SIZE_MAX - b0.totalLen
    ensures Inv(m, b, s) && Frame(m0, Elems(s0), m, Elems(s))
    ensures b.freezeStart == b0.freezeStart && b.freezeEnd == b0.freezeEnd
    ensures result == if canAlloc && |rest| <= EVBUFFER_CHAIN_MAX - EVBUFFER_CHAIN_SIZE then 0 else -1
    ensures Flat(m, s) == if result == 0 then rest + Flat(m0, s0) else Flat(m0, s0)
  {
    hide Inv, Shape, Linked, Flat, Frame, Elems, Chain.Data, DataAt, Prepended, CopyIn;
    m, b, s, result := m0, b0, s0, -1;
    ghost var own := Elems(s0);
    Ends(m, b, s);
    FrameRefl(m, own);
    var tmp: Addr;
    m, tmp := ChainNew(m, |rest|, canAlloc);
    if tmp == NULL {
      return;
    }
    ghost var m1 := m;
    InvAlloc(m0, b0, s0, tmp, m[tmp]);
    b := b.(first := tmp);
    if b.lastWithDatap == FirstSlot {
      b := b.(lastWithDatap := NextOf(tmp));
    }
    var c := Chain(b0.first, |m[tmp].buffer|, 0, m[tmp].buffer);
    EmptyData(c);
    m := m[tmp := Prepended(c, rest)];
    b := b.(totalLen := b.totalLen + |rest|);
    InvStore(m1, b0, s0, tmp, m[tmp]);
    Ends(m, b0, s0);
    PushFront(m, b0, s0, tmp);
    s := [tmp] + s0;
    FrameTrans(m0, own, m1, own + {tmp}, m, own + {tmp});
    result := 0;
  }

  lemma EmptyData(c: Chain)
    requires c.Ok() && c.off == 0
    ensures c.Data() == []
  {
  }

  /** Filling the free space in front of the first chain with `d`. */
  lemma PartialPrepend(m: Memory, b: Evb, s: seq<Addr>, d: seq<byte>, m1: Memory, b1: Evb)
    requires Inv(m, b, s) && s != [] && s[0] in m && m[s[0]].Ok()
    requires |d| == m[s[0]].misalign && b.totalLen + |d| <= EV_SIZE_MAX
    requires m[s[0]].off == 0 ==> |d| == |m[s[0]].buffer|
    requires if |d| > 0 then m1 == m[s[0] := Prepended(m[s[0]], d)] && b1 == b.(totalLen := b.totalLen + |d|)
             else m1 == m && b1 == b
    ensures Inv(m1, b1, s) && Flat(m1, s) == d + Flat(m, s)
    ensures Frame(m, Elems(s), m1, Elems(s))
    ensures s[0] in m1 && m1[s[0]].off > 0
  {
    hide Inv, Shape, Linked, Flat, Frame, Elems, Chain.Data, DataAt, Prepended;
    Ends(m, b, s);
    if |d| > 0 {
      GrowFirst(m, b, s, m1[s[0]], d, m1);
    } else {
      FrameRefl(m, Elems(s));
    }
  }

  /** evbuffer_prepend. When the allocator fails after the first chain has been
      filled, the tail of `data` stays in the buffer although -1 is returned. */
  method Prepend(m0: Memory, b0: Evb, ghost s0: seq<Addr>, data: seq<byte>, canAlloc: bool)
    returns (m: Memory, b: Evb, ghost s: seq<Addr>, result: int)
    requires Inv(m0, b0, s0)
    ensures Inv(m, b, s) && Frame(m0, Elems(s0), m, Elems(s))
    ensures b.freezeStart == b0.freezeStart && b.freezeEnd == b0.freezeEnd
    ensures result == 0 || result == -1
    ensures result == 0 ==> Flat(m, s) == data + Flat(m0, s0)
    ensures result == -1 ==> Flat(m, s) == Leftover(m0, b0, data) + Flat(m0, s0)
    ensures result == -1 ==>
      (Flat(m, s) == Flat(m0, s0) <==>
       b0.freezeStart || |data| > EV_SIZE_MAX - b0.totalLen || b0.first !in m0 || FrontRoom(m0[b0.first]) == 0)
    ensures result == 0 <==>
      && !b0.freezeStart && |data| <= EV_SIZE_MAX - b0.totalLen
      && ((b0.first != NULL && |data| == Absorbed(m0, b0, |data|))
          || (canAlloc && |data| - Absorbed(m0, b0, |data|) <= EVBUFFER_CHAIN_MAX - EVBUFFER_CHAIN_SIZE))
  {
    hide Inv, Shape, Linked, Flat, Frame, Elems, Chain.Data, DataAt, Prepended, CopyIn;
    m, b, s, result := m0, b0, s0, -1;
    Ends(m, b, s);
    FrameRefl(m, Elems(s));
    if b.freezeStart {
      return;
    }
    if |data| > EV_SIZE_MAX - b.totalLen {
      return;
    }
    var chain := b.first;
    if chain == NULL {
      m, chain := ChainNew(m, |data|, canAlloc);
      if chain == NULL {
        return;
      }
      InvAlloc(m0, b0, s, chain, m[chain]);
      ghost var m1 := m;
      m, b, s := ChainInsert(m, b, s, chain);
      FrameTrans(m0, Elems(s0), m1, Elems(s0) + {chain}, m, Elems(s));
      Ends(m, b, s);
    }
    ghost var m2, s2 := m, s;
    m, b, s, result := PrependTo(m, b, s, data, canAlloc);
    FrameTrans(m0, Elems(s0), m2, Elems(s2), m, Elems(s));
  }

  /** evbuffer_copyout: the bytes copied and their number. */
  method CopyOut(m: Memory, b: Evb, ghost s: seq<Addr>, datlen: nat) returns (data: seq<byte>, result: int)
    requires Inv(m, b, s)
    ensures datlen == 0 || b.totalLen == 0 ==> data == [] && result == 0
    ensures datlen > 0 && b.totalLen > 0 && b.freezeStart ==> data == [] && result == -1
    ensures datlen > 0 && b.totalLen > 0 && !b.freezeStart ==>
      result == |data| && data == Flat(m, s)[..if datlen <= b.totalLen then datlen else b.totalLen]
  {
    hide Inv, Shape, Linked, Flat, Frame, Elems, Chain.Data, DataAt;
    data, result := [], 0;
    Ends(m, b, s);
    var chain := b.first;
    var left: nat := if datlen >= b.totalLen then b.totalLen else datlen;
    if left == 0 {
      return;
    }
    if b.freezeStart {
      result := -1;
      return;
    }
    var nread := left;
    ghost var k: nat := 0;
    assert s[..0] == [];
    FlatNil(m);
    while left > 0 && left >= m[chain].off
      invariant k <= |s| && chain == if k < |s| then s[k] else NULL
      invariant left > 0 ==> chain in m
      invariant data == Flat(m, s[..k]) && |data| + left == nread
      invariant Flat(m, s) == Flat(m, s[..k]) + Flat(m, s[k..])
      decreases |s| - k
    {
      Walk(m, b, s, k);
      data := data + m[chain].Data();
      left := left - m[chain].off;
      chain := m[chain].next;
      if k + 1 < |s| {
        Walk(m, b, s, k + 1);
      } else {
        assert s[..|s|] == s && s[|s|..] == [];
      }
      k := k + 1;
    }
    if left > 0 {
      Walk(m, b, s, k);
      FlatSplit(m, s, k);
      data := data + m[chain].Data()[..left];
    }
    result := nread;
  }

  /** A prepend that fails and changes the buffer: two bytes, of which the first
      chain has room for one, and no memory for another chain. */
  lemma PartialExists()
    ensures var c := Chain(NULL, 1, 1, seq(MIN_BUFFER_SIZE - EVBUFFER_CHAIN_SIZE, _ => 7));
      var m, b := map[At(1) := c], Evb(At(1), At(1), FirstSlot, 1, false, false);
      Inv(m, b, [At(1)]) && Absorbed(m, b, 2) == 1 && Leftover(m, b, [5, 6]) == [6]
  {
    var c := Chain(NULL, 1, 1, seq(MIN_BUFFER_SIZE - EVBUFFER_CHAIN_SIZE, _ => 7));
    FlatSingle(map[At(1) := c], At(1));
  }
}
