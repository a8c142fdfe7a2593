/** Moving bytes between two evbuffers by relinking chains. */
module EvbufferMove {
  import opened EvbufferStore
  import opened Lists
  import opened EvbufferOps

  /** A buffer that holds bytes has no empty chain. */
  lemma AllFull(m: Memory, b: Evb, s: seq<Addr>)
    requires Inv(m, b, s) && b.totalLen > 0
    ensures s != [] && forall i :: 0 <= i < |s| ==> m[s[i]].off > 0
  {
    FlatNil(m);
    if |s| == 1 {
      assert s == [s[0]];
      FlatSingle(m, s[0]);
    }
    hide Distinct;
  }

  /** Two lists of different owners, the second linked behind the first. */
  ghost predicate Joins(m: Memory, s: seq<Addr>, t: seq<Addr>, m1: Memory) {
    && Linked(m, s) && Linked(m, t) && s != [] && t != []
    && Elems(s) !! Elems(t)
    && m1 == m[Tail(s) := m[Tail(s)].(next := t[0])]
  }

  lemma JoinDistinct(s: seq<Addr>, t: seq<Addr>)
    requires Distinct(s) && Distinct(t) && Elems(s) !! Elems(t)
    ensures Distinct(s + t)
  {
    hide Distinct;
    assert forall a :: a in s ==> a in Elems(s) && a !in Elems(t);
    assert forall a :: a in t ==> a in Elems(t);
    DistinctJoin(s, t);
  }

  /** The chains of the joined list, one by one. */
  lemma JoinAt(m: Memory, s: seq<Addr>, t: seq<Addr>, m1: Memory, i: nat)
    requires Joins(m, s, t, m1) && i < |s + t|
    ensures (s + t)[i] in m1 && m1[(s + t)[i]].Ok()
    ensures i + 1 < |s + t| ==> m1[(s + t)[i]].next == (s + t)[i + 1]
    ensures i >= |s| ==> m1[(s + t)[i]] == m[t[i - |s|]]
  {
    hide Distinct, Elems;
    DistinctPairs(s);
    if i >= |s| {
      ElemIn(t, i - |s|);
      ElemIn(s, |s| - 1);
    }
  }

  lemma JoinLinked(m: Memory, s: seq<Addr>, t: seq<Addr>, m1: Memory)
    requires Joins(m, s, t, m1)
    ensures Linked(m1, s + t)
  {
    hide Distinct, Elems, Joins, Chain.Ok;
    assert Distinct(s + t) by {
      JoinParts(m, s, t, m1);
      JoinDistinct(s, t);
    }
    forall i | 0 <= i < |s + t|
      ensures (s + t)[i] in m1 && m1[(s + t)[i]].Ok()
      ensures i + 1 < |s + t| ==> m1[(s + t)[i]].next == (s + t)[i + 1]
    {
      JoinAt(m, s, t, m1, i);
    }
  }

  lemma JoinParts(m: Memory, s: seq<Addr>, t: seq<Addr>, m1: Memory)
    requires Joins(m, s, t, m1)
    ensures Distinct(s) && Distinct(t) && Elems(s) !! Elems(t)
  {
    hide Elems, Distinct;
  }

  lemma JoinFlat(m: Memory, s: seq<Addr>, t: seq<Addr>, m1: Memory)
    requires Joins(m, s, t, m1)
    ensures Flat(m1, s + t) == Flat(m, s) + Flat(m, t)
  {
    hide Flat, Distinct;
    FlatRelink(m, s, Tail(s), t[0]);
    FlatRelink(m, t, Tail(s), t[0]);
    FlatAppend(m1, s, t);
  }

  lemma JoinFrame(m: Memory, s: seq<Addr>, t: seq<Addr>, m1: Memory)
    requires Joins(m, s, t, m1)
    ensures Elems(s + t) == Elems(s) + Elems(t)
    ensures Frame(m, Elems(s) + Elems(t), m1, Elems(s + t))
  {
    hide Distinct;
    assert Elems(s + t) == Elems(s) + Elems(t);
  }

  /** The pointers of the joined list. */
  function Joined(a: Evb, c: Evb): Evb {
    a.(last := c.last, totalLen := a.totalLen + c.totalLen,
       lastWithDatap := if c.lastWithDatap == FirstSlot then NextOf(a.last) else c.lastWithDatap)
  }

  lemma JoinShape(m: Memory, a: Evb, s: seq<Addr>, c: Evb, t: seq<Addr>, m1: Memory)
    requires Inv(m, a, s) && Inv(m, c, t) && Joins(m, s, t, m1)
    requires forall i :: 0 <= i < |s| ==> m[s[i]].off > 0
    requires forall i :: 0 <= i < |t| ==> m[t[i]].off > 0
    ensures Shape(m1, s + t, a.first, c.last, Joined(a, c).lastWithDatap)
  {
    hide Flat, Distinct;
    JoinLinked(m, s, t, m1);
    assert forall i :: 0 <= i < |s + t| ==> (s + t)[i] == if i < |s| then s[i] else t[i - |s|];
    assert Tail(s) !in t by {
      assert Tail(s) in Elems(s);
      assert forall a :: a in t ==> a in Elems(t);
    }
  }

  lemma Join(m: Memory, a: Evb, s: seq<Addr>, c: Evb, t: seq<Addr>, m1: Memory)
    requires Inv(m, a, s) && Inv(m, c, t) && Joins(m, s, t, m1)
    requires a.totalLen > 0 && c.totalLen > 0 && a.totalLen + c.totalLen <= EV_SIZE_MAX
    ensures Inv(m1, Joined(a, c), s + t)
    ensures Flat(m1, s + t) == Flat(m, s) + Flat(m, t)
    ensures Frame(m, Elems(s) + Elems(t), m1, Elems(s + t))
  {
    hide Flat, Shape, Distinct, Frame, Joins;
    AllFull(m, a, s);
    AllFull(m, c, t);
    JoinShape(m, a, s, c, t, m1);
    JoinFlat(m, s, t, m1);
    JoinFrame(m, s, t, m1);
  }

  /** Two buffers side by side in one memory. */
  ghost predicate Both(m: Memory, a: Evb, s: seq<Addr>, c: Evb, t: seq<Addr>) {
    && Inv(m, a, s) && Inv(m, c, t)
    && Elems(s) !! Elems(t)
    && a.totalLen + c.totalLen <= EV_SIZE_MAX
  }

  /** Freeing one buffer's chains does not matter to the other. */
  lemma FreedBeside(m: Memory, a: Evb, s: seq<Addr>, c: Evb, t: seq<Addr>)
    requires Both(m, a, s, c, t)
    ensures var m1 := m - Elems(s);
      && Inv(m1, c, t) && Flat(m1, t) == Flat(m, t)
      && Frame(m, Elems(s) + Elems(t), m1, Elems(t))
  {
    hide Flat, Distinct;
    Ends(m, a, s);
    Ends(m, c, t);
    assert forall a :: a in t ==> a in Elems(t);
    InvOutside(m, c, t, m - Elems(s));
  }

  lemma EmptyBuffer(m: Memory, b: Evb)
    requires NULL !in m
    requires b.first == NULL && b.last == NULL && b.lastWithDatap == FirstSlot && b.totalLen == 0
    ensures Inv(m, b, []) && Flat(m, []) == [] && Elems([]) == {}
  {
    hide Distinct;
    assert Distinct<Addr>([]) by {
      DistinctPairs([]);
    }
  }

  /** ZERO_CHAIN */
  function Zeroed(b: Evb): Evb {
    b.(first := NULL, last := NULL, lastWithDatap := FirstSlot, totalLen := 0)
  }

  /** COPY_CHAIN */
  function Copied(dst: Evb, src: Evb): Evb {
    dst.(first := src.first, last := src.last, totalLen := src.totalLen, lastWithDatap := src.lastWithDatap)
  }

  lemma CopiedInv(m: Memory, dst: Evb, src: Evb, s: seq<Addr>)
    requires Inv(m, src, s)
    ensures Inv(m, Copied(dst, src), s)
  {
    hide Flat, Shape;
  }

  /** evbuffer_add_buffer, for two different buffers. */
  method AddBuffer(m0: Memory, o0: Evb, ghost so0: seq<Addr>, i0: Evb, ghost si0: seq<Addr>)
    returns (m: Memory, o: Evb, ghost so: seq<Addr>, i: Evb, ghost si: seq<Addr>, result: int)
    requires Both(m0, o0, so0, i0, si0)
    ensures Both(m, o, so, i, si)
    ensures o.freezeStart == o0.freezeStart && o.freezeEnd == o0.freezeEnd
    ensures i.freezeStart == i0.freezeStart && i.freezeEnd == i0.freezeEnd
    ensures Frame(m0, Elems(so0) + Elems(si0), m, Elems(so) + Elems(si))
    ensures result == if i0.totalLen > 0 && (o0.freezeEnd || i0.freezeStart) then -1 else 0
    ensures result == 0 ==> Flat(m, so) == Flat(m0, so0) + Flat(m0, si0) && Flat(m, si) == []
    ensures result == -1 ==> m == m0 && o == o0 && so == so0 && i == i0 && si == si0
  {
    hide Inv, Shape, Linked, Flat, Frame, Elems, Distinct;
    m, o, so, i, si, result := m0, o0, so0, i0, si0, 0;
    Ends(m, o, so);
    Ends(m, i, si);
    FrameRefl(m, Elems(so) + Elems(si));
    if i.totalLen == 0 {
      return;
    }
    if o.freezeEnd || i.freezeStart {
      result := -1;
      return;
    }
    if o.totalLen == 0 {
      m := FreeAllChains(m, o.first, so);
      FreedBeside(m0, o0, so0, i0, si0);
      o := Copied(o, i);
      so := si0;
      CopiedInv(m, o0, i0, si0);
      Ends(m, o, so);
      assert Flat(m0, so0) == [];
    } else {
      m := m[o.last := m[o.last].(next := i.first)];
      assert Joins(m0, so0, si0, m);
      Join(m0, o0, so0, i0, si0, m);
      o := Joined(o, i);
      so := so0 + si0;
      Ends(m, o, so);
    }
    i := Zeroed(i);
    si := [];
    EmptyBuffer(m, i);
    assert Elems(so) + Elems(si) == Elems(so);
  }

  /** evbuffer_prepend_buffer, for two different buffers. */
  method PrependBuffer(m0: Memory, o0: Evb, ghost so0: seq<Addr>, i0: Evb, ghost si0: seq<Addr>)
    returns (m: Memory, o: Evb, ghost so: seq<Addr>, i: Evb, ghost si: seq<Addr>, result: int)
    requires Both(m0, o0, so0, i0, si0)
    ensures Both(m, o, so, i, si)
    ensures o.freezeStart == o0.freezeStart && o.freezeEnd == o0.freezeEnd
    ensures i.freezeStart == i0.freezeStart && i.freezeEnd == i0.freezeEnd
    ensures Frame(m0, Elems(so0) + Elems(si0), m, Elems(so) + Elems(si))
    ensures result == if i0.totalLen > 0 && (o0.freezeStart || i0.freezeStart) then -1 else 0
    ensures result == 0 ==> Flat(m, so) == Flat(m0, si0) + Flat(m0, so0) && Flat(m, si) == []
    ensures result == -1 ==> m == m0 && o == o0 && so == so0 && i == i0 && si == si0
  {
    hide Inv, Shape, Linked, Flat, Frame, Elems, Distinct;
    m, o, so, i, si, result := m0, o0, so0, i0, si0, 0;
    Ends(m, o, so);
    Ends(m, i, si);
    FrameRefl(m, Elems(so) + Elems(si));
    if i.totalLen == 0 {
      return;
    }
    if o.freezeStart || i.freezeStart {
      result := -1;
      return;
    }
    if o.totalLen == 0 {
      m := FreeAllChains(m, o.first, so);
      FreedBeside(m0, o0, so0, i0, si0);
      o := Copied(o, i);
      so := si0;
      CopiedInv(m, o0, i0, si0);
      Ends(m, o, so);
      assert Flat(m0, so0) == [];
    } else {
      m := m[i.last := m[i.last].(next := o.first)];
      assert Joins(m0, si0, so0, m);
      Join(m0, i0, si0, o0, so0, m);
      o := o.(first := i.first, totalLen := o.totalLen + i.totalLen);
      SlotAlive(m0, o0, so0, i.last, m[i.last]);
      if Deref(m, o, o.lastWithDatap) == NULL {
        o := o.(lastWithDatap := i.lastWithDatap);
      } else if o.lastWithDatap == FirstSlot {
        o := o.(lastWithDatap := NextOf(i.last));
      }
      so := si0 + so0;
      CopiedInv(m, o0, Joined(i0, o0), so);
      Ends(m, o, so);
      assert Elems(si0) + Elems(so0) == Elems(so0) + Elems(si0);
    }
    i := Zeroed(i);
    si := [];
    EmptyBuffer(m, i);
    assert Elems(so) + Elems(si) == Elems(so);
  }

  /** In a list that holds bytes, `*last_with_datap` is a chain, and stays one
      when another buffer's chain is relinked. */
  lemma SlotAlive(m: Memory, b: Evb, s: seq<Addr>, p: Addr, c: Chain)
    requires Inv(m, b, s) && b.totalLen > 0 && p !in Elems(s)
    ensures b.lastWithDatap.NextOf? ==>
      b.lastWithDatap.chain in m && m[p := c][b.lastWithDatap.chain].next != NULL
  {
    hide Flat, Distinct;
    AllFull(m, b, s);
  }

  /** `m1` is `m` with the list `s` cut behind its first `k` chains. */
  ghost predicate Cuts(m: Memory, s: seq<Addr>, k: nat, m1: Memory) {
    && 0 < k < |s| && s[k - 1] in m
    && m1 == m[s[k - 1] := m[s[k - 1]].(next := NULL)]
  }

  lemma CutElems(s: seq<Addr>, k: nat)
    requires Distinct(s) && k <= |s|
    ensures Elems(s) == Elems(s[..k]) + Elems(s[k..]) && Elems(s[..k]) !! Elems(s[k..])
  {
    hide Distinct;
    DistinctSplit(s, k);
    assert forall a :: a in s <==> a in s[..k] || a in s[k..];
  }

  lemma CutLinkedFront(m: Memory, s: seq<Addr>, k: nat, m1: Memory)
    requires Linked(m, s) && Cuts(m, s, k, m1)
    ensures Linked(m1, s[..k])
  {
    hide Distinct;
    DistinctSplit(s, k);
    DistinctPairs(s[..k]);
  }

  lemma CutLinkedRest(m: Memory, s: seq<Addr>, k: nat, m1: Memory)
    requires Linked(m, s) && Cuts(m, s, k, m1)
    ensures Linked(m1, s[k..])
    ensures forall i :: k <= i < |s| ==> s[k..][i - k] == s[i] && m1[s[i]] == m[s[i]]
  {
    hide Distinct;
    DistinctSplit(s, k);
    assert s[k - 1] in s[..k];
    assert forall i :: 0 <= i < |s| - k ==> s[k..][i] == s[k + i];
    assert forall i :: 0 <= i < |s| - k ==> s[k..][i] != s[k - 1];
  }

  lemma CutFrame(m: Memory, s: seq<Addr>, k: nat, m1: Memory)
    requires Linked(m, s) && Cuts(m, s, k, m1)
    ensures Frame(m, Elems(s), m1, Elems(s[..k]) + Elems(s[k..]))
  {
    hide Distinct;
    CutElems(s, k);
  }

  lemma CutShapeFront(m: Memory, b: Evb, s: seq<Addr>, k: nat, m1: Memory)
    requires Inv(m, b, s) && Cuts(m, s, k, m1)
    ensures Shape(m1, s[..k], s[0], s[k - 1], SlotAt(s, k - 1))
  {
    hide Flat, Distinct;
    CutLinkedFront(m, s, k, m1);
  }

  lemma CutShapeRest(m: Memory, b: Evb, s: seq<Addr>, k: nat, m1: Memory)
    requires Inv(m, b, s) && Cuts(m, s, k, m1)
    ensures Shape(m1, s[k..], s[k], b.last, if k + 1 == |s| then FirstSlot else b.lastWithDatap)
  {
    hide Flat, Distinct;
    CutLinkedRest(m, s, k, m1);
  }

  lemma CutFlat(m: Memory, b: Evb, s: seq<Addr>, k: nat, m1: Memory)
    requires Inv(m, b, s) && Cuts(m, s, k, m1)
    ensures Flat(m1, s[..k]) == Flat(m, s[..k]) && Flat(m1, s[k..]) == Flat(m, s[k..])
    ensures Flat(m, s) == Flat(m, s[..k]) + Flat(m, s[k..])
  {
    hide Inv, Flat, Distinct;
    FlatRelink(m, s[..k], s[k - 1], NULL);
    FlatRelink(m, s[k..], s[k - 1], NULL);
    FlatSplit(m, s, k);
  }

  /** evbuffer_free_trailing_empty_chains. */
  method FreeTrailingEmptyChains(m0: Memory, b0: Evb, ghost s: seq<Addr>) returns (m: Memory, b: Evb, ch: Slot)
    requires Inv(m0, b0, s)
    ensures if b0.totalLen == 0 then ch == FirstSlot && m == m0 - Elems(s) && b == b0.(first := NULL)
            else m == m0 && b == b0 && s != [] && ch == NextOf(b.last)
    ensures b0.totalLen == 0 ==> b0.lastWithDatap == FirstSlot
  {
    hide Inv, Shape, Linked, Flat, Elems, Distinct;
    m, b := m0, b0;
    Ends(m, b, s);
    ch := FirstVictim(m, b, s);
    if Deref(m, b, ch) != NULL {
      m := FreeAllChains(m, Deref(m, b, ch), s);
      m, b := Assign(m, b, ch, NULL);
    } else if b.totalLen == 0 {
      ElemsNil();
      assert m - {} == m;
    }
  }

  /** advance_last_with_data, on a list without empty chains whose data ends
      at its last chain. */
  method AdvanceLastWithData(m: Memory, b0: Evb, ghost s: seq<Addr>, ghost from: nat) returns (b: Evb)
    requires s != [] && Linked(m, s) && NULL !in m
    requires b0.first == s[0] && m[s[|s| - 1]].next == NULL
    requires forall i :: 0 <= i < |s| ==> m[s[i]].off > 0
    requires from < |s| && b0.lastWithDatap == SlotAt(s, from)
    ensures b == b0.(lastWithDatap := SlotAt(s, |s| - 1))
  {
    hide Distinct;
    b := b0;
    if Deref(m, b, b.lastWithDatap) == NULL {
      return;
    }
    ghost var i := from;
    while m[Deref(m, b, b.lastWithDatap)].next != NULL && m[m[Deref(m, b, b.lastWithDatap)].next].off > 0
      invariant from <= i < |s| && b == b0.(lastWithDatap := SlotAt(s, i))
      decreases |s| - i
    {
      b := b.(lastWithDatap := NextOf(Deref(m, b, b.lastWithDatap)));
      i := i + 1;
    }
  }
}
