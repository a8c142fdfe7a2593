/** evbuffer_remove_buffer: moving whole chains and copying the remainder. */
module EvbufferRemove {
  import opened EvbufferStore
  import opened Lists
  import opened EvbufferOps
  import opened EvbufferMove

  /** Another owner's step leaves this buffer alone. */
  lemma Unaffected(m: Memory, b: Evb, s: seq<Addr>, own0: set<Addr>, m1: Memory, own1: set<Addr>)
    requires Inv(m, b, s) && NULL !in m1
    requires Frame(m, own0, m1, own1) && Elems(s) !! own0
    ensures Inv(m1, b, s) && Flat(m1, s) == Flat(m, s)
    ensures Elems(s) !! own1
    ensures forall a :: a in Elems(s) ==> a in m && a in m1 && m1[a] == m[a]
  {
    hide Flat, Distinct;
    assert forall a :: a in s ==> a in m.Keys - own0;
    InvOutside(m, b, s, m1);
  }

  lemma FrameBeside(m: Memory, own0: set<Addr>, m1: Memory, own1: set<Addr>, other: set<Addr>)
    requires Frame(m, own0, m1, own1) && other !! own0 && other <= m.Keys
    ensures Frame(m, own0 + other, m1, own1 + other)
  {
    assert other <= m.Keys - own0;
    assert other !! own1;
    assert forall a :: a in m1.Keys - (own1 + other) <==> a in m1.Keys - own1 && a !in other;
    assert forall a :: a in m.Keys - (own0 + other) <==> a in m.Keys - own0 && a !in other;
  }

  /** The first `k` chains of a list, as a buffer. */
  function FrontPart(s: seq<Addr>, k: nat, n: nat): Evb
    requires 0 < k <= |s|
  {
    Evb(s[0], s[k - 1], if k == 1 then FirstSlot else NextOf(s[k - 2]), n, false, false)
  }

  /** A list cut in two is two buffers. */
  lemma CutInv(m: Memory, b: Evb, s: seq<Addr>, k: nat, m1: Memory)
    requires Inv(m, b, s) && Cuts(m, s, k, m1)
    ensures |Flat(m, s[..k])| <= b.totalLen
    ensures Inv(m1, FrontPart(s, k, |Flat(m, s[..k])|), s[..k]) && Flat(m1, s[..k]) == Flat(m, s[..k])
    ensures Inv(m1, Dropped(b, s[k], k + 1 == |s|, |Flat(m, s[..k])|), s[k..]) && Flat(m1, s[k..]) == Flat(m, s[k..])
    ensures Elems(s) == Elems(s[..k]) + Elems(s[k..]) && Elems(s[..k]) !! Elems(s[k..])
    ensures Frame(m, Elems(s), m1, Elems(s))
  {
    hide Shape, Linked, Flat, Frame, Elems, Distinct;
    Ends(m, b, s);
    LinkedDistinct(m, s);
    CutElems(s, k);
    CutFrame(m, s, k, m1);
    CutShapeFront(m, b, s, k, m1);
    CutShapeRest(m, b, s, k, m1);
    CutFlat(m, b, s, k, m1);
  }

  lemma LinkedDistinct(m: Memory, s: seq<Addr>)
    requires Linked(m, s)
    ensures Distinct(s)
  {
    hide Distinct;
  }

  /** The bytes of the chains that lie wholly within the first `n` bytes. */
  ghost function Whole(m: Memory, s: seq<Addr>, n: nat): (w: nat)
    ensures w <= n
  {
    if s == [] || |DataAt(m, s[0])| > n then 0
    else |DataAt(m, s[0])| + Whole(m, s[1..], n - |DataAt(m, s[0])|)
  }

  /** And how many chains that is. */
  ghost function WholeChains(m: Memory, s: seq<Addr>, n: nat): (k: nat)
    ensures k <= |s|
  {
    if s == [] || |DataAt(m, s[0])| > n then 0
    else 1 + WholeChains(m, s[1..], n - |DataAt(m, s[0])|)
  }

  /** The chain has room for `n` bytes more, perhaps after realigning. */
  ghost predicate HasRoom(m: Memory, p: Addr, n: nat) {
    p in m && m[p].Ok() && (n <= m[p].Space() || m[p].ShouldRealign(n))
  }

  /** Moving `n` bytes out of the chains `s` to a buffer whose last chain is
      `last` takes no new chain: what is left after the whole chains is nothing,
      or fits into the last chain moved, or else into `last`. */
  ghost predicate RestFits(m: Memory, s: seq<Addr>, last: Addr, n: nat) {
    var k, left := WholeChains(m, s, n), n - Whole(m, s, n);
    left == 0 || HasRoom(m, if k == 0 then last else s[k - 1], left)
  }

  /** The walk of evbuffer_remove_buffer stops after exactly those chains. */
  lemma {:induction false} WholeIs(m: Memory, s: seq<Addr>, k: nat, n: nat)
    requires k < |s| && |Flat(m, s[..k])| <= n < |Flat(m, s[..k])| + |DataAt(m, s[k])|
    ensures Whole(m, s, n) == |Flat(m, s[..k])| && WholeChains(m, s, n) == k
  {
    hide DataAt, Flat;
    if k == 0 {
      assert s[..0] == [];
      FlatNil(m);
    } else {
      assert s[..k] == [s[0]] + s[1..][..k - 1];
      FlatAppend(m, [s[0]], s[1..][..k - 1]);
      FlatSingle(m, s[0]);
      assert s[k] == s[1..][k - 1];
      WholeIs(m, s[1..], k - 1, n - |DataAt(m, s[0])|);
    }
  }

  lemma ElemsApart(s: seq<Addr>, p: Addr)
    requires p !in Elems(s)
    ensures p !in s
  {
  }

  /** Three buffers in one memory; the chains of the first are freed. */
  lemma FreedBoth(m: Memory, d: Evb, sd: seq<Addr>, p: Evb, sp: seq<Addr>, q: Evb, sq: seq<Addr>)
    requires Inv(m, d, sd) && Inv(m, p, sp) && Inv(m, q, sq)
    requires Elems(sd) !! Elems(sp) && Elems(sd) !! Elems(sq) && Elems(sp) !! Elems(sq)
    ensures var m1 := m - Elems(sd);
      && Inv(m1, p, sp) && Flat(m1, sp) == Flat(m, sp)
      && Inv(m1, q, sq) && Flat(m1, sq) == Flat(m, sq)
      && (forall a :: a in Elems(sq) ==> a in m && a in m1 && m1[a] == m[a])
      && Frame(m, Elems(sp) + Elems(sq) + Elems(sd), m1, Elems(sq) + Elems(sp))
  {
    hide Inv, Shape, Flat, Distinct, Elems, Linked;
    Ends(m, d, sd);
    Ends(m, p, sp);
    Ends(m, q, sq);
    var m1 := m - Elems(sd);
    FreeFrame(m, Elems(sd));
    Unaffected(m, p, sp, Elems(sd), m1, {});
    Unaffected(m, q, sq, Elems(sd), m1, {});
    FrameBeside(m, Elems(sd), m1, {}, Elems(sp) + Elems(sq));
    assert Elems(sd) + (Elems(sp) + Elems(sq)) == Elems(sp) + Elems(sq) + Elems(sd);
    assert {} + (Elems(sp) + Elems(sq)) == Elems(sq) + Elems(sp);
  }

  lemma FreeFrame(m: Memory, own: set<Addr>)
    requires own <= m.Keys
    ensures Frame(m, own, m - own, {})
  {
  }

  /** Three buffers in one memory; the second is linked behind the first. */
  lemma JoinBoth(m: Memory, d: Evb, sd: seq<Addr>, p: Evb, sp: seq<Addr>, q: Evb, sq: seq<Addr>, m1: Memory)
    requires Inv(m, d, sd) && Inv(m, p, sp) && Inv(m, q, sq) && Joins(m, sd, sp, m1)
    requires d.totalLen > 0 && p.totalLen > 0 && d.totalLen + p.totalLen <= EV_SIZE_MAX
    requires Elems(sd) !! Elems(sp) && Elems(sd) !! Elems(sq) && Elems(sp) !! Elems(sq)
    ensures Inv(m1, Joined(d, p), sd + sp) && Flat(m1, sd + sp) == Flat(m, sd) + Flat(m, sp)
    ensures Inv(m1, q, sq) && Flat(m1, sq) == Flat(m, sq)
    ensures forall a :: a in Elems(sq) ==> a in m && a in m1 && m1[a] == m[a]
    ensures Elems(sd + sp) == Elems(sd) + Elems(sp)
    ensures Frame(m, Elems(sp) + Elems(sq) + Elems(sd), m1, Elems(sq) + Elems(sd + sp))
  {
    hide Inv, Shape, Flat, Distinct, Elems, Linked, Frame, Joins;
    Join(m, d, sd, p, sp, m1);
    JoinFrame(m, sd, sp, m1);
    Ends(m, q, sq);
    Ends(m1, Joined(d, p), sd + sp);
    Unaffected(m, q, sq, Elems(sd) + Elems(sp), m1, Elems(sd + sp));
    FrameBeside(m, Elems(sd) + Elems(sp), m1, Elems(sd + sp), Elems(sq));
    assert Elems(sd) + Elems(sp) + Elems(sq) == Elems(sp) + Elems(sq) + Elems(sd);
    assert Elems(sd + sp) + Elems(sq) == Elems(sq) + Elems(sd + sp);
  }

  /** The part of evbuffer_remove_buffer that relinks the first `k` chains of
      the source, up to `previous`, behind the destination. */
  method TakeChains(m0: Memory, r0: Evb, ghost sr0: seq<Addr>, d0: Evb, ghost sd0: seq<Addr>,
                    ghost k: nat, previous: Addr, nread: nat)
    returns (m: Memory, d: Evb, ghost sd: seq<Addr>)
    requires Both(m0, r0, sr0, d0, sd0)
    requires 0 < k < |sr0| && previous == sr0[k - 1] && 0 < nread == |Flat(m0, sr0[..k])|
    ensures nread <= r0.totalLen
    ensures Both(m, Dropped(r0, sr0[k], k + 1 == |sr0|, nread), sr0[k..], d, sd)
    ensures d.freezeStart == d0.freezeStart && d.freezeEnd == d0.freezeEnd
    ensures Flat(m, sd) == Flat(m0, sd0) + Flat(m0, sr0[..k])
    ensures Flat(m, sr0[k..]) == Flat(m0, sr0[k..])
    ensures d.last == previous && previous in m0 && previous in m && m[previous] == m0[previous].(next := NULL)
    ensures sr0[k] in m0 && sr0[k] in m && m[sr0[k]] == m0[sr0[k]]
    ensures Frame(m0, Elems(sr0) + Elems(sd0), m, Elems(sr0[k..]) + Elems(sd))
  {
    hide Inv, Shape, Linked, Flat, Frame, Elems, Distinct;
    m, d := m0, d0;
    Ends(m, r0, sr0);
    Ends(m, d, sd0);
    Walk(m, r0, sr0, k - 1);
    ghost var mc := m0[previous := m0[previous].(next := NULL)];
    CutInv(m0, r0, sr0, k, mc);
    ghost var p := FrontPart(sr0, k, nread);
    ghost var rest := Dropped(r0, sr0[k], k + 1 == |sr0|, nread);
    Ends(mc, p, sr0[..k]);
    Walk(m, r0, sr0, k);
    ElemIn(sr0, k - 1);
    ElemIn(sr0[k..], 0);
    ElemIn(sr0[..k], k - 1);
    InvStore(m0, d0, sd0, previous, mc[previous]);
    ghost var own := Elems(sr0) + Elems(sd0);
    assert Frame(m0, own, mc, own) by {
      FrameBeside(m0, Elems(sr0), mc, Elems(sr0), Elems(sd0));
    }
    var ch: Slot;
    m, d, ch := FreeTrailingEmptyChains(m, d, sd0);
    if d.first == NULL {
      d := d.(first := r0.first);
    } else {
      m, d := Assign(m, d, ch, r0.first);
    }
    d := d.(last := previous);
    if d0.totalLen == 0 {
      ElemsApart(sd0, previous);
      m := m[previous := m[previous].(next := NULL)];
      assert m == mc - Elems(sd0);
      FreedBoth(mc, d0, sd0, p, sr0[..k], rest, sr0[k..]);
      sd := sr0[..k];
      AllFull(m, p, sd);
      Ends(m, p, sd);
      FrameTrans(m0, own, mc, own, m, Elems(sr0[k..]) + Elems(sd));
      d := AdvanceLastWithData(m, d, sd, 0);
      d := d.(totalLen := d.totalLen + nread);
      CopiedInv(m, d0, p, sd);
      assert d == Copied(d0, p);
      assert Flat(m0, sd0) == [];
    } else {
      assert d0.last != previous;
      m := m[previous := m[previous].(next := NULL)];
      assert m == mc[d0.last := mc[d0.last].(next := sr0[0])];
      assert Joins(mc, sd0, sr0[..k], m) by {
        Ends(mc, d0, sd0);
      }
      JoinBoth(mc, d0, sd0, p, sr0[..k], rest, sr0[k..], m);
      sd := sd0 + sr0[..k];
      AllFull(m, Joined(d0, p), sd);
      Ends(m, Joined(d0, p), sd);
      FrameTrans(m0, own, mc, own, m, Elems(sr0[k..]) + Elems(sd));
      d := AdvanceLastWithData(m, d, sd, |sd0| - 1);
      d := d.(totalLen := d.totalLen + nread);
      assert d == Joined(d0, p);
    }
  }

  /** The last part of evbuffer_remove_buffer: the bytes that do not make up a
      whole chain are added to the destination and dropped from the source. */
  method CopyRest(m0: Memory, ghost r: Evb, ghost sr: seq<Addr>, d0: Evb, ghost sd0: seq<Addr>, chain: Addr,
      left: nat, canAlloc: bool)
    returns (m: Memory, d: Evb, ghost sd: seq<Addr>, ghost lost: nat)
    requires Both(m0, r, sr, d0, sd0) && !d0.freezeEnd
    requires sr != [] && chain == sr[0] && chain in m0 && m0[chain].Ok() && left < m0[chain].off
    ensures left <= r.totalLen && Both(m, r.(totalLen := r.totalLen - left), sr, d, sd)
    ensures d.freezeStart == d0.freezeStart && d.freezeEnd == d0.freezeEnd
    ensures Frame(m0, Elems(sr) + Elems(sd0), m, Elems(sr) + Elems(sd))
    ensures Flat(m, sr) == Flat(m0, sr)[left..]
    ensures lost == if canAlloc || left == 0 || HasRoom(m0, d0.last, left) then 0 else left
    ensures Flat(m, sd) == Flat(m0, sd0) + Flat(m0, sr)[..left - lost]
  {
    hide Inv, Shape, Linked, Flat, Frame, Elems, Distinct, Chain.Data, DataAt, Drained;
    Ends(m0, r, sr);
    Ends(m0, d0, sd0);
    ShrinkFirst(m0, r, sr, left);
    FirstBytes(m0, r, sr, left);
    var result: int;
    m, d, sd, result := Add(m0, d0, sd0, m0[chain].Data()[..left], canAlloc);
    lost := if result == 0 then 0 else left;
    Ends(m, d, sd);
    ghost var m1 := m;
    Unaffected(m0, r, sr, Elems(sd0), m1, Elems(sd));
    FrameBeside(m0, Elems(sd0), m1, Elems(sd), Elems(sr));
    m := m[chain := Drained(m[chain], left)];
    ShrinkFirst(m1, r, sr, left);
    InvStore(m1, d, sd, chain, m[chain]);
    FrameBeside(m1, Elems(sr), m, Elems(sr), Elems(sd));
    assert Elems(sd0) + Elems(sr) == Elems(sr) + Elems(sd0);
    assert Elems(sd) + Elems(sr) == Elems(sr) + Elems(sd);
    FrameTrans(m0, Elems(sr) + Elems(sd0), m1, Elems(sr) + Elems(sd), m, Elems(sr) + Elems(sd));
  }

  /** The moved bytes, given that `front` and then `left - lost` more reached
      the destination. */
  lemma MoveAlgebra(whole: seq<byte>, front: seq<byte>, rest: seq<byte>, dst0: seq<byte>,
                    src: seq<byte>, dst: seq<byte>, left: nat, lost: nat, n: nat)
    requires whole == front + rest && lost <= left <= |rest| && n == |front| + left
    requires src == rest[left..] && dst == (dst0 + front) + rest[..left - lost]
    ensures n <= |whole| && src == whole[n..] && dst == dst0 + whole[..n - lost]
  {
    assert whole[..|front| + left - lost] == front + rest[..left - lost];
  }

  /** The loop of evbuffer_remove_buffer: the chains that lie wholly within the
      first `datlen` bytes are passed over. */
  method PassWhole(m: Memory, r0: Evb, ghost sr0: seq<Addr>, datlen: nat)
    returns (r: Evb, chain: Addr, previous: Addr, nread: nat, left: nat, ghost k: nat)
    requires Inv(m, r0, sr0) && datlen < r0.totalLen
    ensures k < |sr0| && chain == sr0[k] && chain in m && m[chain].Ok() && left < m[chain].off
    ensures k > 0 ==> previous == sr0[k - 1]
    ensures nread == |Flat(m, sr0[..k])| == Whole(m, sr0, datlen) && nread + left == datlen
    ensures k == WholeChains(m, sr0, datlen)
    ensures k == 0 <==> nread == 0
    ensures r == r0.(lastWithDatap := if k + 1 == |sr0| then FirstSlot else r0.lastWithDatap)
    ensures Flat(m, sr0) == Flat(m, sr0[..k]) + Flat(m, sr0[k..])
  {
    hide Inv, Shape, Linked, Flat, Elems, Distinct, Chain.Data, DataAt, Whole, WholeChains;
    Ends(m, r0, sr0);
    r, left, nread, k := r0, datlen, 0, 0;
    chain, previous := r.first, r.first;
    assert sr0[..0] == [];
    FlatNil(m);
    Walk(m, r0, sr0, 0);
    while m[chain].off <= left
      invariant k < |sr0| && chain == sr0[k] && chain in m && m[chain].Ok()
      invariant previous == if k == 0 then chain else sr0[k - 1]
      invariant nread == |Flat(m, sr0[..k])| && nread + left == datlen
      invariant k == 0 <==> nread == 0
      invariant r == r0.(lastWithDatap := if k + 1 == |sr0| then FirstSlot else r0.lastWithDatap)
      decreases |sr0| - k
    {
      Walk(m, r0, sr0, k);
      FullAt(m, r0, sr0, k);
      Walk(m, r0, sr0, k + 1);
      DpAlive(m, r0, sr0, k);
      assert chain != Deref(m, r, r.lastWithDatap);
      nread := nread + m[chain].off;
      left := left - m[chain].off;
      previous := chain;
      if r.lastWithDatap == NextOf(chain) {
        r := r.(lastWithDatap := FirstSlot);
      }
      chain := m[chain].next;
      k := k + 1;
    }
    Walk(m, r0, sr0, k);
    WholeIs(m, sr0, k, datlen);
  }

  lemma FirstAndTotal(m: Memory, b: Evb, s: seq<Addr>)
    requires Inv(m, b, s)
    ensures b.totalLen == |Flat(m, s)| && (s != [] ==> b.first == s[0])
  {
  }

  lemma RestFitsIs(m: Memory, s: seq<Addr>, last: Addr, n: nat, k: nat, left: nat)
    requires k == WholeChains(m, s, n) && left == n - Whole(m, s, n)
    ensures RestFits(m, s, last, n) <==> left == 0 || HasRoom(m, if k == 0 then last else s[k - 1], left)
  {
  }

  /** Where a chain leads does not matter to its room. */
  lemma SameRoom(m0: Memory, m: Memory, p: Addr, n: nat)
    requires p in m0 && p in m && m[p] == m0[p].(next := NULL)
    ensures HasRoom(m, p, n) <==> HasRoom(m0, p, n)
  {
  }

  /** The whole chains, if there are any. */
  method TakeWhole(m0: Memory, r0: Evb, ghost sr0: seq<Addr>, d0: Evb, ghost sd0: seq<Addr>,
                   ghost k: nat, chain: Addr, previous: Addr, nread: nat, ghost left: nat)
    returns (m: Memory, d: Evb, ghost sd: seq<Addr>)
    requires Both(m0, r0, sr0, d0, sd0) && k < |sr0| && chain == sr0[k] && chain in m0
    requires nread == |Flat(m0, sr0[..k])| && (k == 0 <==> nread == 0) && (k > 0 ==> previous == sr0[k - 1])
    ensures nread <= r0.totalLen && Both(m, Dropped(r0, chain, k + 1 == |sr0|, nread), sr0[k..], d, sd)
    ensures d.freezeStart == d0.freezeStart && d.freezeEnd == d0.freezeEnd
    ensures Flat(m, sd) == Flat(m0, sd0) + Flat(m0, sr0[..k]) && Flat(m, sr0[k..]) == Flat(m0, sr0[k..])
    ensures chain in m && m[chain] == m0[chain]
    ensures HasRoom(m, d.last, left) <==> HasRoom(m0, if k == 0 then d0.last else sr0[k - 1], left)
    ensures Frame(m0, Elems(sr0) + Elems(sd0), m, Elems(sr0[k..]) + Elems(sd))
  {
    hide Inv, Shape, Linked, Flat, Frame, Elems, Distinct, Chain.Data, DataAt, HasRoom;
    Ends(m0, r0, sr0);
    Ends(m0, d0, sd0);
    if nread > 0 {
      m, d, sd := TakeChains(m0, r0, sr0, d0, sd0, k, previous, nread);
      SameRoom(m0, m, previous, left);
    } else {
      m, d, sd := m0, d0, sd0;
      assert sr0[0..] == sr0 && sr0[..0] == [];
      FlatNil(m0);
      assert Flat(m0, sd0) == Flat(m0, sd0) + Flat(m0, sr0[..0]);
      SameBuffer(r0, sr0, m0);
      FrameRefl(m0, Elems(sr0) + Elems(sd0));
    }
  }

  /** evbuffer_remove_buffer when the source keeps some of its bytes. */
  method RemovePart(m0: Memory, r0: Evb, ghost sr0: seq<Addr>, d0: Evb, ghost sd0: seq<Addr>, datlen: nat,
      canAlloc: bool)
    returns (m: Memory, r: Evb, ghost sr: seq<Addr>, d: Evb, ghost sd: seq<Addr>, ghost lost: nat)
    requires Both(m0, r0, sr0, d0, sd0) && datlen < r0.totalLen && !d0.freezeEnd
    ensures Both(m, r, sr, d, sd)
    ensures r.freezeStart == r0.freezeStart && r.freezeEnd == r0.freezeEnd
    ensures d.freezeStart == d0.freezeStart && d.freezeEnd == d0.freezeEnd
    ensures Frame(m0, Elems(sr0) + Elems(sd0), m, Elems(sr) + Elems(sd))
    ensures Flat(m, sr) == Flat(m0, sr0)[datlen..]
    ensures lost <= datlen && Flat(m, sd) == Flat(m0, sd0) + Flat(m0, sr0)[..datlen - lost]
    ensures lost == if canAlloc || RestFits(m0, sr0, d0.last, datlen) then 0 else datlen - Whole(m0, sr0, datlen)
  {
    hide Inv, Shape, Linked, Flat, Frame, Elems, Distinct, Chain.Data, DataAt, Drained, Whole, WholeChains, HasRoom,
         RestFits;
    FirstAndTotal(m0, r0, sr0);
    ghost var own := Elems(sr0) + Elems(sd0);
    var left: nat, nread: nat, chain: Addr, previous: Addr;
    ghost var k: nat;
    r, chain, previous, nread, left, k := PassWhole(m0, r0, sr0, datlen);
    if nread > 0 {
      r := r.(first := chain);
    }
    m, d, sd := TakeWhole(m0, r0, sr0, d0, sd0, k, chain, previous, nread, left);
    ghost var m1, sd1 := m, sd;
    sr := sr0[k..];
    RestFitsIs(m0, sr0, d0.last, datlen, k, left);
    m, d, sd, lost := CopyRest(m, Dropped(r0, chain, k + 1 == |sr0|, nread), sr, d, sd, chain, left, canAlloc);
    r := r.(totalLen := r.totalLen - (nread + left));
    FrameTrans(m0, own, m1, Elems(sr) + Elems(sd1), m, Elems(sr) + Elems(sd));
    MoveAlgebra(Flat(m0, sr0), Flat(m0, sr0[..k]), Flat(m0, sr), Flat(m0, sd0), Flat(m, sr), Flat(m, sd), left, lost, datlen);
  }

  /** evbuffer_remove_buffer, for two different buffers. `lost` counts the
      bytes that left the source without reaching the destination, because
      the allocator failed in the inner evbuffer_add, whose result is ignored. */
  method RemoveBuffer(m0: Memory, r0: Evb, ghost sr0: seq<Addr>, d0: Evb, ghost sd0: seq<Addr>, datlen: nat,
      canAlloc: bool)
    returns (m: Memory, r: Evb, ghost sr: seq<Addr>, d: Evb, ghost sd: seq<Addr>, result: int, ghost lost: nat)
    requires Both(m0, r0, sr0, d0, sd0)
    ensures Both(m, r, sr, d, sd)
    ensures r.freezeStart == r0.freezeStart && r.freezeEnd == r0.freezeEnd
    ensures d.freezeStart == d0.freezeStart && d.freezeEnd == d0.freezeEnd
    ensures Frame(m0, Elems(sr0) + Elems(sd0), m, Elems(sr) + Elems(sd))
    ensures datlen > 0 && (d0.freezeEnd || r0.freezeStart) ==>
      result == -1 && m == m0 && r == r0 && sr == sr0 && d == d0 && sd == sd0
    ensures datlen == 0 || !(d0.freezeEnd || r0.freezeStart) ==>
      && result == (if datlen <= r0.totalLen then datlen else r0.totalLen)
      && Flat(m, sr) == Flat(m0, sr0)[result..]
      && lost <= result && Flat(m, sd) == Flat(m0, sd0) + Flat(m0, sr0)[..result - lost]
      && lost == if canAlloc || datlen >= r0.totalLen || RestFits(m0, sr0, d0.last, datlen) then 0
                 else datlen - Whole(m0, sr0, datlen)
  {
    hide Inv, Shape, Linked, Flat, Frame, Elems, Distinct, Chain.Data, DataAt, Drained, Whole, WholeChains;
    m, r, sr, d, sd, result, lost := m0, r0, sr0, d0, sd0, 0, 0;
    Ends(m, r, sr);
    Ends(m, d, sd);
    ghost var own := Elems(sr0) + Elems(sd0);
    FrameRefl(m, own);
    if datlen == 0 {
      return;
    }
    if d.freezeEnd || r.freezeStart {
      result := -1;
      return;
    }
    if datlen >= r.totalLen {
      result := r.totalLen;
      var ignored: int;
      m, d, sd, r, sr, ignored := AddBuffer(m, d, sd, r, sr);
      assert Elems(sd0) + Elems(sr0) == own && Elems(sd) + Elems(sr) == Elems(sr) + Elems(sd);
      return;
    }
    m, r, sr, d, sd, lost := RemovePart(m, r, sr, d, sd, datlen, canAlloc);
    result := datlen;
  }

  /** Nothing dropped is nothing changed. */
  lemma SameBuffer(b: Evb, s: seq<Addr>, m: Memory)
    requires Inv(m, b, s) && s != []
    ensures Dropped(b, s[0], |s| == 1, 0) == b
  {
    hide Flat, Distinct;
  }

  lemma FullAt(m: Memory, b: Evb, s: seq<Addr>, k: nat)
    requires Inv(m, b, s) && k < |s| && b.totalLen > 0
    ensures s[k] in m && m[s[k]].off > 0
  {
    hide Flat, Distinct;
    AllFull(m, b, s);
  }

  /** Bytes are lost: of a chain with two bytes one is moved to an empty buffer,
      and there is no memory for a chain to hold it. */
  lemma LossExists()
    ensures var c := Chain(NULL, 0, 2, seq(MIN_BUFFER_SIZE - EVBUFFER_CHAIN_SIZE, _ => 7));
      var m, src := map[At(1) := c], Evb(At(1), At(1), FirstSlot, 2, false, false);
      && Both(m, src, [At(1)], Evb(NULL, NULL, FirstSlot, 0, false, false), [])
      && !RestFits(m, [At(1)], NULL, 1) && 1 - Whole(m, [At(1)], 1) == 1
  {
    var c := Chain(NULL, 0, 2, seq(MIN_BUFFER_SIZE - EVBUFFER_CHAIN_SIZE, _ => 7));
    var m := map[At(1) := c];
    FlatSingle(m, At(1));
    assert DataAt(m, At(1)) == c.Data();
    assert Flat(m, []) == [];
  }
}
