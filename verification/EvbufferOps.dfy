/** The operations of an evbuffer, statement by statement, on explicit memory:
    a byte queue kept as a linked list of chains, with three pointers into the
    list that every operation has to repair. */
module EvbufferOps {
  import opened EvbufferStore
  import opened Lists

  /** Where a `struct evbuffer_chain *` is stored: in `buf->first`, or in the
      `next` field of a chain. This is what a pointer to a pointer designates. */
  datatype Slot = FirstSlot | NextOf(chain: Addr)

  /** The slot that points at element `i` of the list `s`. */
  ghost function SlotAt(s: seq<Addr>, i: nat): Slot
    requires i <= |s|
  {
    if i == 0 then FirstSlot else NextOf(s[i - 1])
  }

  ghost function Head(s: seq<Addr>): Addr {
    if s == [] then NULL else s[0]
  }

  ghost function Tail(s: seq<Addr>): Addr {
    if s == [] then NULL else s[|s| - 1]
  }

  /** The list from `first` to `last` is `s`, it ends there, no chain is empty
      except perhaps a sole one, and `dp` designates the last chain. */
  ghost predicate Shape(m: Memory, s: seq<Addr>, first: Addr, last: Addr, dp: Slot) {
    && NULL !in m
    && Linked(m, s)
    && first == Head(s) && last == Tail(s)
    && (s != [] ==> m[s[|s| - 1]].next == NULL)
    && (|s| > 1 ==> forall i :: 0 <= i < |s| ==> m[s[i]].off > 0)
    && dp == SlotAt(s, if s == [] then 0 else |s| - 1)
  }

  /** `m1` is `m` with the fresh chain linked behind the last chain of `s`. */
  ghost predicate Links(m: Memory, s: seq<Addr>, chain: Addr, m1: Memory) {
    && s != [] && Linked(m, s)
    && chain in m && chain !in Elems(s) && m[chain].Ok() && m[chain].next == NULL
    && m1 == m[Tail(s) := m[Tail(s)].(next := chain)]
  }

  lemma LinksLinked(m: Memory, s: seq<Addr>, chain: Addr, m1: Memory)
    requires Links(m, s, chain, m1)
    ensures Linked(m1, s + [chain])
  {
    hide Distinct;
    DistinctSnoc(s, chain);
    DistinctPairs(s);
  }

  lemma LinksFlat(m: Memory, s: seq<Addr>, chain: Addr, m1: Memory)
    requires Links(m, s, chain, m1)
    ensures Flat(m1, s + [chain]) == Flat(m, s) + m[chain].Data()
  {
    hide Flat, Distinct;
    FlatRelink(m, s, Tail(s), chain);
    FlatAppend(m1, s, [chain]);
    FlatSingle(m1, chain);
  }

  lemma LinksFrame(m: Memory, s: seq<Addr>, chain: Addr, m1: Memory)
    requires Links(m, s, chain, m1)
    ensures Frame(m, Elems(s) + {chain}, m1, Elems(s + [chain]))
  {
    hide Distinct;
    assert Elems(s + [chain]) == Elems(s) + {chain};
  }

  /** Linking `chain` behind the last chain of a list without empty chains. */
  lemma LinkBehind(m: Memory, s: seq<Addr>, first: Addr, last: Addr, dp: Slot, chain: Addr, m1: Memory)
    requires Shape(m, s, first, last, dp) && Links(m, s, chain, m1)
    requires m[last].off > 0 && m[chain].off > 0
    ensures Shape(m1, s + [chain], first, chain, NextOf(last))
    ensures Flat(m1, s + [chain]) == Flat(m, s) + m[chain].Data()
    ensures Frame(m, Elems(s) + {chain}, m1, Elems(s + [chain]))
  {
    hide Flat, Frame, Distinct;
    LinksFrame(m, s, chain, m1);
    LinksLinked(m, s, chain, m1);
    LinksFlat(m, s, chain, m1);
  }

  /** A list of one chain. */
  lemma SoleChain(m: Memory, chain: Addr)
    requires NULL !in m && chain in m && m[chain].Ok() && m[chain].next == NULL
    ensures Shape(m, [chain], chain, chain, FirstSlot)
    ensures Flat(m, [chain]) == m[chain].Data()
  {
    FlatSingle(m, chain);
    assert Distinct([chain]) by {
      assert [chain][1..] == [];
    }
  }

  /** Freeing a whole list and putting `chain` in its place. */
  lemma ReplaceFrame(m: Memory, s: seq<Addr>, chain: Addr)
    requires Linked(m, s) && chain in m && chain !in Elems(s)
    ensures Frame(m, Elems(s) + {chain}, m - Elems(s), Elems([chain]))
  {
    assert Elems([chain]) == {chain};
  }

  /** The pointers and counters of struct evbuffer. */
  datatype Evb = Evb(first: Addr, last: Addr, lastWithDatap: Slot, totalLen: nat,
                     freezeStart: bool, freezeEnd: bool)

  /** Representation invariant: in memory `m`, the buffer `b` is the list `s`. */
  ghost predicate Inv(m: Memory, b: Evb, s: seq<Addr>) {
    && Shape(m, s, b.first, b.last, b.lastWithDatap)
    && b.totalLen == |Flat(m, s)| <= EV_SIZE_MAX
  }

  /** What an operation may rely on without looking at the whole list. */
  lemma Ends(m: Memory, b: Evb, s: seq<Addr>)
    requires Inv(m, b, s)
    ensures NULL !in m && Linked(m, s) && Elems(s) <= m.Keys
    ensures b.totalLen == |Flat(m, s)| <= EV_SIZE_MAX
    ensures b.lastWithDatap == SlotAt(s, if s == [] then 0 else |s| - 1)
    ensures if s == [] then b.first == b.last == NULL && b.totalLen == 0
            else
              && b.first == s[0] && b.first in m && m[b.first].Ok()
              && b.last == s[|s| - 1] && b.last in m && m[b.last].Ok() && m[b.last].next == NULL
              && b.first in Elems(s) && b.last in Elems(s)
  {
    hide Flat, Distinct;
    FlatNil(m);
  }

  /** Storing a new value `c` in chain number `k` of the list. */
  ghost predicate Touches(m: Memory, s: seq<Addr>, k: nat, c: Chain, m1: Memory) {
    && Linked(m, s) && k < |s|
    && c.Ok() && c.next == m[s[k]].next
    && m1 == m[s[k] := c]
  }

  lemma TouchesLinked(m: Memory, s: seq<Addr>, k: nat, c: Chain, m1: Memory)
    requires Touches(m, s, k, c, m1)
    ensures Linked(m1, s) && Frame(m, Elems(s), m1, Elems(s))
  {
    DistinctPairs(s);
  }

  lemma TouchesFlat(m: Memory, s: seq<Addr>, k: nat, c: Chain, m1: Memory)
    requires Touches(m, s, k, c, m1)
    ensures Flat(m, s) == Flat(m, s[..k]) + m[s[k]].Data() + Flat(m, s[k + 1..])
    ensures Flat(m1, s) == Flat(m, s[..k]) + c.Data() + Flat(m, s[k + 1..])
  {
    hide Flat, Distinct;
    FlatTouch(m, s, k, c);
  }

  lemma TouchesShape(m: Memory, b: Evb, s: seq<Addr>, k: nat, c: Chain, m1: Memory)
    requires Inv(m, b, s) && Touches(m, s, k, c, m1)
    requires c.off >= m[s[k]].off || c.off > 0 || |s| == 1
    ensures Shape(m1, s, b.first, b.last, b.lastWithDatap)
  {
    hide Flat, Distinct, Frame;
    TouchesLinked(m, s, k, c, m1);
  }

  lemma ShapeOutside(m: Memory, b: Evb, s: seq<Addr>, m1: Memory)
    requires Shape(m, s, b.first, b.last, b.lastWithDatap) && NULL !in m1
    requires forall a :: a in s ==> a in m1 && m1[a] == m[a]
    ensures Shape(m1, s, b.first, b.last, b.lastWithDatap)
    ensures forall a :: a in s ==> DataAt(m1, a) == DataAt(m, a)
  {
    hide Flat;
  }

  /** What happens to other chains does not matter to this buffer. */
  lemma InvOutside(m: Memory, b: Evb, s: seq<Addr>, m1: Memory)
    requires Inv(m, b, s) && NULL !in m1
    requires forall a :: a in s ==> a in m1 && m1[a] == m[a]
    ensures Inv(m1, b, s) && Flat(m1, s) == Flat(m, s)
  {
    hide Shape, Flat;
    ShapeOutside(m, b, s, m1);
    FlatSame(m, m1, s);
  }

  /** A fresh chain, not yet in the list. */
  lemma InvAlloc(m: Memory, b: Evb, s: seq<Addr>, p: Addr, c: Chain)
    requires Inv(m, b, s) && p !in m && p != NULL
    ensures p !in Elems(s)
    ensures Inv(m[p := c], b, s) && Flat(m[p := c], s) == Flat(m, s)
    ensures Frame(m, Elems(s), m[p := c], Elems(s) + {p})
  {
    hide Flat, Distinct;
    InvOutside(m, b, s, m[p := c]);
    FrameAlloc(m, Elems(s), p, c);
  }

  /** A store into a chain that is not in the list. */
  lemma InvStore(m: Memory, b: Evb, s: seq<Addr>, p: Addr, c: Chain)
    requires Inv(m, b, s) && p in m && p !in Elems(s)
    ensures Inv(m[p := c], b, s) && Flat(m[p := c], s) == Flat(m, s)
    ensures Frame(m, Elems(s) + {p}, m[p := c], Elems(s) + {p})
  {
    hide Flat, Distinct;
    InvOutside(m, b, s, m[p := c]);
    FrameStore(m, Elems(s) + {p}, p, c);
  }

  /** The last chain gets `d` more bytes, at its end. */
  lemma GrowLast(m: Memory, b: Evb, s: seq<Addr>, c: Chain, d: seq<byte>, m1: Memory)
    requires Inv(m, b, s) && s != [] && Touches(m, s, |s| - 1, c, m1)
    requires c.Data() == m[s[|s| - 1]].Data() + d
    requires b.totalLen + |d| <= EV_SIZE_MAX
    ensures Inv(m1, b.(totalLen := b.totalLen + |d|), s)
    ensures Flat(m1, s) == Flat(m, s) + d
    ensures Frame(m, Elems(s), m1, Elems(s))
  {
    hide Flat, Shape, Frame, Linked, Distinct;
    TouchesLinked(m, s, |s| - 1, c, m1);
    TouchesFlat(m, s, |s| - 1, c, m1);
    TouchesShape(m, b, s, |s| - 1, c, m1);
    assert s[|s| - 1 + 1..] == [];
    FlatNil(m);
  }

  /** The first chain gets `d` more bytes, at its start. */
  lemma GrowFirst(m: Memory, b: Evb, s: seq<Addr>, c: Chain, d: seq<byte>, m1: Memory)
    requires Inv(m, b, s) && s != [] && Touches(m, s, 0, c, m1)
    requires c.Data() == d + m[s[0]].Data()
    requires b.totalLen + |d| <= EV_SIZE_MAX
    ensures Inv(m1, b.(totalLen := b.totalLen + |d|), s)
    ensures Flat(m1, s) == d + Flat(m, s)
    ensures Frame(m, Elems(s), m1, Elems(s))
  {
    hide Flat, Shape, Frame, Linked, Distinct;
    TouchesLinked(m, s, 0, c, m1);
    TouchesFlat(m, s, 0, c, m1);
    TouchesShape(m, b, s, 0, c, m1);
    assert s[..0] == [];
    FlatNil(m);
  }

  /** `*slot` */
  function Deref(m: Memory, b: Evb, slot: Slot): Addr
    requires slot.NextOf? ==> slot.chain in m
  {
    match slot
    case FirstSlot => b.first
    case NextOf(c) => m[c].next
  }

  /** `*slot = p` */
  method Assign(m0: Memory, b0: Evb, slot: Slot, p: Addr) returns (m: Memory, b: Evb)
    requires slot.NextOf? ==> slot.chain in m0
    ensures slot.FirstSlot? ==> m == m0 && b == b0.(first := p)
    ensures slot.NextOf? ==> b == b0 && m == m0[slot.chain := m0[slot.chain].(next := p)]
  {
    m, b := m0, b0;
    match slot
    case FirstSlot => b := b.(first := p);
    case NextOf(c) => m := m[c := m[c].(next := p)];
  }

  /** The first bytes of a buffer are those of its first chain. */
  lemma FirstBytes(m: Memory, b: Evb, s: seq<Addr>, n: nat)
    requires Inv(m, b, s) && s != [] && s[0] in m && m[s[0]].Ok() && n <= m[s[0]].off
    ensures n <= |Flat(m, s)| && Flat(m, s)[..n] == m[s[0]].Data()[..n]
  {
    hide Inv, Flat;
    FlatSplit(m, s, 0);
    assert s[0..] == s;
  }

  /** The invariant as evbuffer-internal.h words it: `*last_with_datap` is the
      last chain with data, the first chain if none has data, NULL if there is
      none, and the slot is the one that points at that chain. */
  ghost predicate Documented(m: Memory, b: Evb, s: seq<Addr>) {
    if s == [] then b.lastWithDatap == FirstSlot && b.first == NULL
    else exists i: nat :: i < |s| && Designates(m, b, s, i)
  }

  ghost predicate Designates(m: Memory, b: Evb, s: seq<Addr>, i: nat)
    requires i < |s|
  {
    && b.lastWithDatap == SlotAt(s, i)
    && (i == 0 ==> b.first == s[0])
    && (i > 0 ==> s[i - 1] in m && m[s[i - 1]].next == s[i] && s[i] in m && m[s[i]].off > 0)
    && forall j :: i < j < |s| ==> s[j] in m && m[s[j]].off == 0
  }

  /** An empty chain behind a list whose last chain is not: the designation stays
      where it was. */
  lemma LinkEmpty(m: Memory, b: Evb, s: seq<Addr>, chain: Addr, m1: Memory)
    requires Inv(m, b, s) && b.totalLen > 0 && Links(m, s, chain, m1) && m[chain].off == 0
    requires b.last in m && m[b.last].off > 0
    ensures Linked(m1, s + [chain]) && Flat(m1, s + [chain]) == Flat(m, s)
    ensures Frame(m, Elems(s) + {chain}, m1, Elems(s + [chain]))
    ensures Documented(m1, b.(last := chain), s + [chain])
    ensures !Inv(m1, b.(last := chain), s + [chain])
  {
    hide Flat, Frame, Distinct;
    LinksFrame(m, s, chain, m1);
    LinksLinked(m, s, chain, m1);
    LinksFlat(m, s, chain, m1);
    assert m[chain].Data() == [];
    var i: nat := |s| - 1;
    if i > 0 {
      assert m[s[i - 1]].next == s[i - 1 + 1];
      assert m1[s[i - 1]].next == (s + [chain])[i - 1 + 1];
    }
    assert Designates(m1, b.(last := chain), s + [chain], i);
    assert (s + [chain])[|s|] == chain;
  }

  /** The walk shared by evbuffer_chain_insert and
      evbuffer_free_trailing_empty_chains: the slot of the first empty chain,
      or the slot at the end of the list. */
  method FirstVictim(m: Memory, b: Evb, ghost s: seq<Addr>) returns (ch: Slot)
    requires Inv(m, b, s)
    ensures ch.NextOf? ==> ch.chain in m
    ensures if b.totalLen == 0 then ch == FirstSlot && |s| <= 1
            else ch == SlotAt(s, |s|) && s != [] && m[b.last].off > 0
  {
    ch := b.lastWithDatap;
    ghost var i: nat := if s == [] then 0 else |s| - 1;
    while Deref(m, b, ch) != NULL && m[Deref(m, b, ch)].off != 0
      invariant |s| - 1 <= i <= |s| && ch == SlotAt(s, i)
      invariant i == |s| && s != [] ==> m[b.last].off != 0
      decreases |s| - i
    {
      ch := NextOf(Deref(m, b, ch));
      i := i + 1;
    }
    if s != [] {
      FlatSplit(m, s, |s| - 1);
    }
    if |s| == 1 {
      SoleChain(m, s[0]);
      assert s == [s[0]];
    }
  }

  /** evbuffer_chain_insert: behind the last chain with data, in place of any
      empty one. An empty chain behind chains with data leaves less than the
      invariant, but still the documented one. */
  method ChainInsert(m0: Memory, b0: Evb, ghost s0: seq<Addr>, chain: Addr)
    returns (m: Memory, b: Evb, ghost s: seq<Addr>)
    requires Inv(m0, b0, s0)
    requires chain in m0 && chain !in Elems(s0) && m0[chain].Ok() && m0[chain].next == NULL
    requires b0.totalLen + m0[chain].off <= EV_SIZE_MAX
    ensures Inv(m, b, s) <==> m0[chain].off > 0 || b0.totalLen == 0
    ensures Linked(m, s) && Documented(m, b, s)
    ensures chain in m && m[chain] == m0[chain] && b.last == chain
    ensures Flat(m, s) == Flat(m0, s0) + m0[chain].Data()
    ensures Frame(m0, Elems(s0) + {chain}, m, Elems(s))
    ensures b == b0.(first := b.first, last := b.last, lastWithDatap := b.lastWithDatap, totalLen := b0.totalLen + m0[chain].off)
    ensures if b0.totalLen == 0 then s == [chain] && m == m0 - Elems(s0)
            else b0.last in m0 && s == s0 + [chain] && m == m0[b0.last := m0[b0.last].(next := chain)]
  {
    hide Documented, Inv, Shape, Linked, Flat, Frame, Elems, Distinct;
    m, b, s := m0, b0, s0;
    Ends(m, b, s);
    Lone(m0, b0, s0, chain);
    SlotAlive(m, b, s);
    if Deref(m, b, b.lastWithDatap) == NULL {
      NoChains(m, b, s);
      b := b.(first := chain, last := chain);
      s := [chain];
    } else {
      var ch := FirstVictim(m, b, s);
      AtEnd(m, b, s, ch);
      if Deref(m, b, ch) == NULL {
        ghost var m1 := m;
        m := m[b.last := m[b.last].(next := chain)];
        Behind(m0, b0, s0, chain, m);
        if m[chain].off != 0 {
          b := b.(lastWithDatap := NextOf(b.last));
        }
        s := s0 + [chain];
      } else {
        m := FreeAllChains(m, Deref(m, b, ch), s);
        m, b := Assign(m, b, ch, chain);
        s := [chain];
      }
      b := b.(last := chain);
    }
    b := b.(totalLen := b.totalLen + m[chain].off);
  }

  /** The buffer that ChainInsert leaves behind chains with data. */
  function WithLast(b0: Evb, chain: Addr, off: nat): Evb {
    b0.(last := chain, lastWithDatap := if off > 0 then NextOf(b0.last) else b0.lastWithDatap, totalLen := b0.totalLen + off)
  }

  lemma Behind(m0: Memory, b0: Evb, s0: seq<Addr>, chain: Addr, m: Memory)
    requires Inv(m0, b0, s0) && b0.totalLen > 0 && b0.last in m0 && m0[b0.last].off > 0
    requires chain in m0 && chain !in Elems(s0) && m0[chain].Ok() && m0[chain].next == NULL
    requires b0.totalLen + m0[chain].off <= EV_SIZE_MAX && m == m0[b0.last := m0[b0.last].(next := chain)]
    ensures b0.last != chain
    ensures var b := WithLast(b0, chain, m0[chain].off);
      && (Inv(m, b, s0 + [chain]) <==> m0[chain].off > 0)
      && Linked(m, s0 + [chain]) && Documented(m, b, s0 + [chain])
    ensures Flat(m, s0 + [chain]) == Flat(m0, s0) + m0[chain].Data()
    ensures Frame(m0, Elems(s0) + {chain}, m, Elems(s0 + [chain]))
  {
    hide Flat, Frame, Distinct, Documented;
    FlatNil(m0);
    Ends(m0, b0, s0);
    if m0[chain].off > 0 {
      LinkBehind(m0, s0, b0.first, b0.last, b0.lastWithDatap, chain, m);
      InvDocumented(m, WithLast(b0, chain, m0[chain].off), s0 + [chain]);
    } else {
      LinkEmpty(m0, b0, s0, chain, m);
      assert m0[chain].Data() == [];
    }
  }

  /** A chain that takes the place of a whole list without data. */
  lemma Lone(m0: Memory, b0: Evb, s0: seq<Addr>, chain: Addr)
    requires Inv(m0, b0, s0) && chain in m0 && chain !in Elems(s0) && m0[chain].Ok() && m0[chain].next == NULL
    requires b0.totalLen == 0 ==> m0[chain].off <= EV_SIZE_MAX
    ensures b0.totalLen == 0 ==>
      var m := m0 - Elems(s0);
      var b := b0.(first := chain, last := chain, lastWithDatap := FirstSlot, totalLen := m0[chain].off);
      && chain in m && m[chain] == m0[chain] && Inv(m, b, [chain]) && Linked(m, [chain]) && Documented(m, b, [chain])
      && Flat(m, [chain]) == Flat(m0, s0) + m0[chain].Data()
      && Frame(m0, Elems(s0) + {chain}, m, Elems([chain]))
  {
    hide Frame, Distinct, Documented, Flat;
    if b0.totalLen == 0 {
      var m := m0 - Elems(s0);
      ReplaceFrame(m0, s0, chain);
      SoleChain(m, chain);
      var b := b0.(first := chain, last := chain, lastWithDatap := FirstSlot, totalLen := m0[chain].off);
      InvDocumented(m, b, [chain]);
      assert Flat(m0, s0) == [];
    }
  }

  lemma SlotAlive(m: Memory, b: Evb, s: seq<Addr>)
    requires Inv(m, b, s)
    ensures b.lastWithDatap.NextOf? ==> b.lastWithDatap.chain in m
  {
  }

  lemma NoChains(m: Memory, b: Evb, s: seq<Addr>)
    requires Inv(m, b, s) && (b.lastWithDatap.NextOf? ==> b.lastWithDatap.chain in m) &&
      Deref(m, b, b.lastWithDatap) == NULL
    ensures s == [] && b.totalLen == 0 && m - Elems(s) == m && b.lastWithDatap == FirstSlot
  {
  }

  /** Whether the walk found an empty chain. */
  lemma AtEnd(m: Memory, b: Evb, s: seq<Addr>, ch: Slot)
    requires Inv(m, b, s) && (ch.NextOf? ==> ch.chain in m)
    requires if b.totalLen == 0 then ch == FirstSlot && |s| <= 1
             else ch == SlotAt(s, |s|) && s != [] && b.last in m && m[b.last].off > 0
    ensures b.totalLen == 0 ==> Deref(m, b, ch) == Head(s) && b.lastWithDatap == FirstSlot
    ensures b.totalLen > 0 ==> Deref(m, b, ch) == NULL
  {
  }

  /** evbuffer_add finds room for `n` bytes without a new chain. */
  ghost predicate FitsInLast(m: Memory, b: Evb, n: nat)
    requires b.last != NULL ==> b.last in m && m[b.last].Ok()
  {
    b.last != NULL && (n <= m[b.last].Space() || m[b.last].ShouldRealign(n))
  }

  /** Filling the space behind the data of the last chain with `d`. */
  lemma FillLast(m: Memory, b: Evb, s: seq<Addr>, d: seq<byte>, m1: Memory, b1: Evb)
    requires Inv(m, b, s) && b.last != NULL && b.last in m && m[b.last].Ok()
    requires |d| <= m[b.last].Space() && b.totalLen + |d| <= EV_SIZE_MAX
    requires if |d| > 0 then m1 == m[b.last := Appended(m[b.last], d)] && b1 == b.(totalLen := b.totalLen + |d|)
             else m1 == m && b1 == b
    ensures Inv(m1, b1, s) && Flat(m1, s) == Flat(m, s) + d
    ensures Frame(m, Elems(s), m1, Elems(s))
  {
    hide Inv, Shape, Linked, Flat, Frame, Elems, Chain.Data, Appended;
    Ends(m, b, s);
    if |d| > 0 {
      GrowLast(m, b, s, m1[b.last], d, m1);
    } else {
      FrameRefl(m, Elems(s));
    }
  }

  /** The new chain has twice the room of the last one, unless that is large
      already, or as much as the data needs, rounded up by ChainNew. */
  ghost predicate Roomy(last: nat, datlen: nat, size: nat) {
    var usual := if last <= EVBUFFER_CHAIN_MAX_AUTO_SIZE / 2 then 2 * last else last;
    var need := (if datlen > usual then datlen else usual) + EVBUFFER_CHAIN_SIZE;
    if need < EVBUFFER_CHAIN_MAX / 2 then LeastDoubling(size + EVBUFFER_CHAIN_SIZE, need) else size + EVBUFFER_CHAIN_SIZE == need
  }

  /** The allocation in evbuffer_add of a chain to go behind this one. */
  method ChainBehind(m0: Memory, chain: Addr, datlen: nat, canAlloc: bool) returns (m: Memory, tmp: Addr)
    requires NULL !in m0 && chain in m0 && m0[chain].Ok()
    ensures tmp == NULL <==> !(canAlloc && datlen <= EVBUFFER_CHAIN_MAX - EVBUFFER_CHAIN_SIZE)
    ensures tmp == NULL ==> m == m0
    ensures tmp != NULL ==>
      && tmp in m && tmp !in m0 && m == m0[tmp := m[tmp]]
      && m[tmp].Ok() && m[tmp].off == 0 && m[tmp].misalign == 0 && m[tmp].next == NULL
      && datlen <= |m[tmp].buffer| && Roomy(|m0[chain].buffer|, datlen, |m[tmp].buffer|)
  {
    hide LeastDoubling;
    var toAlloc := |m0[chain].buffer|;
    if toAlloc <= EVBUFFER_CHAIN_MAX_AUTO_SIZE / 2 {
      toAlloc := 2 * toAlloc;
    }
    if datlen > toAlloc {
      toAlloc := datlen;
    }
    m, tmp := ChainNew(m0, toAlloc, canAlloc);
  }

  /** evbuffer_add, once the data does not fit in the last chain: fill it up
      and put the rest in a new chain. */
  method AddNewChain(m0: Memory, b0: Evb, ghost s0: seq<Addr>, data: seq<byte>, canAlloc: bool)
    returns (m: Memory, b: Evb, ghost s: seq<Addr>, result: int)
    requires Inv(m0, b0, s0) && b0.last != NULL
    requires m0[b0.last].Space() < |data| <= EV_SIZE_MAX - b0.totalLen
    ensures Inv(m, b, s) && Frame(m0, Elems(s0), m, Elems(s))
    ensures b.freezeStart == b0.freezeStart && b.freezeEnd == b0.freezeEnd
    ensures result == if canAlloc && |data| <= EVBUFFER_CHAIN_MAX - EVBUFFER_CHAIN_SIZE then 0 else -1
    ensures result == 0 ==> Flat(m, s) == Flat(m0, s0) + data
    ensures result == 0 ==> Spilled(m0, b0, s0, data, m, b, s)
    ensures result == 0 ==> b.last in m && Roomy(|m0[b0.last].buffer|, |data|, |m[b.last].buffer|)
    ensures result == -1 ==> m == m0 && b == b0 && s == s0
  {
    hide Inv, Shape, Linked, Flat, Frame, Elems, Chain.Data, Appended, Aligned, Documented, Roomy, Spilled;
    m, b, s, result := m0, b0, s0, -1;
    Ends(m, b, s);
    var chain := b.last;
    var remain := m[chain].Space();
    var tmp: Addr;
    FrameRefl(m, Elems(s));
    m, tmp := ChainBehind(m, chain, |data|, canAlloc);
    if tmp == NULL {
      return;
    }
    ghost var m1, own := m, Elems(s0);
    InvAlloc(m0, b0, s0, tmp, m1[tmp]);
    Ends(m1, b0, s0);
    if remain > 0 {
      m := m[chain := Appended(m[chain], data[..remain])];
      b := b.(totalLen := b.totalLen + remain);
    }
    FillLast(m1, b0, s0, data[..remain], m, b);
    SplitAppend(Flat(m0, s0), data, remain);
    ghost var m2, b2 := m, b;
    FrameMore(m1, own, m2, own, tmp);
    m := m[tmp := Appended(m[tmp], data[remain..])];
    InvStore(m2, b2, s0, tmp, m[tmp]);
    ghost var m3 := m;
    m, b, s := ChainInsert(m, b, s, tmp);
    FrameTrans(m0, own, m1, own + {tmp}, m2, own + {tmp});
    FrameTrans(m0, own, m2, own + {tmp}, m3, own + {tmp});
    FrameTrans(m0, own, m3, own + {tmp}, m, Elems(s));
    SpilledIs(m0, b0, s0, data, m3, tmp, m, b, s);
    result := 0;
  }

  /** The last chain was filled up, and a new one behind it holds the rest; only
      a last chain without data or room is replaced. */
  ghost predicate Spilled(m0: Memory, b0: Evb, s0: seq<Addr>, data: seq<byte>, m: Memory, b: Evb, s: seq<Addr>) {
    && b0.last in m0 && m0[b0.last].Ok() && b.last in m && m[b.last].Ok()
    && var last, remain := m0[b0.last], m0[b0.last].Space();
       && remain <= |data| && m[b.last].Data() == data[remain..]
       && if b0.totalLen + remain == 0 then s == [b.last]
          else s == s0 + [b.last] && b0.last in m && m[b0.last].Ok() && m[b0.last].Data() == last.Data() + data[..remain]
  }

  lemma SpilledIs(m0: Memory, b0: Evb, s0: seq<Addr>, data: seq<byte>, m3: Memory, tmp: Addr, m: Memory, b: Evb,
      s: seq<Addr>)
    requires b0.last in m0 && m0[b0.last].Ok() && m0[b0.last].Space() <= |data| && tmp != b0.last && b0.last in m3
    requires var last, remain := m0[b0.last], m0[b0.last].Space();
      && m3[b0.last] == (if remain > 0 then Appended(last, data[..remain]) else last)
      && tmp in m && m[tmp].Ok() && m[tmp].Data() == data[remain..] && b.last == tmp
      && if b0.totalLen + remain == 0 then s == [tmp]
         else s == s0 + [tmp] && m == m3[b0.last := m3[b0.last].(next := tmp)]
    ensures Spilled(m0, b0, s0, data, m, b, s)
  {
    hide Appended;
  }

  /** evbuffer_add. */
  method Add(m0: Memory, b0: Evb, ghost s0: seq<Addr>, data: seq<byte>, canAlloc: bool)
    returns (m: Memory, b: Evb, ghost s: seq<Addr>, result: int)
    requires Inv(m0, b0, s0)
    ensures Inv(m, b, s) && Frame(m0, Elems(s0), m, Elems(s))
    ensures b.freezeStart == b0.freezeStart && b.freezeEnd == b0.freezeEnd
    ensures result == 0 || result == -1
    ensures result == 0 ==> Flat(m, s) == Flat(m0, s0) + data
    ensures result == -1 ==> m == m0 && b == b0 && s == s0
    ensures result == 0 <==>
      && !b0.freezeEnd && |data| <= EV_SIZE_MAX - b0.totalLen
      && (FitsInLast(m0, b0, |data|) || (canAlloc && |data| <= EVBUFFER_CHAIN_MAX - EVBUFFER_CHAIN_SIZE))
  {
    hide Inv, Shape, Linked, Flat, Frame, Elems, Chain.Data, Appended, Aligned;
    m, b, s, result := m0, b0, s0, -1;
    Ends(m, b, s);
    FrameRefl(m, Elems(s));
    if b.freezeEnd {
      return;
    }
    if |data| > EV_SIZE_MAX - b.totalLen {
      return;
    }
    var chain := b.last;
    if chain == NULL {
      m, chain := ChainNew(m, |data|, canAlloc);
      if chain == NULL {
        return;
      }
      InvAlloc(m0, b0, s, chain, m[chain]);
      ghost var m1 := m;
      m, b, s := ChainInsert(m, b, s, chain);
      FrameTrans(m0, Elems(s0), m1, Elems(s0) + {chain}, m, Elems(s));
    }
    ghost var m1, b1 := m, b;
    Ends(m, b, s);
    var remain := m[chain].Space();
    if remain >= |data| {
      m := m[chain := Appended(m[chain], data)];
      b := b.(totalLen := b.totalLen + |data|);
      GrowLast(m1, b1, s, m[chain], data, m);
      FrameTrans(m0, Elems(s0), m1, Elems(s), m, Elems(s));
      result := 0;
      return;
    } else if m[chain].ShouldRealign(|data|) {
      m := m[chain := Appended(Aligned(m[chain]), data)];
      b := b.(totalLen := b.totalLen + |data|);
      GrowLast(m1, b1, s, m[chain], data, m);
      FrameTrans(m0, Elems(s0), m1, Elems(s), m, Elems(s));
      result := 0;
      return;
    }
    assert m == m0 && b == b0 && s == s0;
    m, b, s, result := AddNewChain(m, b, s, data, canAlloc);
  }

  /** Where a walk along the list stands at chain number `k`. */
  lemma Walk(m: Memory, b: Evb, s: seq<Addr>, k: nat)
    requires Inv(m, b, s) && k < |s|
    ensures s[k] in m && m[s[k]].Ok() && DataAt(m, s[k]) == m[s[k]].Data()
    ensures m[s[k]].next == if k + 1 < |s| then s[k + 1] else NULL
    ensures s[k] != NULL && s[k] !in Elems(s[..k])
    ensures Elems(s[..k + 1]) == Elems(s[..k]) + {s[k]}
    ensures Flat(m, s[..k + 1]) == Flat(m, s[..k]) + m[s[k]].Data()
    ensures Flat(m, s) == Flat(m, s[..k]) + Flat(m, s[k..])
    ensures k + 1 == |s| ==> Flat(m, s[..k + 1]) == Flat(m, s)
  {
    hide Flat, Distinct, Chain.Data;
    DistinctPairs(s);
    FlatSplit(m, s, k);
    if k + 1 == |s| {
      assert s[..k + 1] == s;
    }
  }

  lemma DropElems(s: seq<Addr>, k: nat)
    requires Distinct(s) && k <= |s|
    ensures Elems(s) == Elems(s[..k]) + Elems(s[k..]) && Elems(s[..k]) !! Elems(s[k..])
    ensures forall i :: k <= i < |s| ==> s[i] !in Elems(s[..k]) && s[k..][i - k] == s[i]
  {
    hide Distinct;
    DistinctSplit(s, k);
    assert forall i :: k <= i < |s| ==> s[i] == s[k..][i - k];
    assert forall a :: a in s <==> a in s[..k] || a in s[k..];
  }

  lemma DropLinked(m: Memory, s: seq<Addr>, k: nat)
    requires Linked(m, s) && k <= |s|
    ensures Linked(m - Elems(s[..k]), s[k..])
    ensures forall a :: a in s[k..] ==> a !in Elems(s[..k])
  {
    hide Distinct, Elems;
    DropElems(s, k);
    DistinctSplit(s, k);
    assert forall j :: 0 <= j < |s| - k ==> s[k..][j] == s[k + j];
  }

  lemma DropFrame(m: Memory, s: seq<Addr>, k: nat)
    requires Linked(m, s) && k <= |s|
    ensures Frame(m, Elems(s), m - Elems(s[..k]), Elems(s[k..]))
  {
    hide Distinct;
    assert Elems(s) <= m.Keys;
    assert Distinct(s);
    DropElems(s, k);
  }

  /** The pointers once the first `k` chains are gone. */
  function Dropped(b: Evb, first: Addr, sole: bool, n: nat): Evb
    requires n <= b.totalLen
  {
    b.(first := first, lastWithDatap := if sole then FirstSlot else b.lastWithDatap, totalLen := b.totalLen - n)
  }

  lemma DropShape(m: Memory, b: Evb, s: seq<Addr>, k: nat)
    requires Inv(m, b, s) && k < |s|
    ensures Shape(m - Elems(s[..k]), s[k..], s[k], b.last, if k + 1 == |s| then FirstSlot else b.lastWithDatap)
  {
    hide Flat, Distinct, Frame;
    DropLinked(m, s, k);
    assert forall i :: 0 <= i < |s| - k ==> s[k..][i] == s[k + i];
  }

  /** Freeing the first `k` chains of the list. */
  lemma DropPrefix(m: Memory, b: Evb, s: seq<Addr>, k: nat)
    requires Inv(m, b, s) && k < |s|
    ensures |Flat(m, s[..k])| <= b.totalLen
    ensures var m1 := m - Elems(s[..k]);
      && Inv(m1, Dropped(b, s[k], k + 1 == |s|, |Flat(m, s[..k])|), s[k..])
      && Flat(m1, s[k..]) == Flat(m, s[k..])
      && Frame(m, Elems(s), m1, Elems(s[k..]))
  {
    hide Flat, Distinct, Frame, Chain.Data, Linked, Shape;
    Ends(m, b, s);
    DropShape(m, b, s, k);
    DropLinked(m, s, k);
    DropFrame(m, s, k);
    FlatSame(m, m - Elems(s[..k]), s[k..]);
    FlatSplit(m, s, k);
  }

  /** Giving up the first `n` bytes of the first chain. */
  lemma {:induction false} ShrinkFirst(m: Memory, b: Evb, s: seq<Addr>, n: nat)
    requires Inv(m, b, s) && s != [] && s[0] in m && m[s[0]].Ok()
    requires n < m[s[0]].off || n == 0
    ensures n <= b.totalLen
    ensures var m1 := m[s[0] := Drained(m[s[0]], n)];
      && Inv(m1, b.(totalLen := b.totalLen - n), s)
      && Flat(m1, s) == Flat(m, s)[n..]
      && Frame(m, Elems(s), m1, Elems(s))
  {
    hide Flat, Shape, Frame, Distinct, Linked, Drained, Chain.Data;
    Ends(m, b, s);
    FlatNil(m);
    assert s[..0] == [];
    var c := Drained(m[s[0]], n);
    var m1 := m[s[0] := c];
    TouchesLinked(m, s, 0, c, m1);
    TouchesFlat(m, s, 0, c, m1);
    TouchesShape(m, b, s, 0, c, m1);
    DropFront(m[s[0]].Data(), Flat(m, s[1..]), n);
  }

  lemma DropFront(d: seq<byte>, rest: seq<byte>, n: nat)
    requires n <= |d|
    ensures [] + d[n..] + rest == ([] + d + rest)[n..]
  {
  }

  lemma DropDrop(x: seq<byte>, a: seq<byte>, y: seq<byte>, n: nat)
    requires x == a + y && |a| <= n <= |x|
    ensures y[n - |a|..] == x[n..]
  {
  }

  lemma ElemsNil()
    ensures Elems([]) == {}
  {
  }

  /** A buffer all of whose chains have been freed. */
  lemma FreedAll(m: Memory, b: Evb, s: seq<Addr>)
    requires Inv(m, b, s)
    ensures var m1 := m - Elems(s);
      && Inv(m1, b.(first := NULL, last := NULL, lastWithDatap := FirstSlot, totalLen := 0), [])
      && Flat(m1, []) == [] && Frame(m, Elems(s), m1, Elems([]))
  {
    hide Distinct;
    assert Distinct<Addr>([]) by {
      DistinctPairs([]);
    }
  }

  /** During evbuffer_drain, at a chain before the last one: the slot that
      designates the last chain is in a chain not yet freed, and the present
      chain holds that slot exactly when the last chain comes next. */
  lemma DpAlive(m: Memory, b: Evb, s: seq<Addr>, k: nat)
    requires Inv(m, b, s) && k + 1 < |s|
    ensures b.lastWithDatap == NextOf(s[|s| - 2])
    ensures s[|s| - 2] in m && s[|s| - 2] !in Elems(s[..k])
    ensures m[s[|s| - 2]].next == s[|s| - 1] != s[k]
    ensures NextOf(s[k]) == b.lastWithDatap <==> k + 2 == |s|
  {
    hide Flat, Distinct;
    DistinctPairs(s);
  }

  /** evbuffer_drain. */
  method Drain(m0: Memory, b0: Evb, ghost s0: seq<Addr>, len: nat)
    returns (m: Memory, b: Evb, ghost s: seq<Addr>, result: int)
    requires Inv(m0, b0, s0)
    ensures Inv(m, b, s) && Frame(m0, Elems(s0), m, Elems(s))
    ensures b.freezeStart == b0.freezeStart && b.freezeEnd == b0.freezeEnd
    ensures result == if b0.totalLen > 0 && b0.freezeStart then -1 else 0
    ensures result == 0 ==> Flat(m, s) == Flat(m0, s0)[if len <= b0.totalLen then len else b0.totalLen..]
    ensures result == -1 ==> m == m0 && b == b0 && s == s0
  {
    hide Inv, Shape, Linked, Flat, Frame, Elems, Chain.Data, DataAt;
    m, b, s, result := m0, b0, s0, 0;
    Ends(m, b, s);
    FrameRefl(m, Elems(s));
    if b.totalLen == 0 {
      return;
    }
    if b.freezeStart {
      result := -1;
      return;
    }
    if len >= b.totalLen {
      m := FreeAllChains(m, b.first, s);
      b := b.(first := NULL, last := NULL, lastWithDatap := FirstSlot, totalLen := 0);
      s := [];
      FreedAll(m0, b0, s0);
    } else {
      b := b.(totalLen := b.totalLen - len);
      var remaining: nat := len;
      var chain := b.first;
      ghost var k: nat := 0;
      assert s0[..0] == [];
      FlatNil(m0);
      ElemsNil();
      Walk(m0, b0, s0, 0);
      while remaining >= m[chain].off
        invariant k < |s0| && chain == s0[k]
        invariant chain in m0 && chain in m && m[chain] == m0[chain] && m0[chain].Ok()
        invariant m == m0 - Elems(s0[..k])
        invariant remaining + |Flat(m0, s0[..k])| == len
        invariant b == b0.(totalLen := b0.totalLen - len, lastWithDatap := if k + 1 == |s0| then FirstSlot else b0.lastWithDatap)
        decreases |s0| - k
      {
        var next := m[chain].next;
        remaining := remaining - m[chain].off;
        Walk(m0, b0, s0, k);
        Walk(m0, b0, s0, k + 1);
        DpAlive(m0, b0, s0, k);
        if chain == Deref(m, b, b.lastWithDatap) {
          b := b.(lastWithDatap := FirstSlot);
        }
        if NextOf(chain) == b.lastWithDatap {
          b := b.(lastWithDatap := FirstSlot);
        }
        m := m - {chain};
        chain, k := next, k + 1;
      }
      b := b.(first := chain);
      m := m[chain := Drained(m[chain], remaining)];
      s := s0[k..];
      Walk(m0, b0, s0, k);
      DropPrefix(m0, b0, s0, k);
      ShrinkFirst(m0 - Elems(s0[..k]), Dropped(b0, s0[k], k + 1 == |s0|, len - remaining), s, remaining);
      FrameTrans(m0, Elems(s0), m0 - Elems(s0[..k]), Elems(s), m, Elems(s));
      DropDrop(Flat(m0, s0), Flat(m0, s0[..k]), Flat(m0, s0[k..]), len);
    }
  }

  lemma InvDocumented(m: Memory, b: Evb, s: seq<Addr>)
    requires Inv(m, b, s)
    ensures Documented(m, b, s)
    ensures b.totalLen == |Flat(m, s)| && (b.last == if s == [] then NULL else s[|s| - 1])
  {
    hide Flat, Distinct;
    if s != [] {
      var i: nat := |s| - 1;
      if i > 0 {
        assert m[s[i - 1]].next == s[i - 1 + 1];
      }
      assert Designates(m, b, s, i);
    }
  }
}
