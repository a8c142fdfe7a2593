/** The memory an evbuffer lives in: chains at addresses, as C sees them, and
    the pure view of a list of chains as one byte sequence. Freed addresses
    leave the store, so reading through a dangling pointer does not verify. */
module EvbufferStore {
  import opened Lists

  newtype byte = x: int | 0 <= x < 256

  /** A `struct evbuffer_chain *`. */
  datatype Addr = NULL | At(address: nat)

  const EV_SIZE_MAX: nat := 0xFFFF_FFFF_FFFF_FFFF
  const EV_SSIZE_MAX: nat := 0x7FFF_FFFF_FFFF_FFFF
  const EVBUFFER_CHAIN_MAX: nat := EV_SSIZE_MAX
  /** sizeof(struct evbuffer_chain) on the 64-bit configuration. */
  const EVBUFFER_CHAIN_SIZE: nat := 48
  const MIN_BUFFER_SIZE: nat := 1024
  const MAX_TO_REALIGN_IN_EXPAND: nat := 2048
  const EVBUFFER_CHAIN_MAX_AUTO_SIZE: nat := 4096

  /** struct evbuffer_chain: `off` bytes of data from `misalign` on in
      `buffer`; buffer_len is |buffer|. */
  datatype Chain = Chain(next: Addr, misalign: nat, off: nat, buffer: seq<byte>) {

    predicate Ok() {
      && misalign + off <= |buffer|
      && MIN_BUFFER_SIZE - EVBUFFER_CHAIN_SIZE <= |buffer| <= EVBUFFER_CHAIN_MAX - EVBUFFER_CHAIN_SIZE
    }

    function Data(): (d: seq<byte>)
      requires Ok()
      ensures |d| == off
    {
      buffer[misalign..misalign + off]
    }

    /** CHAIN_SPACE_LEN: room after the data. */
    function Space(): nat
      requires Ok()
    {
      |buffer| - misalign - off
    }

    /** evbuffer_chain_should_realign: worth moving the data to the front. */
    predicate ShouldRealign(datlen: nat)
      requires Ok()
    {
      && |buffer| - off >= datlen
      && off < |buffer| / 2
      && off <= MAX_TO_REALIGN_IN_EXPAND
    }
  }

  type Memory = map<Addr, Chain>

  /** `buffer` after memcpy of `src` to `buffer + at`. */
  function CopyIn(buffer: seq<byte>, at: nat, src: seq<byte>): (r: seq<byte>)
    requires at + |src| <= |buffer|
    ensures |r| == |buffer|
    ensures r[at..at + |src|] == src && r[..at] == buffer[..at] && r[at + |src|..] == buffer[at + |src|..]
  {
    buffer[..at] + src + buffer[at + |src|..]
  }

  /** evbuffer_chain_align: the data moved to the start of the buffer. */
  function Aligned(c: Chain): (r: Chain)
    requires c.Ok()
    ensures r.Ok() && r.Data() == c.Data()
    ensures r.misalign == 0 && r.off == c.off && r.next == c.next && |r.buffer| == |c.buffer|
  {
    c.(misalign := 0, buffer := CopyIn(c.buffer, 0, c.Data()))
  }

  /** An empty chain counted as empty at the beginning, not at the end. */
  function Emptied(c: Chain): (r: Chain)
    requires c.Ok()
    ensures r.Ok() && r.Data() == c.Data() && r.next == c.next && r.off == c.off
  {
    if c.off == 0 then c.(misalign := |c.buffer|) else c
  }

  /** Data written right behind the data already there. */
  function Appended(c: Chain, d: seq<byte>): (r: Chain)
    requires c.Ok() && |d| <= c.Space()
    ensures r.Ok() && r.Data() == c.Data() + d
    ensures r.next == c.next && r.off == c.off + |d| && |r.buffer| == |c.buffer|
  {
    var r := c.(off := c.off + |d|, buffer := CopyIn(c.buffer, c.misalign + c.off, d));
    assert |r.buffer| == |c.buffer|;
    assert forall i :: 0 <= i < |d| ==> r.buffer[c.misalign + c.off + i] == d[i];
    assert forall i :: 0 <= i < c.misalign + c.off ==> r.buffer[i] == c.buffer[i];
    r
  }

  /** Data written right in front of the data already there. */
  function Prepended(c: Chain, d: seq<byte>): (r: Chain)
    requires c.Ok() && |d| <= c.misalign
    ensures r.Ok() && r.Data() == d + c.Data()
    ensures r.next == c.next && r.off == c.off + |d| && r.misalign == c.misalign - |d|
  {
    var r := c.(off := c.off + |d|, misalign := c.misalign - |d|, buffer := CopyIn(c.buffer, c.misalign - |d|, d));
    assert |r.buffer| == |c.buffer|;
    assert forall i :: 0 <= i < |d| ==> r.buffer[c.misalign - |d| + i] == d[i];
    assert forall i :: c.misalign <= i < |c.buffer| ==> r.buffer[i] == c.buffer[i];
    r
  }

  /** The first `n` bytes of the data given up. */
  function Drained(c: Chain, n: nat): (r: Chain)
    requires c.Ok() && n <= c.off
    ensures r.Ok() && r.Data() == c.Data()[n..] && r.next == c.next && r.off == c.off - n
  {
    c.(misalign := c.misalign + n, off := c.off - n)
  }

  ghost function Pow2(k: nat): nat {
    if k == 0 then 1 else 2 * Pow2(k - 1)
  }

  /** `total` is the least MIN_BUFFER_SIZE * 2^k that is at least `size`. */
  ghost predicate LeastDoubling(total: nat, size: nat) {
    && total >= size
    && exists k: nat {:trigger Pow2(k)} :: total == MIN_BUFFER_SIZE * Pow2(k) && (k > 0 ==> total < 2 * size)
  }

  lemma {:induction false} FreshExists(used: set<Addr>)
    ensures exists n: nat :: At(n) !in used
  {
    var bound := UpperBound(used);
    assert At(bound + 1) !in used;
  }

  lemma {:induction false} UpperBound(used: set<Addr>) returns (b: nat)
    ensures forall n: nat :: At(n) in used ==> n <= b
    decreases |used|
  {
    if used == {} {
      b := 0;
    } else {
      var a :| a in used;
      b := UpperBound(used - {a});
      if a.At? && b < a.address {
        b := a.address;
      }
      assert forall x :: x in used ==> x == a || x in used - {a};
    }
  }

  /** evbuffer_chain_new. `canAlloc` says whether the allocator succeeds. */
  method ChainNew(m0: Memory, size: nat, canAlloc: bool) returns (m: Memory, p: Addr)
    requires NULL !in m0
    ensures p == NULL <==> size > EVBUFFER_CHAIN_MAX - EVBUFFER_CHAIN_SIZE || !canAlloc
    ensures p == NULL ==> m == m0
    ensures p != NULL ==>
      && p in m && p !in m0 && m == m0[p := m[p]]
      && m[p].Ok() && m[p].off == 0 && m[p].misalign == 0 && m[p].next == NULL
      && size <= |m[p].buffer|
      && var total, need := |m[p].buffer| + EVBUFFER_CHAIN_SIZE, size + EVBUFFER_CHAIN_SIZE;
         if need < EVBUFFER_CHAIN_MAX / 2 then LeastDoubling(total, need) else total == need
  {
    m := m0;
    if size > EVBUFFER_CHAIN_MAX - EVBUFFER_CHAIN_SIZE {
      return m, NULL;
    }
    var need := size + EVBUFFER_CHAIN_SIZE;
    var toAlloc: nat;
    if need < EVBUFFER_CHAIN_MAX / 2 {
      toAlloc := MIN_BUFFER_SIZE;
      ghost var k: nat := 0;
      assert Pow2(k) == 1;
      while toAlloc < need
        invariant toAlloc == MIN_BUFFER_SIZE * Pow2(k) && (k > 0 ==> toAlloc < 2 * need)
        invariant toAlloc >= MIN_BUFFER_SIZE
        decreases 2 * need - toAlloc
      {
        toAlloc := toAlloc * 2;
        k := k + 1;
      }
    } else {
      toAlloc := need;
    }
    if !canAlloc {
      return m, NULL;
    }
    FreshExists(m.Keys);
    var address: nat :| At(address) !in m.Keys;
    p := At(address);
    var n := toAlloc - EVBUFFER_CHAIN_SIZE;
    var zeros: seq<byte> := seq(n, _ => 0);
    assert |zeros| == n;
    var junk: seq<byte> :| |junk| == n;
    m := m[p := Chain(NULL, 0, 0, junk)];
  }

  /** evbuffer_free_all_chains: everything from `p` to the end of the list. */
  method FreeAllChains(m0: Memory, p: Addr, ghost s: seq<Addr>) returns (m: Memory)
    requires NULL !in m0 && Linked(m0, s)
    requires p == (if s == [] then NULL else s[0])
    requires s != [] ==> m0[s[|s| - 1]].next == NULL
    ensures m == m0 - Elems(s)
  {
    hide Distinct;
    m := m0;
    DistinctPairs(s);
    var chain := p;
    ghost var k: nat := 0;
    while chain != NULL
      invariant k <= |s|
      invariant m == m0 - Elems(s[..k])
      invariant chain == if k < |s| then s[k] else NULL
      decreases |s| - k
    {
      var next := m[chain].next;
      m := m - {chain};
      assert Elems(s[..k + 1]) == Elems(s[..k]) + {s[k]};
      chain, k := next, k + 1;
    }
    assert s[..k] == s;
  }

  /** The addresses in `s` are chains of `m`, linked by `next` in this order. */
  ghost predicate Linked(m: Memory, s: seq<Addr>) {
    && (forall i :: 0 <= i < |s| ==> s[i] in m && m[s[i]].Ok())
    && (forall i {:trigger m[s[i]].next} :: 0 <= i < |s| - 1 ==> m[s[i]].next == s[i + 1])
    && Distinct(s)
  }

  /** What Distinct says, for where it is hidden. */
  lemma DistinctPairs(s: seq<Addr>)
    ensures Distinct(s) <==> forall i, j :: 0 <= i < j < |s| ==> s[i] != s[j]
  {
  }

  lemma DistinctSnoc(s: seq<Addr>, p: Addr)
    requires Distinct(s) && p !in s
    ensures Distinct(s + [p])
  {
    DistinctPairs(s);
    DistinctPairs(s + [p]);
  }

  lemma DistinctSplit(s: seq<Addr>, k: nat)
    requires Distinct(s) && k <= |s|
    ensures Distinct(s[..k]) && Distinct(s[k..])
    ensures forall a :: a in s[..k] ==> a !in s[k..]
  {
    DistinctPairs(s);
    DistinctPairs(s[..k]);
    DistinctPairs(s[k..]);
  }

  lemma DistinctJoin(s: seq<Addr>, t: seq<Addr>)
    requires Distinct(s) && Distinct(t) && forall a :: a in s ==> a !in t
    ensures Distinct(s + t)
  {
    var u := s + t;
    forall i, j | 0 <= i < j < |u| ensures u[i] != u[j] {
      assert i < |s| ==> s[i] in s;
      assert j >= |s| ==> u[j] == t[j - |s|] && t[j - |s|] in t;
    }
  }

  ghost function Elems(s: seq<Addr>): set<Addr> {
    set a | a in s
  }

  ghost function DataAt(m: Memory, p: Addr): seq<byte> {
    if p in m && m[p].Ok() then m[p].Data() else []
  }

  /** The data of the chains in `s`, end to end. */
  ghost function Flat(m: Memory, s: seq<Addr>): seq<byte> {
    if s == [] then [] else DataAt(m, s[0]) + Flat(m, s[1..])
  }

  lemma {:induction false} FlatAppend(m: Memory, s: seq<Addr>, t: seq<Addr>)
    ensures Flat(m, s + t) == Flat(m, s) + Flat(m, t)
  {
    if s == [] {
      assert s + t == t;
    } else {
      assert (s + t)[1..] == s[1..] + t;
      FlatAppend(m, s[1..], t);
    }
  }

  lemma FlatNil(m: Memory)
    ensures Flat(m, []) == []
  {
  }

  lemma FlatSingle(m: Memory, p: Addr)
    ensures Flat(m, [p]) == DataAt(m, p)
  {
    assert [p][1..] == [];
  }

  /** Splitting a list: the step of every loop that walks the chains. */
  lemma FlatSplit(m: Memory, s: seq<Addr>, k: nat)
    requires k <= |s|
    ensures Flat(m, s) == Flat(m, s[..k]) + Flat(m, s[k..])
    ensures k < |s| ==> Flat(m, s[..k + 1]) == Flat(m, s[..k]) + DataAt(m, s[k])
    ensures k < |s| ==> Flat(m, s[k..]) == DataAt(m, s[k]) + Flat(m, s[k + 1..])
  {
    assert s[..k] + s[k..] == s;
    FlatAppend(m, s[..k], s[k..]);
    if k < |s| {
      assert s[..k + 1] == s[..k] + [s[k]];
      FlatAppend(m, s[..k], [s[k]]);
      FlatSingle(m, s[k]);
    }
  }

  /** Only the data of the chains in the list counts. */
  lemma {:induction false} FlatSame(m: Memory, n: Memory, s: seq<Addr>)
    requires forall a :: a in s ==> DataAt(n, a) == DataAt(m, a)
    ensures Flat(n, s) == Flat(m, s)
  {
    if s != [] {
      FlatSame(m, n, s[1..]);
    }
  }

  /** A chain outside the list does not matter to its bytes. */
  lemma {:induction false} FlatOther(m: Memory, s: seq<Addr>, p: Addr, c: Chain)
    requires p !in s
    ensures Flat(m[p := c], s) == Flat(m, s)
  {
    if s != [] {
      FlatOther(m, s[1..], p, c);
    }
  }

  /** Relinking a chain does not change the list's bytes. */
  lemma {:induction false} FlatRelink(m: Memory, s: seq<Addr>, p: Addr, next: Addr)
    requires p in m
    ensures Flat(m[p := m[p].(next := next)], s) == Flat(m, s)
  {
    if s != [] {
      FlatRelink(m, s[1..], p, next);
    }
  }

  /** The list's bytes before and after a store into chain number `k`. */
  lemma FlatTouch(m: Memory, s: seq<Addr>, k: nat, c: Chain)
    requires k < |s| && Distinct(s)
    ensures Flat(m, s) == Flat(m, s[..k]) + DataAt(m, s[k]) + Flat(m, s[k + 1..])
    ensures Flat(m[s[k] := c], s) == Flat(m, s[..k]) + DataAt(m[s[k] := c], s[k]) + Flat(m, s[k + 1..])
  {
    hide *;
    DistinctSplit(s, k);
    DistinctSplit(s, k + 1);
    var m1 := m[s[k] := c];
    assert s[k] in s[k..] && s[k] in s[..k + 1];
    FlatSplit(m, s, k);
    FlatSplit(m1, s, k);
    FlatOther(m, s[..k], s[k], c);
    FlatOther(m, s[k + 1..], s[k], c);
  }

  /** One owner's step from memory `m0`, where it owns `own0`, to `m1`, where it
      owns `own1`: it touches nobody else's chains, frees none of them, and
      leaves no chain behind without an owner. */
  ghost predicate Frame(m0: Memory, own0: set<Addr>, m1: Memory, own1: set<Addr>) {
    && own0 <= m0.Keys && own1 <= m1.Keys
    && m1.Keys - own1 == m0.Keys - own0
    && forall a :: a in m0 && a !in own0 ==> a in m1 && m1[a] == m0[a]
  }

  lemma FrameTrans(m0: Memory, own0: set<Addr>, m1: Memory, own1: set<Addr>, m2: Memory, own2: set<Addr>)
    requires Frame(m0, own0, m1, own1) && Frame(m1, own1, m2, own2)
    ensures Frame(m0, own0, m2, own2)
  {
  }

  lemma SplitAppend(base: seq<byte>, data: seq<byte>, k: nat)
    requires k <= |data|
    ensures base + data[..k] + data[k..] == base + data
  {
  }

  lemma FrameRefl(m: Memory, own: set<Addr>)
    requires own <= m.Keys
    ensures Frame(m, own, m, own)
  {
  }

  /** Storing into one's own chain. */
  lemma FrameStore(m: Memory, own: set<Addr>, p: Addr, c: Chain)
    requires own <= m.Keys && p in own
    ensures Frame(m, own, m[p := c], own)
  {
  }

  /** Taking a fresh chain from the allocator. */
  lemma FrameAlloc(m: Memory, own: set<Addr>, p: Addr, c: Chain)
    requires own <= m.Keys && p !in m
    ensures Frame(m, own, m[p := c], own + {p})
  {
  }

  /** A chain nobody else touches stays with its owner through a step. */
  lemma FrameMore(m0: Memory, own0: set<Addr>, m1: Memory, own1: set<Addr>, p: Addr)
    requires Frame(m0, own0, m1, own1) && p in m0 && p !in own0
    ensures p !in own1 && Frame(m0, own0 + {p}, m1, own1 + {p})
  {
    assert p in m1.Keys - own1;
    assert forall a :: a in m1.Keys - (own1 + {p}) <==> a in m1.Keys - own1 && a != p;
    assert forall a :: a in m0.Keys - (own0 + {p}) <==> a in m0.Keys - own0 && a != p;
  }

  lemma ElemIn(s: seq<Addr>, i: nat)
    requires i < |s|
    ensures s[i] in Elems(s)
  {
  }
}
