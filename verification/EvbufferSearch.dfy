/** Positions in an evbuffer, searching across chains, and reading lines. */
module EvbufferSearch {
  import opened EvbufferStore
  import opened Lists
  import opened EvbufferOps
  import opened EvbufferFront
  import opened Options

  const CR: byte := 13
  const LF: byte := 10

  /** struct evbuffer_ptr */
  datatype Ptr = Ptr(pos: int, chain: Addr, posInChain: nat)

  const NOWHERE: Ptr := Ptr(-1, NULL, 0)

  /** Where chain number `k` begins in the contents. */
  ghost function Base(m: Memory, s: seq<Addr>, k: nat): nat
    requires k <= |s|
  {
    |Flat(m, s[..k])|
  }

  /** `p` designates byte number `p.pos` of the list, inside chain number `k`
      or right behind its data. */
  ghost predicate PtrAt(m: Memory, s: seq<Addr>, p: Ptr, k: nat) {
    && k < |s| && p.chain == s[k] && s[k] in m && m[s[k]].Ok()
    && p.posInChain <= m[s[k]].off
    && p.pos == Base(m, s, k) + p.posInChain
  }

  ghost predicate ValidPtr(m: Memory, s: seq<Addr>, p: Ptr) {
    exists k: nat :: PtrAt(m, s, p, k)
  }

  /** Where chain number `k` lies in the contents. */
  lemma Located(m: Memory, b: Evb, s: seq<Addr>, k: nat)
    requires Inv(m, b, s) && k < |s|
    ensures s[k] in m && m[s[k]].Ok() && s[k] != NULL
    ensures m[s[k]].next == if k + 1 < |s| then s[k + 1] else NULL
    ensures Base(m, s, k) + m[s[k]].off <= |Flat(m, s)| == b.totalLen
    ensures Flat(m, s)[Base(m, s, k)..Base(m, s, k) + m[s[k]].off] == m[s[k]].Data()
    ensures Base(m, s, k + 1) == Base(m, s, k) + m[s[k]].off
    ensures k + 1 == |s| ==> Base(m, s, k + 1) == |Flat(m, s)|
    ensures m[s[k]].off == 0 ==> |s| == 1
  {
    hide Flat, Distinct;
    Walk(m, b, s, k);
    FlatSplit(m, s, k);
  }

  /** memchr: the first occurrence of `c` in `x`, or -1. */
  method Memchr(x: seq<byte>, c: byte) returns (i: int)
    ensures i == -1 || 0 <= i < |x|
    ensures i >= 0 ==> x[i] == c
    ensures forall j :: 0 <= j < (if i < 0 then |x| else i) ==> x[j] != c
  {
    for n := 0 to |x|
      invariant forall j :: 0 <= j < n ==> x[j] != c
    {
      if x[n] == c {
        return n;
      }
    }
    return -1;
  }

  const CHUNK_SZ: nat := 128

  predicate IsEol(c: byte) {
    c == CR || c == LF
  }

  /** find_eol_char: the first CR or LF in `x`, looked for chunk by chunk. */
  method FindEolChar(x: seq<byte>) returns (i: int)
    ensures i == -1 || 0 <= i < |x|
    ensures i >= 0 ==> IsEol(x[i])
    ensures forall j :: 0 <= j < (if i < 0 then |x| else i) ==> !IsEol(x[j])
  {
    var at: nat := 0;
    while at < |x|
      invariant forall j :: 0 <= j < at && j < |x| ==> !IsEol(x[j])
    {
      var chunk := if at + CHUNK_SZ < |x| then CHUNK_SZ else |x| - at;
      var part := x[at..at + chunk];
      var cr := Memchr(part, CR);
      var lf := Memchr(part, LF);
      assert forall j :: at <= j < at + chunk ==> x[j] == part[j - at];
      if cr >= 0 {
        if 0 <= lf < cr {
          return at + lf;
        }
        return at + cr;
      } else if lf >= 0 {
        return at + lf;
      }
      at := at + CHUNK_SZ;
    }
    return -1;
  }

  /** memcmp of two byte strings of one length: the sign of its result. */
  function Memcmp(x: seq<byte>, y: seq<byte>): (r: int)
    requires |x| == |y|
    ensures r == 0 <==> x == y
  {
    if x == [] then 0
    else if x[0] < y[0] then -1
    else if x[0] > y[0] then 1
    else
      assert x == [x[0]] + x[1..] && y == [y[0]] + y[1..];
      Memcmp(x[1..], y[1..])
  }

  /** Its sign is decided by the first bytes that differ. */
  lemma {:induction false} MemcmpSign(x: seq<byte>, y: seq<byte>, k: nat)
    requires k < |x| == |y| && x[..k] == y[..k] && x[k] != y[k]
    ensures Memcmp(x, y) == if x[k] < y[k] then -1 else 1
  {
    if k > 0 {
      assert x[0] == x[..k][0] && y[0] == y[..k][0];
      assert x[1..][..k - 1] == x[..k][1..] && y[1..][..k - 1] == y[..k][1..];
      MemcmpSign(x[1..], y[1..], k - 1);
    }
  }

  lemma {:induction false} MemcmpParts(x: seq<byte>, y: seq<byte>, x1: seq<byte>, y1: seq<byte>)
    requires |x| == |y| && |x1| == |y1|
    ensures Memcmp(x + x1, y + y1) == if Memcmp(x, y) != 0 then Memcmp(x, y) else Memcmp(x1, y1)
  {
    if x == [] {
      assert x + x1 == x1 && y + y1 == y1;
    } else {
      MemcmpParts(x[1..], y[1..], x1, y1);
      assert (x + x1)[1..] == x[1..] + x1 && (y + y1)[1..] == y[1..] + y1;
    }
  }

  /** The first piece that differs decides. */
  lemma {:induction false} MemcmpPiece(x: seq<byte>, what: seq<byte>, i: nat, k: nat, n: nat)
    requires Matched(x, what, i, k) && k + n <= |what| && i + |what| <= |x|
    requires Memcmp(x[i + k..i + k + n], what[k..k + n]) != 0
    ensures Memcmp(x[i..i + |what|], what) == Memcmp(x[i + k..i + k + n], what[k..k + n])
  {
    hide Memcmp, Matched;
    MatchedIs(x, what, i, k);
    Pieces(x, i, k, n, |what|);
    ThreePieces(what, k, n);
    PieceDecides(x[i..i + |what|], what, what[..k], x[i + k..i + k + n], x[i + k + n..i + |what|], what[k..k + n], what[k + n..]);
  }

  lemma MatchedIs(x: seq<byte>, what: seq<byte>, i: nat, k: nat)
    requires Matched(x, what, i, k)
    ensures x[i..i + k] == what[..k]
  {
  }

  lemma {:induction false} PieceDecides(x: seq<byte>, y: seq<byte>, a: seq<byte>, c: seq<byte>, e: seq<byte>,
      c1: seq<byte>, e1: seq<byte>)
    requires x == a + (c + e) && y == a + (c1 + e1) && |c| == |c1| && |e| == |e1| && Memcmp(c, c1) != 0
    ensures Memcmp(x, y) == Memcmp(c, c1)
  {
    hide Memcmp;
    MemcmpParts(a, a, c + e, c1 + e1);
    MemcmpParts(c, c1, e, e1);
  }

  lemma Pieces(x: seq<byte>, i: nat, k: nat, n: nat, l: nat)
    requires k + n <= l && i + l <= |x|
    ensures x[i..i + l] == x[i..i + k] + (x[i + k..i + k + n] + x[i + k + n..i + l])
  {
  }

  lemma ThreePieces(x: seq<byte>, k: nat, n: nat)
    requires k + n <= |x|
    ensures x == x[..k] + (x[k..k + n] + x[k + n..])
  {
  }

  /** The same, for a piece that lies in one chain. */
  lemma {:induction false} ChunkDiffers(x: seq<byte>, what: seq<byte>, i: nat, k: nat, n: nat, base: nat,
      d: seq<byte>, from: nat)
    requires Matched(x, what, i, k) && k + n <= |what| && i + |what| <= |x| && i + k == base + from
    requires base + |d| <= |x| && x[base..base + |d|] == d && from + n <= |d|
    requires Memcmp(d[from..from + n], what[k..k + n]) != 0
    ensures Memcmp(x[i..i + |what|], what) == Memcmp(d[from..from + n], what[k..k + n])
  {
    hide Memcmp, Matched;
    SubSlice(x, base, |d|, from, n);
    assert d[from..from + n] == x[i + k..i + k + n];
    MemcmpPiece(x, what, i, k, n);
  }

  lemma {:induction false} OccursMemcmp(x: seq<byte>, what: seq<byte>, i: nat)
    requires Occurs(x, what, i)
    ensures i + |what| <= |x| && Memcmp(x[i..i + |what|], what) == 0
  {
  }

  /** `what` occurs in `x` at position `i`. */
  ghost predicate Occurs(x: seq<byte>, what: seq<byte>, i: int) {
    0 <= i && i + |what| <= |x| && x[i..i + |what|] == what
  }

  lemma OccursFirst(x: seq<byte>, what: seq<byte>, i: int)
    requires Occurs(x, what, i) && what != []
    ensures x[i] == what[0]
  {
    assert x[i..i + |what|][0] == what[0];
  }

  lemma SubSlice(x: seq<byte>, base: nat, off: nat, from: nat, n: nat)
    requires base + off <= |x| && from + n <= off
    ensures x[base..base + off][from..from + n] == x[base + from..base + from + n]
  {
    var y, z := x[base..base + off][from..from + n], x[base + from..base + from + n];
    assert forall j :: 0 <= j < n ==> y[j] == x[base..base + off][from + j] == x[base + from + j] == z[j];
  }

  /** The first `k` bytes of `what` are found at position `i`. */
  ghost predicate Matched(x: seq<byte>, what: seq<byte>, i: int, k: nat) {
    0 <= i && k <= |what| && i + k <= |x| && x[i..i + k] == what[..k]
  }

  lemma MatchedEnds(x: seq<byte>, what: seq<byte>, i: int)
    requires 0 <= i <= |x|
    ensures Matched(x, what, i, 0)
    ensures Matched(x, what, i, |what|) <==> Occurs(x, what, i)
  {
    assert what[..|what|] == what;
  }

  /** Matching the next `n` bytes extends a partial match or ends it. */
  lemma MatchedStep(x: seq<byte>, what: seq<byte>, i: nat, k: nat, n: nat, base: nat, off: nat, from: nat)
    requires Matched(x, what, i, k) && k + n <= |what| && i + |what| <= |x|
    requires base + off <= |x| && from + n <= off && i + k == base + from
    ensures x[base..base + off][from..from + n] == what[k..k + n] <==> Matched(x, what, i, k + n)
    ensures Occurs(x, what, i) ==> Matched(x, what, i, k + n)
  {
    SubSlice(x, base, off, from, n);
    assert x[i..i + k + n] == x[i..i + k] + x[i + k..i + k + n];
    assert what[..k + n] == what[..k] + what[k..k + n];
    if Occurs(x, what, i) {
      SubSlice(x, i, |what|, k, n);
    }
  }

  lemma TooFar(x: seq<byte>, what: seq<byte>, i: int)
    requires i < 0 || i + |what| > |x|
    ensures !Occurs(x, what, i)
  {
  }

  /** evbuffer_ptr_memcmp: what memcmp says of the bytes at the pointer, however
      they are spread over chains, or -1 if there are not enough. */
  method PtrMemcmp(m: Memory, b: Evb, ghost s: seq<Addr>, p: Ptr, mem: seq<byte>) returns (r: int)
    requires Inv(m, b, s) && ValidPtr(m, s, p)
    ensures r == 0 <==> Occurs(Flat(m, s), mem, p.pos)
    ensures 0 <= p.pos <= |Flat(m, s)|
    ensures r == if p.pos + |mem| > |Flat(m, s)| then -1 else Memcmp(Flat(m, s)[p.pos..p.pos + |mem|], mem)
  {
    hide Inv, Flat, Chain.Data, Chain.Ok, Base, Matched, Occurs, Memcmp;
    ghost var k: nat :| PtrAt(m, s, p, k);
    ghost var x := Flat(m, s);
    Located(m, b, s, k);
    if p.pos < 0 || EV_SIZE_MAX - |mem| < p.pos || p.pos + |mem| > b.totalLen {
      Ends(m, b, s);
      TooFar(x, mem, p.pos);
      return -1;
    }
    var chain := p.chain;
    var position: nat, done: nat := p.posInChain, 0;
    MatchedEnds(x, mem, p.pos);
    while done < |mem| && chain != NULL
      invariant k <= |s| && chain == if k < |s| then s[k] else NULL
      invariant k < |s| ==> chain != NULL && chain in m && m[chain].Ok()
      invariant done < |mem| && k < |s| ==> position <= m[chain].off && p.pos + done == Base(m, s, k) + position
      invariant done < |mem| && k == |s| ==> p.pos + done == |x|
      invariant done <= |mem| && Matched(x, mem, p.pos, done)
      decreases |s| - k
    {
      Located(m, b, s, k);
      if k + 1 < |s| {
        Located(m, b, s, k + 1);
      }
      var left := |mem| - done;
      var n := if left + position > m[chain].off then m[chain].off - position else left;
      MatchedStep(x, mem, p.pos, done, n, Base(m, s, k), m[chain].off, position);
      r := Memcmp(m[chain].Data()[position..position + n], mem[done..done + n]);
      if r != 0 {
        ChunkDiffers(x, mem, p.pos, done, n, Base(m, s, k), m[chain].Data(), position);
        return;
      }
      done := done + n;
      position := 0;
      chain := m[chain].next;
      k := k + 1;
    }
    OccursMemcmp(x, mem, p.pos);
    return 0;
  }

  /** Which pointers a search can begin at: a position in the list, or none. */
  ghost predicate Startable(m: Memory, s: seq<Addr>, p: Ptr) {
    p.chain == NULL || ValidPtr(m, s, p)
  }

  /** An occurrence begins with the first byte. */
  lemma NoStart(x: seq<byte>, what: seq<byte>, from: nat, upto: nat)
    requires from <= upto <= |x| && what != []
    requires forall i :: from <= i < upto ==> x[i] != what[0]
    ensures NoneIn(x, what, from, upto)
  {
    forall i | from <= i < upto
      ensures !Occurs(x, what, i)
    {
      if Occurs(x, what, i) {
        OccursFirst(x, what, i);
      }
    }
  }

  /** memchr on what is left of chain number `k` from `at` on. */
  method FindByte(m: Memory, b: Evb, ghost s: seq<Addr>, ghost k: nat, chain: Addr, at: nat, c: byte) returns (p: int)
    requires Inv(m, b, s) && k < |s| && chain == s[k]
    requires chain in m && m[chain].Ok() && at <= m[chain].off
    ensures p == -1 || 0 <= p < m[chain].off - at
    ensures var x, base := Flat(m, s), Base(m, s, k);
      && base + m[chain].off <= |x|
      && (p >= 0 ==> x[base + at + p] == c)
      && forall i :: base + at <= i < base + (if p < 0 then m[chain].off else at + p) ==> x[i] != c
  {
    hide Inv, Flat, Chain.Data, Base;
    Located(m, b, s, k);
    var d := m[chain].Data();
    p := Memchr(d[at..], c);
    ghost var x, base := Flat(m, s), Base(m, s, k);
    assert forall i :: base <= i < base + |d| ==> x[i] == d[i - base];
    assert forall i :: at <= i < |d| ==> d[i] == d[at..][i - at];
    if p >= 0 {
      assert d[at + p] == c;
    }
  }

  ghost predicate NoneIn(x: seq<byte>, what: seq<byte>, from: int, upto: int) {
    forall i :: from <= i < upto ==> !Occurs(x, what, i)
  }

  lemma NoneJoin(x: seq<byte>, what: seq<byte>, from: int, mid: int, upto: int)
    requires NoneIn(x, what, from, mid) && NoneIn(x, what, mid, upto)
    ensures NoneIn(x, what, from, upto)
  {
    hide Occurs;
  }

  lemma NoneEmpty(x: seq<byte>, what: seq<byte>, from: int)
    ensures NoneIn(x, what, from, from)
    ensures !Occurs(x, what, from) ==> NoneIn(x, what, from, from + 1)
  {
    hide Occurs;
  }

  /** What a search from position `from` on must return. */
  ghost predicate SearchResult(m: Memory, s: seq<Addr>, what: seq<byte>, from: int, end: Option<Ptr>, r: Ptr) {
    var x := Flat(m, s);
    if r.pos >= 0 then
      && ValidPtr(m, s, r) && from <= r.pos && Occurs(x, what, r.pos)
      && NoneIn(x, what, from, r.pos)
      && (end.Some? ==> r.pos + |what| <= end.value.pos)
    else
      && r == NOWHERE
      && forall i :: from <= i && Occurs(x, what, i) ==> end.Some? && end.value.pos < i + |what|
  }

  /** The loop of evbuffer_search_range, from a chain on. */
  method SearchFrom(m: Memory, b: Evb, ghost s: seq<Addr>, what: seq<byte>, start: Ptr, ghost k0: nat, end: Option<Ptr>)
    returns (r: Ptr)
    requires Inv(m, b, s) && what != [] && PtrAt(m, s, start, k0)
    requires end.Some? ==> Startable(m, s, end.value)
    ensures SearchResult(m, s, what, start.pos, end, r)
  {
    hide Inv, Flat, Chain.Data, Base, Occurs, NoneIn, Memcmp;
    r := start;
    var chain, lastChain := r.chain, if end.Some? then end.value.chain else NULL;
    var first := what[0];
    ghost var from, x, k := r.pos, Flat(m, s), k0;
    Located(m, b, s, k);
    NoneEmpty(x, what, from);
    while chain != NULL
      invariant chain == r.chain && r.pos >= from
      invariant chain != NULL ==> PtrAt(m, s, r, k)
      invariant chain == NULL ==> r.pos == |x|
      invariant NoneIn(x, what, from, r.pos)
      decreases |s| - k, if chain != NULL && chain in m then m[chain].off - r.posInChain else 0
    {
      Located(m, b, s, k);
      if k + 1 < |s| {
        Located(m, b, s, k + 1);
      }
      var p := FindByte(m, b, s, k, chain, r.posInChain, first);
      if p >= 0 {
        NoStart(x, what, r.pos, r.pos + p);
        NoneJoin(x, what, from, r.pos, r.pos + p);
        r := r.(pos := r.pos + p, posInChain := r.posInChain + p);
        assert PtrAt(m, s, r, k);
        var c := PtrMemcmp(m, b, s, r, what);
        if c == 0 {
          if end.Some? && r.pos + |what| > end.value.pos {
            PastEnd(x, what, from, r.pos);
            return NOWHERE;
          }
          return;
        }
        NoneEmpty(x, what, r.pos);
        NoneJoin(x, what, from, r.pos, r.pos + 1);
        r := r.(pos := r.pos + 1, posInChain := r.posInChain + 1);
        if r.posInChain == m[chain].off {
          chain := m[chain].next;
          r := r.(chain := chain, posInChain := 0);
          k := k + 1;
        }
      } else {
        NoStart(x, what, r.pos, Base(m, s, k) + m[chain].off);
        NoneJoin(x, what, from, r.pos, Base(m, s, k) + m[chain].off);
        if chain == lastChain {
          EndHere(m, b, s, end.value, k);
          PastEnd(x, what, from, Base(m, s, k) + m[chain].off);
          return NOWHERE;
        }
        r := r.(pos := r.pos + (m[chain].off - r.posInChain));
        chain := m[chain].next;
        r := r.(chain := chain, posInChain := 0);
        k := k + 1;
      }
    }
    PastEnd(x, what, from, |x|);
    return NOWHERE;
  }

  /** evbuffer_search_range; evbuffer_search is the case without an end. */
  method SearchRange(m: Memory, b: Evb, ghost s: seq<Addr>, what: seq<byte>, start: Option<Ptr>, end: Option<Ptr>)
    returns (r: Ptr)
    requires Inv(m, b, s)
    requires start.Some? ==> Startable(m, s, start.value)
    requires end.Some? ==> Startable(m, s, end.value)
    ensures if what == [] || |what| > EV_SSIZE_MAX then
              r == if start.Some? then start.value else Ptr(0, b.first, 0)
            else if start.Some? && start.value.chain == NULL then r == NOWHERE
            else SearchResult(m, s, what, if start.Some? then start.value.pos else 0, end, r)
  {
    hide Inv, Flat, Chain.Data, Base, Occurs, NoneIn, SearchResult;
    Ends(m, b, s);
    r := if start.Some? then start.value else Ptr(0, b.first, 0);
    if what == [] || |what| > EV_SSIZE_MAX {
      return;
    }
    if r.chain == NULL {
      r := NOWHERE;
      if start.None? {
        NothingThere(m, s, what, end);
      }
      return;
    }
    ghost var k: nat := 0;
    if start.Some? {
      k :| PtrAt(m, s, r, k);
    } else {
      Located(m, b, s, 0);
      BaseZero(m, s);
    }
    r := SearchFrom(m, b, s, what, r, k, end);
  }

  lemma NothingThere(m: Memory, s: seq<Addr>, what: seq<byte>, end: Option<Ptr>)
    requires s == [] && what != []
    ensures SearchResult(m, s, what, 0, end, NOWHERE)
  {
    FlatNil(m);
  }

  lemma BaseZero(m: Memory, s: seq<Addr>)
    ensures Base(m, s, 0) == 0
  {
    assert s[..0] == [];
    FlatNil(m);
  }

  /** Nothing begins before `bound`, so nothing ends before `bound + |what|`. */
  lemma PastEnd(x: seq<byte>, what: seq<byte>, from: int, bound: int)
    requires NoneIn(x, what, from, bound) && what != []
    ensures forall i :: from <= i && Occurs(x, what, i) ==> bound <= i < |x|
  {
  }

  /** A pointer into chain number `k` is not behind that chain. */
  lemma EndHere(m: Memory, b: Evb, s: seq<Addr>, p: Ptr, k: nat)
    requires Inv(m, b, s) && Startable(m, s, p) && k < |s| && p.chain == s[k] && s[k] in m && p.chain != NULL
    ensures p.pos <= Base(m, s, k) + m[s[k]].off
  {
    hide Flat, Distinct, Base;
    DistinctPairs(s);
    var j: nat :| PtrAt(m, s, p, j);
    assert j == k;
  }
}
