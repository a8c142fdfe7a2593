/** Line endings in an evbuffer, and reading a line at a time. */
module EvbufferLines {
  import opened EvbufferStore
  import opened Lists
  import opened EvbufferOps
  import opened EvbufferFront
  import opened EvbufferSearch
  import opened Options

  datatype EolStyle = EolAny | EolCrlf | EolCrlfStrict | EolLf

  const CRLF: seq<byte> := [CR, LF]

  datatype PtrHow = PtrSet | PtrAdd

  /** evbuffer_ptr_set. The pointer leads nowhere when -1 is returned, except
      that an addition refused at the start leaves it alone. */
  method SetPtr(m: Memory, b: Evb, ghost s: seq<Addr>, p: Ptr, position: nat, how: PtrHow) returns (r: Ptr, result: int)
    requires Inv(m, b, s)
    requires how == PtrAdd ==> p.pos < 0 || ValidPtr(m, s, p)
    ensures result == 0 || result == -1
    ensures var target := if how == PtrSet then position else p.pos + position;
      && (result == 0 <==>
            && (how == PtrAdd ==> 0 <= p.pos && position <= EV_SIZE_MAX - p.pos)
            && target < b.totalLen)
      && (result == 0 ==> ValidPtr(m, s, r) && r.pos == target && r.chain != NULL)
      && (result == 0 ==> exists k: nat :: PtrAt(m, s, r, k) && r.posInChain < m[s[k]].off)
    ensures result == -1 ==>
      r == if how == PtrAdd && (p.pos < 0 || position > EV_SIZE_MAX - p.pos) then p else p.(pos := -1, chain := NULL)
  {
    hide Inv, Flat, Chain.Data, Base;
    Ends(m, b, s);
    var chain: Addr, left: nat, at: nat := NULL, position, 0;
    r := p;
    ghost var k: nat := 0;
    ghost var target: int := position;
    match how {
      case PtrSet =>
        chain := b.first;
        r := r.(pos := position);
        if s != [] {
          Located(m, b, s, 0);
          BaseZero(m, s);
        }
      case PtrAdd =>
        if p.pos < 0 || EV_SIZE_MAX - position < p.pos {
          return p, -1;
        }
        chain := p.chain;
        r := r.(pos := p.pos + position);
        at := p.posInChain;
        k :| PtrAt(m, s, p, k);
        Located(m, b, s, k);
        target := p.pos + position;
    }
    while chain != NULL && at + left >= m[chain].off
      invariant chain != NULL <==> k < |s|
      invariant chain != NULL ==>
        chain == s[k] && chain in m && m[chain].Ok() && at <= m[chain].off &&
        Base(m, s, k) + at + left == target
      invariant chain == NULL ==> target >= |Flat(m, s)|
      decreases |s| - k
    {
      Located(m, b, s, k);
      if k + 1 < |s| {
        Located(m, b, s, k + 1);
      }
      left := left - (m[chain].off - at);
      chain := m[chain].next;
      at := 0;
      k := k + 1;
    }
    if chain != NULL {
      Located(m, b, s, k);
      r := r.(chain := chain, posInChain := at + left);
      assert PtrAt(m, s, r, k);
      result := 0;
    } else {
      r := r.(chain := NULL, pos := -1);
      result := -1;
    }
  }

  /** No byte of `cs` at the positions from `from` up to `upto`. */
  ghost predicate NoByte(x: seq<byte>, cs: set<byte>, from: int, upto: int) {
    forall i :: from <= i < upto && 0 <= i < |x| ==> x[i] !in cs
  }

  /** What a scan for the bytes `cs` from position `from` on must return. */
  ghost predicate ScanResult(m: Memory, s: seq<Addr>, cs: set<byte>, from: int, r: Ptr) {
    var x := Flat(m, s);
    if r.pos >= 0 then
      && ValidPtr(m, s, r) && from <= r.pos < |x| && x[r.pos] in cs && NoByte(x, cs, from, r.pos)
    else
      NoByte(x, cs, from, |x|)
  }

  /** find_eol_char on what is left of chain number `k` from `at` on. */
  method FindEolIn(m: Memory, b: Evb, ghost s: seq<Addr>, ghost k: nat, chain: Addr, at: nat) returns (p: int)
    requires Inv(m, b, s) && k < |s| && chain == s[k]
    requires chain in m && m[chain].Ok() && at <= m[chain].off
    ensures p == -1 || 0 <= p < m[chain].off - at
    ensures var x, base := Flat(m, s), Base(m, s, k);
      && base + m[chain].off <= |x|
      && (p >= 0 ==> x[base + at + p] in {CR, LF})
      && NoByte(x, {CR, LF}, base + at, base + (if p < 0 then m[chain].off else at + p))
  {
    hide Inv, Flat, Chain.Data, Base;
    Located(m, b, s, k);
    var d := m[chain].Data();
    p := FindEolChar(d[at..]);
    ghost var x, base := Flat(m, s), Base(m, s, k);
    assert forall i :: base <= i < base + |d| ==> x[i] == d[i - base];
    assert forall i :: at <= i < |d| ==> d[i] == d[at..][i - at];
    if p >= 0 {
      assert d[at + p] == d[at..][p];
    }
  }

  /** The pointer to the start of the chain behind the one `r` is in. */
  lemma NextPtr(m: Memory, b: Evb, s: seq<Addr>, r: Ptr, k: nat)
    requires Inv(m, b, s) && PtrAt(m, s, r, k)
    ensures k < |s| && r.chain == s[k] && r.chain != NULL && r.chain in m && m[r.chain].Ok() &&
      r.posInChain <= m[r.chain].off
    ensures r.pos == Base(m, s, k) + r.posInChain
    ensures var r1 := Ptr(r.pos + (m[r.chain].off - r.posInChain), m[r.chain].next, 0);
      if r1.chain == NULL then r1.pos == |Flat(m, s)| else PtrAt(m, s, r1, k + 1)
  {
    hide Inv, Flat, Chain.Data, Base;
    Located(m, b, s, k);
    if k + 1 < |s| {
      Located(m, b, s, k + 1);
    }
  }

  lemma MovedPtr(m: Memory, s: seq<Addr>, r: Ptr, k: nat, n: nat)
    requires PtrAt(m, s, r, k) && r.chain in m && r.posInChain + n < m[r.chain].off
    ensures PtrAt(m, s, Ptr(r.pos + n, r.chain, r.posInChain + n), k)
  {
    hide Flat, Base;
  }

  /** evbuffer_strchr */
  method Strchr(m: Memory, b: Evb, ghost s: seq<Addr>, it: Ptr, chr: byte) returns (r: Ptr)
    requires Inv(m, b, s) && (it.chain == NULL ==> it.pos >= b.totalLen)
    requires it.chain != NULL ==> ValidPtr(m, s, it)
    ensures ScanResult(m, s, {chr}, it.pos, r)
    ensures r.pos >= 0 ==> r.chain != NULL && exists k: nat :: PtrAt(m, s, r, k) && r.posInChain < m[s[k]].off
  {
    hide Inv, Flat, Chain.Data, Base, NoByte, PtrAt;
    Ends(m, b, s);
    r := it;
    ghost var x, from, k: nat := Flat(m, s), it.pos, |s|;
    if it.chain != NULL {
      k :| PtrAt(m, s, it, k);
      NextPtr(m, b, s, it, k);
    }
    NoByteJoin(x, {chr}, from, from, from);
    while r.chain != NULL
      invariant r.chain != NULL ==> PtrAt(m, s, r, k)
      invariant from <= r.pos && (r.chain == NULL ==> r.pos >= |x|)
      invariant NoByte(x, {chr}, from, r.pos)
      decreases |s| - k
    {
      NextPtr(m, b, s, r, k);
      var chain, i := r.chain, r.posInChain;
      var p := FindByte(m, b, s, k, chain, i, chr);
      FoundOnly(x, chr, r.pos, if p < 0 then r.pos + (m[chain].off - i) else r.pos + p);
      if p >= 0 {
        NoByteJoin(x, {chr}, from, r.pos, r.pos + p);
        MovedPtr(m, s, r, k, p);
        r := Ptr(r.pos + p, chain, i + p);
        return;
      }
      NoByteJoin(x, {chr}, from, r.pos, r.pos + (m[chain].off - i));
      r := Ptr(r.pos + (m[chain].off - i), m[chain].next, 0);
      k := k + 1;
    }
    NoByteLess(x, {chr}, from, r.pos);
    r := NOWHERE;
  }

  /** evbuffer_find_eol_char. */
  method FindEol(m: Memory, b: Evb, ghost s: seq<Addr>, it: Ptr) returns (r: Ptr)
    requires Inv(m, b, s) && (it.chain == NULL ==> it.pos >= b.totalLen)
    requires it.chain != NULL ==> ValidPtr(m, s, it)
    ensures ScanResult(m, s, {CR, LF}, it.pos, r)
    ensures r.pos >= 0 ==> r.chain != NULL && exists k: nat :: PtrAt(m, s, r, k) && r.posInChain < m[s[k]].off
  {
    hide Inv, Flat, Chain.Data, Base, NoByte, PtrAt;
    Ends(m, b, s);
    r := it;
    ghost var x, from, k: nat := Flat(m, s), it.pos, |s|;
    if it.chain != NULL {
      k :| PtrAt(m, s, it, k);
      NextPtr(m, b, s, it, k);
    }
    NoByteJoin(x, {CR, LF}, from, from, from);
    while r.chain != NULL
      invariant r.chain != NULL ==> PtrAt(m, s, r, k)
      invariant from <= r.pos && (r.chain == NULL ==> r.pos >= |x|)
      invariant NoByte(x, {CR, LF}, from, r.pos)
      decreases |s| - k
    {
      NextPtr(m, b, s, r, k);
      var chain, i := r.chain, r.posInChain;
      var p := FindEolIn(m, b, s, k, chain, i);
      if p >= 0 {
        NoByteJoin(x, {CR, LF}, from, r.pos, r.pos + p);
        MovedPtr(m, s, r, k, p);
        r := Ptr(r.pos + p, chain, i + p);
        return;
      }
      NoByteJoin(x, {CR, LF}, from, r.pos, r.pos + (m[chain].off - i));
      r := Ptr(r.pos + (m[chain].off - i), m[chain].next, 0);
      k := k + 1;
    }
    NoByteLess(x, {CR, LF}, from, r.pos);
    r := NOWHERE;
  }

  lemma FoundOnly(x: seq<byte>, chr: byte, from: int, upto: int)
    requires 0 <= from <= upto <= |x| && forall i :: from <= i < upto ==> x[i] != chr
    ensures NoByte(x, {chr}, from, upto)
  {
  }

  lemma NoByteJoin(x: seq<byte>, cs: set<byte>, from: int, mid: int, upto: int)
    requires from == mid || NoByte(x, cs, from, mid)
    requires mid == upto || NoByte(x, cs, mid, upto)
    ensures NoByte(x, cs, from, upto)
  {
  }

  lemma NoByteLess(x: seq<byte>, cs: set<byte>, from: int, upto: int)
    requires NoByte(x, cs, from, upto) && |x| <= upto
    ensures NoByte(x, cs, from, |x|)
  {
  }

  /** The length of the run of CR and LF bytes that begins at `i`. */
  ghost function Span(x: seq<byte>, i: nat): nat
    decreases |x| - i
  {
    if i < |x| && IsEol(x[i]) then 1 + Span(x, i + 1) else 0
  }

  lemma {:induction false} SpanFits(x: seq<byte>, i: nat)
    requires i <= |x|
    ensures i + Span(x, i) <= |x|
    ensures forall j :: i <= j < i + Span(x, i) ==> IsEol(x[j])
    ensures i + Span(x, i) < |x| ==> !IsEol(x[i + Span(x, i)])
    decreases |x| - i
  {
    if i < |x| && IsEol(x[i]) {
      SpanFits(x, i + 1);
    }
  }

  /** evbuffer_strspn with the set CR, LF: the length of the run at `p`, and `p`
      moved past it. If the run ends with the buffer, the result designates the
      start of the last chain instead of its end. */
  method Strspn(m: Memory, b: Evb, ghost s: seq<Addr>, p: Ptr) returns (count: int, r: Ptr)
    requires Inv(m, b, s) && (p.chain != NULL ==> ValidPtr(m, s, p))
    ensures p.chain == NULL ==> count == -1 && r == p
    ensures p.chain != NULL ==> 0 <= p.pos && count == Span(Flat(m, s), p.pos) && r.pos == p.pos + count
    ensures p.chain != NULL && r.pos < b.totalLen ==> ValidPtr(m, s, r)
    ensures p.chain != NULL && r.pos >= b.totalLen ==> r.chain == b.last && r.posInChain == 0
  {
    hide Inv, Flat, Chain.Data, Base, Span, Linked, Elems;
    r := p;
    if p.chain == NULL {
      return -1, p;
    }
    Ends(m, b, s);
    var chain: Addr, i: nat, n: nat := p.chain, p.posInChain, 0;
    ghost var x := Flat(m, s);
    ghost var k: nat :| PtrAt(m, s, p, k);
    Located(m, b, s, k);
    while true
      invariant k < |s| && chain == s[k] && chain in m && m[chain].Ok() && i <= m[chain].off
      invariant p.pos + n == Base(m, s, k) + i
      invariant n + Span(x, p.pos + n) == Span(x, p.pos)
      decreases |s| - k
    {
      Located(m, b, s, k);
      var j := SpnIn(m, b, s, k, chain, i);
      n, i := n + (j - i), j;
      if i < m[chain].off {
        InPtr(m, s, k, p.pos + n, i);
        return n, Ptr(p.pos + n, chain, i);
      }
      i := 0;
      if k + 1 < |s| {
        Located(m, b, s, k + 1);
      }
      if m[chain].next == NULL {
        return n, Ptr(p.pos + n, chain, i);
      }
      chain, k := m[chain].next, k + 1;
    }
  }

  /** The inner loop: where the run in one chain ends. */
  method SpnIn(m: Memory, b: Evb, ghost s: seq<Addr>, ghost k: nat, chain: Addr, i0: nat) returns (i: nat)
    requires Inv(m, b, s) && k < |s| && chain == s[k] && chain in m && m[chain].Ok() && i0 <= m[chain].off
    ensures i0 <= i <= m[chain].off
    ensures Span(Flat(m, s), Base(m, s, k) + i0) == i - i0 + Span(Flat(m, s), Base(m, s, k) + i)
    ensures i < m[chain].off || k + 1 == |s| ==> Span(Flat(m, s), Base(m, s, k) + i) == 0
  {
    hide Inv, Flat, Chain.Data, Base;
    Located(m, b, s, k);
    var d := m[chain].Data();
    ghost var x, base := Flat(m, s), Base(m, s, k);
    InChain(x, d, base);
    i := i0;
    while i < |d|
      invariant i0 <= i <= |d| && forall j :: i0 <= j < i ==> IsEol(d[j])
    {
      if !IsEol(d[i]) {
        break;
      }
      i := i + 1;
    }
    SpanSkip(x, base + i0, i - i0);
  }

  lemma InChain(x: seq<byte>, d: seq<byte>, base: nat)
    requires base + |d| <= |x| && x[base..base + |d|] == d
    ensures forall j :: base <= j < base + |d| ==> x[j] == d[j - base]
  {
  }

  lemma {:induction false} SpanSkip(x: seq<byte>, from: nat, n: nat)
    requires from + n <= |x| && forall j :: from <= j < from + n ==> IsEol(x[j])
    ensures Span(x, from) == n + Span(x, from + n)
    decreases n
  {
    if n > 0 {
      SpanSkip(x, from + 1, n - 1);
    }
  }

  lemma InPtr(m: Memory, s: seq<Addr>, k: nat, pos: nat, i: nat)
    requires k < |s| && s[k] in m && m[s[k]].Ok() && i <= m[s[k]].off && pos == Base(m, s, k) + i
    ensures ValidPtr(m, s, Ptr(pos, s[k], i))
  {
    assert PtrAt(m, s, Ptr(pos, s[k], i), k);
  }

  /** So the pointer returned is right exactly if the run does not reach the end
      of the buffer; evbuffer_search_eol passes a copy and drops it. */
  lemma StrspnPtr(m: Memory, b: Evb, s: seq<Addr>, r: Ptr)
    requires Inv(m, b, s) && b.totalLen > 0 && 0 <= r.pos <= b.totalLen
    requires if r.pos < b.totalLen then ValidPtr(m, s, r) else r.chain == b.last && r.posInChain == 0
    ensures ValidPtr(m, s, r) <==> r.pos < b.totalLen
  {
    hide Inv, Flat, Chain.Data, Base;
    Ends(m, b, s);
    if r.pos >= b.totalLen && ValidPtr(m, s, r) {
      var k: nat :| PtrAt(m, s, r, k);
      LastOnly(m, b, s, k);
      Located(m, b, s, k);
      LastFull(m, b, s);
    }
  }

  /** A buffer whose run reaches its end: a chain that holds a single LF. */
  lemma StrspnExists()
    ensures var c := Chain(NULL, 0, 1, seq(MIN_BUFFER_SIZE - EVBUFFER_CHAIN_SIZE, _ => LF));
      var m, b := map[At(1) := c], Evb(At(1), At(1), FirstSlot, 1, false, false);
      && Inv(m, b, [At(1)]) && ValidPtr(m, [At(1)], Ptr(0, At(1), 0)) && Span(Flat(m, [At(1)]), 0) == 1
      && !ValidPtr(m, [At(1)], Ptr(1, b.last, 0)) && ValidPtr(m, [At(1)], Ptr(1, At(1), 1))
  {
    var c := Chain(NULL, 0, 1, seq(MIN_BUFFER_SIZE - EVBUFFER_CHAIN_SIZE, _ => LF));
    var m, b := map[At(1) := c], Evb(At(1), At(1), FirstSlot, 1, false, false);
    FlatSingle(m, At(1));
    FlatNil(m);
    assert Inv(m, b, [At(1)]);
    StrspnPtr(m, b, [At(1)], Ptr(1, b.last, 0));
    SpanSkip(Flat(m, [At(1)]), 0, 1);
    assert PtrAt(m, [At(1)], Ptr(0, At(1), 0), 0) && PtrAt(m, [At(1)], Ptr(1, At(1), 1), 0);
  }

  lemma LastOnly(m: Memory, b: Evb, s: seq<Addr>, k: nat)
    requires Inv(m, b, s) && k < |s| && s[k] == b.last
    ensures k + 1 == |s|
  {
    hide Flat;
    DistinctPairs(s);
  }

  lemma LastFull(m: Memory, b: Evb, s: seq<Addr>)
    requires Inv(m, b, s) && b.totalLen > 0
    ensures s != [] && s[|s| - 1] in m && m[s[|s| - 1]].off > 0
  {
    hide Flat, Distinct;
    if |s| == 1 {
      assert s == [s[0]];
      FlatSingle(m, s[0]);
    } else if s == [] {
      FlatNil(m);
    }
  }

  /** The length of the terminator of this style at position `i`; 0 is none. */
  ghost function EolAt(x: seq<byte>, style: EolStyle, i: int): nat {
    if !(0 <= i < |x|) then 0
    else match style
      case EolAny => Span(x, i)
      case EolCrlfStrict => if Occurs(x, CRLF, i) then 2 else 0
      case EolCrlf => if x[i] == LF then 1 else if Occurs(x, CRLF, i) then 2 else 0
      case EolLf => if x[i] == LF then 1 else 0
  }

  /** `i` is the first position from `from` on with a terminator. */
  ghost predicate FirstEol(x: seq<byte>, style: EolStyle, from: int, i: int) {
    from <= i < |x| && EolAt(x, style, i) > 0 && forall j :: from <= j < i ==> EolAt(x, style, j) == 0
  }

  ghost predicate NoEol(x: seq<byte>, style: EolStyle, from: int) {
    forall j :: from <= j ==> EolAt(x, style, j) == 0
  }

  /** What evbuffer_search_eol returns for a search from position `from` on. */
  ghost predicate EolResult(m: Memory, s: seq<Addr>, style: EolStyle, from: int, it: Ptr, len: int) {
    if it.pos >= 0 then FirstEol(Flat(m, s), style, from, it.pos) && len == EolAt(Flat(m, s), style, it.pos)
    else NoEol(Flat(m, s), style, from)
  }

  /** A scan for the bytes that can begin a terminator. */
  lemma ScanIsEol(m: Memory, s: seq<Addr>, style: EolStyle, from: nat, r: Ptr)
    requires style == EolAny || style == EolLf
    requires ScanResult(m, s, if style == EolLf then {LF} else {CR, LF}, from, r)
    ensures if r.pos >= 0 then FirstEol(Flat(m, s), style, from, r.pos) else NoEol(Flat(m, s), style, from)
    ensures r.pos >= 0 ==> r.pos < |Flat(m, s)|
    ensures r.pos >= 0 && style == EolLf ==> EolAt(Flat(m, s), style, r.pos) == 1
  {
    hide Flat, Occurs;
  }

  /** A CRLF search is a search for the strict terminator. */
  lemma SearchIsEol(m: Memory, s: seq<Addr>, from: nat, r: Ptr)
    requires SearchResult(m, s, CRLF, from, None, r)
    ensures if r.pos >= 0 then FirstEol(Flat(m, s), EolCrlfStrict, from, r.pos)
      else NoEol(Flat(m, s), EolCrlfStrict, from)
    ensures r.pos >= 0 ==> EolAt(Flat(m, s), EolCrlfStrict, r.pos) == 2
  {
    hide Flat;
  }

  /** Positions without CR or LF have no terminator of the CRLF style. */
  lemma NoEolHere(x: seq<byte>, from: int, upto: int)
    requires NoByte(x, {CR, LF}, from, upto)
    ensures forall j :: from <= j < upto ==> EolAt(x, EolCrlf, j) == 0
  {
    forall j | from <= j < upto
      ensures EolAt(x, EolCrlf, j) == 0
    {
      if Occurs(x, CRLF, j) {
        OccursFirst(x, CRLF, j);
      }
    }
  }

  /** No terminator of the CRLF style between two positions. */
  ghost predicate Clear(x: seq<byte>, from: int, upto: int) {
    forall j :: from <= j < upto ==> EolAt(x, EolCrlf, j) == 0
  }

  lemma ClearScan(x: seq<byte>, from: int, mid: int, upto: int)
    requires Clear(x, from, mid) && NoByte(x, {CR, LF}, mid, upto) && mid <= upto
    ensures Clear(x, from, upto)
  {
    hide NoByte, EolAt;
    NoEolHere(x, mid, upto);
  }

  lemma ClearEnd(m: Memory, s: seq<Addr>, from: int, upto: int)
    requires Clear(Flat(m, s), from, upto) && upto >= |Flat(m, s)|
    ensures EolResult(m, s, EolCrlf, from, NOWHERE, 0)
  {
    hide Flat;
  }

  lemma ClearHere(m: Memory, s: seq<Addr>, from: int, it: Ptr)
    requires Clear(Flat(m, s), from, it.pos) && 0 <= from <= it.pos < |Flat(m, s)|
    ensures Flat(m, s)[it.pos] == LF ==> EolResult(m, s, EolCrlf, from, it, 1)
    ensures Flat(m, s)[it.pos] != LF && Occurs(Flat(m, s), CRLF, it.pos) ==> EolResult(m, s, EolCrlf, from, it, 2)
    ensures Flat(m, s)[it.pos] != LF && !Occurs(Flat(m, s), CRLF, it.pos) ==> Clear(Flat(m, s), from, it.pos + 1)
  {
    hide Flat, Occurs;
  }

  /** EOL_CRLF: the loop of evbuffer_search_eol that stops at LF or CRLF. */
  method SearchCrlf(m: Memory, b: Evb, ghost s: seq<Addr>, start: Ptr) returns (it: Ptr, len: int)
    requires Inv(m, b, s) && start.pos >= 0 && (start.chain == NULL ==> start.pos >= b.totalLen)
    requires start.chain != NULL ==> ValidPtr(m, s, start)
    ensures EolResult(m, s, EolCrlf, start.pos, it, len)
  {
    hide Inv, Flat, Chain.Data, Base, Occurs, Clear, EolResult, EolAt, NoByte;
    Ends(m, b, s);
    it, len := start, 0;
    ghost var x := Flat(m, s);
    ClearNone(x, it.pos);
    while true
      invariant 0 <= start.pos <= it.pos && (it.chain == NULL ==> it.pos >= |x|)
      invariant it.chain != NULL ==> ValidPtr(m, s, it)
      invariant Clear(x, start.pos, it.pos)
      decreases |x| + 1 - it.pos
    {
      ghost var from := it.pos;
      it := FindEol(m, b, s, it);
      if it.pos < 0 {
        NoneToEnd(m, s, start.pos, from);
        return NOWHERE, 0;
      }
      ClearScan(x, start.pos, from, it.pos);
      var c := GetChr(m, b, s, it);
      ClearHere(m, s, start.pos, it);
      if c == LF {
        return it, 1;
      }
      var differs := PtrMemcmp(m, b, s, it, CRLF);
      if differs == 0 {
        return it, 2;
      }
      ghost var at := it.pos;
      var result: int;
      it, result := SetPtr(m, b, s, it, 1, PtrAdd);
      if result < 0 {
        ClearEnd(m, s, start.pos, at + 1);
        return NOWHERE, 0;
      }
    }
  }

  lemma ClearNone(x: seq<byte>, from: int)
    ensures Clear(x, from, from)
  {
  }

  lemma NoneToEnd(m: Memory, s: seq<Addr>, from: int, mid: int)
    requires Clear(Flat(m, s), from, mid) && NoByte(Flat(m, s), {CR, LF}, mid, |Flat(m, s)|)
    ensures EolResult(m, s, EolCrlf, from, NOWHERE, 0)
  {
    hide Flat, NoByte, EolAt, EolResult, Clear;
    if mid <= |Flat(m, s)| {
      ClearScan(Flat(m, s), from, mid, |Flat(m, s)|);
      ClearEnd(m, s, from, |Flat(m, s)|);
    } else {
      ClearEnd(m, s, from, mid);
    }
  }

  /** evbuffer_getchr. */
  method GetChr(m: Memory, b: Evb, ghost s: seq<Addr>, it: Ptr) returns (c: byte)
    requires Inv(m, b, s) && it.chain != NULL
    requires exists k: nat :: PtrAt(m, s, it, k) && it.posInChain < m[s[k]].off
    ensures 0 <= it.pos < |Flat(m, s)| && c == Flat(m, s)[it.pos]
  {
    hide Inv, Flat, Base, Chain.Data;
    ghost var k: nat :| PtrAt(m, s, it, k) && it.posInChain < m[s[k]].off;
    Located(m, b, s, k);
    c := m[it.chain].Data()[it.posInChain];
    assert Flat(m, s)[Base(m, s, k)..Base(m, s, k) + m[s[k]].off][it.posInChain] == Flat(m, s)[it.pos];
  }

  /** evbuffer_search_eol. */
  method SearchEol(m: Memory, b: Evb, ghost s: seq<Addr>, start: Option<Ptr>, style: EolStyle)
      returns (it: Ptr, len: int)
    requires Inv(m, b, s)
    requires start.Some? ==> start.value.pos >= 0 && start.value.chain != NULL && ValidPtr(m, s, start.value)
    ensures EolResult(m, s, style, if start.Some? then start.value.pos else 0, it, len)
  {
    hide Inv, Flat, Chain.Data, Base, Occurs, ScanResult, SearchResult, FirstEol, NoEol;
    Ends(m, b, s);
    it := if start.Some? then start.value else Ptr(0, b.first, 0);
    len := 0;
    if start.None? && s != [] {
      Located(m, b, s, 0);
      BaseZero(m, s);
      assert PtrAt(m, s, it, 0);
    }
    ghost var from: nat := it.pos;
    match style {
      case EolAny =>
        it := FindEol(m, b, s, it);
        ScanIsEol(m, s, style, from, it);
        if it.pos >= 0 {
          var past: Ptr;
          len, past := Strspn(m, b, s, it);
        }
      case EolCrlfStrict =>
        it := SearchRange(m, b, s, CRLF, Some(it), None);
        if from == 0 && s == [] {
          NothingThere(m, s, CRLF, None);
        }
        SearchIsEol(m, s, from, it);
        if it.pos >= 0 {
          len := 2;
        }
      case EolCrlf =>
        it, len := SearchCrlf(m, b, s, it);
      case EolLf =>
        it := Strchr(m, b, s, it, LF);
        ScanIsEol(m, s, style, from, it);
        if it.pos >= 0 {
          len := 1;
        }
    }
  }
}
