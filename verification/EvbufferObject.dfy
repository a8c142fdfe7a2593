/** The evbuffer as an object: its fields are updated in place, several buffers
    share one heap, and every operation is specified on the plain sequence of
    bytes the buffer holds. The statements of each operation are in the
    modules EvbufferOps to EvbufferLines; here their effect is stored. */
module EvbufferObject {
  import opened EvbufferStore
  import opened Lists
  import opened EvbufferOps
  import opened Options
  import Front = EvbufferFront
  import Move = EvbufferMove
  import Taking = EvbufferRemove
  import Pulling = EvbufferPullup
  import Search = EvbufferSearch
  import Lines = EvbufferLines

  /** The heap the chains live in. */
  class Store {
    var mem: Memory

    constructor ()
      ensures mem == map[]
    {
      mem := map[];
    }
  }

  function Min(a: nat, b: nat): (r: nat)
    ensures r <= a && r <= b && (r == a || r == b)
  {
    if a <= b then a else b
  }

  class Evbuffer {
    const store: Store
    var first: Addr
    var last: Addr
    var lastWithDatap: Slot
    var totalLen: nat
    var freezeStart: bool
    var freezeEnd: bool

    /** The chains from `first` on. */
    ghost var spine: seq<Addr>

    constructor (store: Store)
      requires NULL !in store.mem
      ensures this.store == store && Valid() && Contents() == [] && Own() == {}
      ensures !freezeStart && !freezeEnd
    {
      this.store := store;
      first, last, lastWithDatap, totalLen := NULL, NULL, FirstSlot, 0;
      freezeStart, freezeEnd := false, false;
      spine := [];
      new;
      Move.EmptyBuffer(store.mem, Fields());
    }

    function Fields(): Evb
      reads this
    {
      Evb(first, last, lastWithDatap, totalLen, freezeStart, freezeEnd)
    }

    ghost predicate Valid()
      reads this, store
    {
      Inv(store.mem, Fields(), spine)
    }

    /** The bytes held, in order. */
    ghost function Contents(): seq<byte>
      reads this, store
    {
      Flat(store.mem, spine)
    }

    /** The chains that belong to this buffer. */
    ghost function Own(): set<Addr>
      reads this
    {
      Elems(spine)
    }

    method Set(b: Evb, ghost s: seq<Addr>)
      modifies this
      ensures Fields() == b && spine == s
    {
      first, last, lastWithDatap, totalLen := b.first, b.last, b.lastWithDatap, b.totalLen;
      freezeStart, freezeEnd := b.freezeStart, b.freezeEnd;
      spine := s;
    }

    method Add(data: seq<byte>, canAlloc: bool) returns (result: int)
      requires Valid()
      modifies this, store
      ensures Valid() && Frame(old(store.mem), old(Own()), store.mem, Own())
      ensures freezeStart == old(freezeStart) && freezeEnd == old(freezeEnd)
      ensures result == 0 ==> Contents() == old(Contents()) + data
      ensures result != 0 ==> result == -1 && Contents() == old(Contents())
      ensures canAlloc && |data| <= EVBUFFER_CHAIN_MAX - EVBUFFER_CHAIN_SIZE ==>
        (result == 0 <==> !old(freezeEnd) && |old(Contents())| + |data| <= EV_SIZE_MAX)
    {
      hide Shape, Linked, Flat, Frame, Elems;
      var m, b;
      ghost var s;
      m, b, s, result := EvbufferOps.Add(store.mem, Fields(), spine, data, canAlloc);
      store.mem := m;
      Set(b, s);
    }

    method Prepend(data: seq<byte>, canAlloc: bool) returns (result: int)
      requires Valid()
      modifies this, store
      ensures Valid() && Frame(old(store.mem), old(Own()), store.mem, Own())
      ensures freezeStart == old(freezeStart) && freezeEnd == old(freezeEnd)
      ensures result == 0 ==> Contents() == data + old(Contents())
      ensures result != 0 ==>
        result == -1 && Contents() == old(Front.Leftover(store.mem, Fields(), data)) + old(Contents())
      ensures canAlloc && |data| <= EVBUFFER_CHAIN_MAX - EVBUFFER_CHAIN_SIZE ==>
        && (result == 0 <==> !old(freezeStart) && |old(Contents())| + |data| <= EV_SIZE_MAX)
        && (result != 0 ==> Contents() == old(Contents()))
    {
      hide Shape, Linked, Flat, Frame, Elems;
      Ends(store.mem, Fields(), spine);
      var m, b;
      ghost var s, c := [], Contents();
      m, b, s, result := Front.Prepend(store.mem, Fields(), spine, data, canAlloc);
      assert [] + c == c;
      store.mem := m;
      Set(b, s);
    }

    method Drain(len: nat) returns (result: int)
      requires Valid()
      modifies this, store
      ensures Valid() && Frame(old(store.mem), old(Own()), store.mem, Own())
      ensures freezeStart == old(freezeStart) && freezeEnd == old(freezeEnd)
      ensures result == if old(Contents()) != [] && old(freezeStart) then -1 else 0
      ensures Contents() == if result == 0 then old(Contents())[Min(len, |old(Contents())|)..] else old(Contents())
    {
      hide Shape, Linked, Flat, Frame, Elems;
      var m, b;
      ghost var s;
      m, b, s, result := EvbufferOps.Drain(store.mem, Fields(), spine, len);
      store.mem := m;
      Set(b, s);
    }

    method CopyOut(out: array<byte>, datlen: nat) returns (result: int)
      requires Valid() && Min(datlen, |Contents()|) <= out.Length
      modifies out
      ensures result == if datlen > 0 && Contents() != [] && freezeStart then -1 else Min(datlen, |Contents()|)
      ensures Contents() == old(Contents()) && Valid()
      ensures out[..] == if result < 0 then old(out[..]) else Contents()[..result] + old(out[result..])
    {
      hide Shape, Linked, Flat, Frame, Elems;
      var data: seq<byte>;
      data, result := Front.CopyOut(store.mem, Fields(), spine, datlen);
      forall i | 0 <= i < |data| {
        out[i] := data[i];
      }
    }

    method Remove(out: array<byte>, datlen: nat) returns (result: int)
      requires Valid() && Min(datlen, |Contents()|) <= out.Length
      modifies this, store, out
      ensures Valid() && Frame(old(store.mem), old(Own()), store.mem, Own())
      ensures freezeStart == old(freezeStart) && freezeEnd == old(freezeEnd)
      ensures result == if datlen > 0 && old(Contents()) != [] &&
        old(freezeStart) then -1 else Min(datlen, |old(Contents())|)
      ensures Contents() == if result < 0 then old(Contents()) else old(Contents())[result..]
      ensures out[..] == if result < 0 then old(out[..]) else old(Contents())[..result] + old(out[result..])
    {
      hide Inv, Shape, Linked, Flat, Frame, Elems;
      Ends(store.mem, Fields(), spine);
      FrameRefl(store.mem, Own());
      result := CopyOut(out, datlen);
      if result > 0 {
        var drained := Drain(result);
        if drained < 0 {
          result := -1;
        }
      }
    }

    method AddBuffer(inbuf: Evbuffer) returns (result: int)
      requires Valid() && inbuf.Valid() && inbuf.store == store
      requires inbuf != this ==> Own() !! inbuf.Own() && |Contents()| + |inbuf.Contents()| <= EV_SIZE_MAX
      modifies this, inbuf, store
      ensures Valid() && inbuf.Valid()
      ensures inbuf != this ==> Own() !! inbuf.Own()
      ensures Frame(old(store.mem), old(Own() + inbuf.Own()), store.mem, Own() + inbuf.Own())
      ensures result == if inbuf != this && old(inbuf.Contents()) != [] &&
        (old(freezeEnd) || old(inbuf.freezeStart)) then -1 else 0
      ensures result == 0 && inbuf != this ==>
        Contents() == old(Contents()) + old(inbuf.Contents()) && inbuf.Contents() == []
      ensures result == -1 || inbuf == this ==>
        Contents() == old(Contents()) && inbuf.Contents() == old(inbuf.Contents())
    {
      hide Shape, Linked, Flat, Frame, Elems;
      if inbuf == this {
        Ends(store.mem, Fields(), spine);
        FrameRefl(store.mem, Own() + inbuf.Own());
        return 0;
      }
      var m, o, i;
      ghost var so, si;
      m, o, so, i, si, result := Move.AddBuffer(store.mem, Fields(), spine, inbuf.Fields(), inbuf.spine);
      store.mem := m;
      Set(o, so);
      inbuf.Set(i, si);
    }

    method PrependBuffer(inbuf: Evbuffer) returns (result: int)
      requires Valid() && inbuf.Valid() && inbuf.store == store
      requires inbuf != this ==> Own() !! inbuf.Own() && |Contents()| + |inbuf.Contents()| <= EV_SIZE_MAX
      modifies this, inbuf, store
      ensures Valid() && inbuf.Valid()
      ensures inbuf != this ==> Own() !! inbuf.Own()
      ensures Frame(old(store.mem), old(Own() + inbuf.Own()), store.mem, Own() + inbuf.Own())
      ensures result == if inbuf != this && old(inbuf.Contents()) != [] &&
        (old(freezeStart) || old(inbuf.freezeStart)) then -1 else 0
      ensures result == 0 && inbuf != this ==>
        Contents() == old(inbuf.Contents()) + old(Contents()) && inbuf.Contents() == []
      ensures result == -1 || inbuf == this ==>
        Contents() == old(Contents()) && inbuf.Contents() == old(inbuf.Contents())
    {
      hide Shape, Linked, Flat, Frame, Elems;
      if inbuf == this {
        Ends(store.mem, Fields(), spine);
        FrameRefl(store.mem, Own() + inbuf.Own());
        return 0;
      }
      var m, o, i;
      ghost var so, si;
      m, o, so, i, si, result := Move.PrependBuffer(store.mem, Fields(), spine, inbuf.Fields(), inbuf.spine);
      store.mem := m;
      Set(o, so);
      inbuf.Set(i, si);
    }

    /** Moves bytes from this buffer to `dst`. `lost` bytes leave this buffer
        without arriving, which takes a failing allocator. */
    method RemoveBuffer(dst: Evbuffer, datlen: nat, canAlloc: bool) returns (result: int, ghost lost: nat)
      requires Valid() && dst.Valid() && dst.store == store
      requires dst != this ==> Own() !! dst.Own() && |Contents()| + |dst.Contents()| <= EV_SIZE_MAX
      modifies this, dst, store
      ensures Valid() && dst.Valid()
      ensures dst != this ==> Own() !! dst.Own()
      ensures Frame(old(store.mem), old(Own() + dst.Own()), store.mem, Own() + dst.Own())
      ensures result ==
        if datlen == 0 || dst == this then 0
        else if old(dst.freezeEnd) || old(freezeStart) then -1
        else Min(datlen, |old(Contents())|)
      ensures result <= 0 ==> Contents() == old(Contents()) && dst.Contents() == old(dst.Contents())
      ensures result > 0 ==>
        && Contents() == old(Contents())[result..]
        && lost <= result && dst.Contents() == old(dst.Contents()) + old(Contents())[..result - lost]
        && lost == if canAlloc || datlen >= |old(Contents())| || old(Taking.RestFits(store.mem, spine, dst.last, datlen)) then 0
                   else datlen - old(Taking.Whole(store.mem, spine, datlen))
    {
      hide Shape, Linked, Flat, Frame, Elems;
      lost := 0;
      if datlen == 0 || dst == this {
        Ends(store.mem, Fields(), spine);
        Ends(store.mem, dst.Fields(), dst.spine);
        FrameRefl(store.mem, Own() + dst.Own());
        return 0, 0;
      }
      var m, r, d;
      ghost var sr, sd;
      m, r, sr, d, sd, result, lost := Taking.RemoveBuffer(store.mem, Fields(), spine, dst.Fields(), dst.spine, datlen, canAlloc);
      store.mem := m;
      Set(r, sr);
      dst.Set(d, sd);
    }

    /** The result is the chain and the offset in it that the returned pointer
        designates; NULL is the null pointer. */
    method Pullup(size: int, canAlloc: bool) returns (p: Addr, at: nat)
      requires Valid()
      modifies this, store
      ensures Valid() && Frame(old(store.mem), old(Own()), store.mem, Own())
      ensures freezeStart == old(freezeStart) && freezeEnd == old(freezeEnd)
      ensures Contents() == old(Contents())
      ensures var n: nat := if size < 0 then |Contents()| else size;
        && (n == 0 || n > |Contents()| ==> p == NULL)
        && (0 < n <= |Contents()| && canAlloc && n <= EVBUFFER_CHAIN_MAX - EVBUFFER_CHAIN_SIZE ==> p != NULL)
        && (p != NULL ==>
              && p == first && p in store.mem && at + n <= |store.mem[p].buffer|
              && n <= |Contents()| && store.mem[p].buffer[at..at + n] == Contents()[..n])
    {
      hide Shape, Linked, Flat, Frame, Elems;
      Ends(store.mem, Fields(), spine);
      var m, b;
      ghost var s;
      m, b, s, p, at := Pulling.Pullup(store.mem, Fields(), spine, size, canAlloc);
      store.mem := m;
      Set(b, s);
    }

    /** evbuffer_search. */
    method SearchFor(what: seq<byte>) returns (pos: int)
      requires Valid() && 0 < |what| <= EV_SSIZE_MAX
      ensures if pos >= 0 then
          && Search.Occurs(Contents(), what, pos)
          && forall i :: 0 <= i < pos ==> !Search.Occurs(Contents(), what, i)
        else
          forall i :: !Search.Occurs(Contents(), what, i)
    {
      hide Inv, Shape, Linked, Flat, Frame, Elems, Search.ValidPtr;
      var r := Search.SearchRange(store.mem, Fields(), spine, what, None, None);
      pos := r.pos;
    }

    /** evbuffer_readln: a line without its terminator, or no result. */
    method ReadLine(style: Lines.EolStyle, canAlloc: bool) returns (line: Option<seq<byte>>)
      requires Valid()
      modifies this, store
      ensures Valid() && Frame(old(store.mem), old(Own()), store.mem, Own())
      ensures line.None? ==> Contents() == old(Contents())
      ensures line.None? <==> old(freezeStart) || !canAlloc || Lines.NoEol(old(Contents()), style, 0)
      ensures line.Some? ==>
        var x, n := old(Contents()), |line.value|;
        && Lines.FirstEol(x, style, 0, n)
        && var len := Lines.EolAt(x, style, n);
           n + len <= |x| && x == line.value + x[n..n + len] + Contents()
    {
      hide Inv, Shape, Linked, Flat, Frame, Elems, Lines.EolAt, Lines.FirstEol, Lines.NoEol, Lines.Span;
      Ends(store.mem, Fields(), spine);
      FrameRefl(store.mem, Own());
      ghost var x := Contents();
      if freezeStart {
        return None;
      }
      var it, len := Lines.SearchEol(store.mem, Fields(), spine, None, style);
      OneOrTheOther(x, style, it.pos, len);
      if it.pos < 0 {
        return None;
      }
      if !canAlloc {
        return None;
      }
      var n: nat := it.pos;
      var out := TakeLine(n, len);
      line := Some(out);
      ThreeParts(x, n, len);
    }

    /** The line is copied out, and what ends it is dropped. */
    method TakeLine(n: nat, len: nat) returns (line: seq<byte>)
      requires Valid() && !freezeStart && n + len <= |Contents()|
      modifies this, store
      ensures Valid() && Frame(old(store.mem), old(Own()), store.mem, Own())
      ensures line == old(Contents())[..n] && Contents() == old(Contents())[n..][len..]
    {
      hide Inv, Shape, Linked, Flat, Frame, Elems;
      ghost var x, m0, own0 := Contents(), store.mem, Own();
      var out := new byte[n];
      var removed := Remove(out, n);
      line := out[..];
      ghost var m1, own1 := store.mem, Own();
      assert Contents() == x[n..];
      var drained := Drain(len);
      FrameTrans(m0, own0, m1, own1, store.mem, Own());
    }
  }

  lemma ThreeParts(x: seq<byte>, n: nat, len: nat)
    requires n + len <= |x|
    ensures x[n..][len..] == x[n + len..]
    ensures x == x[..n] + x[n..n + len] + x[n + len..]
  {
  }

  /** A search for a line ending finds one or there is none. */
  lemma OneOrTheOther(x: seq<byte>, style: Lines.EolStyle, i: int, len: int)
    requires if i >= 0 then Lines.FirstEol(x, style, 0, i) &&
      len == Lines.EolAt(x, style, i) else Lines.NoEol(x, style, 0)
    ensures i >= 0 ==> !Lines.NoEol(x, style, 0) && i < |x| && 0 < len && i + len <= |x|
  {
    if i >= 0 && style == Lines.EolAny {
      Lines.SpanFits(x, i);
    }
  }

  /** The operations of a run on one buffer. */
  datatype Op =
    | OpAdd(data: seq<byte>)
    | OpPrepend(data: seq<byte>)
    | OpDrain(len: nat)
    | OpRemove(len: nat)
    | OpPullup(size: int)

  predicate Fits(op: Op) {
    && (op.OpAdd? ==> |op.data| <= EVBUFFER_CHAIN_MAX - EVBUFFER_CHAIN_SIZE)
    && (op.OpPrepend? ==> |op.data| <= EVBUFFER_CHAIN_MAX - EVBUFFER_CHAIN_SIZE)
  }

  /** The byte queue itself: what it holds, and what has been read from it. */
  datatype Queue = Queue(held: seq<byte>, got: seq<byte>)

  /** One operation on the byte queue, while allocation succeeds. */
  ghost function Effect(q: Queue, op: Op, freezeStart: bool, freezeEnd: bool): Queue {
    match op
    case OpAdd(d) => if freezeEnd || |q.held| + |d| > EV_SIZE_MAX then q else q.(held := q.held + d)
    case OpPrepend(d) => if freezeStart || |q.held| + |d| > EV_SIZE_MAX then q else q.(held := d + q.held)
    case OpDrain(n) => if freezeStart then q else q.(held := q.held[Min(n, |q.held|)..])
    case OpRemove(n) =>
      if freezeStart then q
      else Queue(q.held[Min(n, |q.held|)..], q.got + q.held[..Min(n, |q.held|)])
    case OpPullup(_) => q
  }

  ghost function Effects(q: Queue, ops: seq<Op>, freezeStart: bool, freezeEnd: bool): Queue
    decreases |ops|
  {
    if ops == [] then q
    else Effect(Effects(q, ops[..|ops| - 1], freezeStart, freezeEnd), ops[|ops| - 1], freezeStart, freezeEnd)
  }

  /** Any sequence of operations on the linked chains is the same sequence of
      operations on a plain byte queue. */
  method Run(buf: Evbuffer, ops: seq<Op>) returns (got: seq<byte>)
    requires buf.Valid() && forall op :: op in ops ==> Fits(op)
    modifies buf, buf.store
    ensures buf.Valid() && Frame(old(buf.store.mem), old(buf.Own()), buf.store.mem, buf.Own())
    ensures Queue(buf.Contents(), got) == Effects(Queue(old(buf.Contents()), []), ops, old(buf.freezeStart), old(buf.freezeEnd))
  {
    hide Inv, Shape, Linked, Flat, Frame, Elems;
    Ends(buf.store.mem, buf.Fields(), buf.spine);
    FrameRefl(buf.store.mem, buf.Own());
    got := [];
    ghost var q0, fs, fe := Queue(buf.Contents(), []), buf.freezeStart, buf.freezeEnd;
    ghost var m0, own0 := buf.store.mem, buf.Own();
    assert ops[..0] == [];
    for i := 0 to |ops|
      invariant buf.Valid() && buf.freezeStart == fs && buf.freezeEnd == fe
      invariant Frame(m0, own0, buf.store.mem, buf.Own())
      invariant Queue(buf.Contents(), got) == Effects(q0, ops[..i], fs, fe)
    {
      ghost var m1, own1 := buf.store.mem, buf.Own();
      assert ops[..i + 1][..i] == ops[..i] && ops[..i + 1][i] == ops[i];
      assert ops[i] in ops;
      var more := Perform(buf, ops[i]);
      got := got + more;
      FrameTrans(m0, own0, m1, own1, buf.store.mem, buf.Own());
    }
    assert ops[..|ops|] == ops;
  }

  method Perform(buf: Evbuffer, op: Op) returns (more: seq<byte>)
    requires buf.Valid() && Fits(op)
    modifies buf, buf.store
    ensures buf.Valid() && Frame(old(buf.store.mem), old(buf.Own()), buf.store.mem, buf.Own())
    ensures buf.freezeStart == old(buf.freezeStart) && buf.freezeEnd == old(buf.freezeEnd)
    ensures forall got ::
      Queue(buf.Contents(), got + more) ==
      Effect(Queue(old(buf.Contents()), got), op, old(buf.freezeStart), old(buf.freezeEnd))
  {
    hide Inv, Shape, Linked, Flat, Frame, Elems;
    more := [];
    assert forall got: seq<byte> :: got + [] == got;
    Ends(buf.store.mem, buf.Fields(), buf.spine);
    match op
    case OpAdd(d) =>
      var r := buf.Add(d, true);
    case OpPrepend(d) =>
      var r := buf.Prepend(d, true);
    case OpDrain(n) =>
      var r := buf.Drain(n);
    case OpRemove(n) =>
      var out := new byte[Min(n, buf.totalLen)];
      var r := buf.Remove(out, n);
      if r > 0 {
        more := out[..];
      }
    case OpPullup(size) =>
      var p, at := buf.Pullup(size, true);
  }

  /** The bytes added by a run, in order. */
  ghost function Added(ops: seq<Op>): seq<byte> {
    if ops == [] then []
    else Added(ops[..|ops| - 1]) + Given(ops[|ops| - 1])
  }

  lemma Assoc(a: seq<byte>, b: seq<byte>, c: seq<byte>)
    ensures a + (b + c) == a + b + c
  {
  }

  /** First in, first out: whatever is added, removed and pulled up, the bytes
      read and the bytes still held are the bytes put in, in that order. */
  lemma {:induction false} FirstInFirstOut(q: Queue, ops: seq<Op>)
    requires forall op :: op in ops ==> op.OpAdd? || op.OpRemove? || op.OpPullup?
    requires |q.held| + |Added(ops)| <= EV_SIZE_MAX
    ensures var r := Effects(q, ops, false, false);
      && r.got + r.held == q.got + q.held + Added(ops)
      && |r.held| <= |q.held| + |Added(ops)|
  {
    hide Effect;
    if ops != [] {
      var before, op := ops[..|ops| - 1], ops[|ops| - 1];
      assert forall o :: o in before ==> o in ops;
      assert op in ops;
      FirstInFirstOut(q, before);
      var r := Effects(q, before, false, false);
      EffectInOrder(r, op);
      Assoc(q.got + q.held, Added(before), Given(op));
    }
  }

  ghost function Given(op: Op): seq<byte> {
    if op.OpAdd? then op.data else []
  }

  lemma EffectInOrder(r: Queue, op: Op)
    requires (op.OpAdd? || op.OpRemove? || op.OpPullup?) && |r.held| + |Given(op)| <= EV_SIZE_MAX
    ensures var r1 := Effect(r, op, false, false);
      r1.got + r1.held == (r.got + r.held) + Given(op) && |r1.held| <= |r.held| + |Given(op)|
  {
    match op
    case OpRemove(n) =>
      assert r.held[..Min(n, |r.held|)] + r.held[Min(n, |r.held|)..] == r.held;
    case OpAdd(d) =>
      Assoc(r.got, r.held, d);
    case OpPullup(_) =>
  }

  /** The same of the linked chains: the bytes that a run reads, followed by the
      bytes the buffer then holds, are what it held and was given, in order. */
  method RunInOrder(buf: Evbuffer, ops: seq<Op>) returns (got: seq<byte>)
    requires buf.Valid() && !buf.freezeStart && !buf.freezeEnd
    requires forall op :: op in ops ==> Fits(op) && (op.OpAdd? || op.OpRemove? || op.OpPullup?)
    requires |buf.Contents()| + |Added(ops)| <= EV_SIZE_MAX
    modifies buf, buf.store
    ensures buf.Valid() && got + buf.Contents() == old(buf.Contents()) + Added(ops)
  {
    hide Inv, Shape, Linked, Flat, Frame, Elems, Effects;
    ghost var held := buf.Contents();
    got := Run(buf, ops);
    FirstInFirstOut(Queue(held, []), ops);
    assert [] + held == held;
  }
}
