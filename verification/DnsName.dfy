/** Names in DNS messages, with the message compression of RFC 1035 section
    4.1.4: evdns's parser, its printer and the table the printer shares between
    the names of one message. */
module DnsName {
  import opened Options
  import E = EvbufferStore

  type byte = E.byte

  /** The characters of a C string, without the final zero. */
  type Name = seq<byte>

  const DOT: byte := 46
  const MAX_LABEL := 63
  const MAX_NAME := 255
  const MAX_LABELS := 128

  datatype Parsed = Fail | Labels(labels: seq<Name>, end: nat)

  predicate IsPointer(b: byte) {
    b >= 64
  }

  /** The 14-bit offset in a pointer; the top bits are dropped. */
  function Offset(hi: byte, lo: byte): nat {
    (hi as int % 64) * 256 + lo as int
  }

  /** What a message says at position `at`, when at most `jumps` pointers may
      be followed; `end` is the position after the name as it stands there. */
  ghost function Parse(msg: seq<byte>, at: nat, jumps: nat): Parsed
    decreases jumps, |msg| - at
  {
    if at >= |msg| then Fail
    else if msg[at] == 0 then Labels([], at + 1)
    else if IsPointer(msg[at]) then
      if at + 1 >= |msg| || Offset(msg[at], msg[at + 1]) >= |msg| || jumps == 0 then Fail
      else Jumped(Parse(msg, Offset(msg[at], msg[at + 1]), jumps - 1), at + 2)
    else
      var next := at + 1 + msg[at] as int;
      if next >= |msg| then Fail
      else Led(msg[at + 1..next], Parse(msg, next, jumps))
  }

  ghost function Jumped(p: Parsed, end: nat): Parsed {
    if p == Fail then Fail else Labels(p.labels, end)
  }

  ghost function Led(part: Name, p: Parsed): Parsed {
    if p == Fail then Fail else Labels([part] + p.labels, p.end)
  }

  /** The labels with a dot between any two. */
  ghost function Join(labels: seq<Name>): Name {
    if labels == [] then []
    else if |labels| == 1 then labels[0]
    else Join(labels[..|labels| - 1]) + [DOT] + labels[|labels| - 1]
  }

  lemma JoinPush(labels: seq<Name>, l: Name)
    ensures Join(labels + [l]) == if labels == [] then l else Join(labels) + [DOT] + l
  {
    assert (labels + [l])[..|labels|] == labels;
  }

  lemma {:induction false} JoinGrows(labels: seq<Name>, more: seq<Name>)
    ensures |Join(labels + more)| >= |Join(labels)|
    decreases |more|
  {
    if more == [] {
      assert labels + more == labels;
    } else {
      var k := |more| - 1;
      JoinGrows(labels, more[..k]);
      assert labels + more == (labels + more[..k]) + [more[k]];
      JoinPush(labels + more[..k], more[k]);
    }
  }

  /** How a name parsed so far goes on: `done` labels, then the rest. */
  ghost function Resumed(done: seq<Name>, rest: Parsed, nameEnd: int): Parsed {
    if rest == Fail then Fail
    else Labels(done + rest.labels, if nameEnd < 0 then rest.end else nameEnd)
  }

  datatype NameResult = Failed | Named(name: Name, idx: nat)

  lemma AtEnd(memory: seq<byte>, length: nat, j: nat, jumps: nat)
    requires length <= |memory| && j >= length
    ensures Parse(memory[..length], j, jumps) == Fail
  {
  }

  lemma AtZero(memory: seq<byte>, length: nat, j: nat, jumps: nat)
    requires j < length <= |memory| && memory[j] == 0
    ensures Parse(memory[..length], j, jumps) == Labels([], j + 1)
  {
  }

  lemma AtPointer(memory: seq<byte>, length: nat, j: nat, jumps: nat)
    requires j < length <= |memory| && IsPointer(memory[j])
    ensures Parse(memory[..length], j, jumps) ==
      if j + 1 >= length || Offset(memory[j], memory[j + 1]) >= length || jumps == 0 then Fail
      else Jumped(Parse(memory[..length], Offset(memory[j], memory[j + 1]), jumps - 1), j + 2)
  {
  }

  /** A label that reaches the end of the message, or beyond, is one too many. */
  lemma AtLabel(memory: seq<byte>, length: nat, j: nat, jumps: nat)
    requires j < length && length + MAX_LABEL <= |memory| && memory[j] != 0 && !IsPointer(memory[j])
    ensures var next := j + 1 + memory[j] as int;
      Parse(memory[..length], j, jumps) == Led(memory[j + 1..next], Parse(memory[..length], next, jumps))
  {
    var next := j + 1 + memory[j] as int;
    if next >= length {
      AtEnd(memory, length, next, jumps);
    } else {
      assert memory[..length][j + 1..next] == memory[j + 1..next];
    }
  }

  /** The rest of the name is longer than its first part allows. */
  lemma TooLong(done: seq<Name>, part: Name, rest: Parsed, nameEnd: int, nameOutLen: nat)
    requires (done != [] && |Join(done)| + 1 >= nameOutLen && part != []) || |Join(done + [part])| >= nameOutLen
    ensures var p := Resumed(done, Led(part, rest), nameEnd); p == Fail || |Join(p.labels)| >= nameOutLen
  {
    JoinPush(done, part);
    if rest != Fail {
      Longer(done, part, rest);
    }
  }

  /** Stores behind `out` in the caller's buffer, which has room for that. */
  method Store(out: Name, bytes: seq<byte>, room: nat) returns (stored: Name)
    requires |out| + |bytes| <= room
    ensures stored == out + bytes
  {
    stored := out + bytes;
  }

  /** name_parse on the first `length` bytes of `memory`: what lies beyond
      them is arbitrary, and read at most MAX_LABEL bytes far. */
  method NameParse(memory: seq<byte>, length: nat, idx: nat, nameOutLen: nat) returns (r: NameResult)
    requires length + MAX_LABEL <= |memory|
    ensures match Parse(memory[..length], idx, length)
            case Fail => r == Failed
            case Labels(labels, end) => r == if |Join(labels)| < nameOutLen then Named(Join(labels), end) else Failed
  {
    hide Join, Parse, Offset, IsPointer;
    ghost var msg := memory[..length];
    ghost var whole := Parse(msg, idx, length);
    var nameEnd := -1;
    var j := idx;
    var ptrCount := 0;
    var out: Name := [];
    ghost var done: seq<Name> := [];
    JoinNone();
    ResumeNone(whole);
    while true
      invariant 0 <= ptrCount <= length && 0 <= j
      invariant -1 <= nameEnd
      invariant whole == Resumed(done, Parse(msg, j, length - ptrCount), nameEnd)
      invariant out == Join(done) && (out == [] <==> done == [])
      decreases length - ptrCount, length + MAX_LABEL - j
    {
      if j >= length {
        AtEnd(memory, length, j, length - ptrCount);
        return Failed;
      }
      var labelLen := memory[j];
      j := j + 1;
      if labelLen == 0 {
        AtZero(memory, length, j - 1, length - ptrCount);
        break;
      }
      if IsPointer(labelLen) {
        AtPointer(memory, length, j - 1, length - ptrCount);
        if j >= length {
          return Failed;
        }
        var ptrLow := memory[j];
        j := j + 1;
        if nameEnd < 0 {
          nameEnd := j;
        }
        j := Offset(labelLen, ptrLow);
        if j >= length {
          return Failed;
        }
        ptrCount := ptrCount + 1;
        if ptrCount > length {
          return Failed;
        }
        continue;
      }
      SmallLabel(labelLen);
      AtLabel(memory, length, j - 1, length - ptrCount);
      var n := labelLen as int;
      ghost var part, rest := memory[j..j + n], Parse(msg, j + n, length - ptrCount);
      JoinPush(done, part);
      if (|out| + 1 >= nameOutLen && done != []) || |Join(done + [part])| >= nameOutLen {
        TooLong(done, part, rest, nameEnd, nameOutLen);
      }
      if out != [] {
        if |out| + 1 >= nameOutLen {
          return Failed;
        }
        out := Store(out, [DOT], nameOutLen);
      }
      if |out| + n >= nameOutLen {
        return Failed;
      }
      out := Store(out, memory[j..j + n], nameOutLen);
      ResumeLed(done, part, rest, nameEnd);
      done := done + [part];
      j := j + n;
    }
    assert done + [] == done;
    if |out| >= nameOutLen {
      return Failed;
    }
    var text := Store(out, [0], nameOutLen);
    return Named(text[..|out|], if nameEnd < 0 then j else nameEnd);
  }

  lemma SmallLabel(b: byte)
    requires !IsPointer(b)
    ensures b as int <= MAX_LABEL
  {
  }

  lemma ResumeNone(p: Parsed)
    ensures Resumed([], p, -1) == p
  {
  }

  lemma JoinNone()
    ensures Join([]) == []
  {
  }

  /** A name with one more part, whatever follows, is at least so long. */
  lemma Longer(done: seq<Name>, part: Name, rest: Parsed)
    requires rest != Fail
    ensures |Join(done + ([part] + rest.labels))| >= |Join(done + [part])|
  {
    assert done + ([part] + rest.labels) == (done + [part]) + rest.labels;
    JoinGrows(done + [part], rest.labels);
  }

  lemma ResumeLed(done: seq<Name>, part: Name, rest: Parsed, nameEnd: int)
    ensures Resumed(done, Led(part, rest), nameEnd) == Resumed(done + [part], rest, nameEnd)
  {
    if rest != Fail {
      assert done + ([part] + rest.labels) == (done + [part]) + rest.labels;
    }
  }

  // The printer.

  datatype Entry = Entry(v: Name, pos: nat)

  type Table = seq<Entry>

  /** A C string: no zero inside. */
  predicate CString(name: Name) {
    forall i :: 0 <= i < |name| ==> name[i] != 0
  }

  /** Where the first dot is, or else the end. */
  ghost function Dot(name: Name): (k: nat)
    ensures k <= |name|
    ensures k < |name| ==> name[k] == DOT
    ensures forall i :: 0 <= i < k ==> name[i] != DOT
  {
    if name == [] || name[0] == DOT then 0 else 1 + Dot(name[1..])
  }

  lemma {:induction false} DotIs(name: Name, k: nat)
    requires k <= |name| && (k < |name| ==> name[k] == DOT) && forall i :: 0 <= i < k ==> name[i] != DOT
    ensures Dot(name) == k
  {
    assert Dot(name) < |name| ==> name[Dot(name)] == DOT;
  }

  method Strchr(name: Name) returns (k: nat)
    ensures k == Dot(name)
  {
    k := 0;
    while k < |name| && name[k] != DOT
      invariant k <= |name| && forall i :: 0 <= i < k ==> name[i] != DOT
    {
      k := k + 1;
    }
    DotIs(name, k);
  }

  /** The position of the first entry for a name, or -1. */
  ghost function GetPos(table: Table, name: Name): int {
    if table == [] then -1
    else if table[0].v == name then table[0].pos
    else GetPos(table[1..], name)
  }

  lemma {:induction false} GetPosIn(table: Table, name: Name)
    ensures GetPos(table, name) >= 0 ==> Entry(name, GetPos(table, name)) in table
    ensures GetPos(table, name) >= -1
    ensures GetPos(table, name) < 0 ==> forall e :: e in table ==> e.v != name
  {
    if table != [] {
      GetPosIn(table[1..], name);
      assert table == [table[0]] + table[1..];
    }
  }

  method TableGetPos(table: Table, name: Name) returns (pos: int)
    ensures pos == GetPos(table, name)
  {
    var i := 0;
    assert table[0..] == table;
    while i < |table|
      invariant i <= |table| && GetPos(table[i..], name) == GetPos(table, name)
    {
      assert table[i..][1..] == table[i + 1..];
      if name == table[i].v {
        return table[i].pos;
      }
      i := i + 1;
    }
    return -1;
  }

  /** dnslabel_table_add; a full table forgets. */
  function TableAdd(table: Table, name: Name, pos: nat): Table {
    if |table| >= MAX_LABELS then table else table + [Entry(name, pos)]
  }

  function Remember(table: Option<Table>, name: Name, pos: nat): Option<Table> {
    if table.None? then None else Some(TableAdd(table.value, name, pos))
  }

  /** A pointer as it is stored: ref | 0xc000 in 16 bits. */
  function PointerBytes(ref: nat): (r: seq<byte>)
    ensures |r| == 2
  {
    [(0xc0 + ref / 256 % 64) as byte, (ref % 256) as byte]
  }

  /** A label as it is stored. */
  function LabelBytes(part: Name): (r: seq<byte>)
    requires |part| <= MAX_LABEL
    ensures |r| == |part| + 1
  {
    [|part| as byte] + part
  }

  /** What printing a name at position j comes to, in a buffer of `cap` bytes:
      the bytes and the table afterwards, or an error. The final zero is stored
      without looking whether it fits: OutOfBounds. */
  datatype Emitted = LabelTooLong | NoRoom | OutOfBounds | Done(bytes: seq<byte>, table: Option<Table>)

  ghost function Emit(table: Option<Table>, name: Name, j: nat, cap: nat): Emitted
    decreases |name|
  {
    if table.Some? && GetPos(table.value, name) >= 0 then
      if j + 2 > cap then NoRoom else Done(PointerBytes(GetPos(table.value, name)), table)
    else
      var k := Dot(name);
      var table1 := Remember(table, name, j);
      if k > MAX_LABEL then LabelTooLong
      else if j + k + 1 > cap then NoRoom
      else if k < |name| then After(LabelBytes(name[..k]), Emit(table1, name[k + 1..], j + k + 1, cap))
      else if k == 0 then Done(LabelBytes(name), table1)
      else if j + k + 1 == cap then OutOfBounds
      else Done(LabelBytes(name) + [0], table1)
  }

  ghost function After(bytes: seq<byte>, e: Emitted): Emitted {
    if e.Done? then Done(bytes + e.bytes, e.table) else e
  }

  datatype Outcome = Index(j: nat) | Error(code: int) | Unchecked

  /** The buffer with `x` stored at position j. */
  ghost function Patch(b: seq<byte>, j: nat, x: seq<byte>): (r: seq<byte>)
    requires j + |x| <= |b|
    ensures |r| == |b|
  {
    b[..j] + x + b[j + |x|..]
  }

  lemma PatchMore(b: seq<byte>, j: nat, x: seq<byte>, y: seq<byte>)
    requires j + |x| + |y| <= |b|
    ensures Patch(Patch(b, j, x), j + |x|, y) == Patch(b, j, x + y)
  {
    var p := Patch(b, j, x);
    assert p[..j + |x|] == b[..j] + x;
    assert p[j + |x| + |y|..] == b[j + |x| + |y|..];
  }

  lemma PatchNone(b: seq<byte>, j: nat)
    requires j <= |b|
    ensures Patch(b, j, []) == b
  {
  }

  lemma PatchFront(b: seq<byte>, j: nat, x: seq<byte>)
    requires j + |x| <= |b|
    ensures Patch(b, j, x)[..j] == b[..j]
    ensures Patch(b, j, x)[j..j + |x|] == x
  {
  }

  method PutLabel(buf: array<byte>, j: nat, part: Name)
    requires |part| <= MAX_LABEL && j + |part| + 1 <= buf.Length
    modifies buf
    ensures buf[..] == Patch(old(buf[..]), j, LabelBytes(part))
  {
    buf[j] := |part| as byte;
    forall i | 0 <= i < |part| {
      buf[j + 1 + i] := part[i];
    }
  }

  method PutBytes(buf: array<byte>, j: nat, x: seq<byte>)
    requires j + |x| <= buf.Length
    modifies buf
    ensures buf[..] == Patch(old(buf[..]), j, x)
  {
    forall i | 0 <= i < |x| {
      buf[j + i] := x[i];
    }
  }

  /** dnsname_to_labels */
  method NameToLabels(buf: array<byte>, j0: nat, name0: Name, table0: Option<Table>)
    returns (r: Outcome, table: Option<Table>)
    requires CString(name0) && j0 <= buf.Length
    modifies buf
    ensures buf[..j0] == old(buf[..])[..j0]
    ensures |name0| > MAX_NAME ==> r == Error(-2) && buf[..] == old(buf[..])
    ensures |name0| <= MAX_NAME ==>
      match Emit(table0, name0, j0, buf.Length)
      case LabelTooLong => r == Error(-1)
      case NoRoom => r == Error(-2)
      case OutOfBounds => r == Unchecked
      case Done(bytes, table1) =>
        && r == Index(j0 + |bytes|) && table == table1 && j0 + |bytes| <= buf.Length
        && buf[..] == Patch(old(buf[..]), j0, bytes)
  {
    hide GetPos, Remember, Patch, LabelBytes, PointerBytes, After, Emit, Dot;
    table := table0;
    if |name0| > MAX_NAME {
      return Error(-2), table;
    }
    var j, name := j0, name0;
    ghost var b0 := buf[..];
    ghost var sofar: seq<byte> := [];
    AfterNone(Emit(table, name, j, buf.Length));
    PatchNone(b0, j);
    PatchFront(b0, j, []);
    while true
      invariant j == j0 + |sofar| <= buf.Length && CString(name)
      invariant buf[..] == Patch(b0, j0, sofar) && buf[..j0] == b0[..j0]
      invariant Emit(table0, name0, j0, buf.Length) == After(sofar, Emit(table, name, j, buf.Length))
      decreases |name|
    {
      if table.Some? {
        var ref := TableGetPos(table.value, name);
        if ref >= 0 {
          EmitPointer(table, name, j, buf.Length);
          if j + 2 > buf.Length {
            AfterError(sofar, NoRoom);
            return Error(-2), table;
          }
          PutBytes(buf, j, PointerBytes(ref));
          PatchMore(b0, j0, sofar, PointerBytes(ref));
          PatchFront(b0, j0, sofar + PointerBytes(ref));
          AfterDone(sofar, PointerBytes(ref), table);
          return Index(j + 2), table;
        }
      }
      var k := Strchr(name);
      EmitLabel(table, name, j, buf.Length);
      if k > MAX_LABEL {
        AfterError(sofar, LabelTooLong);
        return Error(-1), table;
      }
      if j + k + 1 > buf.Length {
        AfterError(sofar, NoRoom);
        return Error(-2), table;
      }
      ghost var part := LabelBytes(name[..k]);
      PutLabel(buf, j, name[..k]);
      PatchMore(b0, j0, sofar, part);
      PatchFront(b0, j0, sofar + part);
      if k == |name| {
        assert name[..k] == name;
        r := PutEnd(buf, j + k + 1, b0, j0, sofar + part);
        EmitLast(table, name, j, buf.Length, sofar);
        LastByte(name, b0, j0, sofar, buf.Length);
        table := Remember(table, name, j);
        return;
      }
      AfterTwice(sofar, part, Emit(Remember(table, name, j), name[k + 1..], j + k + 1, buf.Length));
      table := Remember(table, name, j);
      sofar := sofar + part;
      j := j + k + 1;
      name := name[k + 1..];
    }
  }

  /** The final zero, unless it is there. */
  method PutEnd(buf: array<byte>, j: nat, ghost b0: seq<byte>, ghost j0: nat,
      ghost sofar: seq<byte>) returns (r: Outcome)
    requires 0 < j == j0 + |sofar| <= buf.Length == |b0| && buf[..] == Patch(b0, j0, sofar) && sofar != []
    modifies buf
    ensures buf[..j0] == b0[..j0]
    ensures sofar[|sofar| - 1] == 0 ==> r == Index(j) && buf[..] == Patch(b0, j0, sofar)
    ensures sofar[|sofar| - 1] != 0 && j == buf.Length ==> r == Unchecked
    ensures sofar[|sofar| - 1] != 0 && j < buf.Length ==> r == Index(j + 1) && buf[..] == Patch(b0, j0, sofar + [0])
  {
    hide Patch;
    PatchFront(b0, j0, sofar);
    assert buf[j - 1] == buf[..][j0..j][|sofar| - 1];
    if buf[j - 1] != 0 {
      if j == buf.Length {
        return Unchecked;
      }
      PutBytes(buf, j, [0]);
      PatchMore(b0, j0, sofar, [0]);
      PatchFront(b0, j0, sofar + [0]);
      return Index(j + 1);
    }
    return Index(j);
  }

  lemma EmitPointer(table: Option<Table>, name: Name, j: nat, cap: nat)
    requires table.Some? && GetPos(table.value, name) >= 0
    ensures Emit(table, name, j, cap) == if j + 2 > cap then NoRoom
      else Done(PointerBytes(GetPos(table.value, name)), table)
  {
  }

  lemma EmitLabel(table: Option<Table>, name: Name, j: nat, cap: nat)
    requires table.Some? ==> GetPos(table.value, name) < 0
    ensures Dot(name) <= |name|
    ensures Dot(name) > MAX_LABEL ==> Emit(table, name, j, cap) == LabelTooLong
    ensures Dot(name) <= MAX_LABEL && j + Dot(name) + 1 > cap ==> Emit(table, name, j, cap) == NoRoom
    ensures Dot(name) <= MAX_LABEL && j + Dot(name) + 1 <= cap && Dot(name) < |name| ==>
      Emit(table, name, j, cap) ==
      After(LabelBytes(name[..Dot(name)]), Emit(Remember(table, name, j), name[Dot(name) + 1..], j + Dot(name) + 1, cap))
  {
  }

  lemma EmitLast(table: Option<Table>, name: Name, j: nat, cap: nat, sofar: seq<byte>)
    requires table.Some? ==> GetPos(table.value, name) < 0
    requires Dot(name) == |name| <= MAX_LABEL && j + |name| + 1 <= cap
    ensures After(sofar, Emit(table, name, j, cap)) ==
      if name == [] then Done(sofar + LabelBytes(name), Remember(table, name, j))
      else if j + |name| + 1 == cap then OutOfBounds
      else Done(sofar + LabelBytes(name) + [0], Remember(table, name, j))
  {
    assert sofar + (LabelBytes(name) + [0]) == sofar + LabelBytes(name) + [0];
  }

  /** The last byte of a label is zero only if the label is empty. */
  lemma LastByte(name: Name, b0: seq<byte>, j0: nat, sofar: seq<byte>, cap: nat)
    requires CString(name) && |name| <= MAX_LABEL
    ensures var x := sofar + LabelBytes(name); x != [] && (x[|x| - 1] == 0 <==> name == [])
  {
    assert name != [] ==> (sofar + LabelBytes(name))[|sofar| + |name|] == name[|name| - 1];
  }

  lemma AfterError(sofar: seq<byte>, e: Emitted)
    requires !e.Done?
    ensures After(sofar, e) == e
  {
  }

  lemma AfterDone(sofar: seq<byte>, bytes: seq<byte>, table: Option<Table>)
    ensures After(sofar, Done(bytes, table)) == Done(sofar + bytes, table)
  {
  }

  lemma AfterNone(e: Emitted)
    ensures After([], e) == e
  {
    if e.Done? {
      assert [] + e.bytes == e.bytes;
    }
  }

  lemma AfterTwice(a: seq<byte>, b: seq<byte>, e: Emitted)
    ensures After(a, After(b, e)) == After(a + b, e)
  {
    if e.Done? {
      assert a + (b + e.bytes) == (a + b) + e.bytes;
    }
  }
}
