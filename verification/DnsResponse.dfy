/** A whole DNS response with its questions and records, whose names share one
    compression table. */
module DnsResponse {
  import opened DnsName
  import opened DnsCompression
  import opened Options

  const BUF_LEN := 1500
  const MAX_UDP := 512

  datatype Question = Question(name: Name, qtype: nat, class_: nat)

  /** A resource record; its data is a name or plain bytes. */
  datatype Item = Item(name: Name, rtype: nat, class_: nat, ttl: nat, isName: bool, data: seq<byte>)

  /** A name of the message: where it stands and where it ends. */
  datatype Mark = Mark(pos: nat, name: Name, end: nat)

  /** What has been written, or why nothing more is: a name cannot be printed,
      for which dnsname_to_labels gives a code; something does not fit; or the
      final zero of a name was stored past the buffer. */
  datatype Written =
    | Refused(code: int)
    | Overflow
    | Beyond
    | Written(bytes: seq<byte>, table: Table, marks: seq<Mark>)

  /** 16 and 32 bits in network order. */
  function Be16(x: nat): (r: seq<byte>)
    ensures |r| == 2
  {
    [(x / 256 % 256) as byte, (x % 256) as byte]
  }

  function Be32(x: nat): (r: seq<byte>)
    ensures |r| == 4
  {
    Be16(x / 65536) + Be16(x % 65536)
  }

  ghost function Put(o: Written, x: seq<byte>): Written {
    if !o.Written? then o
    else if |o.bytes| + |x| > BUF_LEN then Overflow
    else o.(bytes := o.bytes + x)
  }

  /** A name with `head` before it that is not part of it. */
  ghost function PutName(o: Written, head: nat, name: Name): Written {
    if !o.Written? then o
    else if |name| > MAX_NAME || |o.bytes| + head > BUF_LEN then Refused(-2)
    else
      match Emit(Some(o.table), name, |o.bytes| + head, BUF_LEN)
      case LabelTooLong => Refused(-1)
      case NoRoom => Refused(-2)
      case OutOfBounds => Beyond
      case Done(bytes, table) =>
        Written(o.bytes + (if head == 2 then Be16(|bytes|) else []) + bytes,
                if table.Some? then table.value else [],
                o.marks + [Mark(|o.bytes| + head, name, |o.bytes| + head + |bytes|)])
  }

  ghost function PutQuestion(o: Written, q: Question): Written {
    Put(Put(PutName(o, 0, q.name), Be16(q.qtype)), Be16(q.class_))
  }

  /** In a record, a name that cannot be printed is one more thing that does
      not fit. */
  ghost function PutItem(o: Written, item: Item): Written {
    if !o.Written? then o
    else
      var o1 := PutRecord(o, item);
      if o1.Refused? then Overflow else o1
  }

  ghost function PutRecord(o: Written, item: Item): Written {
    var o1 := PutHead(o, item);
    if item.isName then PutName(o1, 2, item.data) else Put(Put(o1, Be16(|item.data|)), item.data)
  }

  ghost function PutHead(o: Written, item: Item): Written {
    Put(Put(Put(PutName(o, 0, item.name), Be16(item.rtype)), Be16(item.class_)), Be32(item.ttl))
  }

  ghost function PutQuestions(o: Written, qs: seq<Question>): Written {
    if qs == [] then o else PutQuestion(PutQuestions(o, qs[..|qs| - 1]), qs[|qs| - 1])
  }

  ghost function PutItems(o: Written, items: seq<Item>): Written {
    if items == [] then o else PutItem(PutItems(o, items[..|items| - 1]), items[|items| - 1])
  }

  /** The response as it should be. */
  ghost function Response(header: seq<byte>, qs: seq<Question>, items: seq<Item>): Written {
    PutItems(PutQuestions(Written(header, [], []), qs), items)
  }

  // Every name written stays readable.

  ghost predicate MarkOk(bytes: seq<byte>, m: Mark) {
    var p := Spell(bytes, m.pos, m.pos);
    p.Labels? && p.labels == Meaning(m.name) && (Proper(m.name) ==> p.end == m.end)
  }

  ghost predicate Ok(o: Written) {
    o.Written? ==> TableOk(o.bytes, Some(o.table)) && forall m :: m in o.marks ==> MarkOk(o.bytes, m)
  }

  lemma MarkMore(bytes: seq<byte>, more: seq<byte>, m: Mark)
    requires MarkOk(bytes, m)
    ensures MarkOk(bytes + more, m)
  {
    SpellMore(bytes, more, m.pos, m.pos);
  }

  lemma PutOk(o: Written, x: seq<byte>)
    requires Ok(o)
    ensures Ok(Put(o, x))
  {
    hide MarkOk, TableOk;
    if Put(o, x).Written? {
      TableMore(o.bytes, x, Some(o.table));
      forall m | m in o.marks ensures MarkOk(o.bytes + x, m) {
        MarkMore(o.bytes, x, m);
      }
    }
  }

  lemma PutNameOk(o: Written, head: nat, name: Name)
    requires Ok(o) && (head == 0 || head == 2)
    ensures Ok(PutName(o, head, name))
  {
    var o2 := PutName(o, head, name);
    if o2.Written? {
      var at := |o.bytes| + head;
      var e := Emit(Some(o.table), name, at, BUF_LEN);
      var h := if head == 2 then Be16(|e.bytes|) else [];
      var msg := o.bytes + h;
      PutOk(o, h);
      NameOk(msg, o.table, name);
      hide MarkOk, TableOk, Emit;
      forall m | m in o2.marks ensures MarkOk(o2.bytes, m) {
        if m in o.marks {
          MarkMore(msg, e.bytes, m);
        }
      }
    }
  }

  lemma NameOk(msg: seq<byte>, table: Table, name: Name)
    requires TableOk(msg, Some(table)) && Emit(Some(table), name, |msg|, BUF_LEN).Done?
    ensures var e := Emit(Some(table), name, |msg|, BUF_LEN);
      TableOk(msg + e.bytes, e.table) && MarkOk(msg + e.bytes, Mark(|msg|, name, |msg| + |e.bytes|))
  {
    hide Emit;
    var e := Emit(Some(table), name, |msg|, BUF_LEN);
    PrintedParses(msg, Some(table), name, BUF_LEN, []);
    AllReady(msg, Some(table), name);
    EmitSpells(msg, Some(table), name, BUF_LEN, |msg|);
  }

  lemma {:induction false} QuestionsOk(o: Written, qs: seq<Question>)
    requires Ok(o)
    ensures Ok(PutQuestions(o, qs))
  {
    hide Ok, PutName, Put;
    if qs != [] {
      var k := |qs| - 1;
      QuestionsOk(o, qs[..k]);
      PutNameOk(PutQuestions(o, qs[..k]), 0, qs[k].name);
      var o1 := PutName(PutQuestions(o, qs[..k]), 0, qs[k].name);
      PutOk(o1, Be16(qs[k].qtype));
      PutOk(Put(o1, Be16(qs[k].qtype)), Be16(qs[k].class_));
    }
  }

  lemma ItemOk(o: Written, item: Item)
    requires Ok(o)
    ensures Ok(PutItem(o, item))
  {
    hide Ok, PutName, Put;
    var o0 := PutName(o, 0, item.name);
    PutNameOk(o, 0, item.name);
    PutOk(o0, Be16(item.rtype));
    PutOk(Put(o0, Be16(item.rtype)), Be16(item.class_));
    PutOk(Put(Put(o0, Be16(item.rtype)), Be16(item.class_)), Be32(item.ttl));
    var o1 := PutHead(o, item);
    PutNameOk(o1, 2, item.data);
    PutOk(o1, Be16(|item.data|));
    PutOk(Put(o1, Be16(|item.data|)), item.data);
    NothingOk(o);
    NothingOk(Overflow);
  }

  lemma NothingOk(o: Written)
    ensures !o.Written? ==> Ok(o)
  {
  }

  lemma {:induction false} ItemsOk(o: Written, items: seq<Item>)
    requires Ok(o)
    ensures Ok(PutItems(o, items))
  {
    hide Ok, PutItem;
    if items != [] {
      var k := |items| - 1;
      ItemsOk(o, items[..k]);
      ItemOk(PutItems(o, items[..k]), items[k]);
    }
  }

  /** Every name of a complete response, and every name in its records' data,
      parses back: to its text, with the index just past it, exactly if no
      label of it is empty or it is the root. */
  lemma NamesParseBack(header: seq<byte>, qs: seq<Question>, items: seq<Item>, m: Mark)
    requires Response(header, qs, items).Written? && m in Response(header, qs, items).marks
    ensures var bytes := Response(header, qs, items).bytes;
      var p := Parse(bytes, m.pos, |bytes|);
      p.Labels? && (Join(p.labels) == m.name && p.end == m.end <==> Proper(m.name))
  {
    hide Parse, Spell, Meaning, Proper, Join;
    var o := Response(header, qs, items);
    assert Ok(Written(header, [], []));
    QuestionsOk(Written(header, [], []), qs);
    ItemsOk(PutQuestions(Written(header, [], []), qs), items);
    ProperText(m.name);
    SpellInside(o.bytes, m.pos, m.pos);
    SpellParse(o.bytes, m.pos, m.pos, |o.bytes|);
  }

  lemma SpellInside(msg: seq<byte>, at: nat, limit: nat)
    requires Spell(msg, at, limit) != Fail
    ensures at < |msg|
  {
  }

  /** The names a response is to contain, in order. */
  ghost function NamesOf(qs: seq<Question>, items: seq<Item>): seq<Name> {
    if items != [] then
      var item := items[|items| - 1];
      NamesOf(qs, items[..|items| - 1]) + [item.name] + if item.isName then [item.data] else []
    else if qs != [] then NamesOf(qs[..|qs| - 1], []) + [qs[|qs| - 1].name]
    else []
  }

  ghost function Marked(marks: seq<Mark>): seq<Name> {
    seq(|marks|, i requires 0 <= i < |marks| => marks[i].name)
  }

  /** All of them are marked. */
  lemma {:induction false} MarksComplete(header: seq<byte>, qs: seq<Question>, items: seq<Item>)
    requires Response(header, qs, items).Written?
    ensures Marked(Response(header, qs, items).marks) == NamesOf(qs, items)
    decreases |items|, |qs|
  {
    hide Emit, Be16, Be32;
    if items != [] {
      MarksComplete(header, qs, items[..|items| - 1]);
    } else if qs != [] {
      MarksComplete(header, qs[..|qs| - 1], []);
    }
  }

  // When it writes past its buffer.

  /** What has been written ends where the name, none of which is known, has room
      for its labels and not for the final zero. */
  ghost predicate Overruns(o: Written, head: nat, name: Name) {
    && o.Written? && |name| <= MAX_NAME && |o.bytes| + head <= BUF_LEN
    && NoneKnown(Some(o.table), name) && LabelsFit(name) && EndsFull(name)
    && |o.bytes| + head + |name| + 1 == BUF_LEN
  }

  ghost predicate ItemOverruns(o: Written, item: Item) {
    Overruns(o, 0, item.name) || (item.isName && Overruns(PutHead(o, item), 2, item.data))
  }

  lemma NameBeyond(o: Written, head: nat, name: Name)
    ensures PutName(o, head, name).Beyond? <==> o.Beyond? || Overruns(o, head, name)
  {
    hide Emit, NoneKnown, LabelsFit;
    if o.Written? {
      NoRoomForZero(Some(o.table), name, |o.bytes| + head, BUF_LEN);
    }
  }

  lemma PutBeyond(o: Written, x: seq<byte>)
    ensures Put(o, x).Beyond? <==> o.Beyond?
  {
  }

  lemma QuestionBeyond(o: Written, q: Question)
    ensures PutQuestion(o, q).Beyond? <==> o.Beyond? || Overruns(o, 0, q.name)
  {
    hide Put, PutName, Overruns;
    var o1 := PutName(o, 0, q.name);
    NameBeyond(o, 0, q.name);
    PutBeyond(o1, Be16(q.qtype));
    PutBeyond(Put(o1, Be16(q.qtype)), Be16(q.class_));
  }

  lemma HeadBeyond(o: Written, item: Item)
    ensures PutHead(o, item).Beyond? <==> o.Beyond? || Overruns(o, 0, item.name)
  {
    hide Put, PutName, Overruns;
    var o1 := PutName(o, 0, item.name);
    NameBeyond(o, 0, item.name);
    PutBeyond(o1, Be16(item.rtype));
    PutBeyond(Put(o1, Be16(item.rtype)), Be16(item.class_));
    PutBeyond(Put(Put(o1, Be16(item.rtype)), Be16(item.class_)), Be32(item.ttl));
  }

  lemma ItemBeyond(o: Written, item: Item)
    ensures PutItem(o, item).Beyond? <==> o.Beyond? || (o.Written? && ItemOverruns(o, item))
  {
    hide Put, PutName, PutHead, Overruns;
    var o1 := PutHead(o, item);
    HeadBeyond(o, item);
    NameBeyond(o1, 2, item.data);
    PutBeyond(o1, Be16(|item.data|));
    PutBeyond(Put(o1, Be16(|item.data|)), item.data);
  }

  ghost predicate QuestionOverrunsAt(o: Written, qs: seq<Question>, i: nat)
    requires i < |qs|
  {
    Overruns(PutQuestions(o, qs[..i]), 0, qs[i].name)
  }

  lemma {:induction false} QuestionsBeyond(o: Written, qs: seq<Question>)
    ensures PutQuestions(o, qs).Beyond? <==>
      o.Beyond? || exists i :: 0 <= i < |qs| && QuestionOverrunsAt(o, qs, i)
  {
    hide Overruns, PutQuestion;
    if qs != [] {
      var k := |qs| - 1;
      QuestionsBeyond(o, qs[..k]);
      QuestionBeyond(PutQuestions(o, qs[..k]), qs[k]);
      forall i | 0 <= i < k ensures QuestionOverrunsAt(o, qs[..k], i) == QuestionOverrunsAt(o, qs, i) {
        assert qs[..k][..i] == qs[..i];
      }
      assert QuestionOverrunsAt(o, qs, k) == Overruns(PutQuestions(o, qs[..k]), 0, qs[k].name);
    }
  }

  lemma {:induction false} ItemsBeyond(o: Written, items: seq<Item>)
    ensures PutItems(o, items).Beyond? <==>
      o.Beyond? || exists i :: 0 <= i < |items| && ItemOverrunsAt(o, items, i)
  {
    hide ItemOverruns, PutItem;
    if items != [] {
      var k := |items| - 1;
      ItemsBeyond(o, items[..k]);
      ItemBeyond(PutItems(o, items[..k]), items[k]);
      forall i | 0 <= i < k ensures ItemOverrunsAt(o, items[..k], i) == ItemOverrunsAt(o, items, i) {
        assert items[..k][..i] == items[..i];
      }
      assert ItemOverrunsAt(o, items, k) == (PutItems(o, items[..k]).Written? && ItemOverruns(PutItems(o, items[..k]), items[k]));
    }
  }

  ghost predicate ItemOverrunsAt(o: Written, items: seq<Item>, i: nat)
    requires i < |items|
  {
    PutItems(o, items[..i]).Written? && ItemOverruns(PutItems(o, items[..i]), items[i])
  }

  /** A response makes the code write past its buffer exactly if one of its names
      comes where it lacks room for nothing but the final zero. */
  lemma ResponseBeyond(header: seq<byte>, qs: seq<Question>, items: seq<Item>)
    ensures var o := Written(header, [], []);
      var oq := PutQuestions(o, qs);
      Response(header, qs, items).Beyond? <==>
        || (exists i :: 0 <= i < |qs| && QuestionOverrunsAt(o, qs, i))
        || (exists i :: 0 <= i < |items| && ItemOverrunsAt(oq, items, i))
  {
    hide QuestionOverrunsAt, ItemOverrunsAt, PutItems, PutQuestions;
    var o := Written(header, [], []);
    QuestionsBeyond(o, qs);
    ItemsBeyond(PutQuestions(o, qs), items);
  }

  /** Such a response: a text record that fills the buffer up to its last two
      bytes, and then a record for the name "a". */
  lemma OverrunExists(header: seq<byte>)
    requires |header| == 12
    ensures var text := Item([], 16, 1, 0, false, seq(1475, _ => 0));
      var a := Item([97], 1, 1, 0, false, []);
      Response(header, [], [text, a]).Beyond?
  {
    var text := Item([], 16, 1, 0, false, seq(1475, _ => 0));
    var a := Item([97], 1, 1, 0, false, []);
    var o := Written(header, [], []);
    assert [text, a][..1] == [text] && [text][..0] == [];
    assert PutItems(o, []) == o && PutQuestions(o, []) == o;
    assert TableAdd([], [], 12) == [Entry([], 12)];
    assert Emit(Some([]), [], 12, BUF_LEN) == Done(LabelBytes([]), Some([Entry([], 12)]));
    var o1 := PutItems(o, [text]);
    assert o1 == PutItem(o, text);
    assert o1.Written? && |o1.bytes| == 1498 && o1.table == [Entry([], 12)];
    assert Dot([97]) == 1 by {
      DotIs([97], 1);
    }
    assert GetPos([Entry([], 12)], [97]) == -1;
    assert Overruns(o1, 0, a.name);
    assert ItemOverrunsAt(o, [text, a], 1);
    ResponseBeyond(header, [], [text, a]);
  }

  // How it is written.

  /** The first j bytes of the buffer, and the table, are what was to be written. */
  ghost predicate Holds(buf: seq<byte>, j: nat, table: Table, o: Written) {
    o.Written? && j == |o.bytes| <= |buf| == BUF_LEN && buf[..j] == o.bytes && table == o.table
  }

  lemma HoldsMore(b0: seq<byte>, j: nat, table: Table, o: Written, x: seq<byte>, b: seq<byte>)
    requires Holds(b0, j, table, o) && j + |x| <= BUF_LEN && b == Patch(b0, j, x)
    ensures Holds(b, j + |x|, table, Put(o, x))
  {
    assert b[..j + |x|] == b0[..j] + x;
  }

  /** How storing something went. */
  datatype Status = Stored | Fails(code: int) | Full | Overran

  ghost predicate Tells(st: Status, o: Written) {
    match st
    case Stored => o.Written?
    case Fails(code) => o == Refused(code)
    case Full => o == Overflow
    case Overran => o == Beyond
  }

  /** APPEND16 and its like: stores if there is room. */
  method Append(buf: array<byte>, j0: nat, x: seq<byte>, ghost table: Table, ghost o: Written)
      returns (st: Status, j: nat)
    requires Holds(buf[..], j0, table, o)
    modifies buf
    ensures Tells(st, Put(o, x))
    ensures st == Stored ==> Holds(buf[..], j, table, Put(o, x))
  {
    ghost var b0 := buf[..];
    if j0 + |x| > buf.Length {
      return Full, j0;
    }
    PutBytes(buf, j0, x);
    HoldsMore(b0, j0, table, o, x, buf[..]);
    return Stored, j0 + |x|;
  }

  lemma {:induction false} EmitSome(table: Table, name: Name, j: nat, cap: nat)
    requires Emit(Some(table), name, j, cap).Done?
    ensures Emit(Some(table), name, j, cap).table.Some?
    decreases |name|
  {
    if GetPos(table, name) < 0 && Dot(name) < |name| {
      EmitSome(TableAdd(table, name, j), name[Dot(name) + 1..], j + Dot(name) + 1, cap);
    }
  }

  /** A name; with head == 2, after a gap that receives its length. */
  method AppendName(buf: array<byte>, j0: nat, head: nat, name: Name, table0: Table, ghost o: Written)
    returns (st: Status, j: nat, table: Table)
    requires Holds(buf[..], j0, table0, o) && CString(name) && (head == 0 || head == 2)
    modifies buf
    ensures Tells(st, PutName(o, head, name))
    ensures st == Stored ==> Holds(buf[..], j, table, PutName(o, head, name))
  {
    hide Emit, Holds, Patch;
    HoldsParts(buf[..], j0, table0, o);
    ghost var b0 := buf[..];
    table := table0;
    if j0 + head > buf.Length {
      // Any name fails to find room there.
      return Fails(-2), j0, table;
    }
    var r, t := NameToLabels(buf, j0 + head, name, Some(table));
    match r {
      case Error(code) =>
        return Fails(code), j0, table;
      case Unchecked =>
        return Overran, j0, table;
      case Index(j1) =>
        j := j1;
    }
    EmitSome(table0, name, j0 + head, BUF_LEN);
    table := t.value;
    ghost var e := Emit(Some(table0), name, j0 + head, BUF_LEN);
    if head == 2 {
      ghost var b1 := buf[..];
      PutBytes(buf, j0, Be16(j - (j0 + 2)));
      GapFilled(b0, j0, Be16(|e.bytes|), e.bytes, b1, buf[..]);
    } else {
      NoGap(b0, j0, e.bytes);
    }
    HoldsName(b0, j0, table0, o, head, name, buf[..]);
    return Stored, j, table;
  }

  lemma HoldsParts(b: seq<byte>, j: nat, table: Table, o: Written)
    requires Holds(b, j, table, o)
    ensures o.Written? && j == |o.bytes| <= |b| == BUF_LEN && o.table == table
  {
  }

  /** The gap of two bytes, filled in afterwards. */
  lemma GapFilled(b0: seq<byte>, j: nat, h: seq<byte>, x: seq<byte>, b1: seq<byte>, b: seq<byte>)
    requires j + |h| + |x| <= |b0| && b1 == Patch(b0, j + |h|, x) && b == Patch(b1, j, h)
    ensures b == Patch(b0, j, h + x)
  {
    assert b1[j + |h|..] == x + b0[j + |h| + |x|..];
  }

  lemma NoGap(b0: seq<byte>, j: nat, x: seq<byte>)
    requires j + |x| <= |b0|
    ensures Patch(b0, j, x) == Patch(b0, j, [] + x)
  {
    assert [] + x == x;
  }

  lemma HoldsName(b0: seq<byte>, j: nat, table: Table, o: Written, head: nat, name: Name, b: seq<byte>)
    requires Holds(b0, j, table, o) && PutName(o, head, name).Written? && (head == 0 || head == 2)
    requires var e := Emit(Some(table), name, j + head, BUF_LEN);
      var x := (if head == 2 then Be16(|e.bytes|) else []) + e.bytes;
      e.Done? && j + |x| <= |b0| && b == Patch(b0, j, x)
    ensures var o1 := PutName(o, head, name); Holds(b, |o1.bytes|, o1.table, o1)
    ensures |PutName(o, head, name).bytes| == j + head + |Emit(Some(table), name, j + head, BUF_LEN).bytes|
  {
    hide Emit;
    var e := Emit(Some(table), name, j + head, BUF_LEN);
    var x := (if head == 2 then Be16(|e.bytes|) else []) + e.bytes;
    HoldsMore(b0, j, table, o, x, b);
    assert o.bytes + x == PutName(o, head, name).bytes;
  }

  /** A question, and a record. */
  method AppendQuestion(buf: array<byte>, j0: nat, q: Question, table0: Table, ghost o: Written)
    returns (st: Status, j: nat, table: Table)
    requires Holds(buf[..], j0, table0, o) && CString(q.name)
    modifies buf
    ensures Tells(st, PutQuestion(o, q))
    ensures st == Stored ==> Holds(buf[..], j, table, PutQuestion(o, q))
  {
    hide Holds, PutName, Put;
    PutStuck(PutName(o, 0, q.name), Be16(q.qtype), Be16(q.class_));
    st, j, table := AppendName(buf, j0, 0, q.name, table0, o);
    if st == Stored {
      ghost var o1 := PutName(o, 0, q.name);
      st, j := Append(buf, j, Be16(q.qtype), table, o1);
      if st == Stored {
        st, j := Append(buf, j, Be16(q.class_), table, Put(o1, Be16(q.qtype)));
      }
    }
  }

  lemma PutStuck(o: Written, x: seq<byte>, y: seq<byte>)
    ensures !o.Written? ==> Put(o, x) == o
    ensures !Put(o, x).Written? ==> Put(Put(o, x), y) == Put(o, x)
  {
  }

  method AppendHead(buf: array<byte>, j0: nat, item: Item, table0: Table, ghost o: Written)
    returns (st: Status, j: nat, table: Table)
    requires Holds(buf[..], j0, table0, o) && CString(item.name)
    modifies buf
    ensures Tells(st, PutHead(o, item))
    ensures st == Stored ==> Holds(buf[..], j, table, PutHead(o, item))
  {
    hide Holds, PutName, Put;
    ghost var o1 := PutName(o, 0, item.name);
    PutStuck(o1, Be16(item.rtype), Be16(item.class_));
    PutStuck(Put(o1, Be16(item.rtype)), Be16(item.class_), Be32(item.ttl));
    st, j, table := AppendName(buf, j0, 0, item.name, table0, o);
    if st == Stored {
      st, j := Append(buf, j, Be16(item.rtype), table, o1);
    }
    if st == Stored {
      st, j := Append(buf, j, Be16(item.class_), table, Put(o1, Be16(item.rtype)));
    }
    if st == Stored {
      st, j := Append(buf, j, Be32(item.ttl), table, Put(Put(o1, Be16(item.rtype)), Be16(item.class_)));
    }
  }

  method AppendRecord(buf: array<byte>, j0: nat, item: Item, table0: Table, ghost o: Written)
    returns (st: Status, j: nat, table: Table)
    requires Holds(buf[..], j0, table0, o) && CString(item.name) && (item.isName ==> CString(item.data))
    modifies buf
    ensures Tells(st, PutRecord(o, item))
    ensures st == Stored ==> Holds(buf[..], j, table, PutRecord(o, item))
  {
    hide Holds, Put, PutHead, PutName;
    ghost var o1 := PutHead(o, item);
    PutStuck(o1, Be16(|item.data|), item.data);
    PutNameStuck(o1, 2, item.data);
    st, j, table := AppendHead(buf, j0, item, table0, o);
    if st == Stored {
      if item.isName {
        st, j, table := AppendName(buf, j, 2, item.data, table, o1);
      } else {
        st, j := Append(buf, j, Be16(|item.data|), table, o1);
        if st == Stored {
          st, j := Append(buf, j, item.data, table, Put(o1, Be16(|item.data|)));
        }
      }
    }
  }

  lemma PutNameStuck(o: Written, head: nat, name: Name)
    ensures !o.Written? ==> PutName(o, head, name) == o
  {
  }

  method AppendItem(buf: array<byte>, j0: nat, item: Item, table0: Table, ghost o: Written)
    returns (st: Status, j: nat, table: Table)
    requires Holds(buf[..], j0, table0, o) && CString(item.name) && (item.isName ==> CString(item.data))
    modifies buf
    ensures Tells(st, PutItem(o, item))
    ensures st == Stored ==> Holds(buf[..], j, table, PutItem(o, item))
  {
    hide Holds, PutRecord;
    HoldsParts(buf[..], j0, table0, o);
    st, j, table := AppendRecord(buf, j0, item, table0, o);
    if st.Fails? {
      st := Full;
    }
  }

  /** Nothing is written after what went wrong. */
  lemma {:induction false} QuestionsStuck(o: Written, qs: seq<Question>, i: nat)
    requires i <= |qs| && !PutQuestions(o, qs[..i]).Written?
    ensures PutQuestions(o, qs) == PutQuestions(o, qs[..i])
    decreases |qs|
  {
    if i < |qs| {
      assert qs[..|qs| - 1][..i] == qs[..i];
      QuestionsStuck(o, qs[..|qs| - 1], i);
    } else {
      assert qs[..i] == qs;
    }
  }

  lemma {:induction false} ItemsStuck(o: Written, items: seq<Item>, i: nat)
    requires i <= |items| && !PutItems(o, items[..i]).Written?
    ensures PutItems(o, items) == PutItems(o, items[..i])
    decreases |items|
  {
    hide PutRecord;
    if i < |items| {
      assert items[..|items| - 1][..i] == items[..i];
      ItemsStuck(o, items[..|items| - 1], i);
    } else {
      assert items[..i] == items;
    }
  }

  /** What becomes of a response: it is complete, or cut off after MAX_UDP
      bytes and marked so, or an error code is returned; or the code stored a
      zero past its buffer, after which nothing is known. */
  datatype Formatted = Complete(length: nat) | Truncated | Rejected(code: int) | Undefined

  /** The byte of the header that holds TC, with TC set. */
  function SetTc(b: byte): (r: byte)
    ensures r as int / 2 % 2 == 1 && r as int / 4 == b as int / 4 && r as int % 2 == b as int % 2
  {
    if b as int / 2 % 2 == 1 then b else (b as int + 2) as byte
  }

  /** trans_id and flags of the request, its questions, and the records of the
      three sections. */
  datatype Reply = Reply(transId: nat, flags: bv16, questions: seq<Question>,
                         answer: seq<Item>, authority: seq<Item>, additional: seq<Item>)

  /** The request's flags with the response bit and the error code. */
  function Flags(flags: bv16, err: bv16): bv16 {
    flags | 0x8000 | err
  }

  /** The response bit is set, the error code is added, and every other flag is
      the request's. */
  lemma FlagsMean(flags: bv16, err: bv16)
    requires err <= 15
    ensures Flags(flags, err) & 0x8000 == 0x8000
    ensures Flags(flags, err) & 0x7ff0 == flags & 0x7ff0
    ensures flags & 15 == 0 ==> Flags(flags, err) & 15 == err
  {
  }

  function Fields(reply: Reply, err: nat): (f: seq<nat>)
    requires err <= 15
    ensures |f| == 6
  {
    [reply.transId, Flags(reply.flags, err as bv16) as nat, |reply.questions|, |reply.answer|, |reply.authority|, |reply.additional|]
  }

  function Sections(reply: Reply): seq<Item> {
    reply.answer + reply.authority + reply.additional
  }

  /** evdns_server_request_format_response: the header fields, then the
      questions, then the records of the three sections one after the other. */
  method FormatResponse(buf: array<byte>, reply: Reply, err: int) returns (r: Formatted)
    requires buf.Length == BUF_LEN
    requires forall q :: q in reply.questions ==> CString(q.name)
    requires forall item :: item in Sections(reply) ==> CString(item.name) && (item.isName ==> CString(item.data))
    modifies buf
    ensures err < 0 || err > 15 ==> r == Rejected(-1)
    ensures 0 <= err <= 15 ==>
      match Response(Header(Fields(reply, err)), reply.questions, Sections(reply))
      case Refused(code) => r == Rejected(code)
      case Beyond => r == Undefined
      case Overflow => r == Truncated && buf[2] as int / 2 % 2 == 1
      case Written(bytes, _, _) =>
        |bytes| <= BUF_LEN
        && if |bytes| <= MAX_UDP then r == Complete(|bytes|) && buf[..|bytes|] == bytes
           else r == Truncated && buf[..MAX_UDP] == bytes[..MAX_UDP][2 := SetTc(bytes[2])]
  {
    if err < 0 || err > 15 {
      return Rejected(-1);
    }
    r := FormatFields(buf, Fields(reply, err), reply.questions, Sections(reply));
  }

  method FormatFields(buf: array<byte>, fields: seq<nat>, qs: seq<Question>, items: seq<Item>) returns (r: Formatted)
    requires buf.Length == BUF_LEN && |fields| == 6
    requires forall q :: q in qs ==> CString(q.name)
    requires forall item :: item in items ==> CString(item.name) && (item.isName ==> CString(item.data))
    modifies buf
    ensures
      match Response(Header(fields), qs, items)
      case Refused(code) => r == Rejected(code)
      case Beyond => r == Undefined
      case Overflow => r == Truncated && buf[2] as int / 2 % 2 == 1
      case Written(bytes, _, _) =>
        |bytes| <= BUF_LEN
        && if |bytes| <= MAX_UDP then r == Complete(|bytes|) && buf[..|bytes|] == bytes
           else r == Truncated && buf[..MAX_UDP] == bytes[..MAX_UDP][2 := SetTc(bytes[2])]
  {
    hide Holds, PutQuestion, PutItem, Put;
    ghost var o := Written(Header(fields), [], []);
    var st, j: nat, table: Table := Stored, 12, [];
    ghost var b0 := buf[..];
    PutBytes(buf, 0, Header(fields));
    HeaderHolds(b0, Header(fields), buf[..]);
    assert qs[..0] == [];
    for i := 0 to |qs|
      invariant Holds(buf[..], j, table, PutQuestions(o, qs[..i]))
    {
      assert qs[..i + 1][..i] == qs[..i];
      st, j, table := AppendQuestion(buf, j, qs[i], table, PutQuestions(o, qs[..i]));
      if st != Stored {
        QuestionsStuck(o, qs, i + 1);
        assert items[..0] == [];
        ItemsStuck(PutQuestions(o, qs), items, 0);
        r := Stop(buf, st);
        return;
      }
    }
    assert qs[..|qs|] == qs;
    ghost var oq := PutQuestions(o, qs);
    for i := 0 to |items|
      invariant Holds(buf[..], j, table, PutItems(oq, items[..i]))
    {
      assert items[..i + 1][..i] == items[..i];
      st, j, table := AppendItem(buf, j, items[i], table, PutItems(oq, items[..i]));
      if st != Stored {
        ItemsStuck(oq, items, i + 1);
        r := Stop(buf, st);
        return;
      }
    }
    assert items[..|items|] == items;
    HoldsBytes(buf[..], j, table, PutItems(oq, items));
    if j > MAX_UDP {
      r := Stop(buf, Full);
      return;
    }
    return Complete(j);
  }

  /** How it ends when not all is written, the label `overflow` included. */
  method Stop(buf: array<byte>, st: Status) returns (r: Formatted)
    requires buf.Length == BUF_LEN && st != Stored
    modifies buf
    ensures st == Full ==> r == Truncated && buf[..] == old(buf[..])[2 := SetTc(old(buf[2]))]
    ensures st.Fails? ==> r == Rejected(st.code)
    ensures st == Overran ==> r == Undefined
  {
    match st {
      case Fails(code) =>
        r := Rejected(code);
      case Overran =>
        r := Undefined;
      case Full =>
        buf[2] := SetTc(buf[2]);
        r := Truncated;
    }
  }

  /** trans_id, flags and the four counts. */
  function Header(fields: seq<nat>): (h: seq<byte>)
    requires |fields| == 6
    ensures |h| == 12
  {
    Be16(fields[0]) + Be16(fields[1]) + Be16(fields[2]) + Be16(fields[3]) + Be16(fields[4]) + Be16(fields[5])
  }

  lemma HeaderHolds(b0: seq<byte>, h: seq<byte>, b: seq<byte>)
    requires |h| <= |b0| == BUF_LEN && b == Patch(b0, 0, h)
    ensures Holds(b, |h|, [], Written(h, [], []))
  {
  }

  lemma HoldsBytes(b: seq<byte>, j: nat, table: Table, o: Written)
    requires Holds(b, j, table, o)
    ensures o.Written? && j == |o.bytes| <= |b| && b[..j] == o.bytes
  {
  }
}
