/** Reading a DNS message, and that a response reads back to what it was to say. */
module DnsMessage {
  import opened DnsName
  import opened DnsCompression
  import opened DnsResponse
  import opened Options

  // A reader that knows nothing but the bytes.

  function U16(msg: seq<byte>, i: nat): nat
    requires i + 2 <= |msg|
  {
    msg[i] as nat * 256 + msg[i + 1] as nat
  }

  function U32(msg: seq<byte>, i: nat): nat
    requires i + 4 <= |msg|
  {
    U16(msg, i) * 65536 + U16(msg, i + 2)
  }

  /** A name, and the index just past it. */
  ghost function ReadName(msg: seq<byte>, at: nat): Option<(Name, nat)> {
    match Parse(msg, at, |msg|)
    case Fail => None
    case Labels(labels, end) => Some((Join(labels), end))
  }

  ghost function ReadQuestion(msg: seq<byte>, at: nat): Option<(Question, nat)> {
    match ReadName(msg, at)
    case None => None
    case Some((name, end)) =>
      if end + 4 > |msg| then None else Some((Question(name, U16(msg, end), U16(msg, end + 2)), end + 4))
  }

  /** A record, whose data is to be read as a name or not. */
  ghost function ReadItem(msg: seq<byte>, at: nat, isName: bool): Option<(Item, nat)> {
    match ReadName(msg, at)
    case None => None
    case Some((name, end)) =>
      if end + 10 > |msg| || end + 10 + U16(msg, end + 8) > |msg| then None
      else
        var from, upto := end + 10, end + 10 + U16(msg, end + 8);
        if !isName then
          Some((Item(name, U16(msg, end), U16(msg, end + 2), U32(msg, end + 4), false, msg[from..upto]), upto))
        else
          match ReadName(msg, from)
          case None => None
          case Some((data, e)) =>
            if e != upto then None
            else Some((Item(name, U16(msg, end), U16(msg, end + 2), U32(msg, end + 4), true, data), upto))
  }

  ghost function ReadQuestions(msg: seq<byte>, at: nat, n: nat): Option<(seq<Question>, nat)> {
    if n == 0 then Some(([], at))
    else
      match ReadQuestions(msg, at, n - 1)
      case None => None
      case Some((qs, mid)) =>
        match ReadQuestion(msg, mid)
        case None => None
        case Some((q, end)) => Some((qs + [q], end))
  }

  ghost function ReadItems(msg: seq<byte>, at: nat, kinds: seq<bool>): Option<(seq<Item>, nat)> {
    if kinds == [] then Some(([], at))
    else
      match ReadItems(msg, at, kinds[..|kinds| - 1])
      case None => None
      case Some((items, mid)) =>
        match ReadItem(msg, mid, kinds[|kinds| - 1])
        case None => None
        case Some((item, end)) => Some((items + [item], end))
  }

  datatype Message = Message(transId: nat, flags: nat, questions: seq<Question>,
                             answer: seq<Item>, authority: seq<Item>, additional: seq<Item>)

  /** The whole message; `kinds` says of each record whether its data is a name. */
  ghost function ReadMessage(msg: seq<byte>, kinds: seq<bool>): Option<Message> {
    if |msg| < 12 then None
    else
      var an, ns, ar := U16(msg, 6), U16(msg, 8), U16(msg, 10);
      if |kinds| != an + ns + ar then None
      else
        match ReadQuestions(msg, 12, U16(msg, 4))
        case None => None
        case Some((qs, mid)) =>
          match ReadItems(msg, mid, kinds)
          case None => None
          case Some((items, end)) =>
            if end != |msg| || |items| != an + ns + ar then None
            else Some(Message(U16(msg, 0), U16(msg, 2), qs, items[..an], items[an..an + ns], items[an + ns..]))
  }

  // What a message can hold: 16 and 32 bits.

  ghost function WireQuestion(q: Question): Question {
    q.(qtype := q.qtype % 0x1_0000, class_ := q.class_ % 0x1_0000)
  }

  ghost function WireItem(item: Item): Item {
    item.(rtype := item.rtype % 0x1_0000, class_ := item.class_ % 0x1_0000, ttl := item.ttl % 0x1_0000_0000)
  }

  ghost function WireQuestions(qs: seq<Question>): seq<Question> {
    seq(|qs|, i requires 0 <= i < |qs| => WireQuestion(qs[i]))
  }

  ghost function WireItems(items: seq<Item>): seq<Item> {
    seq(|items|, i requires 0 <= i < |items| => WireItem(items[i]))
  }

  ghost function Kinds(items: seq<Item>): seq<bool> {
    seq(|items|, i requires 0 <= i < |items| => items[i].isName)
  }

  ghost predicate ProperItem(item: Item) {
    Proper(item.name) && (item.isName ==> Proper(item.data))
  }

  ghost predicate AllProper(qs: seq<Question>, items: seq<Item>) {
    && (forall i :: 0 <= i < |qs| ==> Proper(qs[i].name))
    && forall i :: 0 <= i < |items| ==> ProperItem(items[i])
  }

  // Piece by piece.

  lemma Be16Reads(before: seq<byte>, x: nat, msg: seq<byte>)
    requires before + Be16(x) <= msg
    ensures |before| + 2 <= |msg| && U16(msg, |before|) == x % 0x1_0000
  {
    var n := |before|;
    Be16Bytes(x);
    hide Be16;
    assert before + Be16(x) == msg[..n + 2];
    assert msg[n] == Be16(x)[0] && msg[n + 1] == Be16(x)[1];
  }

  lemma Be16Bytes(x: nat)
    ensures Be16(x)[0] as nat * 256 + Be16(x)[1] as nat == x % 0x1_0000
  {
    var high, low := x / 256 % 256, x % 256;
    assert (high as byte) as nat == high && (low as byte) as nat == low;
    HighLow16(x);
  }

  lemma HighLow16(x: nat)
    ensures (x / 256 % 256) * 256 + x % 256 == x % 0x1_0000
  {
  }

  lemma Be32Reads(before: seq<byte>, x: nat, msg: seq<byte>)
    requires before + Be32(x) <= msg
    ensures |before| + 4 <= |msg| && U32(msg, |before|) == x % 0x1_0000_0000
  {
    hide U16, Be16;
    assert before + Be32(x) == (before + Be16(x / 65536)) + Be16(x % 65536);
    PrefixTrans(before + Be16(x / 65536), before + Be32(x), msg);
    Be16Reads(before, x / 65536, msg);
    Be16Reads(before + Be16(x / 65536), x % 65536, msg);
    HighLow(x);
  }

  lemma HighLow(x: nat)
    ensures (x / 65536 % 65536) * 65536 + x % 65536 % 65536 == x % 0x1_0000_0000
  {
  }

  lemma PrefixTrans(a: seq<byte>, b: seq<byte>, c: seq<byte>)
    requires a <= b <= c
    ensures a <= c
  {
  }

  lemma {:induction false} SpellPrefix(a: seq<byte>, b: seq<byte>, at: nat)
    requires a <= b && Spell(a, at, at) != Fail
    ensures Spell(b, at, at) == Spell(a, at, at) && at < |a|
  {
    hide Spell;
    SpellInside(a, at, at);
    SpellMore(a, b[|a|..], at, at);
    assert b == a + b[|a|..];
  }

  /** A name that was written reads back, whatever followed. */
  lemma NameReads(o: Written, head: nat, name: Name, msg: seq<byte>)
    requires Ok(o) && (head == 0 || head == 2) && PutName(o, head, name).Written?
    requires PutName(o, head, name).bytes <= msg
    ensures var p := ReadName(msg, |o.bytes| + head);
      && p.Some? && p.value.0 == Join(Meaning(name))
      && (Proper(name) ==> p.value == (name, |PutName(o, head, name).bytes|))
      && (!Proper(name) ==> p.value.0 != name)
  {
    hide Spell, Meaning, Join, Proper, Emit, Parse, TableOk;
    var o1 := PutName(o, head, name);
    PutNameOk(o, head, name);
    var m := o1.marks[|o1.marks| - 1];
    NameMark(o, head, name);
    assert m in o1.marks && MarkOk(o1.bytes, m);
    SpellPrefix(o1.bytes, msg, m.pos);
    SpellParse(msg, m.pos, m.pos, |msg|);
    ProperText(name);
  }

  lemma NameMark(o: Written, head: nat, name: Name)
    requires PutName(o, head, name).Written? && (head == 0 || head == 2)
    ensures var o1 := PutName(o, head, name);
      && o.Written? && o1.marks != [] && o1.marks[|o1.marks| - 1] == Mark(|o.bytes| + head, name, |o1.bytes|)
      && o.bytes <= o1.bytes
  {
    hide Emit;
  }

  lemma PutPrefix(o: Written, x: seq<byte>)
    requires Put(o, x).Written?
    ensures o.Written? && Put(o, x).bytes == o.bytes + x && o.bytes <= Put(o, x).bytes
  {
  }

  lemma PutFits(o: Written, x: seq<byte>)
    requires Put(o, x).Written?
    ensures |Put(o, x).bytes| <= BUF_LEN
  {
  }

  lemma QuestionReads(o: Written, q: Question, msg: seq<byte>)
    requires Ok(o) && PutQuestion(o, q).Written? && PutQuestion(o, q).bytes <= msg
    ensures o.Written? && o.bytes <= PutQuestion(o, q).bytes
    ensures Proper(q.name) ==> ReadQuestion(msg, |o.bytes|) == Some((WireQuestion(q), |PutQuestion(o, q).bytes|))
    ensures !Proper(q.name) ==>
      var r := ReadQuestion(msg, |o.bytes|); r.None? || r.value.0 != WireQuestion(q)
  {
    hide PutName, Ok, Proper, ReadName, U16, Be16, Join, Meaning;
    var o1 := PutName(o, 0, q.name);
    var o2 := Put(o1, Be16(q.qtype));
    PutPrefix(o2, Be16(q.class_));
    PutPrefix(o1, Be16(q.qtype));
    NameMark(o, 0, q.name);
    PrefixTrans(o2.bytes, PutQuestion(o, q).bytes, msg);
    PrefixTrans(o1.bytes, o2.bytes, msg);
    NameReads(o, 0, q.name, msg);
    Be16Reads(o1.bytes, q.qtype, msg);
    Be16Reads(o2.bytes, q.class_, msg);
  }

  /** The fixed part of a record. */
  lemma HeadReads(o: Written, item: Item, msg: seq<byte>)
    requires Ok(o) && PutHead(o, item).Written? && PutHead(o, item).bytes <= msg
    ensures Ok(PutHead(o, item)) && o.Written? && o.bytes <= PutHead(o, item).bytes
    ensures var r, h := ReadName(msg, |o.bytes|), |PutHead(o, item).bytes|;
      && r.Some? && 8 <= h <= |msg|
      && (!Proper(item.name) ==> r.value.0 != item.name)
      && (Proper(item.name) ==>
            && r.value == (item.name, h - 8)
            && U16(msg, h - 8) == item.rtype % 0x1_0000 && U16(msg, h - 6) == item.class_ % 0x1_0000
            && U32(msg, h - 4) == item.ttl % 0x1_0000_0000)
  {
    hide PutName, Put, Ok, Proper, ReadName, U16, U32, Be16, Be32, Join, Meaning;
    var o1 := PutName(o, 0, item.name);
    var o2 := Put(o1, Be16(item.rtype));
    var o3 := Put(o2, Be16(item.class_));
    var o4 := PutHead(o, item);
    PutPrefix(o3, Be32(item.ttl));
    PutPrefix(o2, Be16(item.class_));
    PutPrefix(o1, Be16(item.rtype));
    NameMark(o, 0, item.name);
    PutNameOk(o, 0, item.name);
    PutOk(o1, Be16(item.rtype));
    PutOk(o2, Be16(item.class_));
    PutOk(o3, Be32(item.ttl));
    PrefixTrans(o3.bytes, o4.bytes, msg);
    PrefixTrans(o2.bytes, o3.bytes, msg);
    PrefixTrans(o1.bytes, o2.bytes, msg);
    NameReads(o, 0, item.name, msg);
    Be16Reads(o1.bytes, item.rtype, msg);
    Be16Reads(o2.bytes, item.class_, msg);
    Be32Reads(o3.bytes, item.ttl, msg);
  }

  /** Its data, when that is a name. */
  lemma NameDataReads(o: Written, name: Name, msg: seq<byte>)
    requires Ok(o) && PutName(o, 2, name).Written? && PutName(o, 2, name).bytes <= msg &&
      |PutName(o, 2, name).bytes| <= BUF_LEN
    ensures var h, end := |o.bytes|, |PutName(o, 2, name).bytes|;
      && o.Written? && o.bytes <= PutName(o, 2, name).bytes
      && h + 2 <= end <= |msg| && U16(msg, h) == end - (h + 2)
      && ReadName(msg, h + 2).Some?
      && (Proper(name) ==> ReadName(msg, h + 2).value == (name, end))
      && (!Proper(name) ==> ReadName(msg, h + 2).value.0 != name)
  {
    hide Ok, Proper, ReadName, U16, Be16, Join, Meaning, Emit;
    NameReads(o, 2, name, msg);
    NameMark(o, 2, name);
    var e := Emit(Some(o.table), name, |o.bytes| + 2, BUF_LEN);
    var x := o.bytes + Be16(|e.bytes|);
    assert PutName(o, 2, name).bytes == x + e.bytes;
    PrefixTrans(x, PutName(o, 2, name).bytes, msg);
    Be16Reads(o.bytes, |e.bytes|, msg);
  }

  lemma BytesDataReads(o: Written, data: seq<byte>, msg: seq<byte>)
    requires Put(Put(o, Be16(|data|)), data).Written? && Put(Put(o, Be16(|data|)), data).bytes <= msg
    ensures var h, end := |o.bytes|, |Put(Put(o, Be16(|data|)), data).bytes|;
      && o.Written? && o.bytes <= Put(Put(o, Be16(|data|)), data).bytes
      && end == h + 2 + |data| <= |msg| && U16(msg, h) == |data| && msg[h + 2..end] == data
  {
    hide U16, Be16;
    var o1 := Put(o, Be16(|data|));
    PrefixTrans(o1.bytes, Put(o1, data).bytes, msg);
    Be16Reads(o.bytes, |data|, msg);
    assert msg[..|o1.bytes| + |data|] == o1.bytes + data;
  }

  lemma ItemReads(o: Written, item: Item, msg: seq<byte>)
    requires Ok(o) && PutItem(o, item).Written? && PutItem(o, item).bytes <= msg
    ensures o.Written? && o.bytes <= PutItem(o, item).bytes
    ensures ProperItem(item) ==>
      ReadItem(msg, |o.bytes|, item.isName) == Some((WireItem(item), |PutItem(o, item).bytes|))
    ensures !ProperItem(item) ==>
      var r := ReadItem(msg, |o.bytes|, item.isName); r.None? || r.value.0 != WireItem(item)
  {
    hide PutName, Put, PutHead, Ok, Proper, ReadName, U16, U32, Be16, Be32;
    var o1 := PutHead(o, item);
    ItemPrefix(o, item);
    PrefixTrans(o1.bytes, PutItem(o, item).bytes, msg);
    HeadReads(o, item, msg);
    if item.isName {
      NameDataReads(o1, item.data, msg);
    } else {
      BytesDataReads(o1, item.data, msg);
    }
  }

  lemma ItemPrefix(o: Written, item: Item)
    requires PutItem(o, item).Written?
    ensures o.Written? && PutHead(o, item).Written? && PutItem(o, item) == PutRecord(o, item)
    ensures PutHead(o, item).bytes <= PutItem(o, item).bytes && |PutItem(o, item).bytes| <= BUF_LEN
  {
    hide Emit, Be16, Be32;
    RecordPrefix(o, item);
  }

  lemma RecordPrefix(o: Written, item: Item)
    requires PutRecord(o, item).Written?
    ensures PutHead(o, item).Written? && o.Written?
    ensures PutHead(o, item).bytes <= PutRecord(o, item).bytes && |PutRecord(o, item).bytes| <= BUF_LEN
  {
    hide PutHead, Be16, Be32, Emit;
    var o1 := PutHead(o, item);
    if item.isName {
      EmitFits(o1, item.data);
    }
    HeadStuck(o, item);
  }

  lemma HeadStuck(o: Written, item: Item)
    ensures PutHead(o, item).Written? ==> o.Written?
  {
  }

  /** What is written fits into the buffer. */
  lemma EmitFits(o: Written, name: Name)
    requires PutName(o, 2, name).Written?
    ensures |PutName(o, 2, name).bytes| <= BUF_LEN && o.Written?
  {
    hide Emit;
    EmitLength(Some(o.table), name, |o.bytes| + 2, BUF_LEN);
  }

  lemma {:induction false} EmitLength(table: Option<Table>, name: Name, j: nat, cap: nat)
    requires Emit(table, name, j, cap).Done?
    ensures j + |Emit(table, name, j, cap).bytes| <= cap
    decreases |name|
  {
    hide Emit, GetPos, Remember, LabelBytes, PointerBytes, Dot;
    EmitBound(table, name, j, cap);
    if (table.None? || GetPos(table.value, name) < 0) && Dot(name) < |name| {
      EmitLength(Remember(table, name, j), name[Dot(name) + 1..], j + Dot(name) + 1, cap);
    }
  }

  lemma EmitBound(table: Option<Table>, name: Name, j: nat, cap: nat)
    requires Emit(table, name, j, cap).Done?
    ensures var k, e := Dot(name), Emit(table, name, j, cap);
      if table.Some? && GetPos(table.value, name) >= 0 then j + |e.bytes| <= cap
      else if k < |name| then
        && Emit(Remember(table, name, j), name[k + 1..], j + k + 1, cap).Done?
        && |e.bytes| == k + 1 + |Emit(Remember(table, name, j), name[k + 1..], j + k + 1, cap).bytes|
      else j + |e.bytes| <= cap
  {
    hide GetPos;
  }

  // All of it.

  lemma WirePush(qs: seq<Question>, items: seq<Item>)
    ensures qs != [] ==> WireQuestions(qs) == WireQuestions(qs[..|qs| - 1]) + [WireQuestion(qs[|qs| - 1])]
    ensures items != [] ==> WireItems(items) == WireItems(items[..|items| - 1]) + [WireItem(items[|items| - 1])]
    ensures items != [] ==> Kinds(items)[..|items| - 1] == Kinds(items[..|items| - 1])
  {
  }

  lemma LastApart<T>(a: seq<T>, x: T, b: seq<T>, y: T)
    ensures a + [x] == b + [y] <==> a == b && x == y
  {
    if a + [x] == b + [y] {
      assert (a + [x])[..|a|] == a && (b + [y])[..|b|] == b;
      assert (a + [x])[|a|] == x && (b + [y])[|b|] == y;
    }
  }

  lemma {:induction false} QuestionsRead(o: Written, qs: seq<Question>, msg: seq<byte>)
    requires Ok(o) && PutQuestions(o, qs).Written? && PutQuestions(o, qs).bytes <= msg
    ensures o.Written? && o.bytes <= PutQuestions(o, qs).bytes && Ok(PutQuestions(o, qs))
    ensures AllProper(qs, []) ==>
      ReadQuestions(msg, |o.bytes|, |qs|) == Some((WireQuestions(qs), |PutQuestions(o, qs).bytes|))
    ensures !AllProper(qs, []) ==>
      var r := ReadQuestions(msg, |o.bytes|, |qs|); r.None? || r.value.0 != WireQuestions(qs)
    decreases |qs|
  {
    hide Ok, PutQuestion, ReadQuestion, WireQuestion, Proper;
    QuestionsOk(o, qs);
    if qs != [] {
      var k := |qs| - 1;
      var o1 := PutQuestions(o, qs[..k]);
      QuestionsOk(o, qs[..k]);
      QuestionReads(o1, qs[k], msg);
      PrefixTrans(o1.bytes, PutQuestions(o, qs).bytes, msg);
      QuestionsRead(o, qs[..k], msg);
      PrefixTrans(o.bytes, o1.bytes, PutQuestions(o, qs).bytes);
      WirePush(qs, []);
      assert AllProper(qs, []) <==> AllProper(qs[..k], []) && Proper(qs[k].name);
      var r := ReadQuestions(msg, |o.bytes|, k);
      if r.Some? && ReadQuestion(msg, r.value.1).Some? {
        LastApart(r.value.0, ReadQuestion(msg, r.value.1).value.0, WireQuestions(qs[..k]), WireQuestion(qs[k]));
      }
    } else {
      assert WireQuestions(qs) == [];
    }
  }

  lemma {:induction false} ItemsRead(o: Written, items: seq<Item>, msg: seq<byte>)
    requires Ok(o) && PutItems(o, items).Written? && PutItems(o, items).bytes <= msg
    ensures o.Written? && o.bytes <= PutItems(o, items).bytes
    ensures AllProper([], items) ==>
      ReadItems(msg, |o.bytes|, Kinds(items)) == Some((WireItems(items), |PutItems(o, items).bytes|))
    ensures !AllProper([], items) ==>
      var r := ReadItems(msg, |o.bytes|, Kinds(items)); r.None? || r.value.0 != WireItems(items)
    decreases |items|
  {
    hide Ok, PutItem, ReadItem, WireItem, ProperItem;
    if items != [] {
      var k := |items| - 1;
      var o1 := PutItems(o, items[..k]);
      ItemsOk(o, items[..k]);
      ItemReads(o1, items[k], msg);
      PrefixTrans(o1.bytes, PutItems(o, items).bytes, msg);
      ItemsRead(o, items[..k], msg);
      PrefixTrans(o.bytes, o1.bytes, PutItems(o, items).bytes);
      WirePush([], items);
      assert AllProper([], items) <==> AllProper([], items[..k]) && ProperItem(items[k]);
      assert Kinds(items)[k] == items[k].isName;
      var r := ReadItems(msg, |o.bytes|, Kinds(items[..k]));
      if r.Some? && ReadItem(msg, r.value.1, items[k].isName).Some? {
        LastApart(r.value.0, ReadItem(msg, r.value.1, items[k].isName).value.0, WireItems(items[..k]), WireItem(items[k]));
      }
    } else {
      assert WireItems(items) == [] && Kinds(items) == [];
    }
  }

  /** The header. */
  lemma HeaderReads(fields: seq<nat>, msg: seq<byte>)
    requires |fields| == 6 && Header(fields) <= msg
    ensures |msg| >= 12
    ensures forall k :: 0 <= k < 6 ==> 2 * k + 2 <= |msg| && U16(msg, 2 * k) == fields[k] % 0x1_0000
  {
    hide U16, Be16;
    forall k | 0 <= k < 6 ensures 2 * k + 2 <= |msg| && U16(msg, 2 * k) == fields[k] % 0x1_0000 {
      FieldReads(fields, k, msg);
    }
  }

  lemma FieldReads(fields: seq<nat>, k: nat, msg: seq<byte>)
    requires |fields| == 6 && Header(fields) <= msg && k < 6
    ensures 2 * k + 2 <= |msg| && U16(msg, 2 * k) == fields[k] % 0x1_0000
  {
    hide U16, Be16;
    var h := Header(fields);
    assert h[..2 * k] + Be16(fields[k]) == h[..2 * k + 2];
    assert h[..2 * k + 2] <= msg;
    Be16Reads(h[..2 * k], fields[k], msg);
  }

  /** What the reply is to say, in 16 and 32 bits. */
  ghost function Said(reply: Reply, err: nat): Message
    requires err <= 15
  {
    Message(reply.transId % 0x1_0000, Flags(reply.flags, err as bv16) as nat, WireQuestions(reply.questions),
            WireItems(reply.answer), WireItems(reply.authority), WireItems(reply.additional))
  }

  /** Every piece takes room. */
  lemma {:induction false} QuestionsGrow(o: Written, qs: seq<Question>)
    requires PutQuestions(o, qs).Written? && (o.Written? ==> |o.bytes| <= BUF_LEN)
    ensures o.Written? && |qs| + |o.bytes| <= |PutQuestions(o, qs).bytes| <= BUF_LEN
  {
    hide PutName, Put;
    if qs != [] {
      var k := |qs| - 1;
      var o1 := PutQuestions(o, qs[..k]);
      var o2 := PutName(o1, 0, qs[k].name);
      PutPrefix(Put(o2, Be16(qs[k].qtype)), Be16(qs[k].class_));
      PutFits(Put(o2, Be16(qs[k].qtype)), Be16(qs[k].class_));
      PutPrefix(o2, Be16(qs[k].qtype));
      NameMark(o1, 0, qs[k].name);
      QuestionsGrow(o, qs[..k]);
    }
  }

  lemma {:induction false} ItemsGrow(o: Written, items: seq<Item>)
    requires PutItems(o, items).Written? && (o.Written? ==> |o.bytes| <= BUF_LEN)
    ensures o.Written? && |items| + |o.bytes| <= |PutItems(o, items).bytes| <= BUF_LEN
  {
    hide PutItem;
    if items != [] {
      var k := |items| - 1;
      var o1 := PutItems(o, items[..k]);
      ItemPrefix(o1, items[k]);
      ItemsGrow(o, items[..k]);
      HeadGrows(o1, items[k]);
    }
  }

  lemma HeadGrows(o: Written, item: Item)
    requires PutHead(o, item).Written?
    ensures o.Written? && |o.bytes| + 1 <= |PutHead(o, item).bytes|
  {
    hide PutName, Put;
    var o1 := PutName(o, 0, item.name);
    var o2 := Put(o1, Be16(item.rtype));
    PutPrefix(Put(o2, Be16(item.class_)), Be32(item.ttl));
    PutPrefix(o2, Be16(item.class_));
    PutPrefix(o1, Be16(item.rtype));
    NameMark(o, 0, item.name);
  }

  lemma WireSections(a: seq<Item>, b: seq<Item>, c: seq<Item>)
    ensures var w := WireItems(a + b + c);
      |w| == |a| + |b| + |c|
      && w[..|a|] == WireItems(a) && w[|a|..|a| + |b|] == WireItems(b) && w[|a| + |b|..] == WireItems(c)
  {
  }

  lemma Cut(s: seq<Item>, t: seq<Item>, a: nat, b: nat)
    requires a <= b <= |s| == |t| && s[..a] == t[..a] && s[a..b] == t[a..b] && s[b..] == t[b..]
    ensures s == t
  {
    assert s == s[..a] + s[a..b] + s[b..] && t == t[..a] + t[a..b] + t[b..];
  }

  /** A complete response reads back, from its bytes alone, as what it was to say:
      the header with the response bit and the counts, every question and every
      record of the three sections, in order; exactly if no name in it has an
      empty label. */
  lemma ReplyReadsBack(reply: Reply, err: nat)
    requires err <= 15 && Response(Header(Fields(reply, err)), reply.questions, Sections(reply)).Written?
    ensures var bytes := Response(Header(Fields(reply, err)), reply.questions, Sections(reply)).bytes;
      ReadMessage(bytes, Kinds(Sections(reply))) == Some(Said(reply, err)) <==> AllProper(reply.questions, Sections(reply))
  {
    hide Ok, PutQuestions, PutItems, ReadQuestions, ReadItems, WireItems, WireQuestions, U16, Header, Flags, Proper,
         ProperItem;
    var qs, items, fields := reply.questions, Sections(reply), Fields(reply, err);
    var o := Written(Header(fields), [], []);
    var oq := PutQuestions(o, qs);
    var msg := PutItems(oq, items).bytes;
    StartsOk(o);
    WrittenQuestions(oq, items);
    QuestionsGrow(o, qs);
    ItemsGrow(oq, items);
    QuestionsOk(o, qs);
    ItemsRead(oq, items, msg);
    QuestionsRead(o, qs, msg);
    PrefixTrans(o.bytes, oq.bytes, msg);
    HeaderReads(fields, msg);
    SectionCounts(reply, err, msg);
    WireSections(reply.answer, reply.authority, reply.additional);
    assert AllProper(qs, items) <==> AllProper(qs, []) && AllProper([], items);
    var an, ns := |reply.answer|, |reply.authority|;
    var r := ReadItems(msg, |oq.bytes|, Kinds(items));
    if AllProper(qs, []) && !AllProper([], items) && r.Some? && |r.value.0| == |items| {
      if r.value.0[..an] == WireItems(items)[..an] && r.value.0[an..an + ns] == WireItems(items)[an..an + ns]
         && r.value.0[an + ns..] == WireItems(items)[an + ns..] {
        Cut(r.value.0, WireItems(items), an, an + ns);
      }
    }
  }

  lemma StartsOk(o: Written)
    requires o.Written? && o.table == [] && o.marks == []
    ensures Ok(o)
  {
  }

  lemma {:induction false} WrittenQuestions(o: Written, items: seq<Item>)
    requires PutItems(o, items).Written?
    ensures o.Written?
  {
    hide PutRecord;
    if items != [] {
      WrittenQuestions(o, items[..|items| - 1]);
    }
  }

  lemma SectionCounts(reply: Reply, err: nat, msg: seq<byte>)
    requires err <= 15 && |msg| >= 12 && |msg| <= BUF_LEN
    requires forall k :: 0 <= k < 6 ==> 2 * k + 2 <= |msg| && U16(msg, 2 * k) == Fields(reply, err)[k] % 0x1_0000
    requires |reply.questions| <= BUF_LEN && |Sections(reply)| <= BUF_LEN
    ensures U16(msg, 0) == reply.transId % 0x1_0000 && U16(msg, 2) == Flags(reply.flags, err as bv16) as nat
    ensures U16(msg, 4) == |reply.questions| && U16(msg, 6) == |reply.answer|
    ensures U16(msg, 8) == |reply.authority| && U16(msg, 10) == |reply.additional|
    ensures |Kinds(Sections(reply))| == |reply.answer| + |reply.authority| + |reply.additional|
  {
    hide U16, Flags;
    assert U16(msg, 2 * 0) == reply.transId % 0x1_0000;
    assert U16(msg, 2 * 1) == Flags(reply.flags, err as bv16) as nat % 0x1_0000;
    assert U16(msg, 2 * 2) == |reply.questions| % 0x1_0000;
    assert U16(msg, 2 * 3) == |reply.answer| % 0x1_0000;
    assert U16(msg, 2 * 4) == |reply.authority| % 0x1_0000;
    assert U16(msg, 2 * 5) == |reply.additional| % 0x1_0000;
  }
}
