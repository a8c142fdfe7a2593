/** Whatever names are printed into one message with one table, each parses
    back to itself. */
module DnsCompression {
  import opened DnsName
  import opened Options

  /** Parse, following only pointers to before `limit`, and from there only to
      before their targets. */
  ghost function Spell(msg: seq<byte>, at: nat, limit: nat): Parsed
    decreases limit, |msg| - at
  {
    if at >= |msg| then Fail
    else if msg[at] == 0 then Labels([], at + 1)
    else if IsPointer(msg[at]) then
      if at + 1 >= |msg| then Fail
      else
        var target := Offset(msg[at], msg[at + 1]);
        if target >= |msg| || target >= limit then Fail else Jumped(Spell(msg, target, target), at + 2)
    else
      var next := at + 1 + msg[at] as int;
      if next >= |msg| then Fail else Led(msg[at + 1..next], Spell(msg, next, limit))
  }

  /** Such pointers are soon exhausted. */
  lemma {:induction false} SpellParse(msg: seq<byte>, at: nat, limit: nat, jumps: nat)
    requires Spell(msg, at, limit) != Fail && limit <= jumps
    ensures Parse(msg, at, jumps) == Spell(msg, at, limit)
    decreases limit, |msg| - at
  {
    if msg[at] == 0 {
    } else if IsPointer(msg[at]) {
      var target := Offset(msg[at], msg[at + 1]);
      SpellParse(msg, target, target, jumps - 1);
    } else {
      SpellParse(msg, at + 1 + msg[at] as int, limit, jumps);
    }
  }

  /** A longer message says the same. */
  lemma {:induction false} SpellMore(msg: seq<byte>, more: seq<byte>, at: nat, limit: nat)
    requires Spell(msg, at, limit) != Fail
    ensures Spell(msg + more, at, limit) == Spell(msg, at, limit)
    decreases limit, |msg| - at
  {
    if msg[at] == 0 {
    } else if IsPointer(msg[at]) {
      var target := Offset(msg[at], msg[at + 1]);
      SpellMore(msg, more, target, target);
    } else {
      var next := at + 1 + msg[at] as int;
      SpellMore(msg, more, next, limit);
      assert (msg + more)[at + 1..next] == msg[at + 1..next];
    }
  }

  /** The labels of a name, up to the first empty one. */
  ghost function Meaning(name: Name): seq<Name>
    decreases |name|
  {
    var k := Dot(name);
    if k == 0 then []
    else if k == |name| then [name]
    else [name[..k]] + Meaning(name[k + 1..])
  }

  /** No label of the name is empty. */
  ghost predicate FullLabels(name: Name)
    decreases |name|
  {
    Dot(name) > 0 && (Dot(name) == |name| || FullLabels(name[Dot(name) + 1..]))
  }

  /** No label of the name is empty, or it is the root. */
  ghost predicate Proper(name: Name) {
    name == [] || FullLabels(name)
  }

  lemma {:induction false} JoinFirst(l: Name, ls: seq<Name>)
    ensures Join([l] + ls) == if ls == [] then l else l + [DOT] + Join(ls)
    decreases |ls|
  {
    hide Join;
    if ls == [] {
      JoinPush([], l);
      assert [l] + ls == [l] && [] + [l] == [l];
    } else {
      var k := |ls| - 1;
      JoinFirst(l, ls[..k]);
      assert [l] + ls == ([l] + ls[..k]) + [ls[k]];
      JoinPush([l] + ls[..k], ls[k]);
      assert ls == ls[..k] + [ls[k]];
      JoinPush(ls[..k], ls[k]);
      DotsGroup(l, Join(ls[..k]), ls[k]);
    }
  }

  lemma DotsGroup(a: Name, b: Name, c: Name)
    ensures (a + [DOT] + b) + [DOT] + c == a + [DOT] + (b + [DOT] + c)
  {
  }

  /** The text of a name whose first label is not the last. */
  lemma TextStep(name: Name)
    requires 0 < Dot(name) < |name|
    ensures var k := Dot(name); var ls := Meaning(name[k + 1..]);
      Join(Meaning(name)) == if ls == [] then name[..k] else name[..k] + [DOT] + Join(ls)
  {
    hide *;
    MeaningStep(name);
    JoinFirst(name[..Dot(name)], Meaning(name[Dot(name) + 1..]));
  }

  lemma FullStep(name: Name)
    requires 0 < Dot(name) < |name|
    ensures name == name[..Dot(name)] + [DOT] + name[Dot(name) + 1..]
  {
    hide *;
    SplitAt(name, Dot(name));
  }

  lemma SplitAt(name: Name, k: nat)
    requires k < |name|
    ensures name == name[..k] + [name[k]] + name[k + 1..]
  {
  }

  lemma FullNext(name: Name)
    requires 0 < Dot(name) < |name|
    ensures FullLabels(name) == FullLabels(name[Dot(name) + 1..])
  {
    hide Dot;
  }

  lemma MeaningStep(name: Name)
    requires 0 < Dot(name) < |name|
    ensures Meaning(name) == [name[..Dot(name)]] + Meaning(name[Dot(name) + 1..])
  {
  }

  /** A name that has just one label, or an empty first one. */
  lemma TextEnd(name: Name)
    requires Dot(name) == 0 || Dot(name) == |name|
    ensures Meaning(name) == if Dot(name) == 0 then [] else [name]
    ensures Join([]) == [] && Join([name]) == name
    ensures FullLabels(name) <==> Dot(name) > 0
  {
  }

  /** Only a proper name is the text of its labels; of any other, some is lost. */
  lemma {:induction false} ProperText(name: Name)
    ensures Proper(name) ==> Join(Meaning(name)) == name
    ensures !Proper(name) ==> |Join(Meaning(name))| < |name|
    ensures FullLabels(name) ==> Meaning(name) != []
    decreases |name|
  {
    hide Join, Meaning, FullLabels, Dot;
    var k := Dot(name);
    if 0 < k < |name| {
      var rest := name[k + 1..];
      ProperText(rest);
      TextStep(name);
      FullStep(name);
      FullNext(name);
      MeaningFull(name);
    } else {
      TextEnd(name);
    }
  }

  lemma MeaningFull(name: Name)
    requires 0 < Dot(name) < |name|
    ensures Meaning(name) != [] && Meaning([]) == []
    ensures FullLabels(name[Dot(name) + 1..]) ==> name[Dot(name) + 1..] != []
  {
  }

  /** The entry leads to what its name means. */
  ghost predicate EntryOk(msg: seq<byte>, e: Entry) {
    && e.pos < 0x4000
    && Spell(msg, e.pos, e.pos).Labels? && Spell(msg, e.pos, e.pos).labels == Meaning(e.v)
  }

  ghost predicate TableOk(msg: seq<byte>, table: Option<Table>) {
    table.Some? ==> forall e :: e in table.value ==> EntryOk(msg, e)
  }

  lemma EntryMore(msg: seq<byte>, more: seq<byte>, e: Entry)
    requires EntryOk(msg, e)
    ensures EntryOk(msg + more, e) && e.pos < |msg|
  {
    SpellMore(msg, more, e.pos, e.pos);
  }

  lemma TableMore(msg: seq<byte>, more: seq<byte>, table: Option<Table>)
    requires TableOk(msg, table)
    ensures TableOk(msg + more, table)
  {
    if table.Some? {
      forall e | e in table.value ensures EntryOk(msg + more, e) {
        EntryMore(msg, more, e);
      }
    }
  }

  /** The entries that a name can match lead to what they mean, and to before
      `limit`. */
  ghost predicate Ready(msg: seq<byte>, table: Option<Table>, name: Name, limit: nat) {
    table.Some? ==> forall e :: e in table.value && |e.v| <= |name| ==> EntryOk(msg, e) && e.pos < limit
  }

  /** A stored pointer reads as such. */
  lemma PointerReads(pos: nat)
    requires pos < 0x4000
    ensures var p := PointerBytes(pos); p[0] != 0 && IsPointer(p[0]) && Offset(p[0], p[1]) == pos
  {
    assert pos / 256 < 64;
  }

  lemma PointerSpells(msg: seq<byte>, e: Entry, limit: nat)
    requires EntryOk(msg, e) && e.pos < limit
    ensures Spell(msg + PointerBytes(e.pos), |msg|, limit) == Labels(Meaning(e.v), |msg| + 2)
  {
    hide PointerBytes, Offset, IsPointer, Meaning;
    var all := msg + PointerBytes(e.pos);
    PointerReads(e.pos);
    EntryMore(msg, PointerBytes(e.pos), e);
    SpellMore(msg, PointerBytes(e.pos), e.pos, e.pos);
    assert all[|msg|] == PointerBytes(e.pos)[0] && all[|msg| + 1] == PointerBytes(e.pos)[1];
  }

  lemma LabelSpells(msg: seq<byte>, part: Name, tail: seq<byte>, limit: nat)
    requires 0 < |part| <= MAX_LABEL && tail != []
    ensures var all := msg + (LabelBytes(part) + tail);
      Spell(all, |msg|, limit) == Led(part, Spell(all, |msg| + 1 + |part|, limit))
  {
    var all := msg + (LabelBytes(part) + tail);
    assert all[|msg|] == |part| as byte;
    assert all[|msg| + 1..|msg| + 1 + |part|] == part;
  }

  lemma ReadyNext(msg: seq<byte>, table: Option<Table>, name: Name, limit: nat, more: seq<byte>, rest: Name)
    requires Ready(msg, table, name, limit) && |rest| < |name|
    ensures Ready(msg + more, Remember(table, name, |msg|), rest, limit)
  {
    if table.Some? {
      forall e | e in TableAdd(table.value, name, |msg|) && |e.v| <= |rest|
        ensures EntryOk(msg + more, e) && e.pos < limit
      {
        EntryMore(msg, more, e);
      }
    }
  }

  ghost predicate Spelled(msg: seq<byte>, bytes: seq<byte>, name: Name, limit: nat) {
    var p := Spell(msg + bytes, |msg|, limit);
    && bytes != [] && p.Labels? && p.labels == Meaning(name)
    && (Proper(name) ==> p.end == |msg| + |bytes|)
  }

  /** The name has come to its last label. */
  lemma LastSpelled(msg: seq<byte>, name: Name, limit: nat)
    requires Dot(name) == |name| <= MAX_LABEL
    ensures Spelled(msg, LabelBytes(name) + (if name == [] then [] else [0]), name, limit)
  {
    var bytes := LabelBytes(name) + if name == [] then [] else [0];
    if name == [] {
      assert (msg + bytes)[|msg|] == 0;
    } else {
      LabelSpells(msg, name, [0], limit);
      assert (msg + bytes)[|msg| + 1 + |name|] == 0;
      assert [name] + [] == [name];
    }
  }

  /** A label in front. */
  lemma MoreSpelled(msg: seq<byte>, name: Name, bytes: seq<byte>, limit: nat)
    requires Dot(name) < |name| && Dot(name) <= MAX_LABEL
    requires Spelled(msg + LabelBytes(name[..Dot(name)]), bytes, name[Dot(name) + 1..], limit)
    ensures Spelled(msg, LabelBytes(name[..Dot(name)]) + bytes, name, limit)
  {
    hide Spell, LabelBytes, Dot, FullLabels, Meaning;
    var k := Dot(name);
    var part := LabelBytes(name[..k]);
    assert msg + (part + bytes) == (msg + part) + bytes;
    if k == 0 {
      EmptySpells(msg, bytes, limit);
      TextEnd(name);
    } else {
      LabelSpells(msg, name[..k], bytes, limit);
      RestProper(name);
      MeaningStep(name);
    }
  }

  lemma EmptySpells(msg: seq<byte>, bytes: seq<byte>, limit: nat)
    ensures Spell(msg + (LabelBytes([]) + bytes), |msg|, limit) == Labels([], |msg| + 1)
  {
    assert (msg + (LabelBytes([]) + bytes))[|msg|] == 0;
  }

  /** The cases of Emit that end well. */
  lemma EmitDone(table: Option<Table>, name: Name, j: nat, cap: nat)
    requires Emit(table, name, j, cap).Done?
    ensures var k, e := Dot(name), Emit(table, name, j, cap);
      if table.Some? && GetPos(table.value, name) >= 0 then
        e == Done(PointerBytes(GetPos(table.value, name)), table)
      else if k < |name| then
        && k <= MAX_LABEL && j + k + 1 <= cap
        && Emit(Remember(table, name, j), name[k + 1..], j + k + 1, cap).Done?
        && e == After(LabelBytes(name[..k]), Emit(Remember(table, name, j), name[k + 1..], j + k + 1, cap))
      else
        k <= MAX_LABEL && j + k + 1 <= cap
        && e == Done(LabelBytes(name) + (if name == [] then [] else [0]), Remember(table, name, j))
  {
    assert LabelBytes([]) + [] == LabelBytes([]);
  }

  /** What is printed spells the name. */
  lemma {:induction false} EmitSpells(msg: seq<byte>, table: Option<Table>, name: Name, cap: nat, limit: nat)
    requires Emit(table, name, |msg|, cap).Done? && Ready(msg, table, name, limit)
    ensures Spelled(msg, Emit(table, name, |msg|, cap).bytes, name, limit)
    decreases |name|
  {
    hide Emit, Spelled, GetPos, Dot, Remember, LabelBytes, PointerBytes;
    var k := Dot(name);
    EmitDone(table, name, |msg|, cap);
    if table.Some? && GetPos(table.value, name) >= 0 {
      GetPosIn(table.value, name);
      PointerSpelled(msg, Entry(name, GetPos(table.value, name)), limit);
    } else if k < |name| {
      var part, rest := LabelBytes(name[..k]), name[k + 1..];
      ReadyNext(msg, table, name, limit, part, rest);
      EmitSpells(msg + part, Remember(table, name, |msg|), rest, cap, limit);
      MoreSpelled(msg, name, Emit(Remember(table, name, |msg|), rest, |msg| + k + 1, cap).bytes, limit);
    } else {
      LastSpelled(msg, name, limit);
    }
  }

  lemma PointerSpelled(msg: seq<byte>, e: Entry, limit: nat)
    requires EntryOk(msg, e) && e.pos < limit
    ensures Spelled(msg, PointerBytes(e.pos), e.v, limit)
  {
    PointerSpells(msg, e, limit);
  }

  lemma RestProper(name: Name)
    requires 0 < Dot(name) < |name|
    ensures Proper(name) ==> Proper(name[Dot(name) + 1..])
  {
  }

  lemma SpelledEntry(msg: seq<byte>, bytes: seq<byte>, name: Name)
    requires Spelled(msg, bytes, name, |msg|) && |msg| < 0x4000
    ensures EntryOk(msg + bytes, Entry(name, |msg|))
  {
  }

  lemma {:induction false} EmitNone(name: Name, j: nat, cap: nat)
    requires Emit(None, name, j, cap).Done?
    ensures Emit(None, name, j, cap).table == None
    decreases |name|
  {
    if Dot(name) < |name| {
      EmitNone(name[Dot(name) + 1..], j + Dot(name) + 1, cap);
    }
  }

  /** The entries it leaves in the table lead to what they mean. */
  lemma {:induction false} EmitTable(msg: seq<byte>, table: Table, name: Name, cap: nat)
    requires Emit(Some(table), name, |msg|, cap).Done? && Ready(msg, Some(table), name, |msg|) && cap <= 0x4000
    ensures var e := Emit(Some(table), name, |msg|, cap);
      && e.table.Some?
      && forall x :: x in e.table.value ==> x in table || EntryOk(msg + e.bytes, x)
    decreases |name|
  {
    hide Emit, Spelled, GetPos, Dot, LabelBytes, PointerBytes, EntryOk, Ready;
    var k, bytes := Dot(name), Emit(Some(table), name, |msg|, cap).bytes;
    EmitDone(Some(table), name, |msg|, cap);
    if GetPos(table, name) < 0 {
      EmitSpells(msg, Some(table), name, cap, |msg|);
      SpelledEntry(msg, bytes, name);
      var table1 := TableAdd(table, name, |msg|);
      if k < |name| {
        var part, rest := LabelBytes(name[..k]), name[k + 1..];
        ReadyNext(msg, Some(table), name, |msg|, part, rest);
        ReadyFurther(msg + part, Some(table1), rest, |msg|, |msg + part|);
        EmitTable(msg + part, table1, rest, cap);
        assert msg + (part + Emit(Some(table1), rest, |msg| + k + 1, cap).bytes)
            == (msg + part) + Emit(Some(table1), rest, |msg| + k + 1, cap).bytes;
      }
    }
  }

  lemma ReadyFurther(msg: seq<byte>, table: Option<Table>, name: Name, limit: nat, limit1: nat)
    requires Ready(msg, table, name, limit) && limit <= limit1
    ensures Ready(msg, table, name, limit1)
  {
  }

  /** A name printed into a message, whatever is appended later, parses back to
      its text up to the first empty label, and leaves the table in order. */
  lemma PrintedParses(msg: seq<byte>, table: Option<Table>, name: Name, cap: nat, later: seq<byte>)
    requires TableOk(msg, table) && cap <= 0x4000 && Emit(table, name, |msg|, cap).Done?
    ensures var e := Emit(table, name, |msg|, cap);
      var all := msg + e.bytes + later;
      var p := Parse(all, |msg|, |all|);
      && TableOk(msg + e.bytes, e.table)
      && p.Labels? && p.labels == Meaning(name)
      && (Proper(name) ==> p.end == |msg| + |e.bytes|)
  {
    hide Spell, Parse, Emit, Meaning, EntryOk, Ready, Proper;
    var e := Emit(table, name, |msg|, cap);
    var all := msg + e.bytes + later;
    AllReady(msg, table, name);
    EmitSpells(msg, table, name, cap, |msg|);
    if table.Some? {
      EmitTable(msg, table.value, name, cap);
    } else {
      EmitNone(name, |msg|, cap);
    }
    TableMore(msg, e.bytes, table);
    SpellMore(msg + e.bytes, later, |msg|, |msg|);
    SpellParse(all, |msg|, |msg|, |all|);
  }

  lemma AllReady(msg: seq<byte>, table: Option<Table>, name: Name)
    requires TableOk(msg, table)
    ensures Ready(msg, table, name, |msg|)
  {
    if table.Some? {
      forall e | e in table.value ensures e.pos < |msg| {
        EntryMore(msg, [], e);
      }
    }
  }

  /** The round trip: parsing gives the name back, with the index just past
      what was printed, exactly if no label is empty or the name is the root. */
  lemma RoundTrip(msg: seq<byte>, table: Option<Table>, name: Name, cap: nat, later: seq<byte>)
    requires TableOk(msg, table) && cap <= 0x4000 && Emit(table, name, |msg|, cap).Done?
    ensures var e := Emit(table, name, |msg|, cap);
      var all := msg + e.bytes + later;
      var p := Parse(all, |msg|, |all|);
      p.Labels? && (Join(p.labels) == name && p.end == |msg| + |e.bytes| <==> Proper(name))
  {
    hide Spell, Parse, Emit, Meaning;
    PrintedParses(msg, table, name, cap, later);
    ProperText(name);
  }

  /** A name that is printed and does not come back: "a..b" comes back as "a". */
  lemma EmptyLabelLost()
    ensures var name: Name := [97, DOT, DOT, 98];
      Emit(None, name, 0, 1500).Done? && !Proper(name) && Join(Meaning(name)) == [97]
  {
    var name: Name := [97, DOT, DOT, 98];
    DotIs(name, 1);
    DotIs(name[2..], 0);
    DotIs(name[3..], 1);
    assert name[2..][1..] == name[3..] == [98];
    assert Meaning(name[2..]) == [];
    assert Meaning(name) == [name[..1]] + [];
    assert LabelsFit(name[3..]) && LabelsFit(name[2..]) && LabelsFit(name);
    RoomEnough(name, 0, 1500);
    var a: Name := [97];
    assert name[..1] == a;
    assert [a] + [] == [a];
    DotIs(a, 1);
    TextEnd(a);
    assert Join(Meaning(name)) == a;
    FullNext(name);
    TextEnd(name[2..]);
    assert !Proper(name);
  }

  /** The final zero is stored past the buffer exactly if no part of the name
      is found in the table, its labels are legal, its last one is not empty,
      and spelled in full without the zero it fills the buffer to the last byte. */
  lemma {:induction false} NoRoomForZero(table: Option<Table>, name: Name, j: nat, cap: nat)
    ensures Emit(table, name, j, cap).OutOfBounds? <==>
      NoneKnown(table, name) && LabelsFit(name) && EndsFull(name) && j + |name| + 1 == cap
    decreases |name|
  {
    if !(table.Some? && GetPos(table.value, name) >= 0)
       && Dot(name) < |name| && Dot(name) <= MAX_LABEL && j + Dot(name) + 1 <= cap {
      NoRoomForZero(Remember(table, name, j), name[Dot(name) + 1..], j + Dot(name) + 1, cap);
      LongerIgnored(table, name, j, name[Dot(name) + 1..]);
    }
  }

  /** No suffix of the name that begins a label is in the table. */
  ghost predicate NoneKnown(table: Option<Table>, name: Name)
    decreases |name|
  {
    && (table.Some? ==> GetPos(table.value, name) < 0)
    && (Dot(name) < |name| ==> NoneKnown(table, name[Dot(name) + 1..]))
  }

  /** An entry for a longer name makes no difference. */
  lemma {:induction false} LongerIgnored(table: Option<Table>, longer: Name, pos: nat, name: Name)
    requires |name| < |longer|
    ensures NoneKnown(Remember(table, longer, pos), name) <==> NoneKnown(table, name)
    decreases |name|
  {
    if table.Some? {
      PushedLast(table.value, Entry(longer, pos), name);
    }
    if Dot(name) < |name| {
      LongerIgnored(table, longer, pos, name[Dot(name) + 1..]);
    }
  }

  lemma {:induction false} PushedLast(table: Table, e: Entry, name: Name)
    requires e.v != name
    ensures GetPos(table + [e], name) == GetPos(table, name)
  {
    if table != [] {
      PushedLast(table[1..], e, name);
      assert (table + [e])[1..] == table[1..] + [e];
    }
  }

  /** With two bytes to spare, a name without a table is printed exactly if its
      labels are legal. */
  lemma {:induction false} RoomEnough(name: Name, j: nat, cap: nat)
    requires j + |name| + 2 <= cap
    ensures Emit(None, name, j, cap).Done? <==> LabelsFit(name)
    ensures !LabelsFit(name) ==> Emit(None, name, j, cap).LabelTooLong?
    decreases |name|
  {
    if Dot(name) < |name| && Dot(name) <= MAX_LABEL {
      RoomEnough(name[Dot(name) + 1..], j + Dot(name) + 1, cap);
    }
  }

  /** evdns_request_data_build, behind the 12 bytes of its header and in a buffer
      of evdns_request_len bytes, always has that room. */
  lemma RequestFits(name: Name)
    ensures var cap := 96 + |name| + 2 + 4;
      var e := Emit(None, name, 12, cap);
      && (e.Done? <==> LabelsFit(name)) && !e.NoRoom? && !e.OutOfBounds?
  {
    RoomEnough(name, 12, 96 + |name| + 2 + 4);
  }

  ghost predicate LabelsFit(name: Name)
    decreases |name|
  {
    Dot(name) <= MAX_LABEL && (Dot(name) < |name| ==> LabelsFit(name[Dot(name) + 1..]))
  }

  /** The last label is not empty. */
  predicate EndsFull(name: Name) {
    name != [] && name[|name| - 1] != DOT
  }
}
