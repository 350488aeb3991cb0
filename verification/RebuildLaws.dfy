/** Prepending as an action on attribute tables: two prepends are one, and prepending
    nothing changes nothing. Each law holds under a condition on the tables, which is exact
    and which tables of legal code meet as long as the code stays short enough. */
module RebuildLaws {
  import opened Wrappers
  import opened Bytes
  import opened ConstantPool
  import opened Attributes
  import opened ClassFile
  import opened CodeAttribute
  import StackMapTable
  import DebugTables

  // ---------------------------------------------------------------- two prepends are one

  // No local variable range of the attribute wraps to start 0 by the first shift.
  predicate InnerNoWrap(cp: Pool, a: Attr, first: u4, second: u4) {
    Utf8Value(cp, a.name) == LOCAL_VARIABLE_TABLE || Utf8Value(cp, a.name) == LOCAL_VARIABLE_TYPE_TABLE ==>
      var entries := DebugTables.TableEntries(DebugTables.LocalTable, a.body);
      forall i :: 0 <= i < |entries| ==> DebugTables.NoWrapToZero(DebugTables.LocalOf(entries[i]), first, second)
  }

  lemma {:induction false} InnerTwice(cp: Pool, a: Attr, first: u4, second: u4)
    requires InnerOk(cp, a) && first + second <= 0xFFFF_0000
    ensures InnerOk(cp, ShiftInner(cp, a, first))
    ensures ShiftInner(cp, ShiftInner(cp, a, first), second) == ShiftInner(cp, a, first + second) <==>
            InnerNoWrap(cp, a, first, second)
  {
    hide Utf8Value, StackMapTable.Shift, StackMapTable.HeadInBounds, DebugTables.ShiftTable, DebugTables.NoWrapToZero;
    var name := Utf8Value(cp, a.name);
    NamesDiffer();
    if name == STACK_MAP_TABLE {
      StackMapTable.ShiftTwice(a.body, first, second);
    } else if name == LINE_NUMBER_TABLE {
      DebugTables.ShiftLinesTwice(a.body, first, second);
    } else if name == LOCAL_VARIABLE_TABLE || name == LOCAL_VARIABLE_TYPE_TABLE {
      DebugTables.ShiftLocalsTwice(a.body, first, second);
    }
  }

  lemma NamesDiffer()
    ensures |STACK_MAP_TABLE| == 13 && |LINE_NUMBER_TABLE| == 15
    ensures |LOCAL_VARIABLE_TABLE| == 18 && |LOCAL_VARIABLE_TYPE_TABLE| == 22
  {
  }

  predicate NoWrap(cp: Pool, c: Code, first: u4, second: u4) {
    forall i :: 0 <= i < |c.attrs| ==> InnerNoWrap(cp, c.attrs[i], first, second)
  }

  lemma InnersTwice(cp: Pool, attrs: seq<Attr>, first: u4, second: u4)
    requires InnersOk(cp, attrs) && first + second <= 0xFFFF_0000
    ensures InnersOk(cp, ShiftInners(cp, attrs, first))
    ensures ShiftInners(cp, ShiftInners(cp, attrs, first), second) == ShiftInners(cp, attrs, first + second) <==>
            forall i :: 0 <= i < |attrs| ==> InnerNoWrap(cp, attrs[i], first, second)
  {
    hide ShiftInner, InnerNoWrap, InnerOk, ShiftInners;
    var once := ShiftInners(cp, attrs, first);
    forall i | 0 <= i < |attrs|
      ensures InnerOk(cp, once[i])
      ensures ShiftInner(cp, once[i], second) == ShiftInner(cp, attrs[i], first + second) <==>
              InnerNoWrap(cp, attrs[i], first, second)
    {
      InnerTwice(cp, attrs[i], first, second);
    }
    var twice, sum := ShiftInners(cp, once, second), ShiftInners(cp, attrs, first + second);
    assert twice == sum <==> forall i :: 0 <= i < |attrs| ==> twice[i] == sum[i];
  }

  lemma {:induction false} HandlersTwice(hs: seq<Handler>, first: u4, second: u4)
    requires first + second <= 0xFFFF_0000
    ensures ShiftHandlers(ShiftHandlers(hs, first), second) == ShiftHandlers(hs, first + second)
  {
    hide U2;
    forall i | 0 <= i < |hs|
      ensures ShiftHandler(ShiftHandler(hs[i], first), second) == ShiftHandler(hs[i], first + second)
    {
      U2SumLaw(hs[i].startPc, first, second);
      U2SumLaw(hs[i].endPc, first, second);
      U2SumLaw(hs[i].handlerPc, first, second);
    }
  }

  lemma U2SumLaw(x: nat, first: nat, second: nat)
    ensures U2(U2(x + first) + second) == U2(x + (first + second))
  {
    U2Sum(x + first, second);
  }

  lemma {:induction false} CodeTwice(cp: Pool, c: Code, x: seq<u1>, y: seq<u1>, extra: u2, extra': u2)
    requires InnersOk(cp, c.attrs) && |x| + |y| <= 0xFFFF_0000
    ensures InnersOk(cp, RebuildCode(cp, c, x, extra).attrs)
    ensures var once := RebuildCode(cp, c, x, extra);
            RebuildCode(cp, once, y, extra') == RebuildCode(cp, c, y + x, Max(extra, extra')) <==>
            NoWrap(cp, c, |x|, |y|)
  {
    hide ShiftInners, InnerNoWrap, InnersOk, NoWrap, RebuildCode, Max;
    InnersTwice(cp, c.attrs, |x|, |y|);
    NoWrapMeans(cp, c, |x|, |y|);
    RebuiltAttrs(cp, c, x, extra);
    CodeTwiceFields(cp, c, x, y, extra, extra');
  }

  lemma RebuiltAttrs(cp: Pool, c: Code, x: seq<u1>, extra: u2)
    requires InnersOk(cp, c.attrs) && |x| <= 0xFFFF_FFFF
    ensures RebuildCode(cp, c, x, extra).attrs == ShiftInners(cp, c.attrs, |x|)
  {
    hide ShiftInners, InnersOk, U4;
  }

  // Everything but the inner attributes agrees without a condition.
  lemma {:induction false} CodeTwiceFields(cp: Pool, c: Code, x: seq<u1>, y: seq<u1>, extra: u2, extra': u2)
    requires InnersOk(cp, c.attrs) && |x| + |y| <= 0xFFFF_0000
    requires InnersOk(cp, RebuildCode(cp, c, x, extra).attrs)
    ensures var twice := RebuildCode(cp, RebuildCode(cp, c, x, extra), y, extra');
            var sum := RebuildCode(cp, c, y + x, Max(extra, extra'));
            && twice == sum.(attrs := twice.attrs)
            && twice.attrs == ShiftInners(cp, RebuildCode(cp, c, x, extra).attrs, |y|)
            && sum.attrs == ShiftInners(cp, c.attrs, |x| + |y|)
  {
    hide ShiftHandlers, ShiftInners, InnersOk, U4;
    HandlersTwice(c.handlers, |x|, |y|);
    assert y + (x + c.code) == (y + x) + c.code;
  }

  lemma NoWrapMeans(cp: Pool, c: Code, first: u4, second: u4)
    ensures NoWrap(cp, c, first, second)
            <==> forall i :: 0 <= i < |c.attrs| ==> InnerNoWrap(cp, c.attrs[i], first, second)
  {
  }

  predicate AttrNoWrap(cp: Pool, a: Attr, codeName: u2, first: u4, second: u4)
    requires AttrReady(cp, a, codeName)
  {
    a.name == codeName ==> NoWrap(cp, ReadCode(a.body).value, first, second)
  }

  // Within one attribute: the two results have the same bytes exactly when no range wraps.
  lemma {:induction false} AttrTwice(cp: Pool, a: Attr, codeName: u2, x: seq<u1>, y: seq<u1>, extra: u2, extra': u2)
    requires AttrReady(cp, a, codeName) && |a.body| + |x| + |y| + 0x2_0000 <= ROOM
    ensures var once := RebuildAttr(cp, a, codeName, x, extra);
            && AttrReady(cp, once, codeName) && |once.body| + |y| <= ROOM
            && (RebuildAttr(cp, once, codeName, y, extra') ==
                RebuildAttr(cp, a, codeName, y + x, Max(extra, extra'))
                <==> AttrNoWrap(cp, a, codeName, |x|, |y|))
  {
    hide ReadCode, PrintCode, RebuildCode, NoWrap, InnersOk, CodeFits;
    if a.name == codeName {
      var c := ReadCode(a.body).value;
      ReadCodeFits(a.body);
      RebuiltCodeReads(cp, a, codeName, x, extra);
      RebuildCodeFits(cp, c, x, extra);
      CodeTwice(cp, c, x, y, extra, extra');
      var once := RebuildCode(cp, c, x, extra);
      RebuildCodeFits(cp, once, y, extra');
      RebuildCodeFits(cp, c, y + x, Max(extra, extra'));
      PrintCodeInjective(RebuildCode(cp, once, y, extra'), RebuildCode(cp, c, y + x, Max(extra, extra')));
    }
  }

  lemma PrintCodeInjective(c: Code, d: Code)
    requires CodeFits(c) && CodeFits(d)
    ensures PrintCode(c) == PrintCode(d) <==> c == d
  {
    hide PrintCode, ReadCode, CodeFits;
    CodeRoundTrip(PrintCode(c), c);
    CodeRoundTrip(PrintCode(c), d);
  }

  lemma PrintTableInjective(attrs: seq<Attr>, attrs': seq<Attr>)
    requires TableOk(attrs) && TableOk(attrs')
    ensures PrintTable(attrs) == PrintTable(attrs') <==> attrs == attrs'
  {
    hide PrintTable, ReadTable, TableOk;
    PrintedIsTable(attrs);
    PrintedIsTable(attrs');
  }

  // No Code attribute of the table holds a range that wraps.
  predicate TableNoWrap(cp: Pool, attrs: seq<Attr>, codeName: u2, first: u4, second: u4)
    requires AttrsReady(cp, attrs, codeName)
  {
    forall i :: 0 <= i < |attrs| ==> AttrNoWrap(cp, attrs[i], codeName, first, second)
  }

  // Prepending x and then y writes exactly the bytes that prepending y + x with the larger
  // extra stack writes, unless a local variable range wraps to start 0 on the way.
  lemma {:induction false} RebuildTwice(cp: Pool, raw: seq<u1>, codeName: u2, x: seq<u1>, y: seq<u1>, extra: u2,
      extra': u2)
    requires Ready(cp, raw, codeName)
    requires AllSmall(ReadTable(raw, 0).value.0, |x| + |y| + 0x2_0000)
    requires |x| + |y| <= 0xFFFF_0000
    ensures var once := Rebuild(cp, raw, codeName, x, extra);
            && Ready(cp, once, codeName)
            && (Rebuild(cp, once, codeName, y, extra') == Rebuild(cp, raw, codeName, y + x, Max(extra, extra'))
                <==> TableNoWrap(cp, ReadTable(raw, 0).value.0, codeName, |x|, |y|))
  {
    hide ReadTable, PrintTable, RebuildAttr, AttrReady, NoWrap, ReadCode, TableOk, RebuildAttrs, TableNoWrap;
    var attrs := ReadTable(raw, 0).value.0;
    RebuiltTableReads(cp, raw, codeName, x, extra);
    var once := RebuildAttrs(cp, attrs, codeName, x, extra);
    AttrsTwice(cp, attrs, codeName, x, y, extra, extra');
    var raw' := Rebuild(cp, raw, codeName, x, extra);
    RebuiltTableReads(cp, raw', codeName, y, extra');
    RebuiltTableReads(cp, raw, codeName, y + x, Max(extra, extra'));
    PrintTableInjective(RebuildAttrs(cp, once, codeName, y, extra'),
                        RebuildAttrs(cp, attrs, codeName, y + x, Max(extra, extra')));
  }

  lemma {:induction false} AttrsTwice(cp: Pool, attrs: seq<Attr>, codeName: u2, x: seq<u1>, y: seq<u1>, extra: u2,
      extra': u2)
    requires AttrsReady(cp, attrs, codeName) && AllSmall(attrs, |x| + |y| + 0x2_0000)
    requires |x| + |y| <= 0xFFFF_0000
    ensures var once := RebuildAttrs(cp, attrs, codeName, x, extra);
            && AttrsReady(cp, once, codeName) && AllSmall(once, |y|)
            && (RebuildAttrs(cp, once, codeName, y, extra') ==
                RebuildAttrs(cp, attrs, codeName, y + x, Max(extra, extra'))
                <==> TableNoWrap(cp, attrs, codeName, |x|, |y|))
  {
    hide RebuildAttr, AttrReady, AttrNoWrap, RebuildAttrs;
    var once := RebuildAttrs(cp, attrs, codeName, x, extra);
    forall i | 0 <= i < |attrs|
      ensures AttrReady(cp, once[i], codeName) && |once[i].body| + |y| <= ROOM
      ensures RebuildAttr(cp, once[i], codeName, y, extra')
              == RebuildAttr(cp, attrs[i], codeName, y + x, Max(extra, extra'))
              <==> AttrNoWrap(cp, attrs[i], codeName, |x|, |y|)
    {
      AttrTwice(cp, attrs[i], codeName, x, y, extra, extra');
    }
    var twice, sum := RebuildAttrs(cp, once, codeName, y, extra'),
        RebuildAttrs(cp, attrs, codeName, y + x, Max(extra, extra'));
    assert twice == sum <==> forall i :: 0 <= i < |attrs| ==> twice[i] == sum[i];
  }

  // Ranges inside the code do not wrap while the grown code stays within 0xFFFF bytes.
  lemma InsideCodeNoWrap(v: DebugTables.Local, codeLength: nat, first: u4, second: u4)
    requires v.startPc <= codeLength && codeLength + first <= 0xFFFF
    ensures DebugTables.NoWrapToZero(v, first, second)
  {
  }

  // ---------------------------------------------------------------- prepending nothing

  lemma CodeNothing(cp: Pool, c: Code)
    requires InnersOk(cp, c.attrs)
    ensures RebuildCode(cp, c, [], 0) == c.(tail := [])
  {
    hide ShiftInner, InnerOk;
    forall i | 0 <= i < |c.attrs|
      ensures ShiftInner(cp, c.attrs[i], 0) == c.attrs[i]
    {
      InnerNothing(cp, c.attrs[i]);
    }
    assert ShiftInners(cp, c.attrs, 0) == c.attrs;
    assert ShiftHandlers(c.handlers, 0) == c.handlers;
  }

  lemma InnerNothing(cp: Pool, a: Attr)
    requires InnerOk(cp, a)
    ensures ShiftInner(cp, a, 0) == a
  {
    hide Utf8Value, StackMapTable.Shift, DebugTables.ShiftTable;
    if Utf8Value(cp, a.name) == STACK_MAP_TABLE {
      StackMapTable.ShiftNothing(a.body);
    }
    DebugTables.ShiftNothing(DebugTables.LineTable, a.body);
    DebugTables.ShiftNothing(DebugTables.LocalTable, a.body);
  }

  predicate NoTail(a: Attr, codeName: u2)
    requires a.name == codeName ==> ReadCode(a.body).Some?
  {
    a.name == codeName ==> ReadCode(a.body).value.tail == []
  }

  lemma {:induction false} AttrNothing(cp: Pool, a: Attr, codeName: u2)
    requires AttrReady(cp, a, codeName)
    ensures RebuildAttr(cp, a, codeName, [], 0) == a <==> NoTail(a, codeName)
  {
    hide ReadCode, PrintCode, RebuildCode, InnersOk, TableOk;
    if a.name == codeName {
      var c := ReadCode(a.body).value;
      ReadCodeFits(a.body);
      CodeNothing(cp, c);
      PrintCodeInjective(c.(tail := []), c);
    }
  }

  // An empty insertion with no extra stack leaves the attribute table byte for byte as it was
  // exactly when no Code attribute has bytes after its own attribute table.
  lemma {:induction false} RebuildNothing(cp: Pool, raw: seq<u1>, codeName: u2)
    requires Ready(cp, raw, codeName) && AllSmall(ReadTable(raw, 0).value.0, 0)
    ensures Rebuild(cp, raw, codeName, [], 0) == raw <==>
            forall i :: 0 <= i < |ReadTable(raw, 0).value.0| ==> NoTail(ReadTable(raw, 0).value.0[i], codeName)
  {
    hide ReadTable, PrintTable, RebuildAttr, AttrReady, NoTail, TableOk, RebuildAttrs;
    var attrs := ReadTable(raw, 0).value.0;
    TableOfReady(cp, raw, codeName);
    RebuiltTableReads(cp, raw, codeName, [], 0);
    var same := RebuildAttrs(cp, attrs, codeName, [], 0);
    forall i | 0 <= i < |attrs|
      ensures AttrReady(cp, attrs[i], codeName)
      ensures attrs[i].name == codeName ==> ReadCode(attrs[i].body).Some?
      ensures same[i] == attrs[i] <==> NoTail(attrs[i], codeName)
    {
      ReadyHasCode(cp, attrs[i], codeName);
      AttrNothing(cp, attrs[i], codeName);
    }
    assert same == attrs <==> forall i :: 0 <= i < |attrs| ==> same[i] == attrs[i];
    PrintTableInjective(same, attrs);
  }

  lemma ReadyHasCode(cp: Pool, a: Attr, codeName: u2)
    requires AttrReady(cp, a, codeName)
    ensures a.name == codeName ==> ReadCode(a.body).Some?
  {
  }

  // A concrete table that changes: the byte after the inner attributes of its Code is dropped.
  lemma {:induction false} TailDropped(cp: Pool, codeName: u2)
    ensures var c := Code(0, 0, [], [], [], [7]);
            var raw := PrintTable([Attr(codeName, PrintCode(c))]);
            && Ready(cp, raw, codeName)
            && Rebuild(cp, raw, codeName, [], 0) == PrintTable([Attr(codeName, PrintCode(c.(tail := [])))])
            && Rebuild(cp, raw, codeName, [], 0) != raw
  {
    hide ReadTable, PrintTable, ReadCode, PrintCode, RebuildCode, TableOk;
    var c := Code(0, 0, [], [], [], [7]);
    var a := Attr(codeName, PrintCode(c));
    CodeSize(c);
    CodeRoundTrip(a.body, c);
    CodeNothing(cp, c);
    var b := Attr(codeName, PrintCode(c.(tail := [])));
    OneAttr(a);
    OneAttr(b);
    assert RebuildAttr(cp, a, codeName, [], 0) == b;
    assert RebuildAttrs(cp, [a], codeName, [], 0) == [b];
    CodeSize(c.(tail := []));
    PrintedIsTable([a]);
    PrintCodeInjective(c, c.(tail := []));
    PrintTableInjective([a], [b]);
  }

  lemma CodeSize(c: Code)
    requires c.code == [] && c.handlers == [] && c.attrs == [] && |c.tail| <= 1
    ensures CodeFits(c) && |PrintCode(c)| == 12 + |c.tail|
  {
  }

  lemma OneAttr(a: Attr)
    ensures AttrOk(a) ==> TableOk([a])
  {
  }
}
