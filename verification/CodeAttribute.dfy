/** The Code attribute (JVMS section 4.7.3) and its rebuilding around bytes inserted at the
    start of the method. */
module CodeAttribute {
  import opened Wrappers
  import opened Bytes
  import opened ConstantPool
  import opened Attributes
  import opened ClassFile
  import StackMapTable
  import DebugTables

  // "Code"
  const CODE: seq<u1> := [67, 111, 100, 101]

  // An exception table entry.
  datatype Handler = Handler(startPc: u2, endPc: u2, handlerPc: u2, catchType: u2)

  // tail: bytes of the attribute after its own attribute table; a legal attribute has none.
  datatype Code = Code(
    maxStack: u2,
    maxLocals: u2,
    code: seq<u1>,
    handlers: seq<Handler>,
    attrs: seq<Attr>,
    tail: seq<u1>)

  // "StackMapTable", "LineNumberTable", "LocalVariableTable" and "LocalVariableTypeTable".
  const STACK_MAP_TABLE: seq<u1> := [83, 116, 97, 99, 107, 77, 97, 112, 84, 97, 98, 108, 101]
  const LINE_NUMBER_TABLE: seq<u1> := [76, 105, 110, 101, 78, 117, 109, 98, 101, 114, 84, 97, 98, 108, 101]
  const LOCAL_VARIABLE_TABLE: seq<u1> :=
    [76, 111, 99, 97, 108, 86, 97, 114, 105, 97, 98, 108, 101, 84, 97, 98, 108, 101]
  const LOCAL_VARIABLE_TYPE_TABLE: seq<u1> :=
    [76, 111, 99, 97, 108, 86, 97, 114, 105, 97, 98, 108, 101, 84, 121, 112, 101, 84, 97, 98, 108, 101]

  // ---------------------------------------------------------------- printing and reading

  function PrintHandler(h: Handler): seq<u1> {
    (Wr16(h.startPc) + Wr16(h.endPc)) + (Wr16(h.handlerPc) + Wr16(h.catchType))
  }

  function PrintHandlers(hs: seq<Handler>): (s: seq<u1>)
    ensures |s| == 8 * |hs|
  {
    if hs == [] then [] else PrintHandler(hs[0]) + PrintHandlers(hs[1..])
  }

  function PrintSizes(c: Code): (s: seq<u1>)
    ensures |s| == 8
  {
    (Wr16(c.maxStack) + Wr16(c.maxLocals)) + Wr32(U4(|c.code|))
  }

  function PrintCode(c: Code): seq<u1> {
    PrintSizes(c) + (c.code + (Wr16(U2(|c.handlers|)) + (PrintHandlers(c.handlers) + (PrintTable(c.attrs) + c.tail))))
  }

  function ReadHandler(b: seq<u1>, pos: nat): Handler
    requires pos + 8 <= |b|
  {
    Handler(Rd16(b, pos), Rd16(b, pos + 2), Rd16(b, pos + 4), Rd16(b, pos + 6))
  }

  function ReadHandlers(b: seq<u1>, pos: nat, n: nat): (hs: seq<Handler>)
    requires pos + 8 * n <= |b|
    ensures |hs| == n
    decreases n
  {
    if n == 0 then [] else [ReadHandler(b, pos)] + ReadHandlers(b, pos + 8, n - 1)
  }

  // The parts after the code array.
  function ReadCodeRest(b: seq<u1>, p: nat): Option<(seq<Handler>, seq<Attr>, seq<u1>)> {
    if p + 2 > |b| || p + 2 + 8 * Rd16(b, p) > |b| then None
    else
      var n := Rd16(b, p);
      var (attrs, q) :- ReadTable(b, p + 2 + 8 * n);
      ReadTableSound(b, p + 2 + 8 * n);
      Some((ReadHandlers(b, p + 2, n), attrs, b[q..]))
  }

  // None: the parts do not lie inside the attribute.
  function ReadCode(b: seq<u1>): Option<Code> {
    if |b| < 8 || 8 + Rd32(b, 4) > |b| then None
    else
      var p := 8 + Rd32(b, 4);
      var (handlers, attrs, tail) :- ReadCodeRest(b, p);
      Some(Code(Rd16(b, 0), Rd16(b, 2), b[8..p], handlers, attrs, tail))
  }

  predicate CodeFits(c: Code) {
    |c.code| <= 0xFFFF_FFFF && |c.handlers| <= 0xFFFF && TableOk(c.attrs)
  }

  // The fields of an exception table entry in the order of JVMS 4.7.3, each high byte first.
  lemma HandlerLayout(h: Handler)
    ensures var b := PrintHandler(h);
            && |b| == 8
            && b[0] as int * 256 + b[1] as int == h.startPc
            && b[2] as int * 256 + b[3] as int == h.endPc
            && b[4] as int * 256 + b[5] as int == h.handlerPc
            && b[6] as int * 256 + b[7] as int == h.catchType
  {
  }

  // Likewise the start of the attribute.
  lemma SizesLayout(c: Code)
    requires |c.code| <= 0xFFFF_FFFF
    ensures var b := PrintSizes(c);
            && b[0] as int * 256 + b[1] as int == c.maxStack
            && b[2] as int * 256 + b[3] as int == c.maxLocals
            && ((b[4] as int * 256 + b[5] as int) * 256 + b[6] as int) * 256 + b[7] as int == |c.code|
  {
  }

  lemma HandlerRoundTrip(b: seq<u1>, pos: nat, h: Handler)
    ensures At(b, pos, PrintHandler(h)) <==> pos + 8 <= |b| && ReadHandler(b, pos) == h
  {
    hide Wr16, Rd16;
    AtConcat(b, pos, Wr16(h.startPc) + Wr16(h.endPc), Wr16(h.handlerPc) + Wr16(h.catchType));
    AtConcat(b, pos, Wr16(h.startPc), Wr16(h.endPc));
    AtConcat(b, pos + 4, Wr16(h.handlerPc), Wr16(h.catchType));
    At16(b, pos, h.startPc);
    At16(b, pos + 2, h.endPc);
    At16(b, pos + 4, h.handlerPc);
    At16(b, pos + 6, h.catchType);
  }

  lemma {:induction false} HandlersRoundTrip(b: seq<u1>, pos: nat, hs: seq<Handler>)
    requires pos + 8 * |hs| <= |b|
    ensures At(b, pos, PrintHandlers(hs)) <==> ReadHandlers(b, pos, |hs|) == hs
    decreases |hs|
  {
    hide PrintHandler, ReadHandler;
    if hs != [] {
      AtConcat(b, pos, PrintHandler(hs[0]), PrintHandlers(hs[1..]));
      HandlerRoundTrip(b, pos, hs[0]);
      HandlersRoundTrip(b, pos + 8, hs[1..]);
      var rest := ReadHandlers(b, pos + 8, |hs| - 1);
      assert ([ReadHandler(b, pos)] + rest)[1..] == rest;
      assert hs == [hs[0]] + hs[1..];
    }
  }

  function PrintRest(handlers: seq<Handler>, attrs: seq<Attr>, tail: seq<u1>): seq<u1> {
    Wr16(U2(|handlers|)) + (PrintHandlers(handlers) + (PrintTable(attrs) + tail))
  }

  lemma RestRoundTrip(b: seq<u1>, p: nat, handlers: seq<Handler>, attrs: seq<Attr>, tail: seq<u1>)
    requires |handlers| <= 0xFFFF && TableOk(attrs)
    ensures Ends(b, p, PrintRest(handlers, attrs, tail)) <==> ReadCodeRest(b, p) == Some((handlers, attrs, tail))
  {
    hide PrintHandlers, ReadHandlers, PrintTable, ReadTable, Wr16, Rd16;
    var n := |handlers|;
    var q := p + 2 + 8 * n;
    EndsConcat(b, p, Wr16(n), PrintHandlers(handlers) + (PrintTable(attrs) + tail));
    EndsConcat(b, p + 2, PrintHandlers(handlers), PrintTable(attrs) + tail);
    EndsConcat(b, q, PrintTable(attrs), tail);
    At16(b, p, n);
    TableRoundTrip(b, q, attrs);
    if q <= |b| {
      HandlersRoundTrip(b, p + 2, handlers);
    }
    if ReadCodeRest(b, p).Some? {
      ReadTableSound(b, p + 2 + 8 * Rd16(b, p));
    }
  }

  lemma SizesAt(b: seq<u1>, c: Code)
    requires |c.code| <= 0xFFFF_FFFF
    ensures At(b, 0, PrintSizes(c)) <==>
            |b| >= 8 && Rd16(b, 0) == c.maxStack && Rd16(b, 2) == c.maxLocals && Rd32(b, 4) == |c.code|
  {
    hide Wr16, Wr32, Rd16, Rd32;
    AtConcat(b, 0, Wr16(c.maxStack) + Wr16(c.maxLocals), Wr32(|c.code|));
    AtConcat(b, 0, Wr16(c.maxStack), Wr16(c.maxLocals));
    At16(b, 0, c.maxStack);
    At16(b, 2, c.maxLocals);
    At32(b, 4, |c.code|);
  }

  // A Code attribute body reads as c exactly when it is the printed c.
  lemma CodeRoundTrip(b: seq<u1>, c: Code)
    requires CodeFits(c)
    ensures b == PrintCode(c) <==> ReadCode(b) == Some(c)
  {
    hide PrintSizes, PrintRest, ReadCodeRest, Rd16, Rd32, TableOk;
    assert PrintCode(c) == PrintSizes(c) + (c.code + PrintRest(c.handlers, c.attrs, c.tail)) by {
      PrintCodeParts(c);
    }
    var p := 8 + |c.code|;
    assert b[0..] == b;
    assert Ends(b, 0, PrintCode(c)) <==> b == PrintCode(c);
    EndsConcat(b, 0, PrintSizes(c), c.code + PrintRest(c.handlers, c.attrs, c.tail));
    EndsConcat(b, 8, c.code, PrintRest(c.handlers, c.attrs, c.tail));
    SizesAt(b, c);
    RestRoundTrip(b, p, c.handlers, c.attrs, c.tail);
    if ReadCode(b) == Some(c) {
      assert Rd32(b, 4) == |c.code| && At(b, 8, c.code);
      var (handlers, attrs, tail) := ReadCodeRest(b, p).value;
      assert handlers == c.handlers && attrs == c.attrs && tail == c.tail;
    }
    if b == PrintCode(c) {
      assert b[8..p] == c.code;
    }
  }

  lemma PrintCodeParts(c: Code)
    ensures PrintCode(c) == PrintSizes(c) + (c.code + PrintRest(c.handlers, c.attrs, c.tail))
  {
  }

  lemma ReadCodeFits(b: seq<u1>)
    requires ReadCode(b).Some?
    ensures CodeFits(ReadCode(b).value) && b == PrintCode(ReadCode(b).value)
  {
    hide PrintCode, ReadTable, PrintTable, ReadHandlers;
    var c := ReadCode(b).value;
    var p := 8 + Rd32(b, 4);
    ReadTableSound(b, p + 2 + 8 * Rd16(b, p));
    CodeRoundTrip(b, c);
  }

  // ---------------------------------------------------------------- what the editor writes

  function ShiftHandler(h: Handler, delta: u4): Handler {
    Handler(U2(h.startPc + delta), U2(h.endPc + delta), U2(h.handlerPc + delta), h.catchType)
  }

  function ShiftHandlers(hs: seq<Handler>, delta: u4): (r: seq<Handler>)
    ensures |r| == |hs| && forall i :: 0 <= i < |hs| ==> r[i] == ShiftHandler(hs[i], delta)
  {
    seq(|hs|, i requires 0 <= i < |hs| => ShiftHandler(hs[i], delta))
  }

  predicate InnerOk(cp: Pool, a: Attr) {
    Utf8Value(cp, a.name) == STACK_MAP_TABLE ==> StackMapTable.HeadInBounds(a.body)
  }

  // The inner attributes are told apart by the string their name index holds.
  function ShiftInner(cp: Pool, a: Attr, delta: u4): Attr
    requires InnerOk(cp, a)
  {
    var name := Utf8Value(cp, a.name);
    if name == STACK_MAP_TABLE then a.(body := StackMapTable.Shift(a.body, delta))
    else if name == LINE_NUMBER_TABLE then a.(body := DebugTables.ShiftTable(DebugTables.LineTable, a.body, delta))
    else if name == LOCAL_VARIABLE_TABLE || name == LOCAL_VARIABLE_TYPE_TABLE then
      a.(body := DebugTables.ShiftTable(DebugTables.LocalTable, a.body, delta))
    else a
  }

  predicate InnersOk(cp: Pool, attrs: seq<Attr>) {
    forall i :: 0 <= i < |attrs| ==> InnerOk(cp, attrs[i])
  }

  function ShiftInners(cp: Pool, attrs: seq<Attr>, delta: u4): (r: seq<Attr>)
    requires InnersOk(cp, attrs)
    ensures |r| == |attrs| && forall i :: 0 <= i < |attrs| ==> r[i] == ShiftInner(cp, attrs[i], delta)
  {
    seq(|attrs|, i requires 0 <= i < |attrs| => ShiftInner(cp, attrs[i], delta))
  }

  function Max(x: u2, y: u2): u2 {
    if x > y then x else y
  }

  function RebuildCode(cp: Pool, c: Code, insertion: seq<u1>, extraStack: u2): Code
    requires InnersOk(cp, c.attrs)
  {
    var delta := U4(|insertion|);
    Code(Max(extraStack, c.maxStack), c.maxLocals, insertion + c.code,
         ShiftHandlers(c.handlers, delta), ShiftInners(cp, c.attrs, delta), [])
  }

  // An attribute the rebuilding can read without leaving its bytes.
  predicate AttrReady(cp: Pool, a: Attr, codeName: u2) {
    a.name == codeName ==> ReadCode(a.body).Some? && InnersOk(cp, ReadCode(a.body).value.attrs)
  }

  predicate AttrsReady(cp: Pool, attrs: seq<Attr>, codeName: u2) {
    forall i :: 0 <= i < |attrs| ==> AttrReady(cp, attrs[i], codeName)
  }

  function RebuildAttr(cp: Pool, a: Attr, codeName: u2, insertion: seq<u1>, extraStack: u2): Attr
    requires AttrReady(cp, a, codeName)
  {
    if a.name != codeName then a
    else Attr(a.name, PrintCode(RebuildCode(cp, ReadCode(a.body).value, insertion, extraStack)))
  }

  function RebuildAttrs(cp: Pool, attrs: seq<Attr>, codeName: u2, insertion: seq<u1>, extraStack: u2): (r: seq<Attr>)
    requires AttrsReady(cp, attrs, codeName)
    ensures |r| == |attrs|
    ensures forall i :: 0 <= i < |attrs| ==> r[i] == RebuildAttr(cp, attrs[i], codeName, insertion, extraStack)
  {
    seq(|attrs|, i requires 0 <= i < |attrs| => RebuildAttr(cp, attrs[i], codeName, insertion, extraStack))
  }

  predicate Ready(cp: Pool, raw: seq<u1>, codeName: u2) {
    IsTable(raw) && AttrsReady(cp, ReadTable(raw, 0).value.0, codeName)
  }

  // The attribute table of a method, rebuilt.
  function Rebuild(cp: Pool, raw: seq<u1>, codeName: u2, insertion: seq<u1>, extraStack: u2): seq<u1>
    requires Ready(cp, raw, codeName)
  {
    PrintTable(RebuildAttrs(cp, ReadTable(raw, 0).value.0, codeName, insertion, extraStack))
  }

  // ---------------------------------------------------------------- which inner attributes move

  // The pool slot holds exactly this text.
  predicate Spells(cp: Pool, i: nat, text: string) {
    && 0 < i < |cp| && cp[i].tag == 1
    && var b := cp[i].body;
    && |b| >= 2 + |text| && Rd16(b, 0) == |text|
    && forall k :: 0 <= k < |text| ==> b[2 + k] as int == text[k] as int
  }

  predicate SameText(bytes: seq<u1>, text: string) {
    |bytes| == |text| && forall k :: 0 <= k < |text| ==> bytes[k] as int == text[k] as int
  }

  // Comparing the string at an index with a text.
  lemma ValueSpells(cp: Pool, i: nat, bytes: seq<u1>, text: string)
    requires bytes != [] && SameText(bytes, text)
    ensures Utf8Value(cp, i) == bytes <==> Spells(cp, i, text)
  {
    hide Rd16;
    if Spells(cp, i, text) {
      var value := cp[i].body[2..2 + |text|];
      assert forall k :: 0 <= k < |text| ==> value[k] == bytes[k];
      assert value == bytes;
    }
  }

  lemma TableNames()
    ensures SameText(STACK_MAP_TABLE, "StackMapTable") && SameText(LINE_NUMBER_TABLE, "LineNumberTable")
    ensures SameText(LOCAL_VARIABLE_TABLE, "LocalVariableTable")
    ensures SameText(LOCAL_VARIABLE_TYPE_TABLE, "LocalVariableTypeTable")
    ensures SameText(CODE, "Code")
  {
  }

  // Same kinds and types, and every absolute offset n further on exactly when the first one fits.
  predicate FramesMoved(before: seq<u1>, after: seq<u1>, n: u4) {
    StackMapTable.Decode(before).Some? ==>
      && StackMapTable.Decode(after).Some?
      && var frames, moved := StackMapTable.Decode(before).value, StackMapTable.Decode(after).value;
      && |moved| == |frames|
      && (forall i :: 0 <= i < |frames| ==>
            StackMapTable.SameShape(frames[i], moved[i]) && moved[i].types == frames[i].types)
      && (StackMapTable.OffsetsMoved(frames, moved, n) <==> StackMapTable.FirstFits(frames, n))
  }

  // Same line numbers, and every start n further on exactly when it fits.
  predicate LinesMoved(before: seq<u1>, after: seq<u1>, n: u4) {
    var lines := DebugTables.TableEntries(DebugTables.LineTable, before);
    var moved := DebugTables.TableEntries(DebugTables.LineTable, after);
    && |moved| == |lines| && |after| == |before|
    && forall i :: 0 <= i < |lines| ==>
         var l, m := DebugTables.LineOf(lines[i]), DebugTables.LineOf(moved[i]);
         m.line == l.line && (m.startPc == l.startPc + n <==> l.startPc + n <= 0xFFFF)
  }

  // Same names, types and slots, and every variable as live as before exactly when its range fits.
  ghost predicate LocalsMoved(before: seq<u1>, after: seq<u1>, n: u4) {
    var locals := DebugTables.TableEntries(DebugTables.LocalTable, before);
    var moved := DebugTables.TableEntries(DebugTables.LocalTable, after);
    && |moved| == |locals| && |after| == |before|
    && forall i :: 0 <= i < |locals| ==>
         var v, m := DebugTables.LocalOf(locals[i]), DebugTables.LocalOf(moved[i]);
         m.rest == v.rest && (DebugTables.SameLiveness(v, m, n) <==> DebugTables.RangeFits(v, n))
  }

  // What becomes of an inner attribute when n bytes are inserted, by the text of its name.
  ghost predicate InnerMoved(cp: Pool, a: Attr, a': Attr, n: u4) {
    && a'.name == a.name
    && if Spells(cp, a.name, "StackMapTable") then FramesMoved(a.body, a'.body, n)
       else if Spells(cp, a.name, "LineNumberTable") then LinesMoved(a.body, a'.body, n)
       else if Spells(cp, a.name, "LocalVariableTable") || Spells(cp, a.name, "LocalVariableTypeTable") then
         LocalsMoved(a.body, a'.body, n)
       else a'.body == a.body
  }

  lemma ShiftInnerMoves(cp: Pool, a: Attr, n: u4)
    requires InnerOk(cp, a)
    ensures InnerMoved(cp, a, ShiftInner(cp, a, n), n)
  {
    hide Utf8Value, Spells, StackMapTable.Shift, StackMapTable.Decode, StackMapTable.HeadInBounds,
         DebugTables.ShiftTable, DebugTables.TableEntries, DebugTables.LineOf, DebugTables.LocalOf,
         DebugTables.SameLiveness, DebugTables.RangeFits, StackMapTable.OffsetsMoved, StackMapTable.SameShape,
         SameText;
    TableNames();
    ValueSpells(cp, a.name, STACK_MAP_TABLE, "StackMapTable");
    ValueSpells(cp, a.name, LINE_NUMBER_TABLE, "LineNumberTable");
    ValueSpells(cp, a.name, LOCAL_VARIABLE_TABLE, "LocalVariableTable");
    ValueSpells(cp, a.name, LOCAL_VARIABLE_TYPE_TABLE, "LocalVariableTypeTable");
    if Utf8Value(cp, a.name) == STACK_MAP_TABLE {
      if StackMapTable.Decode(a.body).Some? {
        StackMapTable.ShiftOffsets(a.body, n);
      }
    } else if Utf8Value(cp, a.name) == LINE_NUMBER_TABLE {
      DebugTables.LinesRelocated(a.body, n);
    } else {
      DebugTables.LocalsRelocated(a.body, n);
    }
  }

  // ---------------------------------------------------------------- how much it grows

  lemma ShiftInnerGrowth(cp: Pool, a: Attr, delta: u4)
    requires InnerOk(cp, a)
    ensures ShiftInner(cp, a, delta).name == a.name
    ensures |a.body| <= |ShiftInner(cp, a, delta).body| <= |a.body| + 2
  {
    hide Utf8Value, U2, U4, Wr16, Rd16, DebugTables.ShiftTable;
  }

  lemma {:induction false} ShiftInnersGrowth(cp: Pool, attrs: seq<Attr>, delta: u4)
    requires InnersOk(cp, attrs)
    ensures |PrintAttrs(attrs)| <= |PrintAttrs(ShiftInners(cp, attrs, delta))| <= |PrintAttrs(attrs)| + 2 * |attrs|
    decreases |attrs|
  {
    hide Utf8Value, U4, U2, ShiftInner, InnerOk;
    if attrs != [] {
      ShiftInnerGrowth(cp, attrs[0], delta);
      ShiftInnersGrowth(cp, attrs[1..], delta);
      assert ShiftInners(cp, attrs, delta)[1..] == ShiftInners(cp, attrs[1..], delta);
    }
  }

  lemma {:induction false} PrintAttrsBounds(attrs: seq<Attr>, i: nat)
    requires i < |attrs|
    ensures |attrs[i].body| + 6 <= |PrintAttrs(attrs)|
    ensures 6 * |attrs| <= |PrintAttrs(attrs)|
    decreases |attrs|
  {
    if |attrs| > 1 {
      PrintAttrsBounds(attrs[1..], if i == 0 then 0 else i - 1);
    }
  }

  // Sizes in reach of the u4 length fields, with room for the growth of the inner tables.
  const ROOM := 0xFFF0_0000

  lemma RebuildCodeFits(cp: Pool, c: Code, insertion: seq<u1>, extraStack: u2)
    requires CodeFits(c) && InnersOk(cp, c.attrs)
    requires |PrintCode(c)| + |insertion| <= ROOM
    ensures CodeFits(RebuildCode(cp, c, insertion, extraStack))
    ensures |PrintCode(RebuildCode(cp, c, insertion, extraStack))| <= |PrintCode(c)| + |insertion| + 0x2_0000
  {
    hide Utf8Value, U4, U2, ShiftInner, InnerOk, ShiftHandler, PrintHandlers, PrintSizes;
    var delta := U4(|insertion|);
    var moved := ShiftInners(cp, c.attrs, delta);
    ShiftInnersGrowth(cp, c.attrs, delta);
    forall i | 0 <= i < |moved|
      ensures AttrOk(moved[i])
    {
      PrintAttrsBounds(moved, i);
    }
  }

  // ---------------------------------------------------------------- what the new attribute says

  // Reading the rebuilt Code attribute gives the rebuilt structure: the insertion before the
  // old code, every handler and inner table shifted by the inserted length.
  lemma {:induction false} RebuiltCodeReads(cp: Pool, a: Attr, codeName: u2, insertion: seq<u1>, extraStack: u2)
    requires a.name == codeName && AttrReady(cp, a, codeName)
    requires |a.body| + |insertion| <= ROOM
    ensures var c := ReadCode(a.body).value;
            var a' := RebuildAttr(cp, a, codeName, insertion, extraStack);
            AttrOk(a') && ReadCode(a'.body) == Some(RebuildCode(cp, c, insertion, extraStack))
  {
    hide ReadCode, PrintCode, RebuildCode, CodeFits;
    var c := ReadCode(a.body).value;
    ReadCodeFits(a.body);
    RebuildCodeFits(cp, c, insertion, extraStack);
    var c' := RebuildCode(cp, c, insertion, extraStack);
    CodeRoundTrip(PrintCode(c'), c');
  }

  predicate AllSmall(attrs: seq<Attr>, n: nat) {
    forall i :: 0 <= i < |attrs| ==> |attrs[i].body| + n <= ROOM
  }

  lemma {:induction false} RebuiltTableReads(cp: Pool, raw: seq<u1>, codeName: u2, insertion: seq<u1>, extraStack: u2)
    requires Ready(cp, raw, codeName) && AllSmall(ReadTable(raw, 0).value.0, |insertion|)
    ensures var attrs' := RebuildAttrs(cp, ReadTable(raw, 0).value.0, codeName, insertion, extraStack);
            var raw' := Rebuild(cp, raw, codeName, insertion, extraStack);
            TableOk(attrs') && IsTable(raw') && ReadTable(raw', 0).value.0 == attrs'
  {
    hide ReadTable, PrintTable, RebuildAttr, AttrReady;
    var attrs := ReadTable(raw, 0).value.0;
    var attrs' := RebuildAttrs(cp, attrs, codeName, insertion, extraStack);
    TableOfReady(cp, raw, codeName);
    forall i | 0 <= i < |attrs|
      ensures AttrOk(attrs'[i])
    {
      RebuiltAttrOk(cp, attrs[i], codeName, insertion, extraStack);
    }
    PrintedIsTable(attrs');
  }

  lemma TableOfReady(cp: Pool, raw: seq<u1>, codeName: u2)
    requires Ready(cp, raw, codeName)
    ensures ReadTable(raw, 0).Some? && TableOk(ReadTable(raw, 0).value.0)
            && raw == PrintTable(ReadTable(raw, 0).value.0)
  {
    hide AttrsReady, PrintTable, ReadTable;
    ReadTableSound(raw, 0);
    assert raw == raw[0..|raw|];
  }

  lemma {:induction false} RebuiltAttrOk(cp: Pool, a: Attr, codeName: u2, insertion: seq<u1>, extraStack: u2)
    requires AttrReady(cp, a, codeName) && AttrOk(a) && |a.body| + |insertion| <= ROOM
    ensures AttrOk(RebuildAttr(cp, a, codeName, insertion, extraStack))
  {
    hide ReadCode, PrintCode, RebuildCode;
    if a.name == codeName {
      RebuiltCodeReads(cp, a, codeName, insertion, extraStack);
    }
  }
}
