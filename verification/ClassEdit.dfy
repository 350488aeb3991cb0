/** The class-file editor: its pool and methods are edited in place. */
module ClassEdit {
  import opened Wrappers
  import opened Bytes
  import CP = ConstantPool
  import opened Attributes
  import CF = ClassFile
  import opened CodeAttribute
  import StackMapTable
  import DebugTables

  // ---------------------------------------------------------------- prepending, as a function

  // The first method with this name and descriptor index, or the number of methods.
  function MethodIndex(methods: seq<CF.Member>, name: nat, desc: nat, i: nat): nat
    decreases |methods| - i
  {
    if i >= |methods| then |methods|
    else if methods[i].name == name && methods[i].desc == desc then i
    else MethodIndex(methods, name, desc, i + 1)
  }

  // The method prependToMethodCode changes; |methods| when it returns false.
  function Target(c: CF.ClassFile, name: seq<u1>, desc: seq<u1>): nat {
    var n, d := CP.FindUtf8(c.cp, name), CP.FindUtf8(c.cp, desc);
    if n == 0 || d == 0 then |c.methods| else MethodIndex(c.methods, n, d, 0)
  }

  // The target's attributes can be rebuilt, within the sizes of their length fields.
  predicate PrependReady(c: CF.ClassFile, name: seq<u1>, desc: seq<u1>, size: nat) {
    var i := Target(c, name, desc);
    i < |c.methods| ==>
      var code := CP.AddUtf8(c.cp, CODE);
      && |code.cp| <= 0xFFFF && code.index <= 0xFFFF
      && Ready(code.cp, c.methods[i].attrs, code.index)
      && AllSmall(ReadTable(c.methods[i].attrs, 0).value.0, size)
  }

  function Prepend(c: CF.ClassFile, name: seq<u1>, desc: seq<u1>, insertion: seq<u1>, extra: u2): CF.ClassFile
    requires PrependReady(c, name, desc, |insertion|)
  {
    var i := Target(c, name, desc);
    if i >= |c.methods| then c
    else
      var code := CP.AddUtf8(c.cp, CODE);
      var attrs := Rebuild(code.cp, c.methods[i].attrs, code.index, insertion, extra);
      c.(cp := code.cp, methods := c.methods[i := c.methods[i].(attrs := attrs)])
  }

  // ---------------------------------------------------------------- the editor

  class ClassFileEditor {
    var minor: u2
    var major: u2
    var cp: CP.Pool
    var access: u2
    var thisClass: u2
    var superClass: u2
    var thisName: seq<u1>
    var interfaces: seq<u2>
    var fieldsRaw: seq<u1>
    var methods: seq<CF.Member>
    var classAttrs: seq<u1>

    function Value(): CF.ClassFile
      reads this
    {
      CF.ClassFile(minor, major, cp, access, thisClass, superClass, thisName, interfaces, fieldsRaw, methods,
          classAttrs)
    }

    constructor ()
      ensures cp == [] && methods == []
    {
      minor, major, access, thisClass, superClass := 0, 0, 0, 0, 0;
      cp, thisName, interfaces, fieldsRaw, methods, classAttrs := [], [], [], [], [], [];
    }

    // The error the source throws, or None. Inputs that make the source read outside its
    // buffer are excluded.
    method Parse(b: seq<u1>) returns (error: Option<CF.ParseError>)
      requires CF.Parse(b) != Failure(CF.Overrun)
      modifies this
      ensures error.Some? ==> CF.Parse(b) == Failure(error.value)
      ensures error.None? ==> CF.Parse(b) == Success(Value())
    {
      hide CF.ReadPool, CF.ReadBody, Rd16, Rd32;
      if |b| < 10 {
        return Some(CF.TooShort);
      }
      BodyErrs(b);
      if Rd32(b, 0) != CF.MAGIC {
        return Some(CF.BadMagic);
      }
      minor, major := Rd16(b, 4), Rd16(b, 6);
      var pool := ReadPool(b, Rd16(b, 8));
      if pool.Failure? {
        return Some(pool.error);
      }
      cp := pool.value.0;
      ParseBody(b, pool.value.1);
      error := None;
    }

    // After the pool the only failure is leaving the buffer.
    static lemma BodyErrs(b: seq<u1>)
      requires |b| >= 10
      ensures forall p: nat, cp: CP.Pool ::
                CF.ReadBody(b, p, cp).Success? || CF.ReadBody(b, p, cp) == Failure(CF.Overrun)
    {
      hide CF.ReadTail, CF.ReadU2s, CF.ThisName;
    }

    // Everything after the pool.
    method ParseBody(b: seq<u1>, start: nat)
      requires |b| >= 10 && minor == Rd16(b, 4) && major == Rd16(b, 6)
      requires CF.ReadBody(b, start, cp).Success?
      modifies this
      ensures CF.ReadBody(b, start, old(cp)) == Success(Value())
    {
      hide CF.ReadMemberTable, CF.ReadU2s, CF.ThisName, CF.PrintMemberTable, Rd16, At, CF.MembersOk;
      access, thisClass, superClass := Rd16(b, start), Rd16(b, start + 2), Rd16(b, start + 4);
      thisName := CF.ThisName(cp, thisClass);
      var names, p1 := ReadInterfaces(b, start + 8, Rd16(b, start + 6));
      var raw, p2 := SkipFields(b, p1);
      var members, p3 := ReadMethods(b, p2);
      CF.ReadMemberTableSound(b, p2);
      interfaces, fieldsRaw, methods, classAttrs := names, raw, members, b[p3..];
      assert var r := CF.ReadTail(b, p1).value; r.0 == raw && r.1 == members && r.2 == b[p3..];
    }

    static method ReadPool(b: seq<u1>, count: u2) returns (r: CF.Parsing<CP.Pool>)
      requires |b| >= 10
      ensures r == CF.ReadPool(b, 10, [CP.BLANK], 1, count)
    {
      hide CF.ReadEntry, CF.PrintSlot, CP.EntryOk;
      var p := 10;
      var cp := [CP.BLANK];
      var i: u2 := 1;
      while i < count
        invariant p <= |b|
        invariant CF.ReadPool(b, 10, [CP.BLANK], 1, count) == CF.ReadPool(b, p, cp, i, count)
        decreases |b| - p
      {
        var entry := CF.ReadEntry(b, p);
        if entry.Failure? {
          return Failure(entry.error);
        }
        CF.ReadEntryPrinted(b, p);
        var (e, q) := entry.value;
        p := q;
        ghost var before := cp;
        cp := cp + [e];
        U2Sum(i + 1, 1);
        if e.wide {
          cp := cp + [CP.BLANK];
          i := U2(i + 1);
        }
        i := U2(i + 1);
        assert cp == before + CF.Slots(e);
      }
      r := Success((cp, p));
    }

    static method ReadInterfaces(b: seq<u1>, start: nat, n: u2) returns (xs: seq<u2>, p: nat)
      requires CF.ReadU2s(b, start, n).Some?
      ensures var r := CF.ReadU2s(b, start, n).value;
              r.0 == xs && r.1 == p
    {
      hide Rd16;
      xs, p := [], start;
      ghost var (all, end) := CF.ReadU2s(b, start, n).value;
      var i := 0;
      while i < n
        invariant 0 <= i <= n
        invariant CF.ReadU2s(b, p, n - i).Some?
        invariant all == xs + CF.ReadU2s(b, p, n - i).value.0 && end == CF.ReadU2s(b, p, n - i).value.1
      {
        xs := xs + [Rd16(b, p)];
        p := p + 2;
        i := i + 1;
      }
    }

    // The position after the attribute table at p.
    static method SkipAttributes(b: seq<u1>, start: nat) returns (p: nat)
      requires ReadTable(b, start).Some?
      ensures p == ReadTable(b, start).value.1
    {
      hide Rd16, Rd32;
      var n := Rd16(b, start);
      p := start + 2;
      var j := 0;
      while j < n
        invariant 0 <= j <= n
        invariant ReadAttrs(b, p, n - j).Some?
        invariant ReadAttrs(b, p, n - j).value.1 == ReadAttrs(b, start + 2, n).value.1
      {
        p := p + 6 + Rd32(b, p + 2);
        j := j + 1;
      }
    }

    // The bytes of the field table at start, count included, and the position after it.
    static method SkipFields(b: seq<u1>, start: nat) returns (raw: seq<u1>, p: nat)
      requires CF.ReadMemberTable(b, start).Some?
      ensures p == CF.ReadMemberTable(b, start).value.1 <= |b| && start <= p && raw == b[start..p]
    {
      hide Rd16, ReadTable;
      CF.ReadMemberTableSound(b, start);
      var n := Rd16(b, start);
      p := start + 2;
      var i := 0;
      while i < n
        invariant 0 <= i <= n
        invariant CF.ReadMembers(b, p, n - i).Some?
        invariant CF.ReadMembers(b, p, n - i).value.1 == CF.ReadMembers(b, start + 2, n).value.1
      {
        p := SkipAttributes(b, p + 6);
        i := i + 1;
      }
      raw := b[start..p];
    }

    static method ReadMethods(b: seq<u1>, start: nat) returns (ms: seq<CF.Member>, p: nat)
      requires CF.ReadMemberTable(b, start).Some?
      ensures var r := CF.ReadMemberTable(b, start).value;
              r.0 == ms && r.1 == p
    {
      hide Rd16, ReadTable;
      var n := Rd16(b, start);
      ms, p := [], start + 2;
      ghost var (all, end) := CF.ReadMemberTable(b, start).value;
      var i := 0;
      while i < n
        invariant 0 <= i <= n
        invariant CF.ReadMembers(b, p, n - i).Some?
        invariant all == ms + CF.ReadMembers(b, p, n - i).value.0 && end == CF.ReadMembers(b, p, n - i).value.1
      {
        TableCut(b, p + 6);
        var q := SkipAttributes(b, p + 6);
        var m := CF.Member(Rd16(b, p), Rd16(b, p + 2), Rd16(b, p + 4), b[p + 6..q]);
        assert CF.ReadMember(b, p).value == (m, q);
        ghost var rest := CF.ReadMembers(b, q, n - i - 1).value.0;
        assert ms + ([m] + rest) == (ms + [m]) + rest;
        ms := ms + [m];
        p := q;
        i := i + 1;
      }
    }

    // ------------------------------------------------------------ printing

    method Serialize() returns (out: seq<u1>)
      requires |cp| <= 0xFFFF
      ensures out == CF.Print(Value())
    {
      hide Wr16, Wr32, U2, CF.PrintPool, CF.PrintU2s, CF.PrintMembers;
      out := (Wr32(CF.MAGIC) + (Wr16(minor) + Wr16(major))) + Wr16(U2(|cp|));
      var pool := WritePool(cp);
      var flags := (Wr16(access) + Wr16(thisClass)) + (Wr16(superClass) + Wr16(U2(|interfaces|)));
      var names := WriteU2s(interfaces);
      var members := WriteMembers(methods);
      out := out + (pool + (flags + (names + (fieldsRaw + ((Wr16(U2(|methods|)) + members) + classAttrs)))));
    }

    static method WritePool(cp: CP.Pool) returns (out: seq<u1>)
      requires |cp| <= 0xFFFF
      ensures out == CF.PrintPool(cp, 1)
    {
      hide CF.PrintPool;
      out := [];
      var i := 1;
      while i < |cp|
        invariant 1 <= i
        invariant out + CF.PrintPool(cp, i) == CF.PrintPool(cp, 1)
      {
        var e := cp[i];
        CF.PrintPoolNext(cp, i, out);
        if e.tag != 0 {
          out := out + ([e.tag] + e.body);
        }
        i := i + 1;
      }
      CF.PrintPoolNext(cp, i, out);
    }

    static method WriteU2s(xs: seq<u2>) returns (out: seq<u1>)
      ensures out == CF.PrintU2s(xs)
    {
      hide Wr16;
      out := [];
      var i := 0;
      while i < |xs|
        invariant 0 <= i <= |xs|
        invariant out + CF.PrintU2s(xs[i..]) == CF.PrintU2s(xs)
      {
        assert xs[i..][1..] == xs[i + 1..];
        out := out + Wr16(xs[i]);
        i := i + 1;
      }
    }

    static method WriteMembers(ms: seq<CF.Member>) returns (out: seq<u1>)
      ensures out == CF.PrintMembers(ms)
    {
      hide Wr16;
      out := [];
      var i := 0;
      while i < |ms|
        invariant 0 <= i <= |ms|
        invariant out + CF.PrintMembers(ms[i..]) == CF.PrintMembers(ms)
      {
        assert ms[i..][1..] == ms[i + 1..];
        var m := ms[i];
        out := out + ((Wr16(m.access) + Wr16(m.name) + Wr16(m.desc)) + m.attrs);
        i := i + 1;
      }
    }

    // ------------------------------------------------------------ interning

    // The source's index is two bytes wide and wraps: its search ends exactly under this requires.
    method FindUtf8(s: seq<u1>) returns (index: u2)
      requires CP.Utf8Ends(cp, s)
      ensures index == CP.FindUtf8(cp, s)
    {
      hide Rd16;
      var i := 1;
      while i < |cp|
        invariant 1 <= i <= |cp| || i == 1
        invariant CP.FindUtf8(cp, s) == CP.FindUtf8From(cp, i, s)
      {
        var e := cp[i];
        if e.tag == CP.UTF8 && |e.body| >= 2 && Rd16(e.body, 0) == |s| && |e.body| >= 2 + |s|
            && e.body[2..2 + |s|] == s {
          return i;
        }
        i := i + 1;
      }
      index := 0;
    }

    // The scan and append that the three reference kinds share.
    method AddRef(tag: u1, body: seq<u1>) returns (index: u2)
      requires CP.RefEnds(cp, tag, body)
      modifies this`cp
      ensures CP.Interned(cp, index) == CP.AddRef(old(cp), tag, body)
    {
      var i := 1;
      while i < |cp|
        invariant 1 <= i <= |cp| || i == 1
        invariant CP.FindRef(cp, tag, body) == CP.FindRefFrom(cp, i, tag, body)
        invariant cp == old(cp)
      {
        if cp[i].tag == tag && cp[i].body == body {
          return i;
        }
        i := i + 1;
      }
      index := |cp|;
      cp := cp + [CP.CpEntry(tag, body, false)];
    }

    method AddUtf8(s: seq<u1>) returns (index: u2)
      requires CP.Utf8Ends(cp, s)
      modifies this`cp
      ensures CP.Interned(cp, index) == CP.AddUtf8(old(cp), s)
    {
      var found := FindUtf8(s);
      if found != 0 {
        return found;
      }
      index := |cp|;
      cp := cp + [CP.CpEntry(CP.UTF8, Wr16(U2(|s|)) + s, false)];
    }

    method AddClass(name: seq<u1>) returns (index: u2)
      requires CP.ClassEnds(cp, name)
      modifies this`cp
      ensures CP.Interned(cp, index) == CP.AddClass(old(cp), name)
    {
      hide U2, Wr16, CP.FindRef, CP.FindUtf8;
      var n := AddUtf8(name);
      index := AddRef(CP.CLASS, Wr16(n));
    }

    method AddNameAndType(name: seq<u1>, desc: seq<u1>) returns (index: u2)
      requires CP.NameAndTypeEnds(cp, name, desc)
      modifies this`cp
      ensures CP.Interned(cp, index) == CP.AddNameAndType(old(cp), name, desc)
    {
      hide U2, Wr16, CP.FindRef, CP.FindUtf8;
      var n := AddUtf8(name);
      var d := AddUtf8(desc);
      index := AddRef(CP.NAME_AND_TYPE, Wr16(n) + Wr16(d));
    }

    method AddMethodRef(klass: seq<u1>, name: seq<u1>, desc: seq<u1>) returns (index: u2)
      requires CP.MemberRefEnds(cp, CP.METHODREF, klass, name, desc)
      modifies this`cp
      ensures CP.Interned(cp, index) == CP.AddMethodRef(old(cp), klass, name, desc)
    {
      hide U2, Wr16, CP.AddUtf8, CP.AddRef, CP.AddClass, CP.AddNameAndType, CP.ClassEnds, CP.NameAndTypeEnds;
      var c := AddClass(klass);
      var nt := AddNameAndType(name, desc);
      index := AddRef(CP.METHODREF, Wr16(c) + Wr16(nt));
    }

    // ------------------------------------------------------------ rebuilding a method

    // State of a loop over an attribute table: `left` attributes remain to be read at p, and
    // what is written so far lacks exactly their new forms.
    static predicate AttrLoop(b: seq<u1>, p: nat, left: nat, attrs: seq<Attr>, all: seq<Attr>, out: seq<u1>) {
      && ReadAttrs(b, p, left).Some? && left <= |attrs| == |all|
      && attrs[|attrs| - left..] == ReadAttrs(b, p, left).value.0
      && out + PrintAttrs(all[|all| - left..]) == PrintTable(all)
    }

    static lemma AttrLoopStart(b: seq<u1>, start: nat, all: seq<Attr>)
      requires ReadTable(b, start).Some? && |all| == |ReadTable(b, start).value.0|
      ensures |all| == Rd16(b, start)
      ensures AttrLoop(b, start + 2, Rd16(b, start), ReadTable(b, start).value.0, all, Wr16(Rd16(b, start)))
    {
      hide Rd16, Wr16, PrintAttrs;
      ReadAttrsInside(b, start + 2, Rd16(b, start));
      assert all[0..] == all;
    }

    static lemma AttrLoopStep(b: seq<u1>, p: nat, left: nat, attrs: seq<Attr>, all: seq<Attr>, out: seq<u1>)
      requires AttrLoop(b, p, left, attrs, all, out) && left > 0
      ensures p + 6 <= |b| && p + 6 + Rd32(b, p + 2) <= |b|
      ensures var k := |attrs| - left;
              var q := p + 6 + Rd32(b, p + 2);
              && Attr(Rd16(b, p), b[p + 6..q]) == attrs[k]
              && AttrLoop(b, q, left - 1, attrs, all, out + PrintAttr(all[k]))
    {
      hide Rd16, Rd32, Wr16, PrintAttr;
      var k := |attrs| - left;
      assert attrs[k..][0] == attrs[k] && attrs[k + 1..] == attrs[k..][1..];
      PrintAttrsNext(all, k, out);
    }

    static lemma AttrLoopEnd(b: seq<u1>, p: nat, attrs: seq<Attr>, all: seq<Attr>, out: seq<u1>)
      requires AttrLoop(b, p, 0, attrs, all, out)
      ensures out == PrintTable(all)
    {
    }

    static lemma PrintAttrsNext(attrs: seq<Attr>, i: nat, out: seq<u1>)
      requires i < |attrs|
      ensures out + PrintAttrs(attrs[i..]) == (out + PrintAttr(attrs[i])) + PrintAttrs(attrs[i + 1..])
    {
      hide PrintAttr;
      assert attrs[i..][1..] == attrs[i + 1..];
    }

    method RebuildCodeAttribute(raw: seq<u1>, codeName: u2, insertion: seq<u1>, extraStack: u2) returns (out: seq<u1>)
      requires Ready(cp, raw, codeName)
      ensures out == Rebuild(cp, raw, codeName, insertion, extraStack)
    {
      hide Rd16, Rd32, Wr16, Wr32, AttrReady, RebuildAttr, RebuildAttrs, AttrLoop, PrintTable, ReadAttrs, PrintAttr;
      ghost var attrs := ReadTable(raw, 0).value.0;
      ghost var all := RebuildAttrs(cp, attrs, codeName, insertion, extraStack);
      AttrLoopStart(raw, 0, all);
      var attrCount: nat := Rd16(raw, 0);
      out := Wr16(attrCount);
      var p: nat := 2;
      var i := 0;
      while i < attrCount
        invariant 0 <= i <= attrCount
        invariant AttrLoop(raw, p, attrCount - i, attrs, all, out)
      {
        AttrLoopStep(raw, p, attrCount - i, attrs, all, out);
        var nameIdx := Rd16(raw, p);
        var attrLen: nat := Rd32(raw, p + 2);
        var body := raw[p + 6..p + 6 + attrLen];
        var done := RebuildOne(Attr(nameIdx, body), codeName, insertion, extraStack);
        out := out + done;
        p := p + 6 + attrLen;
        i := i + 1;
      }
      AttrLoopEnd(raw, p, attrs, all, out);
    }

    // One attribute of the method: its new bytes with name and length.
    method RebuildOne(a: Attr, codeName: u2, insertion: seq<u1>, extraStack: u2) returns (out: seq<u1>)
      requires AttrReady(cp, a, codeName)
      ensures out == PrintAttr(RebuildAttr(cp, a, codeName, insertion, extraStack))
    {
      hide ReadCode, PrintCode, RebuildCode, InnersOk, Wr16, Wr32, U4;
      if a.name != codeName {
        return (Wr16(a.name) + Wr32(U4(|a.body|))) + a.body;
      }
      var codeBody := RebuildBody(a.body, insertion, extraStack);
      out := (Wr16(a.name) + Wr32(U4(|codeBody|))) + codeBody;
    }

    method RebuildBody(b: seq<u1>, insertion: seq<u1>, extraStack: u2) returns (out: seq<u1>)
      requires ReadCode(b).Some? && InnersOk(cp, ReadCode(b).value.attrs)
      ensures out == PrintCode(RebuildCode(cp, ReadCode(b).value, insertion, extraStack))
    {
      hide Rd16, Rd32, Wr16, Wr32, U2, PrintHandlers, ReadHandlers, ReadTable, PrintTable, PrintAttrs, InnersOk,
           InnerOk, ShiftHandlers, ShiftInners;
      var maxStack := Rd16(b, 0);
      var maxLocals := Rd16(b, 2);
      var codeLen: nat := Rd32(b, 4);
      var codeBytes := b[8..8 + codeLen];
      var excStart: nat := 8 + codeLen;
      var excCount: nat := Rd16(b, excStart);
      var innerStart: nat := excStart + 2 + 8 * excCount;
      var delta: nat := U4(|insertion|);
      var newCodeLen := U4(codeLen + delta);
      var newMaxStack := if extraStack > maxStack then extraStack else maxStack;
      var innerOut := RebuildInner(b, innerStart, delta);
      var excOut := RebuildHandlers(b, excStart + 2, excCount, delta);
      assert U4(codeLen + U4(|insertion|)) == U4(|insertion| + codeLen);
      ghost var c' := RebuildCode(cp, ReadCode(b).value, insertion, extraStack);
      assert PrintTable(c'.attrs) + [] == PrintTable(c'.attrs);
      out := ((Wr16(newMaxStack) + Wr16(maxLocals)) + Wr32(newCodeLen))
             + ((insertion + codeBytes) + (Wr16(excCount) + (excOut + innerOut)));
    }

    // State of the exception table loop, as for attributes.
    static predicate HandlerLoop(b: seq<u1>, p: nat, left: nat, delta: u4, all: seq<Handler>, out: seq<u1>) {
      && p + 8 * left <= |b| && left <= |all|
      && all[|all| - left..] == ShiftHandlers(ReadHandlers(b, p, left), delta)
      && out + PrintHandlers(all[|all| - left..]) == PrintHandlers(all)
    }

    static lemma HandlerLoopStep(b: seq<u1>, p: nat, left: nat, delta: u4, all: seq<Handler>, out: seq<u1>)
      requires HandlerLoop(b, p, left, delta, all, out) && left > 0
      ensures p + 8 <= |b|
      ensures HandlerLoop(b, p + 8, left - 1, delta, all, out + PrintHandler(ShiftHandler(ReadHandler(b, p), delta)))
    {
      hide ReadHandler, ShiftHandler, PrintHandler;
      var k := |all| - left;
      var rest := ReadHandlers(b, p + 8, left - 1);
      assert all[k..][0] == all[k] && all[k + 1..] == all[k..][1..];
      assert ShiftHandlers([ReadHandler(b, p)] + rest, delta)[1..] == ShiftHandlers(rest, delta);
      PrintHandlersNext(all, k, out);
    }

    static lemma HandlerLoopEnds(b: seq<u1>, delta: u4, all: seq<Handler>, out: seq<u1>)
      ensures forall p: nat :: p + 8 * |all| <= |b| && all == ShiftHandlers(ReadHandlers(b, p, |all|), delta) ==>
                HandlerLoop(b, p, |all|, delta, all, [])
      ensures forall p: nat :: HandlerLoop(b, p, 0, delta, all, out) ==> out == PrintHandlers(all)
    {
      hide ReadHandlers, ShiftHandlers, PrintHandler;
      assert all[0..] == all;
    }

    static method RebuildHandlers(b: seq<u1>, start: nat, n: u2, delta: u4) returns (out: seq<u1>)
      requires start + 8 * n <= |b|
      ensures out == PrintHandlers(ShiftHandlers(ReadHandlers(b, start, n), delta))
    {
      hide Rd16, Wr16, U2, HandlerLoop, PrintHandlers, ReadHandlers, ShiftHandlers;
      ghost var all := ShiftHandlers(ReadHandlers(b, start, n), delta);
      HandlerLoopEnds(b, delta, all, []);
      out := [];
      var p := start;
      var j := 0;
      while j < n
        invariant 0 <= j <= n
        invariant HandlerLoop(b, p, n - j, delta, all, out)
      {
        HandlerLoopStep(b, p, n - j, delta, all, out);
        var startPc, endPc, handler, catchType := Rd16(b, p), Rd16(b, p + 2), Rd16(b, p + 4), Rd16(b, p + 6);
        out := out + ((Wr16(U2(startPc + delta)) + Wr16(U2(endPc + delta)))
            + (Wr16(U2(handler + delta)) + Wr16(catchType)));
        p := p + 8;
        j := j + 1;
      }
      HandlerLoopEnds(b, delta, all, out);
    }

    static lemma PrintHandlersNext(hs: seq<Handler>, i: nat, out: seq<u1>)
      requires i < |hs|
      ensures out + PrintHandlers(hs[i..]) == (out + PrintHandler(hs[i])) + PrintHandlers(hs[i + 1..])
    {
      hide PrintHandler;
      assert hs[i..][1..] == hs[i + 1..];
    }

    method RebuildInner(b: seq<u1>, start: nat, delta: u4) returns (out: seq<u1>)
      requires ReadTable(b, start).Some? && InnersOk(cp, ReadTable(b, start).value.0)
      ensures out == PrintTable(ShiftInners(cp, ReadTable(b, start).value.0, delta))
    {
      hide Rd16, Rd32, Wr16, Wr32, U4, InnerOk, ShiftInner, ShiftInners, AttrLoop, PrintTable, ReadAttrs;
      ghost var attrs := ReadTable(b, start).value.0;
      ghost var all := ShiftInners(cp, attrs, delta);
      AttrLoopStart(b, start, all);
      var innerCount: nat := Rd16(b, start);
      out := Wr16(innerCount);
      var p: nat := start + 2;
      var j := 0;
      while j < innerCount
        invariant 0 <= j <= innerCount
        invariant AttrLoop(b, p, innerCount - j, attrs, all, out)
      {
        AttrLoopStep(b, p, innerCount - j, attrs, all, out);
        var nameIdx := Rd16(b, p);
        var innerLen: nat := Rd32(b, p + 2);
        var body := b[p + 6..p + 6 + innerLen];
        var patched := PatchInner(Attr(nameIdx, body), delta);
        out := out + ((Wr16(nameIdx) + Wr32(U4(|patched|))) + patched);
        p := p + 6 + innerLen;
        j := j + 1;
      }
      AttrLoopEnd(b, p, attrs, all, out);
    }

    method PatchInner(a: Attr, delta: u4) returns (patched: seq<u1>)
      requires InnerOk(cp, a)
      ensures Attr(a.name, patched) == ShiftInner(cp, a, delta)
    {
      hide StackMapTable.Shift, DebugTables.ShiftTable;
      var innerName := CF.Utf8Value(cp, a.name);
      if innerName == STACK_MAP_TABLE {
        patched := StackMapTable.ShiftStackMap(a.body, delta);
      } else if innerName == LINE_NUMBER_TABLE {
        patched := DebugTables.ShiftLineNumberTable(a.body, delta);
      } else if innerName == LOCAL_VARIABLE_TABLE || innerName == LOCAL_VARIABLE_TYPE_TABLE {
        patched := DebugTables.ShiftLocalVarTable(a.body, delta);
      } else {
        patched := a.body;
      }
    }

    method PrependToMethodCode(name: seq<u1>, desc: seq<u1>, insertion: seq<u1>, extraStack: u2) returns (found: bool)
      requires |cp| <= 0xFFFF && PrependReady(Value(), name, desc, |insertion|)
      modifies this`cp, this`methods
      ensures found <==> Target(old(Value()), name, desc) < |old(methods)|
      ensures Value() == Prepend(old(Value()), name, desc, insertion, extraStack)
    {
      hide Ready, Rebuild, AllSmall, CP.FindUtf8, ReadTable;
      var nameIdx := FindUtf8(name);
      var descIdx := FindUtf8(desc);
      if nameIdx == 0 || descIdx == 0 {
        return false;
      }
      var i := 0;
      while i < |methods|
        invariant 0 <= i <= |methods|
        invariant cp == old(cp) && methods == old(methods)
        invariant Target(Value(), name, desc) == MethodIndex(methods, nameIdx, descIdx, i)
      {
        if methods[i].name == nameIdx && methods[i].desc == descIdx {
          var codeUtf8 := AddUtf8(CODE);
          var attrs := RebuildCodeAttribute(methods[i].attrs, codeUtf8, insertion, extraStack);
          methods := methods[i := methods[i].(attrs := attrs)];
          return true;
        }
        i := i + 1;
      }
      found := false;
    }
  }
}
