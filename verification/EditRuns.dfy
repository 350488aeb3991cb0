/** What any sequence of edits keeps, what two prepends do, and what the edited method means. */
module EditRuns {
  import opened Wrappers
  import opened Bytes
  import CP = ConstantPool
  import opened Attributes
  import CF = ClassFile
  import opened CodeAttribute
  import opened RebuildLaws
  import opened ClassEdit
  import Machine

  datatype Edit =
    | AddUtf8(s: seq<u1>)
    | AddClass(name: seq<u1>)
    | AddNameAndType(name: seq<u1>, desc: seq<u1>)
    | AddMethodRef(klass: seq<u1>, name: seq<u1>, desc: seq<u1>)
    | PrependCode(name: seq<u1>, desc: seq<u1>, insertion: seq<u1>, extra: u2)

  // The arguments fit the class-file format, the code to change is legal, and the pool stays
  // within the 0xFFFF slots its count can express.
  predicate EditOk(c: CF.ClassFile, e: Edit) {
    match e
    case AddUtf8(s) => |s| <= 0xFFFF && |CP.AddUtf8(c.cp, s).cp| <= 0xFFFF
    case AddClass(name) => |name| <= 0xFFFF && |CP.AddClass(c.cp, name).cp| <= 0xFFFF
    case AddNameAndType(name, desc) =>
      |name| <= 0xFFFF && |desc| <= 0xFFFF && |CP.AddNameAndType(c.cp, name, desc).cp| <= 0xFFFF
    case AddMethodRef(klass, name, desc) =>
      |klass| <= 0xFFFF && |name| <= 0xFFFF && |desc| <= 0xFFFF
      && |CP.AddMethodRef(c.cp, klass, name, desc).cp| <= 0xFFFF
    case PrependCode(name, desc, insertion, _) => PrependReady(c, name, desc, |insertion|)
  }

  function Apply(c: CF.ClassFile, e: Edit): CF.ClassFile
    requires EditOk(c, e)
  {
    match e
    case AddUtf8(s) => c.(cp := CP.AddUtf8(c.cp, s).cp)
    case AddClass(name) => c.(cp := CP.AddClass(c.cp, name).cp)
    case AddNameAndType(name, desc) => c.(cp := CP.AddNameAndType(c.cp, name, desc).cp)
    case AddMethodRef(klass, name, desc) => c.(cp := CP.AddMethodRef(c.cp, klass, name, desc).cp)
    case PrependCode(name, desc, insertion, extra) => Prepend(c, name, desc, insertion, extra)
  }

  predicate RunOk(c: CF.ClassFile, es: seq<Edit>)
    decreases |es|
  {
    es == [] || (EditOk(c, es[0]) && RunOk(Apply(c, es[0]), es[1..]))
  }

  function Run(c: CF.ClassFile, es: seq<Edit>): CF.ClassFile
    requires RunOk(c, es)
    decreases |es|
  {
    if es == [] then c else Run(Apply(c, es[0]), es[1..])
  }

  // The methods some edit of the run rebuilds.
  function Touched(c: CF.ClassFile, es: seq<Edit>): set<nat>
    requires RunOk(c, es)
    decreases |es|
  {
    if es == [] then {}
    else
      (if es[0].PrependCode? then {Target(c, es[0].name, es[0].desc)} else {}) + Touched(Apply(c, es[0]), es[1..])
  }

  // Nothing but the pool's end and the attributes of the touched methods differs.
  predicate Kept(c: CF.ClassFile, c': CF.ClassFile, touched: set<nat>) {
    && c.cp <= c'.cp
    && c' == c.(cp := c'.cp, methods := c'.methods)
    && |c'.methods| == |c.methods|
    && forall i :: 0 <= i < |c.methods| ==>
         && c'.methods[i] == c.methods[i].(attrs := c'.methods[i].attrs)
         && (i !in touched ==> c'.methods[i] == c.methods[i])
  }

  lemma MethodIndexBounds(ms: seq<CF.Member>, name: nat, desc: nat, i: nat)
    ensures i <= |ms| ==> i <= MethodIndex(ms, name, desc, i) <= |ms|
    decreases |ms| - i
  {
    if i < |ms| {
      MethodIndexBounds(ms, name, desc, i + 1);
    }
  }

  lemma TargetBounds(c: CF.ClassFile, name: seq<u1>, desc: seq<u1>)
    ensures Target(c, name, desc) <= |c.methods|
  {
    hide CP.FindUtf8;
    MethodIndexBounds(c.methods, CP.FindUtf8(c.cp, name), CP.FindUtf8(c.cp, desc), 0);
  }

  lemma {:induction false} MethodIndexIs(ms: seq<CF.Member>, name: nat, desc: nat, i: nat)
    requires i <= |ms|
    ensures var k := MethodIndex(ms, name, desc, i);
            && i <= k <= |ms| && (k < |ms| ==> ms[k].name == name && ms[k].desc == desc)
            && forall j :: i <= j < k ==> ms[j].name != name || ms[j].desc != desc
    decreases |ms| - i
  {
    if i < |ms| && !(ms[i].name == name && ms[i].desc == desc) {
      MethodIndexIs(ms, name, desc, i + 1);
    }
  }

  // The first slot that holds the string.
  predicate FirstSlot(cp: CP.Pool, i: nat, s: seq<u1>) {
    0 < i < |cp| && CP.HoldsUtf8(cp[i], s) && forall k :: 0 < k < i ==> !CP.HoldsUtf8(cp[k], s)
  }

  predicate Bears(cp: CP.Pool, m: CF.Member, name: seq<u1>, desc: seq<u1>) {
    FirstSlot(cp, m.name, name) && FirstSlot(cp, m.desc, desc)
  }

  // The method that is changed is the first that bears both name and descriptor; there is none when
  // no method does.
  lemma TargetIsFirst(c: CF.ClassFile, name: seq<u1>, desc: seq<u1>)
    ensures var k := Target(c, name, desc);
            && k <= |c.methods| && (k < |c.methods| ==> Bears(c.cp, c.methods[k], name, desc))
            && forall j :: 0 <= j < k ==> !Bears(c.cp, c.methods[j], name, desc)
  {
    hide CP.HoldsUtf8, MethodIndex;
    SlotIsFirst(c.cp, name);
    SlotIsFirst(c.cp, desc);
    MethodIndexIs(c.methods, CP.FindUtf8(c.cp, name), CP.FindUtf8(c.cp, desc), 0);
  }

  lemma SlotIsFirst(cp: CP.Pool, s: seq<u1>)
    ensures forall i: nat :: FirstSlot(cp, i, s) <==> i != 0 && i == CP.FindUtf8(cp, s)
  {
    hide CP.HoldsUtf8, CP.FindUtf8From;
    CP.FindUtf8Bounds(cp, 1, s);
    var k := CP.FindUtf8(cp, s);
    CP.FindUtf8Is(cp, 1, s, k);
    forall i: nat ensures FirstSlot(cp, i, s) <==> i != 0 && i == k {
      if FirstSlot(cp, i, s) {
        CP.FindUtf8Is(cp, 1, s, i);
      }
    }
  }

  // A file the editor can be trusted with: parsed, and with the name of its class inside its
  // own pool, as the format demands. (A dangling index would come to mean an added string.)
  predicate Editable(c: CF.ClassFile) {
    CF.WellFormed(c) && NameInside(c.cp, c.thisClass)
  }

  predicate NameInside(cp: CP.Pool, thisClass: nat) {
    0 < thisClass < |cp| && cp[thisClass].tag == CP.CLASS && |cp[thisClass].body| >= 2 ==>
      Rd16(cp[thisClass].body, 0) < |cp|
  }

  // Growing the pool keeps a file editable, and its class name with it.
  lemma GrowthKeeps(c: CF.ClassFile, cp: CP.Pool)
    requires Editable(c) && c.cp <= cp && CP.PoolOk(cp) && |cp| <= 0xFFFF
    ensures Editable(c.(cp := cp))
  {
    hide CF.IsMemberTable, CF.MembersOk, CP.SlotsOk;
  }

  lemma PrependKeeps(c: CF.ClassFile, name: seq<u1>, desc: seq<u1>, insertion: seq<u1>, extra: u2)
    requires Editable(c) && PrependReady(c, name, desc, |insertion|)
    ensures var c' := Prepend(c, name, desc, insertion, extra);
            Editable(c') && Kept(c, c', {Target(c, name, desc)})
  {
    hide Ready, Rebuild, ReadTable, CP.FindUtf8, CF.IsMemberTable, IsTable, AllSmall, Target, CP.SlotsOk;
    TargetBounds(c, name, desc);
    var i := Target(c, name, desc);
    if i < |c.methods| {
      var code := CP.AddUtf8(c.cp, CODE);
      CP.AddUtf8Spec(c.cp, CODE);
      RebuiltTableReads(code.cp, c.methods[i].attrs, code.index, insertion, extra);
      GrowthKeeps(c, code.cp);
    }
  }

  lemma {:induction false} AddKeeps(c: CF.ClassFile, e: Edit)
    requires Editable(c) && EditOk(c, e) && !e.PrependCode?
    ensures Editable(Apply(c, e)) && Kept(c, Apply(c, e), {})
  {
    hide CP.AddUtf8, CP.AddRef, CP.AddClass, CP.AddNameAndType, CP.AddMemberRef, CF.WellFormed, Editable;
    hide CP.ClassEnds, CP.NameAndTypeEnds, CP.MemberRefEnds;
    assert CP.PoolOk(c.cp) by {
      EditablePool(c);
    }
    match e {
      case AddUtf8(s) =>
        CP.SmallEnds(c.cp, CP.METHODREF, [], s, []);
        CP.AddUtf8Spec(c.cp, s);
      case AddClass(name) =>
        CP.SmallEnds(c.cp, CP.METHODREF, name, [], []);
        CP.AddClassSpec(c.cp, name);
      case AddNameAndType(name, desc) =>
        CP.SmallEnds(c.cp, CP.METHODREF, [], name, desc);
        CP.AddNameAndTypeSpec(c.cp, name, desc);
      case AddMethodRef(klass, name, desc) =>
        CP.SmallEnds(c.cp, CP.METHODREF, klass, name, desc);
        CP.AddMemberRefSpec(c.cp, CP.METHODREF, klass, name, desc);
    }
    GrowthKeeps(c, Apply(c, e).cp);
  }

  lemma EditablePool(c: CF.ClassFile)
    requires Editable(c)
    ensures CP.PoolOk(c.cp) && |c.cp| <= 0xFFFF
  {
  }

  lemma {:induction false} ApplyKeeps(c: CF.ClassFile, e: Edit)
    requires Editable(c) && EditOk(c, e)
    ensures Editable(Apply(c, e)) && Kept(c, Apply(c, e), if e.PrependCode? then {Target(c, e.name, e.desc)} else {})
  {
    hide Editable, Kept, Target, Prepend, PrependReady;
    if e.PrependCode? {
      PrependKeeps(c, e.name, e.desc, e.insertion, e.extra);
    } else {
      AddKeeps(c, e);
    }
  }

  lemma KeptTwice(a: CF.ClassFile, b: CF.ClassFile, c: CF.ClassFile, first: set<nat>, second: set<nat>)
    requires Kept(a, b, first) && Kept(b, c, second)
    ensures Kept(a, c, first + second)
  {
    forall i | 0 <= i < |a.methods|
      ensures c.methods[i] == a.methods[i].(attrs := c.methods[i].attrs)
    {
      assert c.methods[i] == b.methods[i].(attrs := c.methods[i].attrs);
      assert b.methods[i] == a.methods[i].(attrs := b.methods[i].attrs);
    }
  }

  lemma {:induction false} RunKeeps(c: CF.ClassFile, es: seq<Edit>)
    requires Editable(c) && RunOk(c, es)
    ensures Editable(Run(c, es)) && Kept(c, Run(c, es), Touched(c, es))
    decreases |es|
  {
    hide Editable, EditOk, Apply, Target;
    if es == [] {
      assert Kept(c, c, {});
    } else {
      ApplyKeeps(c, es[0]);
      RunKeeps(Apply(c, es[0]), es[1..]);
      KeptTwice(c, Apply(c, es[0]), Run(c, es),
                if es[0].PrependCode? then {Target(c, es[0].name, es[0].desc)} else {},
                Touched(Apply(c, es[0]), es[1..]));
    }
  }

  // For every run of edits on every parsed file whose pool fills its count: parsing what the
  // edited object prints gives the edited object, all old pool slots keep number and content, the
  // fields, class attributes and flags are the old bytes, and so are all methods no edit of
  // the run rebuilt.
  lemma {:induction false} EditsSurviveReparse(b: seq<u1>, es: seq<Edit>)
    requires CF.Parse(b).Success?
    requires |b| >= 10 && CF.FillsCount(CF.Parse(b).value.cp, Rd16(b, 8))
    requires NameInside(CF.Parse(b).value.cp, CF.Parse(b).value.thisClass)
    requires RunOk(CF.Parse(b).value, es)
    ensures var c := CF.Parse(b).value;
            var c' := Run(c, es);
            && CF.Parse(CF.Print(c')) == Success(c')
            && c.cp <= c'.cp
            && c'.fields == c.fields && c'.classAttrs == c.classAttrs && c'.interfaces == c.interfaces
            && c'.thisName == c.thisName
            && |c'.methods| == |c.methods|
            && (forall i :: 0 <= i < |c.methods| && i !in Touched(c, es) ==> c'.methods[i] == c.methods[i])
  {
    hide CF.Parse, CF.Print, CF.WellFormed, CF.FillsCount, RunOk, Run, Touched, Rd16;
    var c := CF.Parse(b).value;
    CF.PrintUndoesParse(b);
    CF.ParsePrinted(b);
    RunKeeps(c, es);
    CF.ParseUndoesPrint(Run(c, es));
  }

  // ---------------------------------------------------------------- two prepends on one file

  // The pool as it is when the target's code is rebuilt.
  predicate PrependNoWrap(c: CF.ClassFile, name: seq<u1>, desc: seq<u1>, first: u4, second: u4)
    requires PrependReady(c, name, desc, 0)
  {
    var i := Target(c, name, desc);
    i < |c.methods| ==>
      var code := CP.AddUtf8(c.cp, CODE);
      TableNoWrap(code.cp, ReadTable(c.methods[i].attrs, 0).value.0, code.index, first, second)
  }

  lemma TargetStable(c: CF.ClassFile, c': CF.ClassFile, name: seq<u1>, desc: seq<u1>)
    requires |c.cp| >= 1 && c.cp <= c'.cp && Target(c, name, desc) < |c.methods|
    requires |c'.methods| == |c.methods|
    requires forall i :: 0 <= i < |c.methods| ==>
               c'.methods[i].name == c.methods[i].name && c'.methods[i].desc == c.methods[i].desc
    ensures Target(c', name, desc) == Target(c, name, desc)
  {
    hide CP.FindUtf8, CP.FindRef;
    CP.FindStable(c.cp, c'.cp, name, 0, []);
    CP.FindStable(c.cp, c'.cp, desc, 0, []);
    MethodIndexSame(c.methods, c'.methods, CP.FindUtf8(c.cp, name), CP.FindUtf8(c.cp, desc), 0);
  }

  lemma MethodIndexSame(ms: seq<CF.Member>, ms': seq<CF.Member>, name: nat, desc: nat, i: nat)
    requires |ms'| == |ms| && forall k :: 0 <= k < |ms| ==> ms'[k].name == ms[k].name && ms'[k].desc == ms[k].desc
    ensures MethodIndex(ms', name, desc, i) == MethodIndex(ms, name, desc, i)
    decreases |ms| - i
  {
    if i < |ms| {
      MethodIndexSame(ms, ms', name, desc, i + 1);
    }
  }

  // Prepending x and then y to one method leaves the same class file as prepending y + x
  // once, exactly when no local variable range of the method wraps to start 0 on the way.
  lemma {:induction false} PrependTwice(c: CF.ClassFile, name: seq<u1>, desc: seq<u1>, x: seq<u1>, y: seq<u1>,
      extra: u2, extra': u2)
    requires Editable(c) && PrependReady(c, name, desc, |x| + |y| + 0x2_0000)
    requires |x| + |y| <= 0xFFFF_0000
    ensures PrependReady(c, name, desc, |x|) && PrependReady(c, name, desc, |y + x|) && PrependReady(c, name, desc, 0)
    ensures var once := Prepend(c, name, desc, x, extra);
            && PrependReady(once, name, desc, |y|)
            && (Prepend(once, name, desc, y, extra') == Prepend(c, name, desc, y + x, Max(extra, extra'))
                <==> PrependNoWrap(c, name, desc, |x|, |y|))
  {
    hide Ready, Rebuild, ReadTable, CP.FindUtf8, IsTable, Target, TableNoWrap, CF.WellFormed, CP.PoolOk, Max;
    EditablePool(c);
    var i := Target(c, name, desc);
    if i < |c.methods| {
      var code := CP.AddUtf8(c.cp, CODE);
      CP.AddUtf8Spec(c.cp, CODE);
      var raw := c.methods[i].attrs;
      var once := Prepend(c, name, desc, x, extra);
      RebuildTwice(code.cp, raw, code.index, x, y, extra, extra');
      RebuiltSizes(code.cp, raw, code.index, x, y, extra);
      TargetStable(c, once, name, desc);
      assert CP.AddUtf8(code.cp, CODE) == code;
      assert once.cp == code.cp && once.methods[i].attrs == Rebuild(code.cp, raw, code.index, x, extra);
      var twice := Prepend(once, name, desc, y, extra');
      var sum := Prepend(c, name, desc, y + x, Max(extra, extra'));
      assert twice.methods[i].attrs == Rebuild(code.cp, once.methods[i].attrs, code.index, y, extra');
      assert sum.methods[i].attrs == Rebuild(code.cp, raw, code.index, y + x, Max(extra, extra'));
      assert twice == sum.(methods := sum.methods[i := sum.methods[i].(attrs := twice.methods[i].attrs)]) by {
        assert twice.methods == sum.methods[i := sum.methods[i].(attrs := twice.methods[i].attrs)];
      }
    }
  }

  lemma {:induction false} RebuiltSizes(cp: CP.Pool, raw: seq<u1>, codeName: u2, x: seq<u1>, y: seq<u1>, extra: u2)
    requires Ready(cp, raw, codeName) && AllSmall(ReadTable(raw, 0).value.0, |x| + |y| + 0x2_0000)
    requires |x| + |y| <= 0xFFFF_0000
    ensures IsTable(Rebuild(cp, raw, codeName, x, extra))
    ensures AllSmall(ReadTable(Rebuild(cp, raw, codeName, x, extra), 0).value.0, |y|)
  {
    hide ReadTable, AttrsReady, RebuildAttrs, PrintTable;
    RebuiltTableReads(cp, raw, codeName, x, extra);
    AttrsTwice(cp, ReadTable(raw, 0).value.0, codeName, x, y, extra, extra);
  }

  // ---------------------------------------------------------------- what the edited method means

  // After a prepend, every Code attribute of the target reads as the old one with the
  // insertion in front, and as a machine method it is the prepended method.
  lemma {:induction false} PrependedMethod(c: CF.ClassFile, name: seq<u1>, desc: seq<u1>, insertion: seq<u1>,
      extra: u2, j: nat)
    requires PrependReady(c, name, desc, |insertion|)
    requires Target(c, name, desc) < |c.methods|
    requires var attrs := ReadTable(c.methods[Target(c, name, desc)].attrs, 0).value.0;
             j < |attrs| && attrs[j].name == CP.AddUtf8(c.cp, CODE).index
    ensures var i := Target(c, name, desc);
            var attrs := ReadTable(c.methods[i].attrs, 0).value.0;
            var raw' := Prepend(c, name, desc, insertion, extra).methods[i].attrs;
            && IsTable(raw') && |ReadTable(raw', 0).value.0| == |attrs|
            && ReadCode(attrs[j].body).Some? && ReadCode(ReadTable(raw', 0).value.0[j].body).Some?
            && var code := ReadCode(attrs[j].body).value;
               var code' := ReadCode(ReadTable(raw', 0).value.0[j].body).value;
            && Machine.Method(code'.code, code'.handlers)
               == Machine.Prepend(Machine.Method(code.code, code.handlers), insertion)
            && code'.maxLocals == code.maxLocals && code'.maxStack in {code.maxStack, extra}
            && code'.maxStack >= code.maxStack && code'.maxStack >= extra
  {
    hide ReadTable, ReadCode, CP.FindUtf8, Target, Machine.Prepend, InnersOk, RebuildAttrs;
    var i := Target(c, name, desc);
    var pool := CP.AddUtf8(c.cp, CODE);
    var raw := c.methods[i].attrs;
    assert IsTable(raw);
    var attrs := ReadTable(raw, 0).value.0;
    RebuiltTableReads(pool.cp, raw, pool.index, insertion, extra);
    RebuiltCodeReads(pool.cp, attrs[j], pool.index, insertion, extra);
    Machine.RebuildPrepends(pool.cp, ReadCode(attrs[j].body).value, insertion, extra);
  }

  // After a prepend, every table inside every Code attribute of the target still describes the old
  // instructions, now further on: frames, lines and variables move, and other attributes stay.
  lemma {:induction false} PrependedTables(c: CF.ClassFile, name: seq<u1>, desc: seq<u1>, insertion: seq<u1>,
      extra: u2, j: nat)
    requires PrependReady(c, name, desc, |insertion|)
    requires Target(c, name, desc) < |c.methods|
    requires var attrs := ReadTable(c.methods[Target(c, name, desc)].attrs, 0).value.0;
             j < |attrs| && attrs[j].name == CP.AddUtf8(c.cp, CODE).index
    ensures var i := Target(c, name, desc);
            var c' := Prepend(c, name, desc, insertion, extra);
            var attrs, attrs' := ReadTable(c.methods[i].attrs, 0).value.0, ReadTable(c'.methods[i].attrs, 0);
            && attrs'.Some? && j < |attrs'.value.0|
            && ReadCode(attrs[j].body).Some? && ReadCode(attrs'.value.0[j].body).Some?
            && var inner, inner' := ReadCode(attrs[j].body).value.attrs, ReadCode(attrs'.value.0[j].body).value.attrs;
            && |inner'| == |inner|
            && forall k :: 0 <= k < |inner| ==> InnerMoved(c'.cp, inner[k], inner'[k], |insertion|)
  {
    hide ReadTable, ReadCode, CP.FindUtf8, Target, RebuildAttrs, InnerMoved, ShiftInner, InnerOk, Spells;
    var i := Target(c, name, desc);
    var pool := CP.AddUtf8(c.cp, CODE);
    var raw := c.methods[i].attrs;
    var attrs := ReadTable(raw, 0).value.0;
    RebuiltTableReads(pool.cp, raw, pool.index, insertion, extra);
    RebuiltCodeReads(pool.cp, attrs[j], pool.index, insertion, extra);
    var inner := ReadCode(attrs[j].body).value.attrs;
    forall k | 0 <= k < |inner|
      ensures InnerOk(pool.cp, inner[k])
      ensures InnerMoved(pool.cp, inner[k], ShiftInner(pool.cp, inner[k], |insertion|), |insertion|)
    {
      ShiftInnerMoves(pool.cp, inner[k], |insertion|);
    }
  }
}
