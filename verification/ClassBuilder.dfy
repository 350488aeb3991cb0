/** The class builder, its maps and its printer. */
module ClassBuilding {
  // Interning through maps gives the same indices as the editor's linear search, and the parser reads
  // back what the printer writes.

  import opened Wrappers
  import opened Bytes
  import opened ConstantPool
  import Attributes
  import CF = ClassFile
  import CodeAttribute

  datatype RawEntry = RawEntry(tag: u1, body: seq<u1>)

  // codeAttr is empty for a method without code.
  datatype BuiltMethod = BuiltMethod(access: u2, name: u2, desc: u2, codeAttr: seq<u1>)

  datatype BuildError = Utf8TooLong | PoolOverflow

  const ACC_NATIVE: u2 := 0x100

  // ---------------------------------------------------------------- packed keys

  function NatKey(name: u2, desc: u2): int {
    name * 0x1_0000 + desc
  }

  function RefKey(tag: u1, cls: u2, sig: u2): int {
    tag as int * 0x100_0000_0000 + cls * 0x1_0000 + sig
  }

  // The packed 64-bit keys tell their parts apart.
  lemma KeysInjective(tag: u1, a: u2, b: u2, tag': u1, a': u2, b': u2)
    ensures NatKey(a, b) == NatKey(a', b') <==> a == a' && b == b'
    ensures RefKey(tag, a, b) == RefKey(tag', a', b') <==> tag == tag' && a == a' && b == b'
    ensures 0 <= RefKey(tag, a, b) < 0x1_0000_0000_0000_0000
  {
  }

  // The key under which an entry is filed.
  function KeyOf(e: CpEntry): int {
    if e.tag == CLASS && |e.body| == 2 then Rd16(e.body, 0)
    else if e.tag == NAME_AND_TYPE && |e.body| == 4 then NatKey(Rd16(e.body, 0), Rd16(e.body, 2))
    else if |e.body| == 4 then RefKey(e.tag, Rd16(e.body, 0), Rd16(e.body, 2))
    else -1
  }

  // ---------------------------------------------------------------- maps against the pool

  const CLASSES: set<u1> := {CLASS}
  const NATS: set<u1> := {NAME_AND_TYPE}
  const REFS: set<u1> := {METHODREF, FIELDREF}

  // What the builder ever writes.
  predicate Shaped(e: CpEntry) {
    && EntryOk(e) && !e.wide
    && (e.tag == UTF8 || e.tag == CLASS || e.tag == STRING || e.tag == NAME_AND_TYPE
        || e.tag == METHODREF || e.tag == FIELDREF)
  }

  predicate AllShaped(view: Pool) {
    |view| >= 1 && view[0] == BLANK && forall i :: 1 <= i < |view| ==> Shaped(view[i])
  }

  // Each key maps to exactly the entry that holds it, and every entry is filed.
  predicate Agree(view: Pool, m: map<int, u2>, tags: set<u1>) {
    && (forall k <- m :: 0 < m[k] < |view| && view[m[k]].tag in tags && KeyOf(view[m[k]]) == k)
    && (forall i :: 1 <= i < |view| && view[i].tag in tags ==> KeyOf(view[i]) in m && m[KeyOf(view[i])] == i)
  }

  predicate AgreeUtf8(view: Pool, m: map<seq<u1>, u2>) {
    && (forall s <- m :: |s| <= 0xFFFF && 0 < m[s] < |view| && view[m[s]] == Utf8Entry(s))
    && (forall i :: 1 <= i < |view| && view[i].tag == UTF8 ==> StringOf(view[i]) in m && m[StringOf(view[i])] == i)
  }

  function StringOf(e: CpEntry): seq<u1> {
    if |e.body| >= 2 then e.body[2..] else []
  }

  lemma {:induction false} KeyTellsEntry(e: CpEntry, f: CpEntry, tags: set<u1>)
    requires Shaped(e) && Shaped(f) && e.tag in tags && f.tag in tags
    requires tags == CLASSES || tags == NATS || tags == REFS
    requires KeyOf(e) == KeyOf(f)
    ensures e == f
  {
    if tags == CLASSES {
      assert e.body == [e.body[0], e.body[1]] && f.body == [f.body[0], f.body[1]];
    } else {
      KeysInjective(e.tag, Rd16(e.body, 0), Rd16(e.body, 2), f.tag, Rd16(f.body, 0), Rd16(f.body, 2));
      assert e.body == [e.body[0], e.body[1], e.body[2], e.body[3]];
      assert f.body == [f.body[0], f.body[1], f.body[2], f.body[3]];
    }
  }

  function Lookup<K>(m: map<K, u2>, k: K): u2 {
    if k in m then m[k] else 0
  }

  // A map lookup finds what the linear search finds.
  lemma LookupIsFind(view: Pool, m: map<int, u2>, tags: set<u1>, e: CpEntry)
    requires AllShaped(view) && Agree(view, m, tags)
    requires tags == CLASSES || tags == NATS || tags == REFS
    requires Shaped(e) && e.tag in tags
    ensures Lookup(m, KeyOf(e)) == FindRef(view, e.tag, e.body)
  {
    hide Shaped, KeyOf;
    var k := Lookup(m, KeyOf(e));
    forall j | 1 <= j < |view| && HoldsRef(view[j], e.tag, e.body)
      ensures k == j
    {
      assert view[j] == e by {
        ShapedNarrow(e);
        ShapedNarrow(view[j]);
      }
    }
    if k != 0 {
      KeyTellsEntry(view[k], e, tags);
    }
    FindRefIs(view, 1, e.tag, e.body, k);
  }

  lemma ShapedNarrow(e: CpEntry)
    requires Shaped(e)
    ensures !e.wide
  {
  }

  lemma LookupIsFindUtf8(view: Pool, m: map<seq<u1>, u2>, s: seq<u1>)
    requires AllShaped(view) && AgreeUtf8(view, m)
    ensures Lookup(m, s) == FindUtf8(view, s)
  {
    var k := Lookup(m, s);
    forall j | 1 <= j < |view| && HoldsUtf8(view[j], s)
      ensures k == j
    {
      assert Shaped(view[j]);
      assert StringOf(view[j]) == s;
    }
    if k != 0 {
      HoldsOwn(s);
    }
    FindUtf8Is(view, 1, s, k);
  }

  lemma HoldsOwn(s: seq<u1>)
    requires |s| <= 0xFFFF
    ensures HoldsUtf8(Utf8Entry(s), s) && StringOf(Utf8Entry(s)) == s && Shaped(Utf8Entry(s))
  {
    At16(Utf8Entry(s).body, 0, |s|);
  }

  // Filing a new entry under its key keeps the agreement; other kinds do not disturb it.
  lemma AgreeExtend(view: Pool, m: map<int, u2>, tags: set<u1>, e: CpEntry)
    requires |view| >= 1 && Agree(view, m, tags) && |view| <= 0xFFFF
    ensures e.tag !in tags ==> Agree(view + [e], m, tags)
    ensures e.tag in tags && KeyOf(e) !in m ==> Agree(view + [e], m[KeyOf(e) := |view|], tags)
  {
    hide KeyOf;
  }

  lemma AgreeUtf8Extend(view: Pool, m: map<seq<u1>, u2>, e: CpEntry, s: seq<u1>)
    requires |view| >= 1 && AgreeUtf8(view, m) && |view| <= 0xFFFF
    ensures e.tag != UTF8 ==> AgreeUtf8(view + [e], m)
    ensures |s| <= 0xFFFF && e == Utf8Entry(s) && s !in m ==> AgreeUtf8(view + [e], m[s := |view|])
  {
    hide Utf8Entry, StringOf, Shaped, HoldsUtf8;
    if |s| <= 0xFFFF {
      HoldsOwn(s);
      Utf8EntryIs(s);
    }
  }

  lemma {:induction false} ShapedPoolOk(view: Pool, i: nat)
    requires AllShaped(view) && 1 <= i <= |view|
    ensures SlotsOk(view, i) && PoolOk(view) == (view[0] == BLANK && SlotsOk(view, 1))
    decreases |view| - i
  {
    if i < |view| {
      ShapedPoolOk(view, i + 1);
    }
  }

  // ---------------------------------------------------------------- the builder

  function ViewOf(cp: seq<RawEntry>): Pool {
    [BLANK] + seq(|cp|, i requires 0 <= i < |cp| => CpEntry(cp[i].tag, cp[i].body, false))
  }

  class ClassBuilder {
    const thisInternal: seq<u1>
    const superInternal: seq<u1>
    const majorVersion: u2
    var access: u2
    var cp: seq<RawEntry>
    var utf8Index: map<seq<u1>, u2>
    var classIndex: map<int, u2>
    var natIndex: map<int, u2>
    var refIndex: map<int, u2>
    var methods: seq<BuiltMethod>
    var codeUtf8: u2

    // The pool as the parser will see it: slot 0 blank, entry i of cp_ in slot i + 1.
    function View(): Pool
      reads this`cp
    {
      ViewOf(cp)
    }

    ghost predicate Valid()
      reads this
    {
      && |cp| <= 0xFFFE
      && AllShaped(View())
      && AgreeUtf8(View(), utf8Index)
      && Agree(View(), classIndex, CLASSES)
      && Agree(View(), natIndex, NATS)
      && Agree(View(), refIndex, REFS)
    }

    constructor (thisInternal: seq<u1>, superInternal: seq<u1>, majorVersion: u2)
      ensures Valid() && View() == [BLANK] && methods == [] && codeUtf8 == 0
      ensures this.thisInternal == thisInternal && this.superInternal == superInternal
              && this.majorVersion == majorVersion
    {
      this.thisInternal, this.superInternal, this.majorVersion := thisInternal, superInternal, majorVersion;
      access := 0x21;
      cp, methods, codeUtf8 := [], [], 0;
      utf8Index, classIndex, natIndex, refIndex := map[], map[], map[], map[];
    }

    // Pushes first and checks afterwards, as the source does.
    method AddEntry(tag: u1, body: seq<u1>) returns (r: Result<u2, BuildError>)
      requires |cp| <= 0xFFFE
      modifies this`cp
      ensures View() == old(View()) + [CpEntry(tag, body, false)] && |cp| == old(|cp|) + 1
      ensures r == if |cp| > 0xFFFE then Failure(PoolOverflow) else Success(|cp|)
    {
      cp := cp + [RawEntry(tag, body)];
      if |cp| > 0xFFFE {
        return Failure(PoolOverflow);
      }
      r := Success(|cp|);
    }

    method FindUtf8(s: seq<u1>) returns (index: u2)
      requires Valid()
      ensures index == ConstantPool.FindUtf8(View(), s)
    {
      LookupIsFindUtf8(View(), utf8Index, s);
      index := if s in utf8Index then utf8Index[s] else 0;
    }

    // A string longer than 0xFFFF is refused; a full pool refuses any new entry. Otherwise the
    // pool and the index are those of the linear search. (After a refusal the object is not
    // used again.)
    method Utf8(s: seq<u1>) returns (r: Result<u2, BuildError>)
      requires Valid()
      modifies this`cp, this`utf8Index
      ensures r.Success? ==> Valid() && Interned(View(), r.value) == AddUtf8(old(View()), s)
      ensures r.Failure? <==> |s| > 0xFFFF || |AddUtf8(old(View()), s).cp| > 0xFFFF
      ensures r == Failure(Utf8TooLong) <==> |s| > 0xFFFF
      ensures r == Failure(PoolOverflow) <==> |s| <= 0xFFFF && |AddUtf8(old(View()), s).cp| > 0xFFFF
    {
      hide Agree, AllShaped, Utf8Entry, HoldsUtf8, StringOf;
      LookupIsFindUtf8(View(), utf8Index, s);
      FindUtf8Bounds(View(), 1, s);
      LongNotFound(View(), s);
      var existing := FindUtf8(s);
      if existing != 0 {
        return Success(existing);
      }
      if |s| > 0xFFFF {
        return Failure(Utf8TooLong);
      }
      r := AddString(s);
    }

    method AddString(s: seq<u1>) returns (r: Result<u2, BuildError>)
      requires Valid() && |s| <= 0xFFFF && s !in utf8Index
      modifies this`cp, this`utf8Index
      ensures View() == old(View()) + [Utf8Entry(s)]
      ensures r == if |View()| > 0xFFFF then Failure(PoolOverflow) else Success(|old(View())|)
      ensures r.Success? ==> Valid()
    {
      ghost var view := View();
      ghost var e := Utf8Entry(s);
      hide Agree, AgreeUtf8, Utf8Entry, HoldsUtf8, StringOf;
      HoldsOwn(s);
      Utf8EntryIs(s);
      AgreeUtf8Extend(view, utf8Index, e, s);
      AgreeExtend(view, classIndex, CLASSES, e);
      AgreeExtend(view, natIndex, NATS, e);
      AgreeExtend(view, refIndex, REFS, e);
      ShapedExtend(view, e);
      r := AddEntry(UTF8, Wr16(|s|) + s);
      if r.Success? {
        utf8Index := utf8Index[s := r.value];
      }
    }

    // A map interning step shared by classRef, nameAndType and the member references: entry e
    // is filed under KeyOf(e) in m.
    method AddKeyed(ghost m: map<int, u2>, ghost tags: set<u1>, tag: u1, body: seq<u1>)
        returns (r: Result<u2, BuildError>)
      requires Valid() && Agree(View(), m, tags)
      requires tags == CLASSES || tags == NATS || tags == REFS
      requires Shaped(CpEntry(tag, body, false)) && tag in tags && KeyOf(CpEntry(tag, body, false)) !in m
      modifies this`cp
      ensures View() == old(View()) + [CpEntry(tag, body, false)]
      ensures r == if |View()| > 0xFFFF then Failure(PoolOverflow) else Success(|old(View())|)
      ensures AllShaped(View()) && AgreeUtf8(View(), utf8Index)
      ensures tags != CLASSES ==> Agree(View(), classIndex, CLASSES)
      ensures tags != NATS ==> Agree(View(), natIndex, NATS)
      ensures tags != REFS ==> Agree(View(), refIndex, REFS)
      ensures |old(View())| <= 0xFFFF && Agree(View(), m[KeyOf(CpEntry(tag, body, false)) := |old(View())|], tags)
    {
      ghost var view := View();
      ghost var e := CpEntry(tag, body, false);
      hide Agree, AgreeUtf8, KeyOf;
      KindsApart(tag, tags, body);
      AgreeExtend(view, m, tags, e);
      AgreeUtf8Extend(view, utf8Index, e, []);
      AgreeExtend(view, classIndex, CLASSES, e);
      AgreeExtend(view, natIndex, NATS, e);
      AgreeExtend(view, refIndex, REFS, e);
      ShapedExtend(view, e);
      r := AddEntry(tag, body);
    }

    method ClassRef(name: seq<u1>) returns (r: Result<u2, BuildError>)
      requires Valid()
      modifies this`cp, this`utf8Index, this`classIndex
      ensures r.Success? ==> Valid() && Interned(View(), r.value) == AddClass(old(View()), name)
      ensures r.Failure? <==> |name| > 0xFFFF || |AddClass(old(View()), name).cp| > 0xFFFF
    {
      hide Agree, AgreeUtf8, AllShaped, Utf8Entry, AddUtf8, FindRef, KeyOf, Shaped;
      ClassGrowth(View(), name);
      var n :- Utf8(name);
      ghost var e := CpEntry(CLASS, Wr16(n), false);
      KeyIs(CLASS, n, 0);
      LookupIsFind(View(), classIndex, CLASSES, e);
      FindRefBounds(View(), 1, CLASS, e.body);
      IndexesPositive(View(), classIndex, CLASSES);
      if n in classIndex {
        return Success(classIndex[n]);
      }
      r := AddKeyed(classIndex, CLASSES, CLASS, Wr16(n));
      if r.Success? {
        classIndex := classIndex[n := r.value];
      }
    }

    method NameAndType(name: seq<u1>, desc: seq<u1>) returns (r: Result<u2, BuildError>)
      requires Valid()
      modifies this`cp, this`utf8Index, this`natIndex
      ensures r.Success? ==> Valid() && Interned(View(), r.value) == AddNameAndType(old(View()), name, desc)
      ensures r.Failure? <==> |name| > 0xFFFF || |desc| > 0xFFFF
                              || |AddNameAndType(old(View()), name, desc).cp| > 0xFFFF
    {
      hide Agree, AgreeUtf8, AllShaped, Utf8Entry, AddUtf8, FindRef, KeyOf, Shaped, NatKey;
      NameAndTypeSteps(View(), name, desc);
      var n :- Utf8(name);
      var d :- Utf8(desc);
      var key := NatKey(n, d);
      ghost var e := CpEntry(NAME_AND_TYPE, Wr16(n) + Wr16(d), false);
      KeyIs(NAME_AND_TYPE, n, d);
      LookupIsFind(View(), natIndex, NATS, e);
      FindRefBounds(View(), 1, NAME_AND_TYPE, e.body);
      IndexesPositive(View(), natIndex, NATS);
      if key in natIndex {
        return Success(natIndex[key]);
      }
      r := AddKeyed(natIndex, NATS, NAME_AND_TYPE, Wr16(n) + Wr16(d));
      if r.Success? {
        natIndex := natIndex[key := r.value];
      }
    }

    // methodRef and fieldRef differ in the tag alone.
    method MemberRef(tag: u1, klass: seq<u1>, name: seq<u1>, desc: seq<u1>) returns (r: Result<u2, BuildError>)
      requires Valid() && (tag == METHODREF || tag == FIELDREF)
      modifies this`cp, this`utf8Index, this`classIndex, this`natIndex, this`refIndex
      ensures r.Success? ==> Valid() && Interned(View(), r.value) == AddMemberRef(old(View()), tag, klass, name, desc)
      ensures r.Failure? <==> |klass| > 0xFFFF || |name| > 0xFFFF || |desc| > 0xFFFF
                              || |AddMemberRef(old(View()), tag, klass, name, desc).cp| > 0xFFFF
    {
      hide Agree, AgreeUtf8, AllShaped, AddClass, AddNameAndType, FindRef, KeyOf, Shaped, RefKey;
      MemberRefSteps(View(), tag, klass, name, desc);
      var c :- ClassRef(klass);
      var nt :- NameAndType(name, desc);
      var key := RefKey(tag, c, nt);
      ghost var e := CpEntry(tag, Wr16(c) + Wr16(nt), false);
      KeyIs(tag, c, nt);
      LookupIsFind(View(), refIndex, REFS, e);
      FindRefBounds(View(), 1, tag, e.body);
      IndexesPositive(View(), refIndex, REFS);
      if key in refIndex {
        return Success(refIndex[key]);
      }
      r := AddKeyed(refIndex, REFS, tag, Wr16(c) + Wr16(nt));
      if r.Success? {
        refIndex := refIndex[key := r.value];
      }
    }

    // A string constant is never reused: every call appends an entry.
    method StringRef(s: seq<u1>) returns (r: Result<u2, BuildError>)
      requires Valid()
      modifies this`cp, this`utf8Index
      ensures r.Success? ==> Valid() && Interned(View(), r.value) == InternString(old(View()), s)
      ensures r.Failure? <==> |s| > 0xFFFF || |InternString(old(View()), s).cp| > 0xFFFF
    {
      hide Agree, AgreeUtf8, Utf8Entry, AddUtf8, KeyOf;
      var n :- Utf8(s);
      ghost var e := CpEntry(STRING, Wr16(n), false);
      AgreeUtf8Extend(View(), utf8Index, e, []);
      AgreeExtend(View(), classIndex, CLASSES, e);
      AgreeExtend(View(), natIndex, NATS, e);
      AgreeExtend(View(), refIndex, REFS, e);
      ShapedExtend(View(), e);
      r := AddEntry(STRING, Wr16(n));
    }

    // ------------------------------------------------------------ methods and printing

    method AddNativeMethod(name: seq<u1>, desc: seq<u1>, flags: u2) returns (r: Result<(), BuildError>)
      requires Valid()
      modifies this`cp, this`utf8Index, this`methods
      ensures var n := AddUtf8(old(View()), name);
              var d := AddUtf8(n.cp, desc);
              && (r.Failure? <==> |name| > 0xFFFF || |desc| > 0xFFFF || |d.cp| > 0xFFFF)
              && (r.Success? ==>
                    && Valid() && View() == d.cp
                    && methods == old(methods) + [BuiltMethod(WithNative(flags), U2(n.index), U2(d.index), [])])
      ensures r.Failure? ==> methods == old(methods)
    {
      hide AgreeUtf8, Agree, AllShaped, AddUtf8;
      Grown(AddUtf8(View(), name).cp, desc);
      var n :- Utf8(name);
      var d :- Utf8(desc);
      methods := methods + [BuiltMethod(WithNative(flags), n, d, [])];
      r := Success(());
    }

    // The string Code is interned once, by the first call.
    method AddCodedMethod(name: seq<u1>, desc: seq<u1>, flags: u2, code: seq<u1>, maxStack: u2, maxLocals: u2)
      returns (r: Result<(), BuildError>)
      requires Valid() && |code| <= 0xFFFF_0000
      requires codeUtf8 != 0 ==> IsUtf8(View(), codeUtf8, CodeAttribute.CODE)
      modifies this`cp, this`utf8Index, this`methods, this`codeUtf8
      ensures var c := if old(codeUtf8) == 0 then AddUtf8(old(View()), CodeAttribute.CODE)
              else Interned(old(View()), old(codeUtf8));
              var n := AddUtf8(c.cp, name);
              var d := AddUtf8(n.cp, desc);
              && (r.Failure? <==> |name| > 0xFFFF || |desc| > 0xFFFF || |d.cp| > 0xFFFF)
              && (r.Success? ==>
                    && Valid() && View() == d.cp && codeUtf8 == c.index
                    && methods == old(methods) + [BuiltMethod(flags, U2(n.index), U2(d.index),
                                                              CodedAttr(codeUtf8, code, maxStack, maxLocals))])
      ensures r.Success? ==>
                && IsUtf8(View(), codeUtf8, CodeAttribute.CODE)
                && IsUtf8(View(), methods[|old(methods)|].name, name)
                && IsUtf8(View(), methods[|old(methods)|].desc, desc)
      ensures r.Failure? ==> methods == old(methods)
    {
      hide AgreeUtf8, Agree, AllShaped, AddUtf8, Utf8Entry, PoolOk;
      assert |CodeAttribute.CODE| == 4;
      ghost var c := if codeUtf8 == 0 then AddUtf8(View(), CodeAttribute.CODE) else Interned(View(), codeUtf8);
      Grown(View(), CodeAttribute.CODE);
      Grown(c.cp, name);
      Grown(AddUtf8(c.cp, name).cp, desc);
      if codeUtf8 == 0 {
        codeUtf8 :- Utf8(CodeAttribute.CODE);
      }
      var attrBody := (Wr16(maxStack) + Wr16(maxLocals)) + Wr32(U4(|code|)) + code + Wr16(0) + Wr16(0);
      var attr := (Wr16(codeUtf8) + Wr32(U4(|attrBody|))) + attrBody;
      CodedAttrIs(codeUtf8, code, maxStack, maxLocals);
      Grown(View(), name);
      var n :- Utf8(name);
      Grown(View(), desc);
      var d :- Utf8(desc);
      methods := methods + [BuiltMethod(flags, n, d, attr)];
      r := Success(());
    }

    // The class file the builder holds once its own and its super class are in the pool.
    function Described(): CF.ClassFile
      reads this
    {
      CF.ClassFile(0, majorVersion, View(), access,
                   U2(AddClass(View(), thisInternal).index), U2(AddClass(View(), superInternal).index),
                   thisInternal, [], [0, 0], Members(methods), [0, 0])
    }

    // The bytes are those of the described class, and the editor's parser reads them back to
    // exactly that class, its own name included.
    method Build() returns (r: Result<seq<u1>, BuildError>)
      requires Valid() && MethodsOk(methods)
      modifies this`cp, this`utf8Index, this`classIndex
      ensures r.Success? ==>
                && Valid()
                && View() == AddClass(AddClass(old(View()), thisInternal).cp, superInternal).cp
                && r.value == CF.Print(Described()) && CF.Parse(r.value) == Success(Described())
      ensures r.Failure? <==> |thisInternal| > 0xFFFF || |superInternal| > 0xFFFF
                              || |AddClass(AddClass(old(View()), thisInternal).cp, superInternal).cp| > 0xFFFF
    {
      hide AgreeUtf8, Agree, AddClass, Wr16, Wr32, U2, CF.Print, CF.Parse, CF.PrintPool, MethodsOk, Members,
           CF.PrintMembers;
      ghost var view := View();
      ClassGrowth(AddClass(view, thisInternal).cp, superInternal);
      var thisClass :- ClassRef(thisInternal);
      var superClass :- ClassRef(superInternal);
      ClassesFound(view, thisInternal, superInternal);
      MembersLegal(methods);
      TagsSet(cp);
      DescribedOk(Described());
      CF.ParseUndoesPrint(Described());
      var out := (Wr32(CF.MAGIC) + (Wr16(0) + Wr16(majorVersion))) + Wr16(U2(|cp| + 1));
      var pool := WritePool(cp);
      var flags := (Wr16(access) + Wr16(thisClass)) + (Wr16(superClass) + Wr16(0));
      var members := WriteMembers(methods);
      PrintedParts(Described());
      out := out + (pool + (flags + (Wr16(0) + ((Wr16(U2(|methods|)) + members) + Wr16(0)))));
      r := Success(out);
    }

    static method WritePool(cp: seq<RawEntry>) returns (out: seq<u1>)
      requires forall i :: 0 <= i < |cp| ==> cp[i].tag != 0
      ensures out == CF.PrintPool(ViewOf(cp), 1)
    {
      hide CF.PrintPool;
      ghost var view := ViewOf(cp);
      out := [];
      var i := 0;
      while i < |cp|
        invariant 0 <= i <= |cp|
        invariant out + CF.PrintPool(view, i + 1) == CF.PrintPool(view, 1)
      {
        CF.PrintPoolNext(view, i + 1, out);
        out := out + ([cp[i].tag] + cp[i].body);
        i := i + 1;
      }
      CF.PrintPoolNext(view, i + 1, out);
    }

    static method WriteMembers(ms: seq<BuiltMethod>) returns (out: seq<u1>)
      ensures out == CF.PrintMembers(Members(ms))
    {
      hide Wr16;
      out := [];
      var i := 0;
      while i < |ms|
        invariant 0 <= i <= |ms|
        invariant out + CF.PrintMembers(Members(ms)[i..]) == CF.PrintMembers(Members(ms))
      {
        var m := ms[i];
        PrintMembersNext(Members(ms), i, out);
        var attrs := if m.codeAttr == [] then Wr16(0) else Wr16(1) + m.codeAttr;
        out := out + ((Wr16(m.access) + Wr16(m.name) + Wr16(m.desc)) + attrs);
        i := i + 1;
      }
    }
  }

  // A string constant: the interned string and a new entry for it.
  function InternString(view: Pool, s: seq<u1>): Interned {
    var n := AddUtf8(view, s);
    Interned(n.cp + [CpEntry(STRING, Body1(n.index), false)], |n.cp|)
  }

  // flags | ACC_NATIVE
  function WithNative(flags: u2): u2 {
    if flags / ACC_NATIVE % 2 == 1 then flags else flags + ACC_NATIVE
  }

  // Exactly the bit 0x100 is set.
  lemma NativeBit(flags: u2)
    ensures WithNative(flags) / 0x100 % 2 == 1
    ensures WithNative(flags) % 0x100 == flags % 0x100 && WithNative(flags) / 0x200 == flags / 0x200
  {
  }

  // The new last entry is a string constant for the string.
  lemma StringIs(view: Pool, s: seq<u1>)
    requires AllShaped(view) && |s| <= 0xFFFF && |InternString(view, s).cp| <= 0xFFFF
    ensures var r := InternString(view, s);
            && view <= r.cp && r.index == |r.cp| - 1
            && r.cp[r.index].tag == 8 && |r.cp[r.index].body| == 2 && IsUtf8(r.cp, Rd16(r.cp[r.index].body, 0), s)
  {
    hide Shaped, Utf8Entry, Rd16, U2;
    ShapedPoolOk(view, 1);
    Utf8Holds(view, s);
    Rd16Body2(AddUtf8(view, s).index, 0);
    Grown(view, s);
  }

  function CodedAttr(codeName: u2, code: seq<u1>, maxStack: u2, maxLocals: u2): seq<u1> {
    var body := CodeAttribute.PrintCode(CodeAttribute.Code(maxStack, maxLocals, code, [], [], []));
    Attributes.PrintAttr(Attributes.Attr(codeName, body))
  }

  function MemberOf(m: BuiltMethod): CF.Member {
    CF.Member(m.access, m.name, m.desc, if m.codeAttr == [] then Wr16(0) else Wr16(1) + m.codeAttr)
  }

  function Members(ms: seq<BuiltMethod>): (r: seq<CF.Member>)
    ensures |r| == |ms|
  {
    seq(|ms|, i requires 0 <= i < |ms| => MemberOf(ms[i]))
  }

  predicate MethodsOk(ms: seq<BuiltMethod>) {
    |ms| <= 0xFFFF && forall i :: 0 <= i < |ms| ==> Attributes.IsTable(MemberOf(ms[i]).attrs)
  }

  lemma MembersLegal(ms: seq<BuiltMethod>)
    requires MethodsOk(ms)
    ensures |ms| <= 0xFFFF && forall i :: 0 <= i < |Members(ms)| ==> Attributes.IsTable(Members(ms)[i].attrs)
  {
    hide Attributes.IsTable;
  }

  lemma TagsSet(cp: seq<RawEntry>)
    requires AllShaped(ViewOf(cp))
    ensures forall i :: 0 <= i < |cp| ==> cp[i].tag != 0
  {
    forall i | 0 <= i < |cp|
      ensures cp[i].tag != 0
    {
      assert Shaped(ViewOf(cp)[i + 1]);
    }
  }

  lemma CodedAttrIs(codeName: u2, code: seq<u1>, maxStack: u2, maxLocals: u2)
    ensures var attrBody := (Wr16(maxStack) + Wr16(maxLocals)) + Wr32(U4(|code|)) + code + Wr16(0) + Wr16(0);
            (Wr16(codeName) + Wr32(U4(|attrBody|))) + attrBody == CodedAttr(codeName, code, maxStack, maxLocals)
  {
    hide Wr16, Wr32, U4;
    var c := CodeAttribute.Code(maxStack, maxLocals, code, [], [], []);
    assert CodeAttribute.PrintHandlers([]) == [] && Attributes.PrintAttrs([]) == [];
    assert CodeAttribute.PrintCode(c) ==
           (Wr16(maxStack) + Wr16(maxLocals)) + Wr32(U4(|code|)) + code + Wr16(0) + Wr16(0);
  }

  // Built methods are legal: the attribute table of either kind can be read, and the Code
  // attribute of a coded method reads as the code it was given.
  lemma {:induction false} BuiltMethodsLegal(access: u2, name: u2, desc: u2, codeName: u2, code: seq<u1>,
      maxStack: u2, maxLocals: u2)
    requires |code| <= 0xFFFF_0000
    ensures Attributes.IsTable(MemberOf(BuiltMethod(access, name, desc, [])).attrs)
    ensures var raw := MemberOf(BuiltMethod(access, name, desc, CodedAttr(codeName, code, maxStack, maxLocals))).attrs;
            && Attributes.IsTable(raw) && |Attributes.ReadTable(raw, 0).value.0| == 1
            && var a := Attributes.ReadTable(raw, 0).value.0[0];
            && a.name == codeName
            && CodeAttribute.ReadCode(a.body) == Some(CodeAttribute.Code(maxStack, maxLocals, code, [], [], []))
  {
    var c := CodeAttribute.Code(maxStack, maxLocals, code, [], [], []);
    var a := Attributes.Attr(codeName, CodeAttribute.PrintCode(c));
    CodeAttribute.CodeRoundTrip(a.body, c);
    hide CodeAttribute.ReadCode, CodeAttribute.PrintCode, Attributes.IsTable, Attributes.ReadTable, Wr16, Wr32;
    Attributes.PrintedIsTable([]);
    CodedSize(c);
    Attributes.PrintedIsTable([a]);
    assert Attributes.PrintAttrs([a]) == Attributes.PrintAttr(a);
    assert Attributes.PrintAttrs([]) == [];
    assert |Attributes.PrintAttr(a)| == 6 + |a.body|;
  }

  lemma CodedSize(c: CodeAttribute.Code)
    requires c.handlers == [] && c.attrs == [] && c.tail == []
    ensures |CodeAttribute.PrintCode(c)| == 12 + |c.code|
  {
  }

  // After adding a string, it and every string found before stand where the indices say.
  lemma Grown(view: Pool, s: seq<u1>)
    ensures view <= AddUtf8(view, s).cp
    ensures AllShaped(view) && |s| <= 0xFFFF ==> IsUtf8(AddUtf8(view, s).cp, AddUtf8(view, s).index, s)
  {
    if AllShaped(view) && |s| <= 0xFFFF {
      ShapedPoolOk(view, 1);
      Utf8Holds(view, s);
    }
  }

  lemma ClassGrowth(view: Pool, name: seq<u1>)
    ensures view <= AddClass(view, name).cp && |AddUtf8(view, name).cp| <= |AddClass(view, name).cp|
  {
  }

  lemma ClassesFound(view: Pool, own: seq<u1>, parent: seq<u1>)
    requires AllShaped(view) && |own| <= 0xFFFF && |parent| <= 0xFFFF
    requires |AddClass(AddClass(view, own).cp, parent).cp| <= 0xFFFF
    ensures var t := AddClass(view, own);
            var s := AddClass(t.cp, parent);
            && AddClass(s.cp, own) == Interned(s.cp, t.index) && AddClass(s.cp, parent) == s
            && PoolOk(s.cp) && IsClass(s.cp, t.index, own)
  {
    hide AddClass, IsClass, ClassEnds;
    ShapedPoolOk(view, 1);
    var t := AddClass(view, own);
    ClassGrowth(t.cp, parent);
    SmallEnds(view, 0, own, [], []);
    AddClassSpec(view, own);
    var s := AddClass(t.cp, parent);
    SmallEnds(t.cp, 0, parent, [], []);
    AddClassSpec(t.cp, parent);
    ClassFoundAgain(t.cp, s.cp, own);
    SmallEnds(s.cp, 0, own, [], []);
    AddClassSpec(s.cp, own);
  }

  lemma DescribedOk(c: CF.ClassFile)
    requires PoolOk(c.cp) && |c.cp| <= 0xFFFF && IsClass(c.cp, c.thisClass, c.thisName) && |c.thisName| <= 0xFFFF
    requires c.interfaces == [] && c.fields == [0, 0]
    requires |c.methods| <= 0xFFFF && forall i :: 0 <= i < |c.methods| ==> Attributes.IsTable(c.methods[i].attrs)
    ensures CF.WellFormed(c)
  {
    hide Attributes.IsTable, SlotsOk;
    HoldsOwn(c.thisName);
    var n := Rd16(c.cp[c.thisClass].body, 0);
    assert CF.ReadMembers([0, 0], 2, 0) == Some(([], 2));
    assert c.cp[n].body[2..2 + |c.thisName|] == c.thisName;
  }

  lemma PrintedParts(c: CF.ClassFile)
    requires c.minor == 0 && c.interfaces == [] && c.fields == [0, 0] && c.classAttrs == [0, 0]
    ensures CF.Print(c) ==
            ((Wr32(CF.MAGIC) + (Wr16(0) + Wr16(c.major))) + Wr16(U2(|c.cp|)))
            + (CF.PrintPool(c.cp, 1)
               + (((Wr16(c.access) + Wr16(c.thisClass)) + (Wr16(c.superClass) + Wr16(0)))
                  + (Wr16(0) + ((Wr16(U2(|c.methods|)) + CF.PrintMembers(c.methods)) + Wr16(0)))))
  {
    assert Wr16(0) == [0, 0];
    assert CF.PrintU2s([]) == [];
    hide CF.PrintPool, CF.PrintMembers, Wr32;
  }

  lemma PrintMembersNext(ms: seq<CF.Member>, i: nat, out: seq<u1>)
    requires i < |ms|
    ensures out + CF.PrintMembers(ms[i..]) == (out + CF.PrintMember(ms[i])) + CF.PrintMembers(ms[i + 1..])
  {
    hide CF.PrintMember;
    assert ms[i..][1..] == ms[i + 1..];
  }

  // ---------------------------------------------------------------- any sequence of calls

  datatype Call =
    | CallUtf8(s: seq<u1>)
    | CallClass(name: seq<u1>)
    | CallNameAndType(name: seq<u1>, desc: seq<u1>)
    | CallMethodRef(klass: seq<u1>, name: seq<u1>, desc: seq<u1>)
    | CallFieldRef(klass: seq<u1>, name: seq<u1>, desc: seq<u1>)
    | CallString(s: seq<u1>)

  predicate Short(c: Call) {
    match c
    case CallUtf8(s) => |s| <= 0xFFFF
    case CallClass(name) => |name| <= 0xFFFF
    case CallNameAndType(name, desc) => |name| <= 0xFFFF && |desc| <= 0xFFFF
    case CallMethodRef(klass, name, desc) => |klass| <= 0xFFFF && |name| <= 0xFFFF && |desc| <= 0xFFFF
    case CallFieldRef(klass, name, desc) => |klass| <= 0xFFFF && |name| <= 0xFFFF && |desc| <= 0xFFFF
    case CallString(s) => |s| <= 0xFFFF
  }

  // The same call on a pool searched linearly.
  function Linear(view: Pool, c: Call): Interned {
    match c
    case CallUtf8(s) => AddUtf8(view, s)
    case CallClass(name) => AddClass(view, name)
    case CallNameAndType(name, desc) => AddNameAndType(view, name, desc)
    case CallMethodRef(klass, name, desc) => AddMethodRef(view, klass, name, desc)
    case CallFieldRef(klass, name, desc) => AddMemberRef(view, FIELDREF, klass, name, desc)
    case CallString(s) => InternString(view, s)
  }

  function LinearPool(view: Pool, calls: seq<Call>): Pool
    decreases |calls|
  {
    if calls == [] then view else LinearPool(Linear(view, calls[0]).cp, calls[1..])
  }

  function LinearIndices(view: Pool, calls: seq<Call>): seq<nat>
    decreases |calls|
  {
    if calls == [] then [] else [Linear(view, calls[0]).index] + LinearIndices(Linear(view, calls[0]).cp, calls[1..])
  }

  lemma {:induction false} LinearGrows(view: Pool, calls: seq<Call>)
    ensures |view| <= |LinearPool(view, calls)|
    decreases |calls|
  {
    hide Linear;
    if calls != [] {
      LinearStepGrows(view, calls[0]);
      LinearGrows(Linear(view, calls[0]).cp, calls[1..]);
    }
  }

  lemma LinearStepGrows(view: Pool, c: Call)
    ensures |view| <= |Linear(view, c).cp|
  {
    hide AddUtf8, AddClass, AddNameAndType, AddMemberRef;
    match c
    case CallUtf8(s) => Grown(view, s);
    case CallClass(name) => ClassGrows(view, name);
    case CallNameAndType(name, desc) => NameAndTypeGrows(view, name, desc);
    case CallMethodRef(klass, name, desc) => MemberRefGrows(view, METHODREF, klass, name, desc);
    case CallFieldRef(klass, name, desc) => MemberRefGrows(view, FIELDREF, klass, name, desc);
    case CallString(s) => Grown(view, s);
  }

  lemma ClassGrows(view: Pool, name: seq<u1>)
    ensures |view| <= |AddClass(view, name).cp|
  {
  }

  lemma MemberRefGrows(view: Pool, tag: u1, klass: seq<u1>, name: seq<u1>, desc: seq<u1>)
    ensures |view| <= |AddMemberRef(view, tag, klass, name, desc).cp|
  {
    hide AddClass, AddNameAndType;
    ClassGrows(view, klass);
    NameAndTypeGrows(AddClass(view, klass).cp, name, desc);
  }

  // Any sequence of interning calls on the builder succeeds exactly when the strings are short enough
  // and the linear pool stays within 0xFFFF slots, and then gives the linear search's pool and
  // the linear search's indices, call by call.
  method RunCalls(b: ClassBuilder, calls: seq<Call>) returns (ok: bool, indices: seq<nat>)
    requires b.Valid()
    modifies b
    ensures ok <==> (forall i :: 0 <= i < |calls| ==> Short(calls[i])) && |LinearPool(old(b.View()), calls)| <= 0xFFFF
    ensures ok ==> b.Valid() && b.View() == LinearPool(old(b.View()), calls)
    ensures ok ==> indices == LinearIndices(old(b.View()), calls)
  {
    hide AddUtf8, AddClass, AddNameAndType, AddMethodRef, Agree, AgreeUtf8, AllShaped;
    indices := [];
    var i := 0;
    assert calls[0..] == calls;
    while i < |calls|
      invariant 0 <= i <= |calls|
      invariant b.Valid()
      invariant forall k :: 0 <= k < i ==> Short(calls[k])
      invariant LinearPool(old(b.View()), calls) == LinearPool(b.View(), calls[i..])
      invariant LinearIndices(old(b.View()), calls) == indices + LinearIndices(b.View(), calls[i..])
    {
      assert calls[i..][0] == calls[i] && calls[i..][1..] == calls[i + 1..];
      LinearGrows(Linear(b.View(), calls[i]).cp, calls[i + 1..]);
      var r := Perform(b, calls[i]);
      if r.Failure? {
        return false, indices;
      }
      indices := indices + [r.value];
      i := i + 1;
    }
    ok := true;
  }

  method Perform(b: ClassBuilder, c: Call) returns (r: Result<u2, BuildError>)
    requires b.Valid()
    modifies b
    ensures r.Success? ==> b.Valid() && Interned(b.View(), r.value) == Linear(old(b.View()), c)
    ensures r.Success? <==> Short(c) && |Linear(old(b.View()), c).cp| <= 0xFFFF
  {
    hide AddUtf8, AddClass, AddNameAndType, AddMemberRef, Agree, AgreeUtf8, AllShaped;
    match c
    case CallUtf8(s) => r := b.Utf8(s);
    case CallClass(name) => r := b.ClassRef(name);
    case CallNameAndType(name, desc) => r := b.NameAndType(name, desc);
    case CallMethodRef(klass, name, desc) => r := b.MemberRef(METHODREF, klass, name, desc);
    case CallFieldRef(klass, name, desc) => r := b.MemberRef(FIELDREF, klass, name, desc);
    case CallString(s) => r := b.StringRef(s);
  }

  lemma NameAndTypeSteps(view: Pool, name: seq<u1>, desc: seq<u1>)
    ensures |AddUtf8(view, name).cp| <= |AddUtf8(AddUtf8(view, name).cp, desc).cp|
    ensures |AddUtf8(AddUtf8(view, name).cp, desc).cp| <= |AddNameAndType(view, name, desc).cp|
  {
  }

  lemma MemberRefSteps(view: Pool, tag: u1, klass: seq<u1>, name: seq<u1>, desc: seq<u1>)
    ensures var c := AddClass(view, klass);
            |c.cp| <= |AddNameAndType(c.cp, name, desc).cp| <= |AddMemberRef(view, tag, klass, name, desc).cp|
  {
    hide AddClass;
    NameAndTypeGrows(AddClass(view, klass).cp, name, desc);
  }

  // The entry written for two indices, and the key the source computes for it.
  lemma KeyIs(tag: u1, a: u2, b: u2)
    ensures tag == CLASS ==>
              var e := CpEntry(tag, Wr16(a), false);
              Shaped(e) && KeyOf(e) == a && tag in CLASSES && e.body == Body1(a)
    ensures tag == NAME_AND_TYPE ==>
              var e := CpEntry(tag, Wr16(a) + Wr16(b), false);
              Shaped(e) && KeyOf(e) == NatKey(a, b) && tag in NATS && e.body == Body2(a, b)
    ensures tag == METHODREF || tag == FIELDREF ==>
              var e := CpEntry(tag, Wr16(a) + Wr16(b), false);
              Shaped(e) && KeyOf(e) == RefKey(tag, a, b) && tag in REFS && e.body == Body2(a, b)
  {
    hide NatKey, RefKey;
    Rd16Body2(a, b);
  }

  lemma IndexesPositive(view: Pool, m: map<int, u2>, tags: set<u1>)
    requires Agree(view, m, tags)
    ensures forall k <- m :: 0 < m[k]
  {
  }

  lemma KindsApart(tag: u1, tags: set<u1>, body: seq<u1>)
    requires tag in tags && (tags == CLASSES || tags == NATS || tags == REFS)
    ensures tag != UTF8
    ensures tags != CLASSES ==> tag !in CLASSES
    ensures tags != NATS ==> tag !in NATS
    ensures tags != REFS ==> tag !in REFS
  {
  }

  lemma ShapedExtend(view: Pool, e: CpEntry)
    requires AllShaped(view) && Shaped(e)
    ensures AllShaped(view + [e])
  {
    hide Shaped;
  }

  lemma Utf8EntryIs(s: seq<u1>)
    ensures Utf8Entry(s).tag == UTF8
    ensures |s| <= 0xFFFF ==> Utf8Entry(s) == CpEntry(UTF8, Wr16(|s|) + s, false)
  {
  }
}
