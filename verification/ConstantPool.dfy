/** The constant pool of a class file as the editor keeps it: slot 0 is blank, and a
    two-slot entry is followed by a blank slot. */
module ConstantPool {
  import opened Bytes

  datatype CpEntry = CpEntry(tag: u1, body: seq<u1>, wide: bool)

  type Pool = seq<CpEntry>

  const BLANK := CpEntry(0, [], false)
  const UTF8: u1 := 1
  const CLASS: u1 := 7
  const STRING: u1 := 8
  const FIELDREF: u1 := 9
  const METHODREF: u1 := 10
  const NAME_AND_TYPE: u1 := 12

  // ---------------------------------------------------------------- entries

  function Utf8Entry(s: seq<u1>): CpEntry {
    CpEntry(UTF8, Wr16(U2(|s|)) + s, false)
  }

  function Body1(i: nat): seq<u1> {
    Wr16(U2(i))
  }

  function Body2(i: nat, j: nat): seq<u1> {
    Wr16(U2(i)) + Wr16(U2(j))
  }

  // The length of the body of an entry; a Utf8 body starts with its own length.
  function FixedSize(tag: u1): nat {
    if tag == 7 || tag == 8 || tag == 16 || tag == 19 || tag == 20 then 2
    else if tag == 15 then 3
    else if tag == 3 || tag == 4 || tag == 9 || tag == 10 || tag == 11 || tag == 12 || tag == 17 || tag == 18 then 4
    else if tag == 5 || tag == 6 then 8
    else 0
  }

  predicate KnownTag(tag: u1) {
    tag == UTF8 || FixedSize(tag) > 0
  }

  // The widths of the fields of an entry by its tag (JVMS 4.4).
  function Fields(tag: u1): seq<nat> {
    if tag == CLASS || tag == STRING then [2]
    else if tag == FIELDREF || tag == METHODREF || tag == 11 then [2, 2] // also interface methods
    else if tag == NAME_AND_TYPE then [2, 2]
    else if tag == 3 || tag == 4 then [4] // int, float
    else if tag == 5 || tag == 6 then [4, 4] // long, double
    else if tag == 15 then [1, 2] // method handle
    else if tag == 16 then [2] // method type
    else if tag == 17 || tag == 18 then [2, 2] // dynamic, invokedynamic
    else if tag == 19 || tag == 20 then [2] // module, package
    else []
  }

  function Sum(widths: seq<nat>): nat {
    if widths == [] then 0 else widths[0] + Sum(widths[1..])
  }

  // The body lengths are those of the format, and exactly the tags of the format are known.
  lemma SizesOfFormat(tag: u1)
    ensures FixedSize(tag) == Sum(Fields(tag))
    ensures KnownTag(tag) <==> tag == 1 || Fields(tag) != []
  {
    var fields := Fields(tag);
    if |fields| > 0 {
      assert Sum(fields) == fields[0] + Sum(fields[1..]);
      if |fields| > 1 {
        assert fields[1..][1..] == [];
        assert Sum(fields[1..]) == fields[1] + Sum([]);
      }
    }
  }

  predicate EntryOk(e: CpEntry) {
    && KnownTag(e.tag)
    && e.wide == (e.tag == 5 || e.tag == 6)
    && if e.tag == UTF8 then |e.body| >= 2 && |e.body| == 2 + Rd16(e.body, 0) else |e.body| == FixedSize(e.tag)
  }

  // Slots i.. form a pool in which every two-slot entry has its second slot.
  predicate SlotsOk(cp: Pool, i: nat)
    decreases |cp| - i
  {
    if i >= |cp| then i == |cp|
    else
      && EntryOk(cp[i])
      && if cp[i].wide then i + 1 < |cp| && cp[i + 1] == BLANK && SlotsOk(cp, i + 2) else SlotsOk(cp, i + 1)
  }

  predicate PoolOk(cp: Pool) {
    |cp| >= 1 && cp[0] == BLANK && SlotsOk(cp, 1)
  }

  lemma {:induction false} SlotsOkAppend(cp: Pool, i: nat, e: CpEntry)
    requires i >= 1 && SlotsOk(cp, i)
    requires EntryOk(e) && !e.wide
    ensures SlotsOk(cp + [e], i)
    decreases |cp| - i
  {
    var cp' := cp + [e];
    if i == |cp| {
      assert SlotsOk(cp', |cp'|);
      assert cp'[i] == e;
    } else if cp[i].wide {
      SlotsOkAppend(cp, i + 2, e);
    } else {
      SlotsOkAppend(cp, i + 1, e);
    }
  }

  // In a well-formed pool every slot is blank or a well-formed entry.
  lemma {:induction false} SlotAt(cp: Pool, i: nat, k: nat)
    requires SlotsOk(cp, i) && i <= k < |cp|
    ensures cp[k] == BLANK || EntryOk(cp[k])
    decreases |cp| - i
  {
    if i < k {
      if cp[i].wide && i + 1 < k {
        SlotAt(cp, i + 2, k);
      } else if !cp[i].wide {
        SlotAt(cp, i + 1, k);
      }
    }
  }

  // ---------------------------------------------------------------- linear search

  predicate HoldsUtf8(e: CpEntry, s: seq<u1>) {
    e.tag == UTF8 && |e.body| >= 2 + |s| && Rd16(e.body, 0) == |s| && e.body[2..2 + |s|] == s
  }

  predicate HoldsRef(e: CpEntry, tag: u1, body: seq<u1>) {
    e.tag == tag && e.body == body
  }

  // The first slot from i on that holds the string, or 0.
  function FindUtf8From(cp: Pool, i: nat, s: seq<u1>): nat
    decreases |cp| - i
  {
    if i >= |cp| then 0
    else if HoldsUtf8(cp[i], s) then i
    else FindUtf8From(cp, i + 1, s)
  }

  function FindRefFrom(cp: Pool, i: nat, tag: u1, body: seq<u1>): nat
    decreases |cp| - i
  {
    if i >= |cp| then 0
    else if HoldsRef(cp[i], tag, body) then i
    else FindRefFrom(cp, i + 1, tag, body)
  }

  function FindUtf8(cp: Pool, s: seq<u1>): nat {
    FindUtf8From(cp, 1, s)
  }

  function FindRef(cp: Pool, tag: u1, body: seq<u1>): nat {
    FindRefFrom(cp, 1, tag, body)
  }

  // A search returns k exactly when k is the first match.
  lemma {:induction false} FindUtf8Is(cp: Pool, i: nat, s: seq<u1>, k: nat)
    requires 1 <= i
    requires k == 0 || i <= k < |cp|
    ensures FindUtf8From(cp, i, s) == k <==>
            && (k != 0 ==> HoldsUtf8(cp[k], s))
            && (forall j :: i <= j < (if k == 0 then |cp| else k) ==> !HoldsUtf8(cp[j], s))
    decreases |cp| - i
  {
    if i < |cp| && !HoldsUtf8(cp[i], s) {
      if k != i {
        FindUtf8Is(cp, i + 1, s, k);
      } else {
        FindUtf8Bounds(cp, i + 1, s);
      }
    }
  }

  lemma {:induction false} FindUtf8Bounds(cp: Pool, i: nat, s: seq<u1>)
    ensures FindUtf8From(cp, i, s) == 0 || i <= FindUtf8From(cp, i, s) < |cp|
    decreases |cp| - i
  {
    if i < |cp| {
      FindUtf8Bounds(cp, i + 1, s);
    }
  }

  lemma {:induction false} FindRefIs(cp: Pool, i: nat, tag: u1, body: seq<u1>, k: nat)
    requires 1 <= i
    requires k == 0 || i <= k < |cp|
    ensures FindRefFrom(cp, i, tag, body) == k <==>
            && (k != 0 ==> HoldsRef(cp[k], tag, body))
            && (forall j :: i <= j < (if k == 0 then |cp| else k) ==> !HoldsRef(cp[j], tag, body))
    decreases |cp| - i
  {
    if i < |cp| && !HoldsRef(cp[i], tag, body) {
      if k != i {
        FindRefIs(cp, i + 1, tag, body, k);
      } else {
        FindRefBounds(cp, i + 1, tag, body);
      }
    }
  }

  lemma {:induction false} FindRefBounds(cp: Pool, i: nat, tag: u1, body: seq<u1>)
    ensures FindRefFrom(cp, i, tag, body) == 0 || i <= FindRefFrom(cp, i, tag, body) < |cp|
    decreases |cp| - i
  {
    if i < |cp| {
      FindRefBounds(cp, i + 1, tag, body);
    }
  }

  // ---------------------------------------------------------------- interning

  // A pool and the index an add* call returns. The searches count in two bytes: in a pool of more
  // than 0xFFFF slots one ends only by finding something in the first 0xFFFF, and so an index that
  // is returned fits two bytes.
  datatype Interned = Interned(cp: Pool, index: nat)

  function AddUtf8(cp: Pool, s: seq<u1>): Interned {
    var found := FindUtf8(cp, s);
    if found != 0 then Interned(cp, found) else Interned(cp + [Utf8Entry(s)], |cp|)
  }

  function AddRef(cp: Pool, tag: u1, body: seq<u1>): Interned {
    var found := FindRef(cp, tag, body);
    if found != 0 then Interned(cp, found) else Interned(cp + [CpEntry(tag, body, false)], |cp|)
  }

  function AddClass(cp: Pool, name: seq<u1>): Interned {
    var n := AddUtf8(cp, name);
    AddRef(n.cp, CLASS, Body1(n.index))
  }

  function AddNameAndType(cp: Pool, name: seq<u1>, desc: seq<u1>): Interned {
    var n := AddUtf8(cp, name);
    var d := AddUtf8(n.cp, desc);
    AddRef(d.cp, NAME_AND_TYPE, Body2(n.index, d.index))
  }

  // METHODREF for addMethodRef and methodRef, FIELDREF for fieldRef.
  function AddMemberRef(cp: Pool, tag: u1, klass: seq<u1>, name: seq<u1>, desc: seq<u1>): Interned {
    var c := AddClass(cp, klass);
    var nt := AddNameAndType(c.cp, name, desc);
    AddRef(nt.cp, tag, Body2(c.index, nt.index))
  }

  function AddMethodRef(cp: Pool, klass: seq<u1>, name: seq<u1>, desc: seq<u1>): Interned {
    AddMemberRef(cp, METHODREF, klass, name, desc)
  }

  predicate SearchEnds(cp: Pool, found: nat) {
    |cp| <= 0xFFFF || 0 < found <= 0xFFFF
  }

  predicate Utf8Ends(cp: Pool, s: seq<u1>) {
    SearchEnds(cp, FindUtf8(cp, s))
  }

  predicate RefEnds(cp: Pool, tag: u1, body: seq<u1>) {
    SearchEnds(cp, FindRef(cp, tag, body))
  }

  predicate ClassEnds(cp: Pool, name: seq<u1>) {
    var n := AddUtf8(cp, name);
    Utf8Ends(cp, name) && RefEnds(n.cp, CLASS, Body1(n.index))
  }

  predicate NameAndTypeEnds(cp: Pool, name: seq<u1>, desc: seq<u1>) {
    var n := AddUtf8(cp, name);
    var d := AddUtf8(n.cp, desc);
    Utf8Ends(cp, name) && Utf8Ends(n.cp, desc) && RefEnds(d.cp, NAME_AND_TYPE, Body2(n.index, d.index))
  }

  predicate MemberRefEnds(cp: Pool, tag: u1, klass: seq<u1>, name: seq<u1>, desc: seq<u1>) {
    var c := AddClass(cp, klass);
    var nt := AddNameAndType(c.cp, name, desc);
    ClassEnds(cp, klass) && NameAndTypeEnds(c.cp, name, desc) && RefEnds(nt.cp, tag, Body2(c.index, nt.index))
  }

  // The searches end when the result stays within 0xFFFF slots.
  lemma SmallEnds(cp: Pool, tag: u1, klass: seq<u1>, name: seq<u1>, desc: seq<u1>)
    ensures |AddUtf8(cp, name).cp| <= 0xFFFF ==> Utf8Ends(cp, name)
    ensures |AddClass(cp, klass).cp| <= 0xFFFF ==> ClassEnds(cp, klass)
    ensures |AddNameAndType(cp, name, desc).cp| <= 0xFFFF ==> NameAndTypeEnds(cp, name, desc)
    ensures |AddMemberRef(cp, tag, klass, name, desc).cp| <= 0xFFFF ==> MemberRefEnds(cp, tag, klass, name, desc)
  {
    hide FindUtf8, FindRef, Utf8Entry, Body1, Body2;
  }

  // ---------------------------------------------------------------- what an index means

  predicate IsUtf8(cp: Pool, i: nat, s: seq<u1>) {
    0 < i < |cp| && cp[i] == Utf8Entry(s)
  }

  predicate IsClass(cp: Pool, i: nat, name: seq<u1>) {
    && 0 < i < |cp|
    && cp[i].tag == CLASS && |cp[i].body| == 2
    && IsUtf8(cp, Rd16(cp[i].body, 0), name)
  }

  predicate IsNameAndType(cp: Pool, i: nat, name: seq<u1>, desc: seq<u1>) {
    && 0 < i < |cp|
    && cp[i].tag == NAME_AND_TYPE && |cp[i].body| == 4
    && IsUtf8(cp, Rd16(cp[i].body, 0), name)
    && IsUtf8(cp, Rd16(cp[i].body, 2), desc)
  }

  predicate IsMemberRef(cp: Pool, i: nat, tag: u1, klass: seq<u1>, name: seq<u1>, desc: seq<u1>) {
    && 0 < i < |cp|
    && cp[i].tag == tag && |cp[i].body| == 4
    && IsClass(cp, Rd16(cp[i].body, 0), klass)
    && IsNameAndType(cp, Rd16(cp[i].body, 2), name, desc)
  }

  // The old slots stay, and the index is a slot and fits two bytes.
  predicate Extends(cp: Pool, r: Interned) {
    cp <= r.cp && |r.cp| <= |cp| + 1 && 0 < r.index < |r.cp| && r.index <= 0xFFFF
  }

  // The index holds the string and old slots stay. The pool stays well formed, and a second
  // request finds the same slot, exactly when the string fits its length field.
  lemma AddUtf8Spec(cp: Pool, s: seq<u1>)
    requires PoolOk(cp) && Utf8Ends(cp, s)
    ensures Extends(cp, AddUtf8(cp, s))
    ensures IsUtf8(AddUtf8(cp, s).cp, AddUtf8(cp, s).index, s)
    ensures PoolOk(AddUtf8(cp, s).cp) <==> |s| <= 0xFFFF
    ensures AddUtf8(AddUtf8(cp, s).cp, s) == AddUtf8(cp, s) <==> |s| <= 0xFFFF
  {
    Utf8Holds(cp, s);
    var r := AddUtf8(cp, s);
    if |s| > 0xFFFF {
      LongNotFound(cp, s);
      LongNotFound(r.cp, s);
      LongSpoils(r.cp, r.cp, r.index, s);
    } else if FindUtf8(cp, s) == 0 {
      var e := Utf8Entry(s);
      At16(e.body, 0, |s|);
      SlotsOkAppend(cp, 1, e);
      FindUtf8Is(cp, 1, s, 0);
      FindUtf8Is(r.cp, 1, s, |cp|);
    }
  }

  // No entry can hold a string longer than its length field.
  lemma LongNotFound(cp: Pool, s: seq<u1>)
    requires |cp| >= 1
    ensures |s| > 0xFFFF ==> FindUtf8(cp, s) == 0
  {
    if |s| > 0xFFFF {
      FindUtf8Is(cp, 1, s, 0);
    }
  }

  lemma LongSpoils(cp: Pool, cp': Pool, k: nat, s: seq<u1>)
    requires cp <= cp' && IsUtf8(cp, k, s) && |s| > 0xFFFF
    ensures !PoolOk(cp')
  {
    if PoolOk(cp') {
      SlotAt(cp', 1, k);
      assert false;
    }
  }

  lemma Utf8Holds(cp: Pool, s: seq<u1>)
    requires PoolOk(cp)
    ensures IsUtf8(AddUtf8(cp, s).cp, AddUtf8(cp, s).index, s)
    ensures Utf8Ends(cp, s) ==> Extends(cp, AddUtf8(cp, s))
  {
    FindUtf8Bounds(cp, 1, s);
    var k := FindUtf8(cp, s);
    if k != 0 {
      FindUtf8Is(cp, 1, s, k);
      SlotAt(cp, 1, k);
      assert cp[k].body == Wr16(|s|) + s by {
        At16(cp[k].body, 0, |s|);
        assert cp[k].body == cp[k].body[0..2] + cp[k].body[2..2 + |s|];
      }
    }
  }

  lemma RefHolds(cp: Pool, tag: u1, body: seq<u1>)
    requires |cp| >= 1 && RefEnds(cp, tag, body)
    ensures Extends(cp, AddRef(cp, tag, body))
    ensures var e := AddRef(cp, tag, body).cp[AddRef(cp, tag, body).index]; e.tag == tag && e.body == body
  {
    FindRefBounds(cp, 1, tag, body);
    FindRefIs(cp, 1, tag, body, FindRef(cp, tag, body));
  }

  lemma AddRefSpec(cp: Pool, tag: u1, body: seq<u1>)
    requires PoolOk(cp) && EntryOk(CpEntry(tag, body, false)) && tag != UTF8 && RefEnds(cp, tag, body)
    ensures Extends(cp, AddRef(cp, tag, body)) && PoolOk(AddRef(cp, tag, body).cp)
    ensures AddRef(cp, tag, body).cp[AddRef(cp, tag, body).index] == CpEntry(tag, body, false)
    ensures AddRef(AddRef(cp, tag, body).cp, tag, body) == AddRef(cp, tag, body)
  {
    RefHolds(cp, tag, body);
    var k := FindRef(cp, tag, body);
    FindRefIs(cp, 1, tag, body, k);
    if k != 0 {
      SlotAt(cp, 1, k);
    } else {
      var cp' := cp + [CpEntry(tag, body, false)];
      SlotsOkAppend(cp, 1, CpEntry(tag, body, false));
      FindRefIs(cp', 1, tag, body, |cp|);
    }
  }

  // A search that succeeds in a pool gives the same slot in any longer pool.
  lemma FindStable(cp: Pool, cp': Pool, s: seq<u1>, tag: u1, body: seq<u1>)
    requires cp <= cp' && |cp| >= 1
    ensures FindUtf8(cp, s) != 0 ==> FindUtf8(cp', s) == FindUtf8(cp, s)
    ensures FindRef(cp, tag, body) != 0 ==> FindRef(cp', tag, body) == FindRef(cp, tag, body)
  {
    FindUtf8Bounds(cp, 1, s);
    FindRefBounds(cp, 1, tag, body);
    var k := FindUtf8(cp, s);
    if k != 0 {
      FindUtf8Is(cp, 1, s, k);
      FindUtf8Is(cp', 1, s, k);
    }
    var m := FindRef(cp, tag, body);
    if m != 0 {
      FindRefIs(cp, 1, tag, body, m);
      FindRefIs(cp', 1, tag, body, m);
    }
  }

  lemma Rd16Body2(i: u2, j: u2)
    ensures Rd16(Body2(i, j), 0) == i && Rd16(Body2(i, j), 2) == j
    ensures Rd16(Body1(i), 0) == i
  {
    hide U2;
    At16(Body1(i), 0, i);
    AtConcat(Body2(i, j), 0, Wr16(i), Wr16(j));
    At16(Body2(i, j), 0, i);
    At16(Body2(i, j), 2, j);
  }

  // The index resolves to the class and old slots stay. The pool stays well formed exactly when
  // the name fits its length field, and then asking again changes nothing.
  lemma AddClassSpec(cp: Pool, name: seq<u1>)
    requires PoolOk(cp) && ClassEnds(cp, name)
    ensures var r := AddClass(cp, name); cp <= r.cp && IsClass(r.cp, r.index, name) && r.index <= 0xFFFF
    ensures PoolOk(AddClass(cp, name).cp) <==> |name| <= 0xFFFF
    ensures |name| <= 0xFFFF ==> AddClass(AddClass(cp, name).cp, name) == AddClass(cp, name)
  {
    hide SlotsOk, FindUtf8, FindRef;
    var n := AddUtf8(cp, name);
    var c := AddClass(cp, name);
    AddUtf8Spec(cp, name);
    RefHolds(n.cp, CLASS, Body1(n.index));
    Rd16Body2(n.index, 0);
    if |name| <= 0xFFFF {
      AddRefSpec(n.cp, CLASS, Body1(n.index));
      FoundAgain(n.cp, c.cp, name);
    } else {
      LongSpoils(n.cp, c.cp, n.index, name);
    }
  }

  // After the string is in the pool, any longer pool finds it at the same slot.
  lemma FoundAgain(cp: Pool, cp': Pool, s: seq<u1>)
    requires |cp| >= 1 && cp <= cp' && AddUtf8(cp, s).cp == cp
    ensures AddUtf8(cp', s) == Interned(cp', AddUtf8(cp, s).index)
  {
    FindStable(cp, cp', s, 0, []);
  }

  lemma FoundRefAgain(cp: Pool, cp': Pool, tag: u1, body: seq<u1>)
    requires |cp| >= 1 && cp <= cp' && AddRef(cp, tag, body).cp == cp
    ensures AddRef(cp', tag, body) == Interned(cp', AddRef(cp, tag, body).index)
  {
    FindStable(cp, cp', [], tag, body);
  }

  // The same for a name and type; after a long string the searches may find another one.
  lemma AddNameAndTypeSpec(cp: Pool, name: seq<u1>, desc: seq<u1>)
    requires PoolOk(cp) && NameAndTypeEnds(cp, name, desc)
    ensures var r := AddNameAndType(cp, name, desc);
            && cp <= r.cp && r.index <= 0xFFFF
            && (PoolOk(r.cp) <==> |name| <= 0xFFFF && |desc| <= 0xFFFF)
            && (PoolOk(r.cp) ==> IsNameAndType(r.cp, r.index, name, desc) && AddNameAndType(r.cp, name, desc) == r)
  {
    hide SlotsOk, FindUtf8, FindRef;
    var n := AddUtf8(cp, name);
    var d := AddUtf8(n.cp, desc);
    var r := AddNameAndType(cp, name, desc);
    AddUtf8Spec(cp, name);
    RefHolds(d.cp, NAME_AND_TYPE, Body2(n.index, d.index));
    if |name| > 0xFFFF {
      LongSpoils(n.cp, r.cp, n.index, name);
    } else {
      AddUtf8Spec(n.cp, desc);
      if |desc| > 0xFFFF {
        LongSpoils(d.cp, r.cp, d.index, desc);
      } else {
        AddRefSpec(d.cp, NAME_AND_TYPE, Body2(n.index, d.index));
        Rd16Body2(n.index, d.index);
        FoundAgain(n.cp, r.cp, name);
        FoundAgain(d.cp, r.cp, desc);
      }
    }
  }

  // addMethodRef, whole: every slot that was there keeps its number and content. Exactly when the
  // strings fit their length fields the pool stays well formed; then the index resolves to the
  // requested class, name and descriptor, and asking again changes nothing.
  lemma AddMemberRefSpec(cp: Pool, tag: u1, klass: seq<u1>, name: seq<u1>, desc: seq<u1>)
    requires PoolOk(cp) && MemberRefEnds(cp, tag, klass, name, desc)
    requires tag == METHODREF || tag == FIELDREF
    ensures var r := AddMemberRef(cp, tag, klass, name, desc);
            && cp <= r.cp && r.index <= 0xFFFF
            && (PoolOk(r.cp) <==> |klass| <= 0xFFFF && |name| <= 0xFFFF && |desc| <= 0xFFFF)
            && (PoolOk(r.cp) ==>
                  IsMemberRef(r.cp, r.index, tag, klass, name, desc) && AddMemberRef(r.cp, tag, klass, name, desc) == r)
  {
    hide SlotsOk, AddUtf8, ClassEnds, NameAndTypeEnds, AddClass, AddNameAndType;
    var c := AddClass(cp, klass);
    var nt := AddNameAndType(c.cp, name, desc);
    var r := AddMemberRef(cp, tag, klass, name, desc);
    AddClassSpec(cp, klass);
    NameAndTypeGrows(c.cp, name, desc);
    RefHolds(nt.cp, tag, Body2(c.index, nt.index));
    if |klass| > 0xFFFF {
      LongClassSpoils(cp, r.cp, klass);
    } else {
      AddNameAndTypeSpec(c.cp, name, desc);
      if PoolOk(nt.cp) {
        Rd16Body2(c.index, nt.index);
        AddRefSpec(nt.cp, tag, Body2(c.index, nt.index));
        ClassFoundAgain(c.cp, r.cp, klass);
        NameAndTypeFoundAgain(nt.cp, r.cp, name, desc);
      } else {
        LongPairSpoils(c.cp, r.cp, name, desc);
      }
    }
  }

  // A long string spoils every longer pool.
  lemma LongClassSpoils(cp: Pool, cp': Pool, name: seq<u1>)
    requires PoolOk(cp) && ClassEnds(cp, name) && |name| > 0xFFFF && AddClass(cp, name).cp <= cp'
    ensures !PoolOk(cp')
  {
    hide SlotsOk, FindUtf8, FindRef;
    var n := AddUtf8(cp, name);
    AddUtf8Spec(cp, name);
    LongSpoils(n.cp, cp', n.index, name);
  }

  lemma LongPairSpoils(cp: Pool, cp': Pool, name: seq<u1>, desc: seq<u1>)
    requires PoolOk(cp) && NameAndTypeEnds(cp, name, desc) && AddNameAndType(cp, name, desc).cp <= cp'
    requires |name| > 0xFFFF || |desc| > 0xFFFF
    ensures !PoolOk(cp')
  {
    hide SlotsOk, FindUtf8, FindRef;
    var n := AddUtf8(cp, name);
    var d := AddUtf8(n.cp, desc);
    AddUtf8Spec(cp, name);
    if |name| > 0xFFFF {
      LongSpoils(n.cp, cp', n.index, name);
    } else {
      AddUtf8Spec(n.cp, desc);
      LongSpoils(d.cp, cp', d.index, desc);
    }
  }

  lemma AddOnlyGrows(cp: Pool, tag: u1, body: seq<u1>)
    ensures cp <= AddRef(cp, tag, body).cp
  {
  }

  lemma NameAndTypeGrows(cp: Pool, name: seq<u1>, desc: seq<u1>)
    ensures cp <= AddNameAndType(cp, name, desc).cp
  {
  }

  lemma ClassFoundAgain(cp: Pool, cp': Pool, name: seq<u1>)
    requires |cp| >= 1 && cp <= cp' && AddClass(cp, name).cp == cp
    ensures AddClass(cp', name) == Interned(cp', AddClass(cp, name).index)
  {
    var n := AddUtf8(cp, name);
    AddOnlyGrows(n.cp, CLASS, Body1(n.index));
    FoundAgain(cp, cp', name);
    FoundRefAgain(cp, cp', CLASS, Body1(n.index));
  }

  lemma NameAndTypeFoundAgain(cp: Pool, cp': Pool, name: seq<u1>, desc: seq<u1>)
    requires |cp| >= 1 && cp <= cp' && AddNameAndType(cp, name, desc).cp == cp
    ensures AddNameAndType(cp', name, desc) == Interned(cp', AddNameAndType(cp, name, desc).index)
  {
    var n := AddUtf8(cp, name);
    var d := AddUtf8(n.cp, desc);
    FoundAgain(cp, cp', name);
    FoundAgain(cp, cp', desc);
    FoundRefAgain(cp, cp', NAME_AND_TYPE, Body2(n.index, d.index));
  }
}
