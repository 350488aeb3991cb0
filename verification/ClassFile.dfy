/** A class file as the editor reads it (JVMS section 4.1). */
module ClassFile {
  import opened Wrappers
  import opened Bytes
  import opened ConstantPool
  import opened Attributes

  // The pool, fields and class attributes are kept as bytes, and each method with its attribute
  // table as bytes.

  const MAGIC: u4 := 0xCAFEBABE

  // A field_info or method_info; attrs is the attribute table with its count.
  datatype Member = Member(access: u2, name: u2, desc: u2, attrs: seq<u1>)

  datatype ClassFile = ClassFile(
    minor: u2,
    major: u2,
    cp: Pool,
    access: u2,
    thisClass: u2,
    superClass: u2,
    thisName: seq<u1>,
    interfaces: seq<u2>,
    fields: seq<u1>,
    methods: seq<Member>,
    classAttrs: seq<u1>)

  // Overrun stands for input on which the source reads or indexes outside its buffers.
  datatype ParseError = TooShort | BadMagic | UnknownTag(tag: u1) | Overrun

  type Parsing<T> = Result<(T, nat), ParseError>

  // ---------------------------------------------------------------- printing

  function PrintSlot(e: CpEntry): seq<u1> {
    if e.tag == 0 then [] else [e.tag] + e.body
  }

  function PrintPool(cp: Pool, i: nat): seq<u1>
    decreases |cp| - i
  {
    if i >= |cp| then [] else PrintSlot(cp[i]) + PrintPool(cp, i + 1)
  }

  function PrintU2s(xs: seq<u2>): seq<u1> {
    if xs == [] then [] else Wr16(xs[0]) + PrintU2s(xs[1..])
  }

  function PrintMember(m: Member): seq<u1> {
    (Wr16(m.access) + Wr16(m.name) + Wr16(m.desc)) + m.attrs
  }

  function PrintMembers(ms: seq<Member>): seq<u1> {
    if ms == [] then [] else PrintMember(ms[0]) + PrintMembers(ms[1..])
  }

  function PrintHead(c: ClassFile): (s: seq<u1>)
    ensures |s| == 10
  {
    (Wr32(MAGIC) + (Wr16(c.minor) + Wr16(c.major))) + Wr16(U2(|c.cp|))
  }

  function PrintFlags(c: ClassFile): (s: seq<u1>)
    ensures |s| == 8
  {
    (Wr16(c.access) + Wr16(c.thisClass)) + (Wr16(c.superClass) + Wr16(U2(|c.interfaces|)))
  }

  function PrintTail(c: ClassFile): seq<u1> {
    c.fields + (PrintMemberTable(c.methods) + c.classAttrs)
  }

  function PrintBody(c: ClassFile): seq<u1> {
    PrintFlags(c) + (PrintU2s(c.interfaces) + PrintTail(c))
  }

  function Print(c: ClassFile): seq<u1> {
    PrintHead(c) + (PrintPool(c.cp, 1) + PrintBody(c))
  }

  lemma PrintPoolNext(cp: Pool, i: nat, out: seq<u1>)
    ensures out + PrintPool(cp, i) ==
            if i >= |cp| then out
            else (if cp[i].tag == 0 then out else out + ([cp[i].tag] + cp[i].body)) + PrintPool(cp, i + 1)
  {
  }

  // ---------------------------------------------------------------- parsing

  // The body length of the entry whose tag precedes position pos.
  function BodySize(tag: u1, b: seq<u1>, pos: nat): Result<nat, ParseError> {
    if tag == UTF8 then
      if pos + 2 > |b| then Failure(Overrun) else Success(2 + Rd16(b, pos))
    else if KnownTag(tag) then Success(FixedSize(tag))
    else Failure(UnknownTag(tag))
  }

  function ReadEntry(b: seq<u1>, pos: nat): Parsing<CpEntry> {
    if pos >= |b| then Failure(Overrun)
    else
      var n :- BodySize(b[pos], b, pos + 1);
      if pos + 1 + n > |b| then Failure(Overrun)
      else Success((CpEntry(b[pos], b[pos + 1..pos + 1 + n], b[pos] == 5 || b[pos] == 6), pos + 1 + n))
  }

  function Slots(e: CpEntry): Pool {
    if e.wide then [e, BLANK] else [e]
  }

  // The pool loop; its index i is a u2 and wraps.
  function ReadPool(b: seq<u1>, pos: nat, cp: Pool, i: u2, count: u2): Parsing<Pool>
    decreases |b| - pos
  {
    if i >= count then Success((cp, pos))
    else
      var (e, q) :- ReadEntry(b, pos);
      ReadPool(b, q, cp + Slots(e), U2(i + |Slots(e)|), count)
  }

  function ReadU2s(b: seq<u1>, pos: nat, n: nat): Reading<seq<u2>>
    decreases n
  {
    if n == 0 then
      if pos <= |b| then Some(([], pos)) else None
    else if pos + 2 > |b| then None
    else
      var (rest, q) :- ReadU2s(b, pos + 2, n - 1);
      Some(([Rd16(b, pos)] + rest, q))
  }

  function ReadMember(b: seq<u1>, pos: nat): Reading<Member> {
    if pos + 6 > |b| then None
    else
      var (attrs, q) :- ReadTable(b, pos + 6);
      TableCut(b, pos + 6);
      Some((Member(Rd16(b, pos), Rd16(b, pos + 2), Rd16(b, pos + 4), b[pos + 6..q]), q))
  }

  function ReadMembers(b: seq<u1>, pos: nat, n: nat): Reading<seq<Member>>
    decreases n
  {
    if n == 0 then
      if pos <= |b| then Some(([], pos)) else None
    else
      var (m, q) :- ReadMember(b, pos);
      var (rest, r) :- ReadMembers(b, q, n - 1);
      Some(([m] + rest, r))
  }

  function ReadMemberTable(b: seq<u1>, pos: nat): Reading<seq<Member>> {
    if pos + 2 > |b| then None else ReadMembers(b, pos + 2, Rd16(b, pos))
  }

  // The string at a pool index, or the empty string when there is none.
  function Utf8Value(cp: Pool, i: nat): seq<u1> {
    if i == 0 || i >= |cp| || cp[i].tag != UTF8 || |cp[i].body| < 2 then []
    else
      var n := Rd16(cp[i].body, 0);
      if 2 + n <= |cp[i].body| then cp[i].body[2..2 + n] else []
  }

  function ThisName(cp: Pool, thisClass: nat): seq<u1> {
    if 0 < thisClass < |cp| && cp[thisClass].tag == CLASS && |cp[thisClass].body| >= 2
    then Utf8Value(cp, Rd16(cp[thisClass].body, 0))
    else []
  }

  // A string that is not empty is the value at an index exactly when a Utf8 entry there holds it.
  lemma ValueIsHeld(cp: Pool, i: nat, s: seq<u1>)
    requires s != []
    ensures Utf8Value(cp, i) == s <==> 0 < i < |cp| && HoldsUtf8(cp[i], s)
  {
    hide Rd16;
  }

  // The class's own name is the name of its class entry.
  lemma OwnNameIs(cp: Pool, thisClass: nat, name: seq<u1>)
    requires name != [] && 0 < thisClass < |cp| && cp[thisClass].tag == CLASS && |cp[thisClass].body| == 2
    ensures ThisName(cp, thisClass) == name <==>
            var i := Rd16(cp[thisClass].body, 0); 0 < i < |cp| && HoldsUtf8(cp[i], name)
  {
    hide Utf8Value, Rd16;
    ValueIsHeld(cp, Rd16(cp[thisClass].body, 0), name);
  }

  // The fields of a member in the order of JVMS 4.5 and 4.6, each high byte first.
  lemma MemberLayout(m: Member)
    ensures var b := PrintMember(m);
            && |b| >= 6 && b[6..] == m.attrs
            && b[0] as int * 256 + b[1] as int == m.access
            && b[2] as int * 256 + b[3] as int == m.name
            && b[4] as int * 256 + b[5] as int == m.desc
  {
  }

  // The head of the file, and its flags and class references, in the order of JVMS 4.1.
  lemma HeadLayout(c: ClassFile)
    requires |c.cp| <= 0xFFFF && |c.interfaces| <= 0xFFFF
    ensures var b, f := PrintHead(c), PrintFlags(c);
            && b[..4] == [0xCA, 0xFE, 0xBA, 0xBE]
            && b[4] as int * 256 + b[5] as int == c.minor
            && b[6] as int * 256 + b[7] as int == c.major
            && b[8] as int * 256 + b[9] as int == |c.cp|
            && f[0] as int * 256 + f[1] as int == c.access
            && f[2] as int * 256 + f[3] as int == c.thisClass
            && f[4] as int * 256 + f[5] as int == c.superClass
            && f[6] as int * 256 + f[7] as int == |c.interfaces|
  {
  }

  function OrOverrun<T>(r: Option<T>): Result<T, ParseError> {
    if r.None? then Failure(Overrun) else Success(r.value)
  }

  // Fields as bytes, methods, and the class attributes up to the end.
  function ReadTail(b: seq<u1>, p1: nat): Option<(seq<u1>, seq<Member>, seq<u1>)> {
    var (fields, p2) :- ReadMemberTable(b, p1);
    var (methods, p3) :- ReadMemberTable(b, p2);
    ReadMemberTableSound(b, p1);
    ReadMemberTableSound(b, p2);
    Some((b[p1..p2], methods, b[p3..]))
  }

  // Everything after the pool.
  function ReadBody(b: seq<u1>, p: nat, cp: Pool): Result<ClassFile, ParseError>
    requires |b| >= 10
  {
    if p + 8 > |b| || Rd16(b, p + 2) >= |cp| then Failure(Overrun)
    else
      var (interfaces, p1) :- OrOverrun(ReadU2s(b, p + 8, Rd16(b, p + 6)));
      var (fields, methods, classAttrs) :- OrOverrun(ReadTail(b, p1));
      Success(ClassFile(Rd16(b, 4), Rd16(b, 6), cp, Rd16(b, p), Rd16(b, p + 2), Rd16(b, p + 4),
                        ThisName(cp, Rd16(b, p + 2)), interfaces, fields, methods, classAttrs))
  }

  function Parse(b: seq<u1>): Result<ClassFile, ParseError> {
    if |b| < 10 then Failure(TooShort)
    else if Rd32(b, 0) != MAGIC then Failure(BadMagic)
    else
      var (cp, p) :- ReadPool(b, 10, [BLANK], 1, Rd16(b, 8));
      ReadBody(b, p, cp)
  }

  // ---------------------------------------------------------------- members

  predicate MembersOk(ms: seq<Member>) {
    |ms| <= 0xFFFF && forall m <- ms :: IsTable(m.attrs)
  }

  function PrintMemberTable(ms: seq<Member>): seq<u1> {
    Wr16(U2(|ms|)) + PrintMembers(ms)
  }

  lemma PrintedMemberReads(b: seq<u1>, pos: nat, m: Member)
    requires IsTable(m.attrs) && At(b, pos, PrintMember(m))
    ensures ReadMember(b, pos) == Some((m, pos + |PrintMember(m)|))
  {
    hide Wr16, Rd16, ReadTable, IsTable;
    AtConcat(b, pos, Wr16(m.access) + Wr16(m.name) + Wr16(m.desc), m.attrs);
    AtConcat(b, pos, Wr16(m.access) + Wr16(m.name), Wr16(m.desc));
    AtConcat(b, pos, Wr16(m.access), Wr16(m.name));
    At16(b, pos, m.access);
    At16(b, pos + 2, m.name);
    At16(b, pos + 4, m.desc);
    TableMoves(m.attrs, b, pos + 6);
  }

  lemma ReadMemberPrinted(b: seq<u1>, pos: nat)
    requires ReadMember(b, pos).Some?
    ensures var (m, q) := ReadMember(b, pos).value;
            IsTable(m.attrs) && At(b, pos, PrintMember(m)) && q == pos + |PrintMember(m)|
  {
    var (m, q) := ReadMember(b, pos).value;
    TableCut(b, pos + 6);
    hide Wr16, Rd16, ReadTable, IsTable;
    AtConcat(b, pos, Wr16(m.access) + Wr16(m.name) + Wr16(m.desc), m.attrs);
    AtConcat(b, pos, Wr16(m.access) + Wr16(m.name), Wr16(m.desc));
    AtConcat(b, pos, Wr16(m.access), Wr16(m.name));
    At16(b, pos, m.access);
    At16(b, pos + 2, m.name);
    At16(b, pos + 4, m.desc);
  }

  lemma {:induction false} PrintedMembersRead(b: seq<u1>, pos: nat, ms: seq<Member>)
    requires forall m <- ms :: IsTable(m.attrs)
    requires At(b, pos, PrintMembers(ms))
    ensures ReadMembers(b, pos, |ms|) == Some((ms, pos + |PrintMembers(ms)|))
    decreases |ms|
  {
    hide PrintMember, ReadMember, IsTable;
    if ms != [] {
      var m, rest := ms[0], ms[1..];
      AtConcat(b, pos, PrintMember(m), PrintMembers(rest));
      PrintedMemberReads(b, pos, m);
      PrintedMembersRead(b, pos + |PrintMember(m)|, rest);
      assert ms == [m] + rest;
    }
  }

  lemma {:induction false} ReadMembersPrinted(b: seq<u1>, pos: nat, n: nat)
    requires ReadMembers(b, pos, n).Some?
    ensures var (ms, q) := ReadMembers(b, pos, n).value;
            && |ms| == n && (forall m <- ms :: IsTable(m.attrs))
            && At(b, pos, PrintMembers(ms)) && q == pos + |PrintMembers(ms)| <= |b|
    decreases n
  {
    hide PrintMember, ReadMember, IsTable;
    if n > 0 {
      var (m, q) := ReadMember(b, pos).value;
      var (rest, r) := ReadMembers(b, q, n - 1).value;
      ReadMemberPrinted(b, pos);
      ReadMembersPrinted(b, q, n - 1);
      AtConcat(b, pos, PrintMember(m), PrintMembers(rest));
      assert ([m] + rest)[1..] == rest;
    }
  }

  lemma ReadMemberTableSound(b: seq<u1>, pos: nat)
    requires ReadMemberTable(b, pos).Some?
    ensures var (ms, q) := ReadMemberTable(b, pos).value;
            && MembersOk(ms) && q == pos + |PrintMemberTable(ms)| <= |b|
            && At(b, pos, PrintMemberTable(ms))
  {
    hide PrintMembers, ReadMembers, IsTable, Wr16;
    ReadMembersPrinted(b, pos + 2, Rd16(b, pos));
    var (ms, q) := ReadMemberTable(b, pos).value;
    At16(b, pos, |ms|);
    AtConcat(b, pos, Wr16(|ms|), PrintMembers(ms));
  }

  lemma ReadMemberTableComplete(b: seq<u1>, pos: nat, ms: seq<Member>)
    requires MembersOk(ms) && At(b, pos, PrintMemberTable(ms))
    ensures ReadMemberTable(b, pos) == Some((ms, pos + |PrintMemberTable(ms)|))
  {
    hide PrintMembers, ReadMembers, IsTable, Wr16;
    At16(b, pos, |ms|);
    AtConcat(b, pos, Wr16(|ms|), PrintMembers(ms));
    PrintedMembersRead(b, pos + 2, ms);
  }

  // ---------------------------------------------------------------- interfaces

  lemma {:induction false} ReadU2sPrinted(b: seq<u1>, pos: nat, n: nat)
    requires ReadU2s(b, pos, n).Some?
    ensures var (xs, q) := ReadU2s(b, pos, n).value;
            |xs| == n && At(b, pos, PrintU2s(xs)) && q == pos + |PrintU2s(xs)| <= |b|
    decreases n
  {
    hide Wr16, Rd16;
    if n > 0 {
      var (rest, q) := ReadU2s(b, pos + 2, n - 1).value;
      ReadU2sPrinted(b, pos + 2, n - 1);
      At16(b, pos, Rd16(b, pos));
      AtConcat(b, pos, Wr16(Rd16(b, pos)), PrintU2s(rest));
      assert ([Rd16(b, pos)] + rest)[1..] == rest;
    }
  }

  lemma {:induction false} PrintedU2sRead(b: seq<u1>, pos: nat, xs: seq<u2>)
    requires At(b, pos, PrintU2s(xs))
    ensures ReadU2s(b, pos, |xs|) == Some((xs, pos + |PrintU2s(xs)|))
    decreases |xs|
  {
    hide Wr16, Rd16;
    if xs != [] {
      AtConcat(b, pos, Wr16(xs[0]), PrintU2s(xs[1..]));
      At16(b, pos, xs[0]);
      PrintedU2sRead(b, pos + 2, xs[1..]);
      assert xs == [xs[0]] + xs[1..];
    }
  }

  // ---------------------------------------------------------------- the pool

  lemma ReadEntryPrinted(b: seq<u1>, pos: nat)
    requires ReadEntry(b, pos).Success?
    ensures var (e, q) := ReadEntry(b, pos).value;
            EntryOk(e) && At(b, pos, PrintSlot(e)) && pos < q == pos + |PrintSlot(e)|
  {
    var (e, q) := ReadEntry(b, pos).value;
    assert b[pos..q] == [b[pos]] + b[pos + 1..q];
    if e.tag == UTF8 {
      assert Rd16(e.body, 0) == Rd16(b, pos + 1);
    }
  }

  lemma PrintedEntryReads(b: seq<u1>, pos: nat, e: CpEntry)
    requires EntryOk(e) && At(b, pos, PrintSlot(e))
    ensures ReadEntry(b, pos) == Success((e, pos + |PrintSlot(e)|))
  {
    var s := PrintSlot(e);
    var t := b[pos..pos + |s|];
    assert s == t;
    assert b[pos] == t[0] == e.tag;
    assert b[pos + 1..pos + |s|] == t[1..] == e.body;
    if e.tag == UTF8 {
      assert b[pos + 1] == t[1] == e.body[0] && b[pos + 2] == t[2] == e.body[1];
      assert Rd16(b, pos + 1) == Rd16(e.body, 0);
    }
  }

  // The slots from i on start with those of the entry.
  predicate SlotsAt(cp: Pool, i: nat, e: CpEntry) {
    i + |Slots(e)| <= |cp| && cp[i] == e && (e.wide ==> cp[i + 1] == BLANK)
  }

  // The slots an entry takes print as the entry alone.
  lemma PrintPoolStep(cp: Pool, i: nat, e: CpEntry)
    requires SlotsAt(cp, i, e)
    ensures PrintPool(cp, i) == PrintSlot(e) + PrintPool(cp, i + |Slots(e)|)
    ensures EntryOk(e) ==> (SlotsOk(cp, i) <==> SlotsOk(cp, i + |Slots(e)|))
  {
    hide EntryOk;
    assert PrintSlot(BLANK) == [];
    hide PrintSlot;
    if e.wide {
      assert PrintPool(cp, i + 1) == PrintSlot(BLANK) + PrintPool(cp, i + 2);
      assert PrintPool(cp, i + 1) == PrintPool(cp, i + 2);
    }
    assert PrintPool(cp, i) == PrintSlot(cp[i]) + PrintPool(cp, i + 1);
  }

  // Whatever the pool loop returns keeps what it started with, is well formed from there on,
  // and prints as the bytes it consumed.
  lemma {:induction false} ReadPoolPrinted(b: seq<u1>, pos: nat, cp: Pool, i: u2, count: u2)
    requires ReadPool(b, pos, cp, i, count).Success? && pos <= |b|
    ensures var (cp', q) := ReadPool(b, pos, cp, i, count).value;
            cp <= cp' && PoolAt(b, pos, cp', |cp|, q)
    decreases |b| - pos
  {
    hide ReadEntry, U2, PoolAt, Slots;
    if i >= count {
      NoSlotsAt(b, pos, cp);
    } else {
      var (e, q) := ReadEntry(b, pos).value;
      ReadEntryPrinted(b, pos);
      ReadPoolPrinted(b, q, cp + Slots(e), U2(i + |Slots(e)|), count);
      var (cp', r) := ReadPool(b, pos, cp, i, count).value;
      PoolAtStep(b, pos, cp, e, cp', q, r);
    }
  }

  // The slots from i on are well formed and printed in b from pos to q.
  predicate PoolAt(b: seq<u1>, pos: nat, cp: Pool, i: nat, q: nat) {
    SlotsOk(cp, i) && At(b, pos, PrintPool(cp, i)) && q == pos + |PrintPool(cp, i)| <= |b|
  }

  lemma NoSlotsAt(b: seq<u1>, pos: nat, cp: Pool)
    requires pos <= |b|
    ensures PoolAt(b, pos, cp, |cp|, pos)
  {
  }

  lemma {:induction false} PoolAtStep(b: seq<u1>, pos: nat, cp: Pool, e: CpEntry, cp': Pool, q: nat, r: nat)
    requires EntryOk(e) && At(b, pos, PrintSlot(e)) && q == pos + |PrintSlot(e)|
    requires cp + Slots(e) <= cp' && PoolAt(b, q, cp', |cp + Slots(e)|, r)
    ensures PoolAt(b, pos, cp', |cp|, r)
  {
    hide PrintSlot, EntryOk, At;
    var acc := cp + Slots(e);
    assert forall k :: |cp| <= k < |acc| ==> cp'[k] == acc[k];
    PrintPoolStep(cp', |cp|, e);
    AtConcat(b, pos, PrintSlot(e), PrintPool(cp', |acc|));
  }

  // A well-formed pool of at most 0xFFFF slots is read back from its printed form.
  lemma {:induction false} PrintedPoolReads(b: seq<u1>, pos: nat, cp: Pool, i: nat)
    requires 1 <= i <= |cp| <= 0xFFFF && SlotsOk(cp, i)
    requires At(b, pos, PrintPool(cp, i))
    ensures ReadPool(b, pos, cp[..i], i, |cp|) == Success((cp, pos + |PrintPool(cp, i)|))
    decreases |cp| - i
  {
    hide PrintSlot, ReadEntry, U2, At, EntryOk;
    if i == |cp| {
      assert cp[..i] == cp;
    } else {
      var e := cp[i];
      var j := i + |Slots(e)|;
      PrintPoolStep(cp, i, e);
      AtConcat(b, pos, PrintSlot(e), PrintPool(cp, j));
      PrintedEntryReads(b, pos, e);
      PrintedPoolReads(b, pos + |PrintSlot(e)|, cp, j);
      assert cp[..i] + Slots(e) == cp[..j];
    }
  }

  // The loop leaves exactly count slots unless the count is 0 or the entry starting in the
  // last slot takes two.
  lemma {:induction false} PoolFillsCount(b: seq<u1>, pos: nat, cp: Pool, i: u2, count: u2)
    requires ReadPool(b, pos, cp, i, count).Success? && pos <= |b|
    requires 1 <= i == |cp| && i <= count && !cp[i - 1].wide
    ensures var cp' := ReadPool(b, pos, cp, i, count).value.0;
            |cp'| >= count && (|cp'| == count <==> !cp'[count - 1].wide)
    decreases |b| - pos
  {
    if i < count {
      var (e, q) := ReadEntry(b, pos).value;
      ReadEntryPrinted(b, pos);
      var acc := cp + Slots(e);
      ReadPoolPrinted(b, q, acc, U2(i + |Slots(e)|), count);
      if |acc| <= count {
        PoolFillsCount(b, q, acc, |acc|, count);
      } else {
        assert acc[count - 1] == e;
      }
    }
  }

  // ---------------------------------------------------------------- whole files

  predicate IsMemberTable(b: seq<u1>) {
    ReadMemberTable(b, 0).Some? && ReadMemberTable(b, 0).value.1 == |b|
  }

  // A class file that the parser can return from a file whose pool fills its count.
  predicate WellFormed(c: ClassFile) {
    && PoolOk(c.cp) && |c.cp| <= 0xFFFF
    && c.thisClass < |c.cp| && c.thisName == ThisName(c.cp, c.thisClass)
    && |c.interfaces| <= 0xFFFF
    && IsMemberTable(c.fields)
    && MembersOk(c.methods)
  }

  lemma HeadAt(b: seq<u1>, c: ClassFile)
    ensures At(b, 0, PrintHead(c)) <==>
            |b| >= 10 && Rd32(b, 0) == MAGIC && Rd16(b, 4) == c.minor && Rd16(b, 6) == c.major
                && Rd16(b, 8) == U2(|c.cp|)
  {
    hide Wr16, Wr32, Rd16, Rd32;
    AtConcat(b, 0, Wr32(MAGIC) + (Wr16(c.minor) + Wr16(c.major)), Wr16(U2(|c.cp|)));
    AtConcat(b, 0, Wr32(MAGIC), Wr16(c.minor) + Wr16(c.major));
    AtConcat(b, 4, Wr16(c.minor), Wr16(c.major));
    At32(b, 0, MAGIC);
    At16(b, 4, c.minor);
    At16(b, 6, c.major);
    At16(b, 8, U2(|c.cp|));
  }

  lemma FlagsAt(b: seq<u1>, p: nat, c: ClassFile)
    ensures At(b, p, PrintFlags(c)) <==>
            && p + 8 <= |b| && Rd16(b, p) == c.access && Rd16(b, p + 2) == c.thisClass
            && Rd16(b, p + 4) == c.superClass && Rd16(b, p + 6) == U2(|c.interfaces|)
  {
    hide Wr16, Rd16;
    AtConcat(b, p, Wr16(c.access) + Wr16(c.thisClass), Wr16(c.superClass) + Wr16(U2(|c.interfaces|)));
    AtConcat(b, p, Wr16(c.access), Wr16(c.thisClass));
    AtConcat(b, p + 4, Wr16(c.superClass), Wr16(U2(|c.interfaces|)));
    At16(b, p, c.access);
    At16(b, p + 2, c.thisClass);
    At16(b, p + 4, c.superClass);
    At16(b, p + 6, U2(|c.interfaces|));
  }

  lemma ReadTailPrinted(b: seq<u1>, p1: nat)
    requires ReadTail(b, p1).Some?
    ensures var (fields, methods, classAttrs) := ReadTail(b, p1).value;
            && IsMemberTable(fields) && MembersOk(methods)
            && Ends(b, p1, fields + (PrintMemberTable(methods) + classAttrs))
  {
    hide ReadMemberTable, PrintMemberTable, MembersOk;
    ReadMemberTableSound(b, p1);
    var (ms, p2) := ReadMemberTable(b, p1).value;
    ReadMemberTableSound(b, p2);
    var (methods, p3) := ReadMemberTable(b, p2).value;
    var fields := b[p1..p2];
    assert At(fields, 0, PrintMemberTable(ms)) by {
      assert fields[0..|fields|] == fields;
    }
    ReadMemberTableComplete(fields, 0, ms);
    EndsConcat(b, p2, PrintMemberTable(methods), b[p3..]);
    EndsConcat(b, p1, fields, PrintMemberTable(methods) + b[p3..]);
  }

  lemma PrintedTailReads(b: seq<u1>, p1: nat, fields: seq<u1>, methods: seq<Member>, classAttrs: seq<u1>)
    requires IsMemberTable(fields) && MembersOk(methods)
    requires Ends(b, p1, fields + (PrintMemberTable(methods) + classAttrs))
    ensures ReadTail(b, p1) == Some((fields, methods, classAttrs))
  {
    hide ReadMemberTable, PrintMemberTable, MembersOk;
    var p2 := p1 + |fields|;
    EndsConcat(b, p1, fields, PrintMemberTable(methods) + classAttrs);
    EndsConcat(b, p2, PrintMemberTable(methods), classAttrs);
    ReadMemberTableSound(fields, 0);
    var ms := ReadMemberTable(fields, 0).value.0;
    assert fields == fields[0..|fields|] == PrintMemberTable(ms);
    ReadMemberTableComplete(b, p1, ms);
    ReadMemberTableComplete(b, p2, methods);
  }

  lemma {:induction false} ReadBodyPrinted(b: seq<u1>, p: nat, cp: Pool)
    requires |b| >= 10 && ReadBody(b, p, cp).Success?
    ensures var c := ReadBody(b, p, cp).value;
            && c.thisClass < |c.cp| && c.thisName == ThisName(c.cp, c.thisClass)
            && |c.interfaces| <= 0xFFFF && IsMemberTable(c.fields) && MembersOk(c.methods)
            && Ends(b, p, PrintBody(c))
  {
    hide ReadTail, PrintMemberTable, MembersOk, IsMemberTable, ReadU2s, PrintU2s, ThisName, PrintFlags;
    var c := ReadBody(b, p, cp).value;
    ReadU2sPrinted(b, p + 8, Rd16(b, p + 6));
    var p1 := ReadU2s(b, p + 8, Rd16(b, p + 6)).value.1;
    ReadTailPrinted(b, p1);
    FlagsAt(b, p, c);
    EndsConcat(b, p + 8, PrintU2s(c.interfaces), PrintTail(c));
    EndsConcat(b, p, PrintFlags(c), PrintU2s(c.interfaces) + PrintTail(c));
  }

  lemma PrintedBodyReads(b: seq<u1>, p: nat, c: ClassFile)
    requires WellFormed(c) && Ends(b, p, PrintBody(c))
    requires |b| >= 10 && c.minor == Rd16(b, 4) && c.major == Rd16(b, 6)
    ensures ReadBody(b, p, c.cp) == Success(c)
  {
    hide ReadTail, PrintMemberTable, MembersOk, IsMemberTable, ReadU2s, PrintU2s, ThisName, PrintFlags;
    EndsConcat(b, p, PrintFlags(c), PrintU2s(c.interfaces) + PrintTail(c));
    FlagsAt(b, p, c);
    EndsConcat(b, p + 8, PrintU2s(c.interfaces), PrintTail(c));
    PrintedU2sRead(b, p + 8, c.interfaces);
    PrintedTailReads(b, p + 8 + |PrintU2s(c.interfaces)|, c.fields, c.methods, c.classAttrs);
  }

  // The pool is well formed and everything after the header is printed back exactly,
  // whatever the pool count says.
  lemma {:induction false} ParsePrinted(b: seq<u1>)
    requires Parse(b).Success?
    ensures var c := Parse(b).value;
            && PoolOk(c.cp) && (|c.cp| <= 0xFFFF ==> WellFormed(c))
            && Ends(b, 10, PrintPool(c.cp, 1) + PrintBody(c))
            && (At(b, 0, PrintHead(c)) <==> Rd16(b, 8) == U2(|c.cp|))
  {
    hide PrintPool, ReadPool, PrintBody, ReadBody, PrintHead, Rd16, Rd32, U2;
    var c := Parse(b).value;
    var (cp, p) := ReadPool(b, 10, [BLANK], 1, Rd16(b, 8)).value;
    BodyKeepsHeader(b, p, cp);
    HeadAt(b, c);
    ReadPoolPrinted(b, 10, [BLANK], 1, Rd16(b, 8));
    assert cp[0] == [BLANK][0];
    ReadBodyPrinted(b, p, cp);
    EndsConcat(b, 10, PrintPool(c.cp, 1), PrintBody(c));
  }

  lemma BodyKeepsHeader(b: seq<u1>, p: nat, cp: Pool)
    requires |b| >= 10 && ReadBody(b, p, cp).Success?
    ensures var c := ReadBody(b, p, cp).value;
            c.cp == cp && c.minor == Rd16(b, 4) && c.major == Rd16(b, 6)
  {
  }

  // The pool loop of a file with this count leaves exactly count slots.
  predicate FillsCount(cp: Pool, count: u2) {
    count >= 1 && (count <= |cp| ==> !cp[count - 1].wide)
  }

  // The printer undoes the parser exactly on the files whose pool count is at least 1 and
  // whose last slot does not start a two-slot entry. On any other file the editor keeps
  // more slots than the count says: it prints a different count, or, past 0xFFFF slots,
  // its u2 loop index never reaches the end.
  lemma {:induction false} PrintUndoesParse(b: seq<u1>)
    requires Parse(b).Success?
    ensures var c := Parse(b).value;
            |c.cp| <= 0xFFFF && Print(c) == b <==> FillsCount(c.cp, Rd16(b, 8))
  {
    hide PrintPool, ReadPool, PrintBody, ReadBody, PrintHead, Rd16, Rd32;
    var c := Parse(b).value;
    var count := Rd16(b, 8);
    ParsePrinted(b);
    EndsConcat(b, 0, PrintHead(c), PrintPool(c.cp, 1) + PrintBody(c));
    assert Ends(b, 0, Print(c)) <==> Print(c) == b;
    assert Print(c) == b <==> count == U2(|c.cp|);
    var (cp, p) := ReadPool(b, 10, [BLANK], 1, count).value;
    BodyKeepsHeader(b, p, cp);
    if count >= 1 {
      PoolFillsCount(b, 10, [BLANK], 1, count);
    }
  }

  // A file whose pool count is 0: magic, version, count, flags and two empty tables.
  const COUNT_ZERO: seq<u1> := [0xCA, 0xFE, 0xBA, 0xBE, 0, 0, 0, 61, 0, 0, 0, 0, 0, 0, 0, 0, 0, 0, 0, 0, 0, 0]

  // Such a file is parsed and printed back with the count 1.
  lemma {:induction false} CountZeroChanges()
    ensures Parse(COUNT_ZERO).Success? && Print(Parse(COUNT_ZERO).value) != COUNT_ZERO
  {
    var b := COUNT_ZERO;
    assert ReadPool(b, 10, [BLANK], 1, 0) == Success(([BLANK], 10));
    assert Rd32(b, 0) == MAGIC && Rd16(b, 8) == 0 && Rd16(b, 12) == 0 && Rd16(b, 16) == 0;
    assert ReadU2s(b, 18, 0) == Some(([], 18));
    assert Rd16(b, 18) == 0 && Rd16(b, 20) == 0;
    assert ReadMembers(b, 20, 0) == ReadMemberTable(b, 18) == Some(([], 20));
    assert ReadMembers(b, 22, 0) == ReadMemberTable(b, 20) == Some(([], 22));
    PrintUndoesParse(b);
  }

  // A file whose last slot starts a two-slot entry: the count is 2, and slot 1 is a long.
  const WIDE_LAST: seq<u1> :=
    [0xCA, 0xFE, 0xBA, 0xBE, 0, 0, 0, 61, 0, 2, 5, 0, 0, 0, 0, 0, 0, 0, 1, 0, 0, 0, 0, 0, 0, 0, 0, 0, 0, 0, 0]

  // Such a file is parsed and printed back with the count 3.
  lemma {:induction false} WideLastChanges()
    ensures Parse(WIDE_LAST).Success? && Print(Parse(WIDE_LAST).value) != WIDE_LAST
  {
    var b := WIDE_LAST;
    var e := CpEntry(5, b[11..19], true);
    assert ReadEntry(b, 10) == Success((e, 19));
    assert U2(3) == 3;
    var pool := [BLANK] + Slots(e);
    assert ReadPool(b, 19, pool, 3, 2) == Success((pool, 19));
    assert ReadPool(b, 10, [BLANK], 1, 2) == Success((pool, 19));
    assert Rd32(b, 0) == MAGIC && Rd16(b, 8) == 2 && Rd16(b, 21) == 0 && Rd16(b, 25) == 0;
    assert ReadU2s(b, 27, 0) == Some(([], 27));
    assert Rd16(b, 27) == 0 && Rd16(b, 29) == 0;
    assert ReadMembers(b, 29, 0) == ReadMemberTable(b, 27) == Some(([], 29));
    assert ReadMembers(b, 31, 0) == ReadMemberTable(b, 29) == Some(([], 31));
    PrintUndoesParse(b);
  }

  // The parser undoes the printer on every well-formed class file.
  lemma {:induction false} ParseUndoesPrint(c: ClassFile)
    requires WellFormed(c)
    ensures Parse(Print(c)) == Success(c)
  {
    hide PrintPool, ReadPool, PrintBody, ReadBody, PrintHead, Rd16, Rd32;
    var b := Print(c);
    EndsConcat(b, 0, PrintHead(c), PrintPool(c.cp, 1) + PrintBody(c));
    HeadAt(b, c);
    EndsConcat(b, 10, PrintPool(c.cp, 1), PrintBody(c));
    assert c.cp[..1] == [BLANK];
    PrintedPoolReads(b, 10, c.cp, 1);
    PrintedBodyReads(b, 10 + |PrintPool(c.cp, 1)|, c);
  }
}
