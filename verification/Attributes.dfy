/** Attribute tables: a u2 count, then for each attribute a u2 name index, a u4 length and
    that many bytes. */
module Attributes {
  import opened Wrappers
  import opened Bytes

  datatype Attr = Attr(name: u2, body: seq<u1>)

  predicate AttrOk(a: Attr) {
    |a.body| <= 0xFFFF_FFFF
  }

  function PrintAttr(a: Attr): seq<u1> {
    Wr16(a.name) + Wr32(U4(|a.body|)) + a.body
  }

  function PrintAttrs(attrs: seq<Attr>): seq<u1> {
    if attrs == [] then [] else PrintAttr(attrs[0]) + PrintAttrs(attrs[1..])
  }

  function PrintTable(attrs: seq<Attr>): seq<u1> {
    Wr16(U2(|attrs|)) + PrintAttrs(attrs)
  }

  predicate TableOk(attrs: seq<Attr>) {
    |attrs| <= 0xFFFF && forall a <- attrs :: AttrOk(a)
  }

  // What was read and the position after it. None: the bytes end first.
  type Reading<T> = Option<(T, nat)>

  function ReadAttr(b: seq<u1>, pos: nat): Reading<Attr> {
    if pos + 6 > |b| then None
    else
      var n := Rd32(b, pos + 2);
      if pos + 6 + n > |b| then None else Some((Attr(Rd16(b, pos), b[pos + 6..pos + 6 + n]), pos + 6 + n))
  }

  function ReadAttrs(b: seq<u1>, pos: nat, n: nat): Reading<seq<Attr>>
    decreases n
  {
    if n == 0 then
      if pos <= |b| then Some(([], pos)) else None
    else
      var (a, q) :- ReadAttr(b, pos);
      var (rest, r) :- ReadAttrs(b, q, n - 1);
      Some(([a] + rest, r))
  }

  function ReadTable(b: seq<u1>, pos: nat): Reading<seq<Attr>> {
    if pos + 2 > |b| then None else ReadAttrs(b, pos + 2, Rd16(b, pos))
  }

  // The bytes are exactly one attribute table.
  predicate IsTable(b: seq<u1>) {
    ReadTable(b, 0).Some? && ReadTable(b, 0).value.1 == |b|
  }

  // ---------------------------------------------------------------- reading undoes printing

  lemma AttrRoundTrip(b: seq<u1>, pos: nat, a: Attr)
    requires AttrOk(a)
    ensures At(b, pos, PrintAttr(a)) <==> ReadAttr(b, pos) == Some((a, pos + |PrintAttr(a)|))
  {
    var n: u4 := |a.body|;
    assert U4(n) == n;
    AtConcat(b, pos, Wr16(a.name) + Wr32(n), a.body);
    AtConcat(b, pos, Wr16(a.name), Wr32(n));
    At16(b, pos, a.name);
    At32(b, pos + 2, n);
    assert |PrintAttr(a)| == 6 + n;
  }

  lemma ReadAttrInside(b: seq<u1>, pos: nat)
    requires ReadAttr(b, pos).Some?
    ensures AttrOk(ReadAttr(b, pos).value.0)
    ensures ReadAttr(b, pos).value.1 == pos + |PrintAttr(ReadAttr(b, pos).value.0)| <= |b|
  {
  }

  lemma {:induction false} ReadAttrsInside(b: seq<u1>, pos: nat, n: nat)
    requires ReadAttrs(b, pos, n).Some?
    ensures var (attrs, q) := ReadAttrs(b, pos, n).value;
            |attrs| == n && (forall a <- attrs :: AttrOk(a)) && q == pos + |PrintAttrs(attrs)| <= |b|
    decreases n
  {
    if n > 0 {
      var (a, q) := ReadAttr(b, pos).value;
      var (rest, r) := ReadAttrs(b, q, n - 1).value;
      ReadAttrInside(b, pos);
      ReadAttrsInside(b, q, n - 1);
      assert ([a] + rest)[1..] == rest;
    }
  }

  lemma {:induction false} PrintedAttrsRead(b: seq<u1>, pos: nat, attrs: seq<Attr>)
    requires forall a <- attrs :: AttrOk(a)
    requires At(b, pos, PrintAttrs(attrs))
    ensures ReadAttrs(b, pos, |attrs|) == Some((attrs, pos + |PrintAttrs(attrs)|))
    decreases |attrs|
  {
    hide PrintAttr, ReadAttr;
    if attrs != [] {
      var a, rest := attrs[0], attrs[1..];
      AtConcat(b, pos, PrintAttr(a), PrintAttrs(rest));
      AttrRoundTrip(b, pos, a);
      PrintedAttrsRead(b, pos + |PrintAttr(a)|, rest);
      assert attrs == [a] + rest;
    }
  }

  lemma {:induction false} ReadAttrsPrinted(b: seq<u1>, pos: nat, n: nat)
    requires ReadAttrs(b, pos, n).Some?
    ensures At(b, pos, PrintAttrs(ReadAttrs(b, pos, n).value.0))
    decreases n
  {
    if n > 0 {
      var (a, q) := ReadAttr(b, pos).value;
      var (rest, r) := ReadAttrs(b, q, n - 1).value;
      ReadAttrInside(b, pos);
      AttrRoundTrip(b, pos, a);
      ReadAttrsPrinted(b, q, n - 1);
      AtConcat(b, pos, PrintAttr(a), PrintAttrs(rest));
      assert ([a] + rest)[1..] == rest;
    }
  }

  lemma TableRoundTrip(b: seq<u1>, pos: nat, attrs: seq<Attr>)
    requires TableOk(attrs)
    ensures At(b, pos, PrintTable(attrs)) <==> ReadTable(b, pos) == Some((attrs, pos + |PrintTable(attrs)|))
  {
    hide PrintAttrs, ReadAttrs, Wr16, Rd16;
    var n: u2 := |attrs|;
    var body := PrintAttrs(attrs);
    assert PrintTable(attrs) == Wr16(n) + body;
    AtConcat(b, pos, Wr16(n), body);
    At16(b, pos, n);
    if At(b, pos, PrintTable(attrs)) {
      PrintedAttrsRead(b, pos + 2, attrs);
    } else if ReadTable(b, pos) == Some((attrs, pos + |PrintTable(attrs)|)) {
      ReadAttrsInside(b, pos + 2, Rd16(b, pos));
      ReadAttrsPrinted(b, pos + 2, Rd16(b, pos));
    }
  }

  // Whatever a table reading returns is printed at that place.
  lemma ReadTableSound(b: seq<u1>, pos: nat)
    requires ReadTable(b, pos).Some?
    ensures var (attrs, q) := ReadTable(b, pos).value;
            TableOk(attrs) && q == pos + |PrintTable(attrs)| <= |b| && b[pos..q] == PrintTable(attrs)
  {
    ReadAttrsInside(b, pos + 2, Rd16(b, pos));
    TableRoundTrip(b, pos, ReadTable(b, pos).value.0);
  }

  // A table reads the same wherever its bytes stand.
  lemma TableMoves(raw: seq<u1>, b: seq<u1>, pos: nat)
    requires IsTable(raw) && At(b, pos, raw)
    ensures ReadTable(b, pos) == Some((ReadTable(raw, 0).value.0, pos + |raw|))
  {
    ReadTableSound(raw, 0);
    var attrs := ReadTable(raw, 0).value.0;
    assert raw == raw[0..|raw|] == PrintTable(attrs);
    TableRoundTrip(b, pos, attrs);
  }

  lemma TableCut(b: seq<u1>, pos: nat)
    requires ReadTable(b, pos).Some?
    ensures pos <= ReadTable(b, pos).value.1 <= |b|
    ensures IsTable(b[pos..ReadTable(b, pos).value.1])
  {
    ReadTableSound(b, pos);
    var (attrs, q) := ReadTable(b, pos).value;
    PrintedIsTable(attrs);
  }

  lemma PrintedIsTable(attrs: seq<Attr>)
    requires TableOk(attrs)
    ensures IsTable(PrintTable(attrs)) && ReadTable(PrintTable(attrs), 0).value.0 == attrs
  {
    var raw := PrintTable(attrs);
    assert raw[0..|raw|] == raw;
    TableRoundTrip(raw, 0, attrs);
  }
}
