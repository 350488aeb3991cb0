/** Line number and local variable tables and their relocation. */
module DebugTables {
  import opened Bytes

  // JVMS sections 4.7.12 to 4.7.14; bytes are inserted at the start of the method.

  datatype Table = LineTable | LocalTable

  datatype Line = Line(startPc: u2, line: u2)

  // rest: name index, descriptor or signature index, and slot, as six bytes.
  datatype Local = Local(startPc: u2, length: u2, rest: seq<u1>)

  function Size(t: Table, n: nat): nat {
    match t
    case LineTable => 4 * n
    case LocalTable => 10 * n
  }

  predicate HoldsEntries(t: Table, body: seq<u1>) {
    |body| >= 2 && 2 + Size(t, Rd16(body, 0)) <= |body|
  }

  // ---------------------------------------------------------------- the entries of a table

  type Entry = seq<u1>

  predicate Sized(t: Table, entries: seq<Entry>) {
    forall i :: 0 <= i < |entries| ==> |entries[i]| == Size(t, 1)
  }

  function Entries(t: Table, s: seq<u1>, n: nat): (entries: seq<Entry>)
    requires Size(t, n) <= |s|
    ensures |entries| == n && Sized(t, entries)
  {
    if n == 0 then [] else [s[..Size(t, 1)]] + Entries(t, s[Size(t, 1)..], n - 1)
  }

  // The entries a table holds; none when it is too short for its count.
  function TableEntries(t: Table, body: seq<u1>): (entries: seq<Entry>)
    ensures Sized(t, entries)
  {
    if HoldsEntries(t, body) then Entries(t, body[2..], Rd16(body, 0)) else []
  }

  function LineOf(e: Entry): Line
    requires |e| == 4
  {
    Line(Rd16(e, 0), Rd16(e, 2))
  }

  function LocalOf(e: Entry): Local
    requires |e| == 10
  {
    Local(Rd16(e, 0), Rd16(e, 2), e[4..])
  }

  // A variable holds a value at pc (JVMS 4.7.13).
  predicate Live(v: Local, pc: int) {
    v.startPc <= pc < v.startPc + v.length
  }

  // ---------------------------------------------------------------- what the editor writes

  // The same bytes with two of them, from off on, replaced.
  function Patch(b: seq<u1>, off: nat, two: seq<u1>): (r: seq<u1>)
    requires off + 2 <= |b| && |two| == 2
    ensures |r| == |b| && r == b[..off] + two + b[off + 2..]
  {
    b[off := two[0]][off + 1 := two[1]]
  }

  // Line starts move. A variable range that starts at 0 is extended over the insertion; any
  // other range moves. Every sum is reduced to 16 bits.
  function ShiftEntry(t: Table, e: Entry, delta: u4): (r: Entry)
    requires |e| == Size(t, 1)
    ensures |r| == |e|
  {
    if t.LocalTable? && Rd16(e, 0) == 0 then Patch(e, 2, Wr16(U2(Rd16(e, 2) + delta)))
    else Patch(e, 0, Wr16(U2(Rd16(e, 0) + delta)))
  }

  function ShiftEntries(t: Table, s: seq<u1>, n: nat, delta: u4): (r: seq<u1>)
    requires Size(t, n) <= |s|
    ensures |r| == |s| && (n == 0 ==> r == s)
  {
    if n == 0 then s
    else ShiftEntry(t, s[..Size(t, 1)], delta) + ShiftEntries(t, s[Size(t, 1)..], n - 1, delta)
  }

  // A table too short for its count is left as it is.
  function ShiftTable(t: Table, body: seq<u1>, delta: u4): (out: seq<u1>)
    ensures |out| == |body| && (!HoldsEntries(t, body) ==> out == body)
  {
    if HoldsEntries(t, body) then body[..2] + ShiftEntries(t, body[2..], Rd16(body, 0), delta) else body
  }

  // ---------------------------------------------------------------- the editor's loops

  // State of either loop: the bytes before off are final, n entries from off on are untouched.
  predicate Progress(t: Table, body: seq<u1>, delta: u4, out: seq<u1>, off: nat, n: nat) {
    && off + Size(t, n) <= |body| == |out|
    && out[off..] == body[off..]
    && ShiftTable(t, body, delta) == out[..off] + ShiftEntries(t, body[off..], n, delta)
  }

  lemma ProgressStart(t: Table, body: seq<u1>, delta: u4)
    requires HoldsEntries(t, body)
    ensures Progress(t, body, delta, body, 2, Rd16(body, 0))
    ensures forall out, off: nat, n: nat :: Progress(t, body, delta, out, off, n) ==> off + Size(t, n) <= |out|
  {
  }

  lemma ProgressEnd(t: Table, body: seq<u1>, delta: u4, out: seq<u1>, off: nat)
    requires Progress(t, body, delta, out, off, 0)
    ensures out == ShiftTable(t, body, delta)
  {
    assert out == out[..off] + out[off..];
  }

  lemma {:induction false} ProgressStep(t: Table, body: seq<u1>, delta: u4, out: seq<u1>, off: nat, n: nat,
      out': seq<u1>)
    requires 0 < n && Progress(t, body, delta, out, off, n)
    requires var size := Size(t, 1);
             out' == out[..off] + ShiftEntry(t, out[off..off + size], delta) + out[off + size..]
    ensures Progress(t, body, delta, out', off + Size(t, 1), n - 1)
  {
    hide ShiftTable;
    PatchStep(t, out, body, off, n, delta, out');
  }

  // Patching the entry at off turns the bytes before off + size into their final form.
  lemma {:induction false} PatchStep(t: Table, out: seq<u1>, body: seq<u1>, off: nat, n: nat, delta: u4, out': seq<u1>)
    requires 0 < n && off + Size(t, n) <= |body| == |out| && out[off..] == body[off..]
    requires var size := Size(t, 1);
             out' == out[..off] + ShiftEntry(t, out[off..off + size], delta) + out[off + size..]
    ensures var next := off + Size(t, 1);
            && |out'| == |body| && out'[next..] == body[next..]
            && out'[..next] + ShiftEntries(t, body[next..], n - 1, delta)
               == out[..off] + ShiftEntries(t, body[off..], n, delta)
  {
    hide ShiftEntry;
    var size := Size(t, 1);
    var s := body[off..];
    assert out[off..off + size] == s[..size] by {
      assert out[off..off + size] == out[off..][..size];
    }
    assert s[size..] == body[off + size..];
    assert out[off + size..] == out[off..][size..];
    assert out'[..off + size] == out[..off] + ShiftEntry(t, s[..size], delta);
  }

  lemma PatchInEntry(t: Table, out: seq<u1>, off: nat, k: nat, two: seq<u1>)
    requires off + Size(t, 1) <= |out| && k + 2 <= Size(t, 1) && |two| == 2
    ensures var size := Size(t, 1);
            Patch(out, off + k, two) == out[..off] + Patch(out[off..off + size], k, two) + out[off + size..]
  {
  }

  // The body of the line loop.
  method ShiftLineAt(bytes: seq<u1>, off: nat, delta: u4) returns (out: seq<u1>)
    requires off + 4 <= |bytes|
    ensures out == bytes[..off] + ShiftEntry(LineTable, bytes[off..off + 4], delta) + bytes[off + 4..]
  {
    hide U2, U4, Wr16, Low16;
    var startPc := U4(Rd16(bytes, off) + delta);
    Low16IsWr16(startPc);
    U2Sum(Rd16(bytes, off) + delta, 0);
    out := Patch(bytes, off, Low16(startPc));
    PatchInEntry(LineTable, bytes, off, 0, Low16(startPc));
  }

  method ShiftLineNumberTable(body: seq<u1>, delta: u4) returns (out: seq<u1>)
    ensures out == ShiftTable(LineTable, body, delta)
  {
    hide ShiftTable, ShiftEntries, ShiftEntry, Progress, Rd16;
    if |body| < 2 {
      return body;
    }
    out := body;
    var count := Rd16(body, 0);
    if 2 + count * 4 > |body| {
      return body;
    }
    ProgressStart(LineTable, body, delta);
    var i := 0;
    while i < count
      invariant 0 <= i <= count
      invariant Progress(LineTable, body, delta, out, 2 + 4 * i, count - i)
    {
      ghost var before := out;
      out := ShiftLineAt(out, 2 + i * 4, delta);
      ProgressStep(LineTable, body, delta, before, 2 + i * 4, count - i, out);
      i := i + 1;
    }
    ProgressEnd(LineTable, body, delta, out, 2 + 4 * count);
  }

  // The body of the local variable loop.
  method ShiftLocalAt(bytes: seq<u1>, off: nat, delta: u4) returns (out: seq<u1>)
    requires off + 10 <= |bytes|
    ensures out == bytes[..off] + ShiftEntry(LocalTable, bytes[off..off + 10], delta) + bytes[off + 10..]
  {
    hide U2, Wr16, Low16;
    var startPc := Rd16(bytes, off);
    var length := Rd16(bytes, off + 2);
    if startPc == 0 {
      length := U2(length + delta);
      Low16IsWr16(length);
      out := Patch(bytes, off + 2, Low16(length));
      PatchInEntry(LocalTable, bytes, off, 2, Low16(length));
    } else {
      startPc := U2(startPc + delta);
      Low16IsWr16(startPc);
      out := Patch(bytes, off, Low16(startPc));
      PatchInEntry(LocalTable, bytes, off, 0, Low16(startPc));
    }
  }

  method ShiftLocalVarTable(body: seq<u1>, delta: u4) returns (out: seq<u1>)
    ensures out == ShiftTable(LocalTable, body, delta)
  {
    hide ShiftTable, ShiftEntries, ShiftEntry, Progress, Rd16;
    if |body| < 2 {
      return body;
    }
    out := body;
    var count := Rd16(body, 0);
    if 2 + count * 10 > |body| {
      return body;
    }
    ProgressStart(LocalTable, body, delta);
    var i := 0;
    while i < count
      invariant 0 <= i <= count
      invariant Progress(LocalTable, body, delta, out, 2 + 10 * i, count - i)
    {
      ghost var before := out;
      out := ShiftLocalAt(out, 2 + i * 10, delta);
      ProgressStep(LocalTable, body, delta, before, 2 + i * 10, count - i, out);
      i := i + 1;
    }
    ProgressEnd(LocalTable, body, delta, out, 2 + 10 * count);
  }

  // ---------------------------------------------------------------- whole tables, entry by entry

  lemma {:induction false} ShiftedEntries(t: Table, s: seq<u1>, n: nat, delta: u4, i: nat)
    requires Size(t, n) <= |s| && i < n
    ensures Entries(t, ShiftEntries(t, s, n, delta), n)[i] == ShiftEntry(t, Entries(t, s, n)[i], delta)
    decreases n
  {
    hide ShiftEntry;
    SplitEntries(t, s, n, delta);
    if i > 0 {
      ShiftedEntries(t, s[Size(t, 1)..], n - 1, delta, i - 1);
    }
  }

  lemma SplitEntries(t: Table, s: seq<u1>, n: nat, delta: u4)
    requires 0 < n && Size(t, n) <= |s|
    ensures var size := Size(t, 1);
            var r := ShiftEntries(t, s, n, delta);
            && r[..size] == ShiftEntry(t, s[..size], delta)
            && r[size..] == ShiftEntries(t, s[size..], n - 1, delta)
  {
    hide ShiftEntry;
  }

  lemma TableParts(t: Table, body: seq<u1>, delta: u4)
    requires HoldsEntries(t, body)
    ensures var out := ShiftTable(t, body, delta);
            && out[..2] == body[..2] && out[2..] == ShiftEntries(t, body[2..], Rd16(body, 0), delta)
            && HoldsEntries(t, out) && Rd16(out, 0) == Rd16(body, 0)
  {
    var out := ShiftTable(t, body, delta);
    assert out[0] == body[..2][0] && out[1] == body[..2][1];
  }

  // The shifted table has as many entries as the old one, in the same order, and the i-th is
  // the shifted i-th one.
  lemma ShiftedTable(t: Table, body: seq<u1>, delta: u4)
    ensures var entries := TableEntries(t, body);
            var moved := TableEntries(t, ShiftTable(t, body, delta));
            |moved| == |entries| && forall i :: 0 <= i < |entries| ==> moved[i] == ShiftEntry(t, entries[i], delta)
  {
    if HoldsEntries(t, body) {
      TableParts(t, body, delta);
      forall i | 0 <= i < Rd16(body, 0)
        ensures Entries(t, ShiftTable(t, body, delta)[2..], Rd16(body, 0))[i] ==
                ShiftEntry(t, Entries(t, body[2..], Rd16(body, 0))[i], delta)
      {
        ShiftedEntries(t, body[2..], Rd16(body, 0), delta, i);
      }
    }
  }

  predicate EntryTwice(t: Table, e: Entry, first: u4, second: u4)
    requires |e| == Size(t, 1) && first + second <= 0xFFFF_FFFF
  {
    ShiftEntry(t, ShiftEntry(t, e, first), second) == ShiftEntry(t, e, first + second)
  }

  lemma SameParts(s: seq<u1>, t: seq<u1>, size: nat)
    requires size <= |s| == |t|
    ensures s == t <==> s[..size] == t[..size] && s[size..] == t[size..]
  {
    assert s == s[..size] + s[size..] && t == t[..size] + t[size..];
  }

  predicate AllTwice(t: Table, entries: seq<Entry>, first: u4, second: u4)
    requires first + second <= 0xFFFF_FFFF
    requires Sized(t, entries)
  {
    forall i :: 0 <= i < |entries| ==> EntryTwice(t, entries[i], first, second)
  }

  lemma {:induction false} ShiftEntriesTwice(t: Table, s: seq<u1>, n: nat, first: u4, second: u4)
    requires Size(t, n) <= |s| && first + second <= 0xFFFF_FFFF
    ensures ShiftEntries(t, ShiftEntries(t, s, n, first), n, second) == ShiftEntries(t, s, n, first + second) <==>
            AllTwice(t, Entries(t, s, n), first, second)
    decreases n
  {
    hide ShiftEntry, ShiftEntries, Entries, EntryTwice, AllTwice;
    if n == 0 {
      NoneTwice(t, s, first, second);
    } else {
      ShiftEntriesTwice(t, s[Size(t, 1)..], n - 1, first, second);
      EntriesTwiceCons(t, s, n, first, second);
      SplitTwice(t, s, n, first, second);
    }
  }

  lemma NoneTwice(t: Table, s: seq<u1>, first: u4, second: u4)
    requires first + second <= 0xFFFF_FFFF
    ensures AllTwice(t, Entries(t, s, 0), first, second)
  {
  }

  lemma {:induction false} EntriesTwiceCons(t: Table, s: seq<u1>, n: nat, first: u4, second: u4)
    requires 0 < n && Size(t, n) <= |s| && first + second <= 0xFFFF_FFFF
    ensures var size := Size(t, 1);
            AllTwice(t, Entries(t, s, n), first, second) <==>
            EntryTwice(t, s[..size], first, second) && AllTwice(t, Entries(t, s[size..], n - 1), first, second)
  {
    hide EntryTwice, AllTwice;
    AllTwiceCons(t, s[..Size(t, 1)], Entries(t, s[Size(t, 1)..], n - 1), first, second);
  }

  lemma {:induction false} SplitTwice(t: Table, s: seq<u1>, n: nat, first: u4, second: u4)
    requires 0 < n && Size(t, n) <= |s| && first + second <= 0xFFFF_FFFF
    ensures var size := Size(t, 1);
            ShiftEntries(t, ShiftEntries(t, s, n, first), n, second) == ShiftEntries(t, s, n, first + second) <==>
            && EntryTwice(t, s[..size], first, second)
            && ShiftEntries(t, ShiftEntries(t, s[size..], n - 1, first), n - 1, second)
               == ShiftEntries(t, s[size..], n - 1, first + second)
  {
    hide ShiftEntry, ShiftEntries;
    var once := ShiftEntries(t, s, n, first);
    SplitEntries(t, s, n, first);
    SplitEntries(t, once, n, second);
    SplitEntries(t, s, n, first + second);
    SameParts(ShiftEntries(t, once, n, second), ShiftEntries(t, s, n, first + second), Size(t, 1));
  }

  lemma {:induction false} AllTwiceCons(t: Table, e: Entry, rest: seq<Entry>, first: u4, second: u4)
    requires |e| == Size(t, 1) && Sized(t, rest) && first + second <= 0xFFFF_FFFF
    ensures AllTwice(t, [e] + rest, first, second)
            <==> EntryTwice(t, e, first, second) && AllTwice(t, rest, first, second)
  {
    hide EntryTwice;
    var all := [e] + rest;
    assert all[0] == e && forall i :: 0 <= i < |rest| ==> all[i + 1] == rest[i];
    if AllTwice(t, all, first, second) {
      forall i | 0 <= i < |rest|
        ensures EntryTwice(t, rest[i], first, second)
      {
        assert EntryTwice(t, all[i + 1], first, second);
      }
    }
  }

  lemma {:induction false} ShiftTableTwiceEntries(t: Table, body: seq<u1>, first: u4, second: u4)
    requires first + second <= 0xFFFF_FFFF
    ensures ShiftTable(t, ShiftTable(t, body, first), second) == ShiftTable(t, body, first + second) <==>
            AllTwice(t, TableEntries(t, body), first, second)
  {
    if HoldsEntries(t, body) {
      ShiftEntriesTwice(t, body[2..], Rd16(body, 0), first, second);
      TableParts(t, body, first);
      TableParts(t, body, first + second);
      var once := ShiftTable(t, body, first);
      TableParts(t, once, second);
      hide ShiftTable, ShiftEntries, EntryTwice;
      var twice, sum := ShiftTable(t, once, second), ShiftTable(t, body, first + second);
      assert twice == twice[..2] + twice[2..] && sum == sum[..2] + sum[2..];
    }
  }

  lemma {:induction false} ShiftEntriesNothing(t: Table, s: seq<u1>, n: nat)
    requires Size(t, n) <= |s|
    ensures ShiftEntries(t, s, n, 0) == s
    decreases n
  {
    if n > 0 {
      var size := Size(t, 1);
      ShiftEntryNothing(t, s[..size]);
      ShiftEntriesNothing(t, s[size..], n - 1);
      hide ShiftEntry;
      assert s == s[..size] + s[size..];
    }
  }

  lemma ShiftEntryNothing(t: Table, e: Entry)
    requires |e| == Size(t, 1)
    ensures ShiftEntry(t, e, 0) == e
  {
    At16(e, 0, Rd16(e, 0));
    At16(e, 2, Rd16(e, 2));
  }

  // Shifting by nothing is the identity.
  lemma ShiftNothing(t: Table, body: seq<u1>)
    ensures ShiftTable(t, body, 0) == body
  {
    if HoldsEntries(t, body) {
      ShiftEntriesNothing(t, body[2..], Rd16(body, 0));
    }
  }

  // ---------------------------------------------------------------- line entries

  lemma ShiftedLine(e: Entry, delta: u4)
    requires |e| == 4
    ensures LineOf(ShiftEntry(LineTable, e, delta)) == Line(U2(LineOf(e).startPc + delta), LineOf(e).line)
  {
    hide U2;
    var start := U2(Rd16(e, 0) + delta);
    At16(ShiftEntry(LineTable, e, delta), 0, start);
  }

  // A line table keeps its order, count and line numbers, and a start moves by exactly the
  // shift if and only if the sum fits.
  lemma LinesRelocated(body: seq<u1>, delta: u4)
    ensures var entries := TableEntries(LineTable, body);
            var moved := TableEntries(LineTable, ShiftTable(LineTable, body, delta));
            && |moved| == |entries|
            && (forall i :: 0 <= i < |entries| ==>
                  && LineOf(moved[i]).line == LineOf(entries[i]).line
                  && (LineOf(moved[i]).startPc == LineOf(entries[i]).startPc + delta
                      <==> LineOf(entries[i]).startPc + delta <= 0xFFFF))
  {
    ShiftedTable(LineTable, body, delta);
    hide ShiftTable, TableEntries, ShiftEntry, LineOf;
    var entries := TableEntries(LineTable, body);
    forall i | 0 <= i < |entries|
      ensures LineOf(ShiftEntry(LineTable, entries[i], delta))
              == Line(U2(LineOf(entries[i]).startPc + delta), LineOf(entries[i]).line)
    {
      ShiftedLine(entries[i], delta);
    }
  }

  // Shifting a line table twice writes the same bytes as shifting once by the sum.
  lemma {:induction false} ShiftLinesTwice(body: seq<u1>, first: u4, second: u4)
    requires first + second <= 0xFFFF_FFFF
    ensures ShiftTable(LineTable, ShiftTable(LineTable, body, first), second) ==
            ShiftTable(LineTable, body, first + second)
  {
    ShiftTableTwiceEntries(LineTable, body, first, second);
    forall i | 0 <= i < |TableEntries(LineTable, body)|
      ensures EntryTwice(LineTable, TableEntries(LineTable, body)[i], first, second)
    {
      LineTwice(TableEntries(LineTable, body)[i], first, second);
    }
  }

  lemma {:induction false} LineTwice(e: Entry, first: u4, second: u4)
    requires |e| == 4 && first + second <= 0xFFFF_FFFF
    ensures EntryTwice(LineTable, e, first, second)
  {
    hide U2, Wr16;
    var start := Rd16(e, 0);
    U2Sum(start + first, second);
    assert start + first + second == start + (first + second);
    At16(ShiftEntry(LineTable, e, first), 0, U2(start + first));
  }

  // ---------------------------------------------------------------- local variable entries

  function ShiftLocal(v: Local, delta: u4): Local {
    if v.startPc == 0 then v.(length := U2(v.length + delta)) else v.(startPc := U2(v.startPc + delta))
  }

  lemma ShiftedLocal(e: Entry, delta: u4)
    requires |e| == 10
    ensures LocalOf(ShiftEntry(LocalTable, e, delta)) == ShiftLocal(LocalOf(e), delta)
  {
    hide U2, Wr16;
    var r := ShiftEntry(LocalTable, e, delta);
    At16(r, 0, U2(Rd16(e, 0) + delta));
    At16(r, 2, U2(Rd16(e, 2) + delta));
  }

  lemma LocalOfInjective(e: Entry, f: Entry)
    requires |e| == 10 == |f|
    ensures e == f <==> LocalOf(e) == LocalOf(f)
  {
    assert e == [e[0], e[1], e[2], e[3]] + e[4..];
    assert f == [f[0], f[1], f[2], f[3]] + f[4..];
  }

  predicate RangeFits(v: Local, delta: u4) {
    if v.startPc == 0 then v.length + delta <= 0xFFFF else v.startPc + delta <= 0xFFFF || v.length == 0
  }

  // The variable is live at a new pc exactly as it was before the insertion, and inside the
  // insertion exactly when its range started at 0.
  ghost predicate SameLiveness(v: Local, moved: Local, delta: u4) {
    && (forall pc: int :: delta <= pc ==> (Live(moved, pc) <==> Live(v, pc - delta)))
    && (forall pc: int :: 0 <= pc < delta ==> (Live(moved, pc) <==> v.startPc == 0))
  }

  // That is so exactly when the patched field does not wrap; an empty range that wraps is
  // harmless because it is never live.
  lemma LivenessRelocated(v: Local, delta: u4)
    ensures SameLiveness(v, ShiftLocal(v, delta), delta) <==> RangeFits(v, delta)
  {
    var moved := ShiftLocal(v, delta);
    if !RangeFits(v, delta) {
      if v.startPc == 0 {
        assert moved.length < delta;
        var pc := delta - 1;
        assert !Live(moved, pc);
      } else {
        var pc := v.startPc + delta;
        assert Live(v, pc - delta) && !Live(moved, pc);
      }
    }
  }

  // A whole table: same count, same names, descriptors and slots, and for each entry the
  // liveness equivalence exactly when its own range fits.
  lemma LocalsRelocated(body: seq<u1>, delta: u4)
    ensures var entries := TableEntries(LocalTable, body);
            var moved := TableEntries(LocalTable, ShiftTable(LocalTable, body, delta));
            && |moved| == |entries|
            && (forall i :: 0 <= i < |entries| ==>
                  && LocalOf(moved[i]).rest == LocalOf(entries[i]).rest
                  && (SameLiveness(LocalOf(entries[i]), LocalOf(moved[i]), delta)
                     <==> RangeFits(LocalOf(entries[i]), delta)))
  {
    ShiftedTable(LocalTable, body, delta);
    hide ShiftTable, TableEntries, ShiftEntry, LocalOf, SameLiveness, RangeFits;
    var entries := TableEntries(LocalTable, body);
    forall i | 0 <= i < |entries|
      ensures var v := LocalOf(entries[i]);
              LocalOf(ShiftEntry(LocalTable, entries[i], delta)) == ShiftLocal(v, delta)
              && (SameLiveness(v, ShiftLocal(v, delta), delta) <==> RangeFits(v, delta))
    {
      ShiftedLocal(entries[i], delta);
      LivenessRelocated(LocalOf(entries[i]), delta);
    }
  }

  // Shifting twice equals shifting once by the sum unless the first shift wraps a start to
  // exactly 0, which the second shift then takes for a range that began at 0.
  predicate NoWrapToZero(v: Local, first: u4, second: u4) {
    v.startPc != 0 && U2(v.startPc + first) == 0 ==> U2(second) == 0
  }

  lemma {:induction false} ShiftLocalTwice(v: Local, first: u4, second: u4)
    requires first + second <= 0xFFFF_FFFF
    ensures ShiftLocal(ShiftLocal(v, first), second) == ShiftLocal(v, first + second)
            <==> NoWrapToZero(v, first, second)
  {
    U2Sum(v.startPc + first, second);
    U2Sum(v.length + first, second);
    LengthKept(v.length, second);
    hide U2;
    assert v.startPc + first + second == v.startPc + (first + second);
    assert v.length + first + second == v.length + (first + second);
  }

  lemma LengthKept(length: u2, second: u4)
    ensures U2(length + second) == length <==> U2(second) == 0
  {
  }

  lemma {:induction false} ShiftLocalsTwice(body: seq<u1>, first: u4, second: u4)
    requires first + second <= 0xFFFF_FFFF
    ensures ShiftTable(LocalTable, ShiftTable(LocalTable, body, first), second) ==
            ShiftTable(LocalTable, body, first + second) <==>
            forall i :: 0 <= i < |TableEntries(LocalTable, body)| ==>
              NoWrapToZero(LocalOf(TableEntries(LocalTable, body)[i]), first, second)
  {
    ShiftTableTwiceEntries(LocalTable, body, first, second);
    forall i | 0 <= i < |TableEntries(LocalTable, body)|
      ensures EntryTwice(LocalTable, TableEntries(LocalTable, body)[i], first, second) <==>
              NoWrapToZero(LocalOf(TableEntries(LocalTable, body)[i]), first, second)
    {
      LocalTwice(TableEntries(LocalTable, body)[i], first, second);
    }
  }

  lemma {:induction false} LocalTwice(e: Entry, first: u4, second: u4)
    requires |e| == 10 && first + second <= 0xFFFF_FFFF
    ensures EntryTwice(LocalTable, e, first, second) <==> NoWrapToZero(LocalOf(e), first, second)
  {
    var once := ShiftEntry(LocalTable, e, first);
    ShiftedLocal(e, first);
    ShiftedLocal(once, second);
    ShiftedLocal(e, first + second);
    ShiftLocalTwice(LocalOf(e), first, second);
    LocalOfInjective(ShiftEntry(LocalTable, once, second), ShiftEntry(LocalTable, e, first + second));
  }

  // A variable with one byte of range from 0xFFFF on, as one table.
  const AT_THE_END: seq<u1> := [0, 1, 0xFF, 0xFF, 0, 1, 0, 0, 0, 0, 0, 0]

  // A concrete table that wraps: shifted by 1 its range starts at 0, and the next shift makes it
  // longer instead of moving it.
  lemma WrapToZero()
    ensures ShiftTable(LocalTable, ShiftTable(LocalTable, AT_THE_END, 1), 1) != ShiftTable(LocalTable, AT_THE_END, 2)
  {
    hide ShiftTable;
    assert Rd16(AT_THE_END, 0) == 1;
    var e := AT_THE_END[2..][..10];
    assert TableEntries(LocalTable, AT_THE_END) == [e];
    assert LocalOf(e).startPc == 0xFFFF;
    ShiftLocalsTwice(AT_THE_END, 1, 1);
    assert !NoWrapToZero(LocalOf(TableEntries(LocalTable, AT_THE_END)[0]), 1, 1);
  }
}
