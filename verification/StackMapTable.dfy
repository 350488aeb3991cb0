/** StackMapTable attributes (JVMS section 4.7.4) and their relocation when bytes are inserted
    at the start of a method. */
module StackMapTable {
  import opened Wrappers
  import opened Bytes

  // Verification types; tags 0 to 6 have no operand.
  datatype VType = Plain(tag: u1) | ObjectOf(cls: u2) | Uninitialized(newPc: u2)

  datatype Kind = Same | SameLocals1 | Chop(k: nat) | Append(k: nat) | Full

  // A frame as the JVMS gives it: the offset delta, the kind and the types in file order.
  // Full frames list their locals first; split is the number of locals, 0 in other frames.
  datatype Frame = Frame(delta: nat, kind: Kind, types: seq<VType>, split: nat)

  // ---------------------------------------------------------------- the format of JVMS 4.7.4

  function ReadTypes(s: seq<u1>, n: nat): Option<(seq<VType>, seq<u1>)>
    decreases n
  {
    if n == 0 then Some(([], s))
    else if |s| >= 1 && s[0] <= 6 then
      var (rest, t) :- ReadTypes(s[1..], n - 1);
      Some(([Plain(s[0])] + rest, t))
    else if |s| >= 3 && s[0] == 7 then
      var (rest, t) :- ReadTypes(s[3..], n - 1);
      Some(([ObjectOf(Rd16(s, 1))] + rest, t))
    else if |s| >= 3 && s[0] == 8 then
      var (rest, t) :- ReadTypes(s[3..], n - 1);
      Some(([Uninitialized(Rd16(s, 1))] + rest, t))
    else None
  }

  // The tag and offset delta of a frame, and the bytes after them. Tags 128 to 246 are reserved.
  function ReadHead(s: seq<u1>): Option<(nat, Kind, seq<u1>)> {
    if |s| == 0 then None
    else if s[0] <= 63 then Some((s[0] as nat, Same, s[1..]))
    else if s[0] <= 127 then Some(((s[0] - 64) as nat, SameLocals1, s[1..]))
    else if s[0] <= 246 || |s| < 3 then None
    else
      var kind :=
        if s[0] == 247 then SameLocals1
        else if s[0] <= 250 then Chop((251 - s[0]) as nat)
        else if s[0] == 251 then Same
        else if s[0] <= 254 then Append((s[0] - 251) as nat)
        else Full;
      Some((Rd16(s, 1), kind, s[3..]))
  }

  function ReadPayload(kind: Kind, s: seq<u1>): Option<(seq<VType>, nat, seq<u1>)> {
    match kind
    case Same => Some(([], 0, s))
    case Chop(_) => Some(([], 0, s))
    case SameLocals1 =>
      var (types, t) :- ReadTypes(s, 1);
      Some((types, 0, t))
    case Append(k) =>
      var (types, t) :- ReadTypes(s, k);
      Some((types, 0, t))
    case Full =>
      if |s| < 2 then None
      else
        var (locals, t) :- ReadTypes(s[2..], Rd16(s, 0));
        if |t| < 2 then None
        else
          var (stack, u) :- ReadTypes(t[2..], Rd16(t, 0));
          Some((locals + stack, Rd16(s, 0), u))
  }

  function ReadFrames(s: seq<u1>, n: nat): Option<seq<Frame>>
    decreases n
  {
    if n == 0 then
      if s == [] then Some([]) else None
    else
      var (delta, kind, t) :- ReadHead(s);
      var (types, split, u) :- ReadPayload(kind, t);
      var rest :- ReadFrames(u, n - 1);
      Some([Frame(delta, kind, types, split)] + rest)
  }

  // The frames of a whole table, which must fill the attribute exactly.
  function Decode(body: seq<u1>): Option<seq<Frame>> {
    if |body| < 2 then None else ReadFrames(body[2..], Rd16(body, 0))
  }

  // The bytecode offset each frame applies to: the first delta, then previous + delta + 1.
  function OffsetsAfter(previous: int, frames: seq<Frame>): (offsets: seq<int>)
    ensures |offsets| == |frames|
    decreases |frames|
  {
    if frames == [] then []
    else
      var offset := previous + frames[0].delta + 1;
      [offset] + OffsetsAfter(offset, frames[1..])
  }

  function Offsets(frames: seq<Frame>): (offsets: seq<int>)
    ensures |offsets| == |frames|
  {
    OffsetsAfter(-1, frames)
  }

  predicate HasUninitialized(frames: seq<Frame>) {
    exists f <- frames :: exists t <- f.types :: t.Uninitialized?
  }

  // ---------------------------------------------------------------- what the editor writes

  function Emit(tag: u1, offset: nat): seq<u1> {
    [tag] + Wr16(U2(offset))
  }

  // The source reads the first tag, and two more bytes for tags from 247, without a check.
  predicate HeadInBounds(body: seq<u1>) {
    |body| >= 2 && Rd16(body, 0) != 0 ==> |body| >= 3 && (body[2] <= 246 || |body| >= 5)
  }

  // The relocated table. Only the first frame changes; the deltas of the others are relative.
  function Shift(body: seq<u1>, delta: u4): seq<u1>
    requires HeadInBounds(body)
  {
    if |body| < 2 || Rd16(body, 0) == 0 || 128 <= body[2] <= 246 then body
    else body[..2] + (NewHead(body, delta) + body[HeadEnd(body)..])
  }

  function NewHead(body: seq<u1>, delta: u4): seq<u1>
    requires HeadInBounds(body) && |body| >= 2 && Rd16(body, 0) != 0 && !(128 <= body[2] <= 246)
  {
    var tag := body[2];
    if tag <= 63 then
      var offset := U4(tag as nat + delta);
      if offset <= 63 then [offset as u1] else Emit(251, offset)
    else if tag <= 127 then
      var offset := U4((tag - 64) as nat + delta);
      if offset <= 63 then [(64 + offset) as u1] else Emit(247, offset)
    else Emit(tag, Rd16(body, 3) + delta)
  }

  function HeadEnd(body: seq<u1>): nat
    requires |body| >= 3
  {
    if body[2] <= 127 then 3 else 5
  }

  // The relocated frame list the JVMS asks for: every frame delta bytes further on, and the
  // instruction of every Uninitialized type as well.
  function MovedType(t: VType, delta: u4): VType {
    if t.Uninitialized? then Uninitialized(U2(t.newPc + delta)) else t
  }

  predicate SameShape(f: Frame, g: Frame) {
    f.kind == g.kind && f.split == g.split && |f.types| == |g.types|
  }

  predicate OffsetsMoved(frames: seq<Frame>, moved: seq<Frame>, delta: u4) {
    |frames| == |moved| && forall i :: 0 <= i < |frames| ==> Offsets(moved)[i] == Offsets(frames)[i] + delta
  }

  predicate TypesMoved(types: seq<VType>, moved: seq<VType>, delta: u4) {
    |types| == |moved| && forall j :: 0 <= j < |types| ==> moved[j] == MovedType(types[j], delta)
  }

  predicate Relocated(frames: seq<Frame>, moved: seq<Frame>, delta: u4) {
    && OffsetsMoved(frames, moved, delta)
    && (forall i :: 0 <= i < |frames| ==>
          SameShape(frames[i], moved[i]) && TypesMoved(frames[i].types, moved[i].types, delta))
  }

  // ---------------------------------------------------------------- relocation is correct

  // The first head of the shifted table: same kind, same following bytes, and a delta that is
  // the old one plus the shift, reduced to 16 bits.
  lemma ShiftHead(body: seq<u1>, delta: u4)
    requires |body| >= 2 && Rd16(body, 0) != 0 && ReadHead(body[2..]).Some?
    ensures HeadInBounds(body)
    ensures var (d, kind, t) := ReadHead(body[2..]).value;
            && |Shift(body, delta)| >= 2 && Shift(body, delta)[..2] == body[..2]
            && ReadHead(Shift(body, delta)[2..]) == Some((U2(d + delta), kind, t))
            && |Shift(body, delta)| - |body| in {0, 2}
  {
    assert body[2..][0] == body[2];
    var out := Shift(body, delta);
    assert out[2..] == NewHead(body, delta) + body[HeadEnd(body)..];
    assert body[HeadEnd(body)..] == body[2..][HeadEnd(body) - 2..];
    NewHeadReads(body, delta, body[HeadEnd(body)..]);
  }

  lemma NewHeadReads(body: seq<u1>, delta: u4, t: seq<u1>)
    requires |body| >= 2 && Rd16(body, 0) != 0 && ReadHead(body[2..]).Some?
    ensures HeadInBounds(body) && !(128 <= body[2] <= 246)
    ensures var (d, kind, _) := ReadHead(body[2..]).value;
            ReadHead(NewHead(body, delta) + t) == Some((U2(d + delta), kind, t))
    ensures |NewHead(body, delta)| - (HeadEnd(body) - 2) in {0, 2}
  {
    hide Wr16;
    var s := body[2..];
    assert s[0] == body[2];
    var d := ReadHead(s).value.0;
    U2Sum(d + delta, 0);
    if s[0] <= 127 {
      var offset := U4(d + delta);
      if offset <= 63 {
        assert (NewHead(body, delta) + t)[1..] == t;
      } else {
        EmittedHead(if s[0] <= 63 then 251 else 247, offset, t);
      }
    } else {
      assert Rd16(s, 1) == Rd16(body, 3);
      EmittedHead(s[0], Rd16(body, 3) + delta, t);
    }
  }

  lemma EmittedHead(tag: u1, offset: nat, t: seq<u1>)
    requires tag >= 247
    ensures ReadHead(Emit(tag, offset) + t).Some?
    ensures var (d, kind, u) := ReadHead(Emit(tag, offset) + t).value;
            d == U2(offset) && u == t
    ensures tag == 247 ==> ReadHead(Emit(tag, offset) + t).value.1 == SameLocals1
    ensures tag == 251 ==> ReadHead(Emit(tag, offset) + t).value.1 == Same
    ensures 248 <= tag <= 250 ==> ReadHead(Emit(tag, offset) + t).value.1 == Chop((251 - tag) as nat)
    ensures 252 <= tag <= 254 ==> ReadHead(Emit(tag, offset) + t).value.1 == Append((tag - 251) as nat)
    ensures tag == 255 ==> ReadHead(Emit(tag, offset) + t).value.1 == Full
  {
    var s := Emit(tag, offset) + t;
    At16(s, 1, U2(offset));
    assert s[1..3] == Wr16(U2(offset));
    assert s[3..] == t;
  }

  // The shifted table decodes to the old frames with only the first delta changed.
  lemma ShiftDecodes(body: seq<u1>, delta: u4)
    requires Decode(body).Some?
    ensures var frames := Decode(body).value;
            Decode(Shift(body, delta)) ==
            Some(if frames == [] then [] else [frames[0].(delta := U2(frames[0].delta + delta))] + frames[1..])
  {
    var out := Shift(body, delta);
    if Rd16(body, 0) != 0 {
      ShiftHead(body, delta);
      assert Rd16(out, 0) == Rd16(body, 0) by {
        assert out[0] == out[..2][0] == body[..2][0] && out[1] == out[..2][1] == body[..2][1];
      }
    }
  }

  lemma {:induction false} OffsetsStart(previous: int, previous': int, frames: seq<Frame>, i: nat)
    requires i < |frames|
    ensures OffsetsAfter(previous', frames)[i] - OffsetsAfter(previous, frames)[i] == previous' - previous
    decreases |frames|
  {
    var offset, offset' := previous + frames[0].delta + 1, previous' + frames[0].delta + 1;
    if |frames| > 1 {
      OffsetsStart(offset, offset', frames[1..], if i == 0 then 0 else i - 1);
    }
  }

  lemma OffsetsShift(frames: seq<Frame>, moved: seq<Frame>, step: int)
    requires frames != [] && |moved| == |frames| && moved[1..] == frames[1..]
    requires moved[0].delta == frames[0].delta + step
    ensures forall i :: 0 <= i < |frames| ==> Offsets(moved)[i] == Offsets(frames)[i] + step
  {
    forall i | 0 <= i < |frames|
      ensures Offsets(moved)[i] == Offsets(frames)[i] + step
    {
      if i > 0 {
        OffsetsStart(frames[0].delta, moved[0].delta, frames[1..], i - 1);
      }
    }
  }

  predicate FirstFits(frames: seq<Frame>, delta: u4) {
    frames == [] || frames[0].delta + delta <= 0xFFFF
  }

  // For every legal table: frame count, kinds, operand counts and types survive, and every
  // absolute offset moves by exactly the shift if and only if the first one still fits 16 bits.
  lemma ShiftOffsets(body: seq<u1>, delta: u4)
    requires Decode(body).Some?
    ensures var frames := Decode(body).value;
            && Decode(Shift(body, delta)).Some?
            && var moved := Decode(Shift(body, delta)).value;
            && |moved| == |frames|
            && (forall i :: 0 <= i < |frames| ==> SameShape(frames[i], moved[i]) && moved[i].types == frames[i].types)
            && (OffsetsMoved(frames, moved, delta) <==> FirstFits(frames, delta))
    ensures |Shift(body, delta)| - |body| in {0, 2}
  {
    var frames := Decode(body).value;
    ShiftDecodes(body, delta);
    if frames != [] {
      ShiftHead(body, delta);
      var moved := Decode(Shift(body, delta)).value;
      assert moved[1..] == frames[1..];
      OffsetsShift(frames, moved, moved[0].delta - frames[0].delta);
      assert Offsets(moved)[0] == moved[0].delta && Offsets(frames)[0] == frames[0].delta;
    }
  }

  lemma TypesKept(types: seq<VType>, delta: u4)
    requires delta <= 0xFFFF
    ensures TypesMoved(types, types, delta) <==> delta == 0 || forall t <- types :: !t.Uninitialized?
  {
    if delta != 0 && exists t <- types :: t.Uninitialized? {
      var j :| 0 <= j < |types| && types[j].Uninitialized?;
      assert MovedType(types[j], delta) != types[j];
    }
  }

  // The editor does not move the operand of Uninitialized types. So the shifted table is the
  // relocated one exactly when nothing is inserted, or the first offset fits and no frame
  // mentions an uninitialized object. (A shift by a multiple of 0x10000 cannot fit.)
  lemma ShiftRelocates(body: seq<u1>, delta: u4)
    requires Decode(body).Some?
    ensures var frames := Decode(body).value;
            && Decode(Shift(body, delta)).Some?
            && (Relocated(frames, Decode(Shift(body, delta)).value, delta)
                <==> FirstFits(frames, delta) && (delta == 0 || !HasUninitialized(frames)))
  {
    var frames := Decode(body).value;
    ShiftOffsets(body, delta);
    hide Decode, Shift, OffsetsMoved, TypesMoved;
    if frames != [] && FirstFits(frames, delta) {
      forall f | f in frames
        ensures TypesMoved(f.types, f.types, delta) <==> delta == 0 || forall t <- f.types :: !t.Uninitialized?
      {
        TypesKept(f.types, delta);
      }
      assert forall i :: 0 <= i < |frames| ==> frames[i] in frames;
    }
  }

  // One frame at offset 0 whose stack holds the object made by the instruction at 0.
  const NEW_ON_STACK: seq<u1> := [0, 1, 64, 8, 0, 0]

  // A concrete table that is not relocated: the frame moves, the type still names offset 0.
  lemma UninitializedStays()
    ensures Decode(NEW_ON_STACK) == Some([Frame(0, SameLocals1, [Uninitialized(0)], 0)])
    ensures Decode(Shift(NEW_ON_STACK, 1)) == Some([Frame(1, SameLocals1, [Uninitialized(0)], 0)])
    ensures !Relocated(Decode(NEW_ON_STACK).value, Decode(Shift(NEW_ON_STACK, 1)).value, 1)
  {
    var f := Frame(0, SameLocals1, [Uninitialized(0)], 0);
    var s := NEW_ON_STACK[3..];
    assert s[0] == 8 && Rd16(s, 1) == 0 && s[3..] == [];
    var none: seq<VType> := [];
    assert ReadTypes(s[3..], 0) == Some((none, []));
    assert [Uninitialized(0)] + none == [Uninitialized(0)];
    assert ReadTypes(s, 1) == Some(([Uninitialized(0)], []));
    assert NEW_ON_STACK[2..][1..] == s;
    var end: seq<u1> := [];
    assert ReadFrames(end, 0) == Some([]);
    assert ReadFrames(NEW_ON_STACK[2..], 1) == Some([f] + []);
    assert Rd16(NEW_ON_STACK, 0) == 1 && [f] + [] == [f] && [f][1..] == [];
    assert Decode(NEW_ON_STACK) == Some([f]);
    assert f in [f] && Uninitialized(0) in f.types;
    ShiftDecodes(NEW_ON_STACK, 1);
    assert U2(1) == 1 && [f.(delta := 1)] + [f][1..] == [f.(delta := 1)];
    ShiftRelocates(NEW_ON_STACK, 1);
  }

  // Shifting twice writes the same bytes as shifting once by the sum.
  lemma {:induction false} ShiftTwice(body: seq<u1>, first: u4, second: u4)
    requires HeadInBounds(body) && first + second <= 0xFFFF_0000
    ensures HeadInBounds(Shift(body, first))
    ensures Shift(Shift(body, first), second) == Shift(body, first + second)
  {
    if |body| >= 2 && Rd16(body, 0) != 0 {
      if body[2] <= 127 {
        ShiftCompactTwice(body, first, second);
      } else if body[2] >= 247 {
        assert Shift(body, first) == body[..2] + (Emit(body[2], Rd16(body, 3) + first) + body[5..]);
        assert Rd16(body[..2], 0) == Rd16(body, 0);
        EmittedAgain(body[..2], body[2], Rd16(body, 3) + first, body[5..], second);
      }
    }
  }

  lemma {:induction false} ShiftCompactTwice(body: seq<u1>, first: u4, second: u4)
    requires |body| >= 3 && Rd16(body, 0) != 0 && body[2] <= 127 && first + second <= 0xFFFF_0000
    ensures HeadInBounds(Shift(body, first))
    ensures Shift(Shift(body, first), second) == Shift(body, first + second)
  {
    hide Wr16, U2, Emit, Rd16;
    var base: u1 := if body[2] <= 63 then 0 else 64;
    var offset := (body[2] - base) as nat + first;
    if offset <= 63 {
      CompactAgain(body, base, offset, first, second);
    } else {
      var tag: u1 := if body[2] <= 63 then 251 else 247;
      assert Shift(body, first) == body[..2] + (Emit(tag, offset) + body[3..]);
      Rd16Prefix(body);
      EmittedAgain(body[..2], tag, offset, body[3..], second);
    }
  }

  lemma Rd16Prefix(body: seq<u1>)
    requires |body| >= 2
    ensures Rd16(body[..2], 0) == Rd16(body, 0)
  {
  }

  lemma CompactAgain(body: seq<u1>, base: u1, offset: nat, first: u4, second: u4)
    requires |body| >= 3 && Rd16(body, 0) != 0 && body[2] <= 127 && first + second <= 0xFFFF_0000
    requires base == (if body[2] <= 63 then 0 else 64) && offset == (body[2] - base) as nat + first <= 63
    ensures HeadInBounds(Shift(body, first))
    ensures Shift(Shift(body, first), second) == Shift(body, first + second)
  {
    hide Wr16, U2, Emit;
    var once := Shift(body, first);
    assert once == body[..2] + ([(base as nat + offset) as u1] + body[3..]);
    assert once[..2] == body[..2] && once[3..] == body[3..];
    Rd16Prefix(body);
    Rd16Prefix(once);
    assert (once[2] - base) as nat == offset;
    assert NewHead(once, second) == NewHead(body, first + second);
  }

  lemma EmittedAgain(count: seq<u1>, tag: u1, offset: nat, t: seq<u1>, second: u4)
    requires |count| == 2 && Rd16(count, 0) != 0 && tag >= 247
    ensures HeadInBounds(count + (Emit(tag, offset) + t))
    ensures Shift(count + (Emit(tag, offset) + t), second) == count + (Emit(tag, offset + second) + t)
  {
    hide U2, Wr16, U4, Rd16;
    var body := count + (Emit(tag, offset) + t);
    assert body[2] == tag;
    assert body[3..5] == Wr16(U2(offset));
    At16(body, 3, U2(offset));
    assert body[5..] == t && body[..2] == count;
    Rd16Prefix(body);
    U2Sum(offset, second);
    assert NewHead(body, second) == Emit(tag, offset + second);
  }

  // Shifting by nothing is the identity.
  lemma ShiftNothing(body: seq<u1>)
    requires HeadInBounds(body)
    ensures Shift(body, 0) == body
  {
    if |body| >= 2 && Rd16(body, 0) != 0 {
      if body[2] <= 127 {
        assert body == body[..2] + ([body[2]] + body[3..]);
      } else if body[2] >= 247 {
        At16(body, 3, Rd16(body, 3));
        assert body[3..5] == Wr16(Rd16(body, 3));
        assert body == body[..2] + ([body[2]] + body[3..5] + body[5..]);
      }
    }
  }

  // ---------------------------------------------------------------- the editor's loop-free body

  // The offset is computed in u4 and written as two bytes behind the new tag.
  method ShiftStackMap(body: seq<u1>, delta: u4) returns (out: seq<u1>)
    requires HeadInBounds(body)
    ensures out == Shift(body, delta)
  {
    hide U2, U4, Wr16, Low16, Rd16;
    if |body| < 2 || Rd16(body, 0) == 0 {
      return body;
    }
    var tag := body[2];
    var head := [];
    var framePos := 3;
    if tag <= 63 {
      var newOffset := U4(tag as nat + delta);
      Low16IsWr16(newOffset);
      if newOffset <= 63 {
        head := [newOffset as u1];
      } else {
        head := [251] + Low16(newOffset);
      }
    } else if tag <= 127 {
      var newOffset := U4((tag - 64) as nat + delta);
      Low16IsWr16(newOffset);
      if newOffset <= 63 {
        head := [(64 + newOffset) as u1];
      } else {
        head := [247] + Low16(newOffset);
      }
    } else if tag >= 247 {
      var newOffset := U4(Rd16(body, framePos) + delta);
      Low16IsWr16(newOffset);
      U2Sum(Rd16(body, framePos) + delta, 0);
      head := [tag] + Low16(newOffset);
      framePos := framePos + 2;
    } else {
      return body;
    }
    out := body[..2] + (head + body[framePos..]);
  }
}
