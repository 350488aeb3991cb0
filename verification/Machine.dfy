/** A bytecode machine, and the proof that prepending keeps what a method does. */
module Machine {
  import opened Wrappers
  import opened Bytes
  import opened ConstantPool
  import opened CodeAttribute

  // Instruction lengths, switch padding and the exception table follow JVMS chapters 4.7.3 and
  // 6.5. What an instruction does to the frame is left open: exec is any function of its operand
  // bytes and the frame, and branches are relative to the instruction. (jsr, which pushes an
  // absolute address, is the one instruction this excludes.)

  const TABLESWITCH: u1 := 170
  const LOOKUPSWITCH: u1 := 171
  const WIDE: u1 := 196
  const IINC: u1 := 132

  // bytes: the opcode and its operands, without the padding of a switch.
  datatype Instr = Instr(length: nat, bytes: seq<u1>)

  function S32(b: seq<u1>, i: nat): int
    requires i + 4 <= |b|
  {
    var v: int := Rd32(b, i);
    if v < 0x8000_0000 then v else v - 0x1_0000_0000
  }

  // Lengths of the opcodes that are neither a switch nor wide; 0 for unused opcodes.
  function PlainLength(op: u1): nat {
    if op <= 15 then 1
    else if op == 17 || op == 19 || op == 20 then 3
    else if op == 16 || op == 18 || op <= 25 then 2
    else if op <= 53 then 1
    else if op <= 58 then 2
    else if op <= 131 then 1
    else if op == IINC then 3
    else if op <= 152 then 1
    else if op <= 168 then 3
    else if op == 169 then 2
    else if op <= 171 then 0
    else if op <= 177 then 1
    else if op <= 184 then 3
    else if op <= 186 then 5
    else if op == 187 || op == 189 || op == 192 || op == 193 || op == 198 || op == 199 then 3
    else if op == 188 then 2
    else if op == 190 || op == 191 || op == 194 || op == 195 then 1
    else if op == 197 then 4
    else if op == 200 || op == 201 then 5
    else 0
  }

  // Where the operands of the instruction at pc start: behind the opcode, and for a switch at
  // the next multiple of 4.
  function OperandStart(op: u1, pc: nat): nat {
    if op == TABLESWITCH || op == LOOKUPSWITCH then pc + 4 - pc % 4 else pc + 1
  }

  function End(code: seq<u1>, pc: nat): Option<nat>
    requires pc < |code|
  {
    var op := code[pc];
    var p := OperandStart(op, pc);
    if op == TABLESWITCH then
      if p + 12 > |code| || S32(code, p + 4) > S32(code, p + 8) then None
      else Some(p + 12 + 4 * (S32(code, p + 8) - S32(code, p + 4) + 1))
    else if op == LOOKUPSWITCH then
      if p + 8 > |code| || S32(code, p + 4) < 0 then None else Some(p + 8 + 8 * S32(code, p + 4))
    else if op == WIDE then
      if pc + 1 < |code| then Some(if code[pc + 1] == IINC then pc + 6 else pc + 4) else None
    else if PlainLength(op) == 0 then None
    else Some(pc + PlainLength(op))
  }

  // The instruction at pc, if a whole one stands there.
  function Decode(code: seq<u1>, pc: int): Option<Instr> {
    if pc < 0 || pc >= |code| || End(code, pc).None? || End(code, pc).value > |code| then None
    else
      var end := End(code, pc).value;
      EndAfterOperands(code, pc);
      Some(Instr(end - pc, [code[pc]] + code[OperandStart(code[pc], pc)..end]))
  }

  lemma EndAfterOperands(code: seq<u1>, pc: nat)
    requires pc < |code| && End(code, pc).Some?
    ensures pc < OperandStart(code[pc], pc) <= End(code, pc).value
  {
  }

  // What a frame holds besides its pc: locals, operand stack, and everything it can reach.
  type Data

  datatype Outcome = Next(data: Data) | Jump(offset: int, data: Data) | Finish(data: Data) | Raise(data: Data)

  // exec: what an instruction does. catches: whether a handler of this catch type takes the
  // exception in the frame. enter: the frame a handler starts with.
  datatype Semantics = Semantics(
    exec: (seq<u1>, Data) -> Outcome,
    catches: (u2, Data) -> bool,
    enter: Data -> Data)

  datatype Method = Method(code: seq<u1>, handlers: seq<Handler>)

  // Stuck: no instruction stands at the pc.
  datatype State = Running(pc: int, data: Data) | Finished(data: Data) | Threw(data: Data) | Stuck

  // The first matching entry of the exception table (JVMS 2.10).
  function FindHandler(sem: Semantics, hs: seq<Handler>, pc: int, d: Data): Option<Handler> {
    if hs == [] then None
    else if hs[0].startPc <= pc < hs[0].endPc && sem.catches(hs[0].catchType, d) then Some(hs[0])
    else FindHandler(sem, hs[1..], pc, d)
  }

  function Step(sem: Semantics, m: Method, s: State): State {
    if !s.Running? then s
    else
      match Decode(m.code, s.pc)
      case None => Stuck
      case Some(instr) =>
        match sem.exec(instr.bytes, s.data)
        case Next(d) => Running(s.pc + instr.length, d)
        case Jump(offset, d) => Running(s.pc + offset, d)
        case Finish(d) => Finished(d)
        case Raise(d) =>
          match FindHandler(sem, m.handlers, s.pc, d)
          case None => Threw(d)
          case Some(h) => Running(h.handlerPc, sem.enter(d))
  }

  function Run(sem: Semantics, m: Method, s: State, n: nat): State
    decreases n
  {
    if n == 0 then s else Run(sem, m, Step(sem, m, s), n - 1)
  }

  // ---------------------------------------------------------------- the prepended method

  // The code array and exception table the editor writes.
  function Prepend(m: Method, insertion: seq<u1>): Method {
    Method(insertion + m.code, ShiftHandlers(m.handlers, U4(|insertion|)))
  }

  lemma RebuildPrepends(cp: Pool, c: Code, insertion: seq<u1>, extraStack: u2)
    requires InnersOk(cp, c.attrs)
    ensures var c' := RebuildCode(cp, c, insertion, extraStack);
            Method(c'.code, c'.handlers) == Prepend(Method(c.code, c.handlers), insertion)
  {
  }

  // Every range end and handler address still fits two bytes.
  predicate HandlersFit(hs: seq<Handler>, n: nat) {
    forall h <- hs :: h.startPc + n <= 0xFFFF && h.endPc + n <= 0xFFFF && h.handlerPc + n <= 0xFFFF
  }

  function Shifted(s: State, n: nat): State {
    if s.Running? then Running(s.pc + n, s.data) else s
  }

  // Padding of the instruction at pc is the same n bytes further on.
  predicate Aligned(code: seq<u1>, pc: int, n: nat) {
    n % 4 == 0 || !(0 <= pc < |code|) || (code[pc] != TABLESWITCH && code[pc] != LOOKUPSWITCH)
  }

  // ---------------------------------------------------------------- decoding

  lemma WordMoved(x: seq<u1>, code: seq<u1>, i: nat)
    requires i + 4 <= |code|
    ensures S32(x + code, |x| + i) == S32(code, i)
  {
    var y := x + code;
    assert y[|x| + i..] == code[i..];
    assert Rd16(y[|x| + i..], 0) == Rd16(code[i..], 0) && Rd16(y[|x| + i..], 2) == Rd16(code[i..], 2);
    assert Rd16(y, |x| + i) == Rd16(code, i);
    assert Rd16(y, |x| + i + 2) == Rd16(code, i + 2);
  }

  lemma EndMoved(x: seq<u1>, code: seq<u1>, pc: nat)
    requires pc < |code| && Aligned(code, pc, |x|)
    ensures var y := x + code;
            && y[|x| + pc] == code[pc]
            && OperandStart(code[pc], |x| + pc) == |x| + OperandStart(code[pc], pc)
            && (End(y, |x| + pc).Some? <==> End(code, pc).Some?)
            && (End(code, pc).Some? ==> End(y, |x| + pc).value == |x| + End(code, pc).value)
  {
    hide S32;
    var p := OperandStart(code[pc], pc);
    if p + 8 <= |code| {
      WordMoved(x, code, p + 4);
    }
    if p + 12 <= |code| {
      WordMoved(x, code, p + 8);
    }
  }

  // Behind an insertion an aligned instruction decodes as before.
  lemma DecodeMoved(x: seq<u1>, code: seq<u1>, pc: nat)
    requires pc < |code| && Aligned(code, pc, |x|)
    ensures Decode(x + code, |x| + pc) == Decode(code, pc)
  {
    hide End, OperandStart;
    var y := x + code;
    EndMoved(x, code, pc);
    if Decode(code, pc).Some? {
      var start, end := OperandStart(code[pc], pc), End(code, pc).value;
      EndAfterOperands(code, pc);
      assert y[|x| + start..|x| + end] == code[start..end];
    }
  }

  // A whole instruction of the insertion decodes the same when code follows.
  lemma DecodeKept(x: seq<u1>, code: seq<u1>, pc: nat)
    requires Decode(x, pc).Some?
    ensures Decode(x + code, pc) == Decode(x, pc)
  {
    hide S32;
    var y := x + code;
    var start := OperandStart(x[pc], pc);
    WordsKept(x, code, start);
    EndAfterOperands(x, pc);
    assert y[start..End(x, pc).value] == x[start..End(x, pc).value];
  }

  lemma WordsKept(x: seq<u1>, code: seq<u1>, p: nat)
    ensures p + 8 <= |x| ==> S32(x + code, p + 4) == S32(x, p + 4)
    ensures p + 12 <= |x| ==> S32(x + code, p + 8) == S32(x, p + 8)
  {
    var y := x + code;
    assert forall k :: 0 <= k < |x| ==> y[k] == x[k];
  }

  predicate IsSwitch(op: u1) {
    op == TABLESWITCH || op == LOOKUPSWITCH
  }

  // A whole instruction decodes the same behind an insertion exactly when it is aligned.
  lemma MovedIffAligned(x: seq<u1>, code: seq<u1>, pc: int)
    requires Decode(code, pc).Some?
    ensures Decode(x + code, |x| + pc) == Decode(code, pc) <==> Aligned(code, pc, |x|)
  {
    hide Decode;
    DecodeSome(code, pc);
    if Aligned(code, pc, |x|) {
      DecodeMoved(x, code, pc);
    } else if Decode(x + code, |x| + pc) == Decode(code, pc) {
      DecodePadding(code, pc);
      DecodePadding(x + code, |x| + pc);
    }
  }

  // Length and bytes of an instruction show how much padding it has.
  lemma DecodePadding(code: seq<u1>, pc: int)
    requires Decode(code, pc).Some?
    ensures var instr := Decode(code, pc).value;
            instr.length - |instr.bytes| == if IsSwitch(code[pc]) then 3 - pc % 4 else 0
  {
    hide End;
    EndAfterOperands(code, pc);
  }

  // All instructions of a method, which stand at these pcs, decode the same behind an insertion
  // exactly when its length is a multiple of 4 or none of them is a switch.
  lemma AlignmentExact(x: seq<u1>, code: seq<u1>, pcs: set<int>)
    requires forall pc <- pcs :: Decode(code, pc).Some?
    ensures (forall pc <- pcs :: Decode(x + code, |x| + pc) == Decode(code, pc))
            <==> |x| % 4 == 0 || forall pc <- pcs :: !IsSwitch(code[pc])
  {
    hide Decode;
    forall pc | pc in pcs
      ensures Decode(x + code, |x| + pc) == Decode(code, pc) <==> Aligned(code, pc, |x|)
      ensures 0 <= pc < |code|
    {
      MovedIffAligned(x, code, pc);
      DecodeSome(code, pc);
    }
  }

  // ---------------------------------------------------------------- handlers

  lemma {:induction false} HandlerMoved(sem: Semantics, hs: seq<Handler>, n: u4, pc: int, d: Data)
    requires HandlersFit(hs, n)
    ensures var before := FindHandler(sem, hs, pc, d);
            var after := FindHandler(sem, ShiftHandlers(hs, n), pc + n, d);
            && (before.None? <==> after.None?)
            && (before.Some? ==> after == Some(ShiftHandler(before.value, n)))
            && (before.Some? ==> after.value.handlerPc == before.value.handlerPc + n)
    decreases |hs|
  {
    if hs != [] {
      assert hs[0] in hs;
      assert ShiftHandlers(hs, n)[1..] == ShiftHandlers(hs[1..], n);
      HandlerMoved(sem, hs[1..], n, pc, d);
    }
  }

  // No old handler covers the insertion.
  lemma {:induction false} InsertionUncovered(sem: Semantics, hs: seq<Handler>, n: u4, pc: int, d: Data)
    requires HandlersFit(hs, n) && pc < n
    ensures FindHandler(sem, ShiftHandlers(hs, n), pc, d).None?
    decreases |hs|
  {
    if hs != [] {
      assert hs[0] in hs;
      assert ShiftHandlers(hs, n)[1..] == ShiftHandlers(hs[1..], n);
      InsertionUncovered(sem, hs[1..], n, pc, d);
    }
  }

  // ---------------------------------------------------------------- simulation

  // One step of the old method is one step of the new one, n bytes further on.
  lemma StepMoved(sem: Semantics, m: Method, x: seq<u1>, s: State)
    requires |x| <= 0xFFFF && HandlersFit(m.handlers, |x|)
    requires s.Running? ==> Aligned(m.code, s.pc, |x|)
    requires Step(sem, m, s) != Stuck
    ensures Step(sem, Prepend(m, x), Shifted(s, |x|)) == Shifted(Step(sem, m, s), |x|)
  {
    hide Decode, FindHandler, Aligned, ShiftHandlers, HandlersFit;
    if s.Running? {
      var n := |x|;
      DecodeSome(m.code, s.pc);
      DecodeMoved(x, m.code, s.pc);
      assert x + m.code == Prepend(m, x).code;
      var instr := Decode(m.code, s.pc).value;
      match sem.exec(instr.bytes, s.data)
      case Raise(d) => HandlerMoved(sem, m.handlers, n, s.pc, d);
      case Next(_) =>
      case Jump(_, _) =>
      case Finish(_) =>
    }
  }

  lemma DecodeSome(code: seq<u1>, pc: int)
    ensures Decode(code, pc).Some? ==> 0 <= pc < |code|
  {
  }

  // Every switch the run executes keeps its padding.
  ghost predicate AlignedRun(sem: Semantics, m: Method, s: State, x: seq<u1>, steps: nat) {
    forall i: nat | i < steps :: Run(sem, m, s, i).Running? ==> Aligned(m.code, Run(sem, m, s, i).pc, |x|)
  }

  lemma {:induction false} StuckStays(sem: Semantics, m: Method, steps: nat)
    ensures Run(sem, m, State.Stuck, steps) == Stuck
    decreases steps
  {
    if steps > 0 {
      StuckStays(sem, m, steps - 1);
    }
  }

  // The new method follows the old one step for step from any state past the insertion.
  lemma {:induction false} RunMoved(sem: Semantics, m: Method, x: seq<u1>, s: State, steps: nat)
    requires |x| <= 0xFFFF && HandlersFit(m.handlers, |x|)
    requires AlignedRun(sem, m, s, x, steps)
    requires Run(sem, m, s, steps) != Stuck
    ensures Run(sem, Prepend(m, x), Shifted(s, |x|), steps) == Shifted(Run(sem, m, s, steps), |x|)
    decreases steps
  {
    hide Step, Prepend, HandlersFit, Aligned;
    if steps > 0 {
      var next := Step(sem, m, s);
      if next == Stuck {
        StuckStays(sem, m, steps - 1);
      }
      assert Run(sem, m, s, 0) == s;
      StepMoved(sem, m, x, s);
      forall i: nat | i < steps - 1
        ensures Run(sem, m, next, i) == Run(sem, m, s, i + 1)
      {
      }
      RunMoved(sem, m, x, next, steps - 1);
    }
  }

  // Running the insertion alone from pc: the number of steps and the final frame, if every
  // instruction falls through and the last one ends exactly at the end of the insertion.
  function StraightLine(sem: Semantics, x: seq<u1>, pc: nat, d: Data): Option<(nat, Data)>
    decreases |x| - pc
  {
    if pc >= |x| then
      if pc == |x| then Some((0, d)) else None
    else if Decode(x, pc).None? then None
    else
      var instr := Decode(x, pc).value;
      EndAfterOperands(x, pc);
      match sem.exec(instr.bytes, d)
      case Next(d') =>
        var (steps, last) :- StraightLine(sem, x, pc + instr.length, d');
        Some((steps + 1, last))
      case Jump(_, _) => None
      case Finish(_) => None
      case Raise(_) => None
  }

  // The insertion runs once, inside its own bytes, and ends at the first old instruction.
  lemma {:induction false} InsertionRuns(sem: Semantics, m: Method, x: seq<u1>, pc: nat, d: Data)
    requires StraightLine(sem, x, pc, d).Some?
    ensures var (steps, d') := StraightLine(sem, x, pc, d).value;
            && Run(sem, Prepend(m, x), Running(pc, d), steps) == Running(|x|, d')
            && forall i: nat | i < steps :: InInsertion(Run(sem, Prepend(m, x), Running(pc, d), i), x)
    decreases |x| - pc
  {
    hide FindHandler, End, ShiftHandlers;
    if pc < |x| {
      DecodeKept(x, m.code, pc);
      EndAfterOperands(x, pc);
      var instr := Decode(x, pc).value;
      var d' := sem.exec(instr.bytes, d).data;
      var after := Prepend(m, x);
      var next := Running(pc + instr.length, d');
      assert Step(sem, after, Running(pc, d)) == next;
      InsertionRuns(sem, m, x, pc + instr.length, d');
      var steps := StraightLine(sem, x, pc, d).value.0;
      forall i: nat | i < steps
        ensures InInsertion(Run(sem, after, Running(pc, d), i), x)
      {
        if i > 0 {
          assert Run(sem, after, Running(pc, d), i) == Run(sem, after, next, i - 1);
        }
      }
    }
  }

  predicate InInsertion(s: State, x: seq<u1>) {
    s.Running? && 0 <= s.pc < |x|
  }

  // An exception raised inside the insertion leaves the method: no handler takes it.
  lemma InsertionThrows(sem: Semantics, m: Method, x: seq<u1>, pc: nat, d: Data)
    requires |x| <= 0xFFFF && HandlersFit(m.handlers, |x|)
    requires pc < |x| && Decode(x, pc).Some? && sem.exec(Decode(x, pc).value.bytes, d).Raise?
    ensures Step(sem, Prepend(m, x), Running(pc, d)) == Threw(sem.exec(Decode(x, pc).value.bytes, d).data)
  {
    hide Decode, FindHandler, ShiftHandlers, HandlersFit;
    DecodeKept(x, m.code, pc);
    InsertionUncovered(sem, m.handlers, |x|, pc, sem.exec(Decode(x, pc).value.bytes, d).data);
  }

  lemma {:induction false} RunSum(sem: Semantics, m: Method, s: State, first: nat, second: nat)
    ensures Run(sem, m, s, first + second) == Run(sem, m, Run(sem, m, s, first), second)
    decreases first
  {
    if first > 0 {
      RunSum(sem, m, Step(sem, m, s), first - 1, second);
    }
  }

  // The whole method: the new one runs the insertion, and from then on is in the state of the
  // old method, started in the frame the insertion leaves, with every pc moved by the
  // inserted length. This holds for every number of steps the old method can take.
  lemma PrependKeepsMeaning(sem: Semantics, m: Method, x: seq<u1>, d: Data, steps: nat)
    requires |x| <= 0xFFFF && HandlersFit(m.handlers, |x|)
    requires StraightLine(sem, x, 0, d).Some?
    requires AlignedRun(sem, m, Running(0, StraightLine(sem, x, 0, d).value.1), x, steps)
    requires Run(sem, m, Running(0, StraightLine(sem, x, 0, d).value.1), steps) != Stuck
    ensures var (inserted, d') := StraightLine(sem, x, 0, d).value;
            Run(sem, Prepend(m, x), Running(0, d), inserted + steps) ==
            Shifted(Run(sem, m, Running(0, d'), steps), |x|)
  {
    hide Step, StraightLine, Prepend, HandlersFit, AlignedRun;
    var (inserted, d') := StraightLine(sem, x, 0, d).value;
    InsertionRuns(sem, m, x, 0, d);
    RunSum(sem, Prepend(m, x), Running(0, d), inserted, steps);
    RunMoved(sem, m, x, Running(0, d'), steps);
  }

  // Once past the insertion, no step goes back into it.
  lemma NeverReenters(sem: Semantics, m: Method, x: seq<u1>, d: Data, steps: nat)
    requires |x| <= 0xFFFF && HandlersFit(m.handlers, |x|)
    requires StraightLine(sem, x, 0, d).Some?
    requires AlignedRun(sem, m, Running(0, StraightLine(sem, x, 0, d).value.1), x, steps)
    requires Run(sem, m, Running(0, StraightLine(sem, x, 0, d).value.1), steps + 1) != Stuck
    ensures var s := Run(sem, Prepend(m, x), Running(0, d), StraightLine(sem, x, 0, d).value.0 + steps);
            s.Running? ==> s.pc >= |x|
  {
    var d' := StraightLine(sem, x, 0, d).value.1;
    var s := Run(sem, m, Running(0, d'), steps);
    RunSum(sem, m, Running(0, d'), steps, 1);
    hide StraightLine, Prepend, HandlersFit, AlignedRun, Decode, FindHandler;
    assert Step(sem, m, s) != Stuck by {
      assert Run(sem, m, s, 1) == Run(sem, m, Step(sem, m, s), 0);
    }
    if s.Running? {
      DecodeSome(m.code, s.pc);
    }
    PrependKeepsMeaning(sem, m, x, d, steps);
  }

  // ---------------------------------------------------------------- the insertion of the hook

  // aload_0, aload_1, invokestatic of the hook's method reference.
  function HookInsertion(methodRef: u2): seq<u1> {
    [0x2A, 0x2B, 0xB8] + Wr16(methodRef)
  }

  predicate FallsThrough(sem: Semantics, instr: seq<u1>, d: Data) {
    sem.exec(instr, d).Next?
  }

  // All instructions of a method survive the insertion of the hook exactly when none is a switch.
  lemma HookMovesSwitches(methodRef: u2, code: seq<u1>, pcs: set<int>)
    requires forall pc <- pcs :: Decode(code, pc).Some?
    ensures (forall pc <- pcs :: Decode(HookInsertion(methodRef) + code, 5 + pc) == Decode(code, pc))
            <==> forall pc <- pcs :: !IsSwitch(code[pc])
  {
    AlignmentExact(HookInsertion(methodRef), code, pcs);
  }

  // The hook is straight-line exactly when its three instructions fall through, the call included,
  // and then it takes three steps.
  lemma HookIsStraight(sem: Semantics, methodRef: u2, d: Data)
    ensures var x := HookInsertion(methodRef);
            var call := [0xB8] + Wr16(methodRef);
            && |x| == 5
            && (StraightLine(sem, x, 0, d).Some? <==>
                  && FallsThrough(sem, [0x2A], d)
                  && FallsThrough(sem, [0x2B], sem.exec([0x2A], d).data)
                  && FallsThrough(sem, call, sem.exec([0x2B], sem.exec([0x2A], d).data).data))
            && (StraightLine(sem, x, 0, d).Some? ==> StraightLine(sem, x, 0, d).value.0 == 3)
  {
    hide Wr16, Rd32;
    var x := HookInsertion(methodRef);
    HookDecodes(methodRef);
    if FallsThrough(sem, [0x2A], d) {
      var d1 := sem.exec([0x2A], d).data;
      if FallsThrough(sem, [0x2B], d1) {
        var d2 := sem.exec([0x2B], d1).data;
        LastStep(sem, x, 2, d2);
        assert StraightLine(sem, x, 1, d1).Some? <==> StraightLine(sem, x, 2, d2).Some?;
      } else {
        assert StraightLine(sem, x, 1, d1).None?;
      }
    }
  }

  lemma HookDecodes(methodRef: u2)
    ensures var x := HookInsertion(methodRef);
            && |x| == 5
            && Decode(x, 0) == Some(Instr(1, [0x2A])) && Decode(x, 1) == Some(Instr(1, [0x2B]))
            && Decode(x, 2) == Some(Instr(3, [0xB8] + Wr16(methodRef)))
  {
    hide Rd32;
    var x := HookInsertion(methodRef);
    assert [x[0]] + x[1..1] == [0x2A] && [x[1]] + x[2..2] == [0x2B];
    assert x[3..5] == Wr16(methodRef);
  }

  lemma LastStep(sem: Semantics, x: seq<u1>, pc: nat, d: Data)
    requires pc < |x| && Decode(x, pc).Some? && pc + Decode(x, pc).value.length == |x|
    ensures StraightLine(sem, x, pc, d).Some? <==> FallsThrough(sem, Decode(x, pc).value.bytes, d)
    ensures StraightLine(sem, x, pc, d).Some? ==> StraightLine(sem, x, pc, d).value.0 == 1
  {
    hide Decode;
  }
}
