/** The marks that let B's packets pass A's write filter. */
module BypassMarks {
  import opened PacketPolicy
  import Controller
  import Lifecycle

  // A mark holds a reference to the packet, which is recognised by identity when it is written.

  // Java identities.
  type Object = nat

  const LIMIT := 256

  function Marked(marks: seq<Object>, packet: Object): seq<Object> {
    (if |marks| > LIMIT then marks[1..] else marks) + [packet]
  }

  // The first mark of the packet, or the number of marks.
  function Find(marks: seq<Object>, packet: Object): (i: nat)
    ensures i <= |marks| && (i < |marks| ==> marks[i] == packet) && (i < |marks| <==> packet in marks)
    ensures forall j :: 0 <= j < i ==> marks[j] != packet
  {
    if marks == [] || marks[0] == packet then 0 else 1 + Find(marks[1..], packet)
  }

  function Consumed(marks: seq<Object>, packet: Object): seq<Object> {
    var i := Find(marks, packet);
    if i < |marks| then marks[..i] + marks[i + 1..] else marks
  }

  datatype Op = Mark(packet: Object) | Consume(packet: Object)

  function Apply(marks: seq<Object>, op: Op): seq<Object> {
    match op
    case Mark(p) => Marked(marks, p)
    case Consume(p) => Consumed(marks, p)
  }

  function Run(marks: seq<Object>, ops: seq<Op>): seq<Object>
    decreases |ops|
  {
    if ops == [] then marks else Run(Apply(marks, ops[0]), ops[1..])
  }

  function Marks(ops: seq<Op>): nat {
    if ops == [] then 0 else (if ops[0].Mark? then 1 else 0) + Marks(ops[1..])
  }

  // ---------------------------------------------------------------- the list is bounded

  lemma {:induction false} NeverLong(marks: seq<Object>, ops: seq<Op>)
    requires |marks| <= 257
    ensures |Run(marks, ops)| <= 257
    decreases |ops|
  {
    if ops != [] {
      NeverLong(Apply(marks, ops[0]), ops[1..]);
    }
  }

  // ---------------------------------------------------------------- a mark survives

  // A mark of the packet with at most n marks behind it.
  predicate Held(marks: seq<Object>, packet: Object, n: nat) {
    exists i :: 0 <= i < |marks| && marks[i] == packet && |marks| - 1 - i <= n
  }

  lemma HeldAfterMark(marks: seq<Object>, p: Object, packet: Object, n: nat)
    requires Held(marks, packet, n) && n < LIMIT && |marks| <= LIMIT + 1
    ensures Held(Marked(marks, p), packet, n + 1)
  {
    var i :| 0 <= i < |marks| && marks[i] == packet && |marks| - 1 - i <= n;
    var next := Marked(marks, p);
    if |marks| > LIMIT {
      assert i > 0 && next[i - 1] == packet;
    } else {
      assert next[i] == packet;
    }
  }

  lemma HeldAfterConsume(marks: seq<Object>, p: Object, packet: Object, n: nat)
    requires Held(marks, packet, n) && p != packet
    ensures Held(Consumed(marks, p), packet, n)
  {
    var i :| 0 <= i < |marks| && marks[i] == packet && |marks| - 1 - i <= n;
    var next := Consumed(marks, p);
    var k := Find(marks, p);
    if k < |marks| {
      var at := if k < i then i - 1 else i;
      assert next[at] == packet;
    }
  }

  lemma {:induction false} HeldThrough(marks: seq<Object>, ops: seq<Op>, packet: Object, n: nat)
    requires |marks| <= LIMIT + 1 && Held(marks, packet, n) && n + Marks(ops) <= LIMIT
    requires forall i :: 0 <= i < |ops| ==> ops[i] != Consume(packet)
    ensures packet in Run(marks, ops)
    decreases |ops|
  {
    if ops == [] {
      var i :| 0 <= i < |marks| && marks[i] == packet && |marks| - 1 - i <= n;
    } else {
      match ops[0] {
        case Mark(p) => HeldAfterMark(marks, p, packet, n);
        case Consume(p) => HeldAfterConsume(marks, p, packet, n);
      }
      NeverLong(marks, [ops[0]]);
      assert [ops[0]][1..] == [];
      assert Run(Apply(marks, ops[0]), []) == Apply(marks, ops[0]);
      HeldThrough(Apply(marks, ops[0]), ops[1..], packet, if ops[0].Mark? then n + 1 else n);
    }
  }

  // A marked packet is recognised through 256 later marks, whatever other packets are consumed
  // in between: however the list was filled before.
  lemma MarkSurvives(marks: seq<Object>, packet: Object, ops: seq<Op>)
    requires |marks| <= 257 && Marks(ops) <= 256
    requires forall i :: 0 <= i < |ops| ==> ops[i] != Consume(packet)
    ensures packet in Run(Marked(marks, packet), ops)
  {
    hide Run, Marks;
    var next := Marked(marks, packet);
    assert next[|next| - 1] == packet;
    HeldThrough(next, ops, packet, 0);
  }

  lemma {:induction false} Displaced(marks: seq<Object>, packets: seq<Object>, i: nat)
    requires i < |marks| <= LIMIT + 1 && |packets| + |marks| - 1 - i == LIMIT + 1
    ensures forall x <- Run(marks, Only(packets)) :: x in marks[i + 1..] || x in packets
    decreases |packets|
  {
    if packets == [] {
      assert false;
    } else {
      var next := Marked(marks, packets[0]);
      var ops := Only(packets);
      assert ops[1..] == Only(packets[1..]);
      if |marks| > LIMIT {
        if i == 0 {
          assert Run(next, []) == next && next == marks[1..] + [packets[0]] && ops[1..] == [];
        } else {
          Displaced(next, packets[1..], i - 1);
          assert next[i..] == marks[i + 1..] + [packets[0]];
        }
      } else {
        Displaced(next, packets[1..], i);
        assert next[i + 1..] == marks[i + 1..] + [packets[0]];
      }
    }
  }

  function Only(packets: seq<Object>): (ops: seq<Op>)
    ensures |ops| == |packets|
  {
    if packets == [] then [] else [Mark(packets[0])] + Only(packets[1..])
  }

  // The bound is sharp: 257 later marks of other packets displace it.
  lemma MarkDisplaced(marks: seq<Object>, packet: Object, packets: seq<Object>)
    requires |marks| <= 257 && packet !in packets && |packets| == 257
    ensures packet !in Run(Marked(marks, packet), Only(packets))
  {
    var next := Marked(marks, packet);
    Displaced(next, packets, |next| - 1);
    assert next[|next|..] == [];
  }

  // ---------------------------------------------------------------- A's write filter

  predicate Writes(marks: seq<Object>, packet: Object, name: string, bActive: bool) {
    packet in marks || AllowFromA(name, bActive)
  }

  // While B is active, A's filter passes a marked packet within the window whatever it is.
  lemma {:induction false} FilterPassesMarked(marks: seq<Object>, packet: Object, ops: seq<Op>, name: string)
    requires |marks| <= 257 && Marks(ops) <= 256
    requires forall i :: 0 <= i < |ops| ==> ops[i] != Consume(packet)
    ensures Writes(Run(Marked(marks, packet), ops), packet, name, true)
  {
    hide Run, Marks;
    MarkSurvives(marks, packet, ops);
  }

  // Of the other packets it passes exactly those that B may not send: each packet has one sender.
  lemma OneSender(marks: seq<Object>, packet: Object, name: string)
    requires packet !in marks
    ensures Writes(marks, packet, name, true) <==> !AllowFromB(name)
    ensures Writes(marks, packet, name, false)
  {
  }

  // ---------------------------------------------------------------- the handler

  class RelayHandler {
    var bypassPending: seq<Object>
    var pipelines: seq<nat>
    // The packets whose reference was deleted.
    var deleted: seq<Object>
    var deletedWeak: seq<nat>

    constructor ()
      ensures bypassPending == [] && pipelines == [] && deleted == [] && deletedWeak == []
    {
      bypassPending, pipelines, deleted, deletedWeak := [], [], [], [];
    }

    method MarkBypass(packet: Object, refOk: bool)
      modifies this`bypassPending, this`deleted
      ensures bypassPending == if refOk then Apply(old(bypassPending), Mark(packet)) else old(bypassPending)
      ensures refOk ==> multiset(bypassPending) + multiset(deleted)
                          == multiset(old(bypassPending)) + multiset(old(deleted)) + multiset{packet}
    {
      if !refOk {
        return;
      }
      if |bypassPending| > LIMIT {
        assert bypassPending == [bypassPending[0]] + bypassPending[1..];
        deleted := deleted + [bypassPending[0]];
        bypassPending := bypassPending[1..];
      }
      bypassPending := bypassPending + [packet];
    }

    method ConsumeBypassMark(packet: Object) returns (found: bool)
      modifies this`bypassPending, this`deleted
      ensures bypassPending == Apply(old(bypassPending), Consume(packet)) && (found <==> packet in old(bypassPending))
      ensures deleted == if found then old(deleted) + [packet] else old(deleted)
    {
      var i := 0;
      while i < |bypassPending|
        invariant i <= |bypassPending| && forall j :: 0 <= j < i ==> bypassPending[j] != packet
      {
        if bypassPending[i] == packet {
          deleted := deleted + [bypassPending[i]];
          bypassPending := bypassPending[..i] + bypassPending[i + 1..];
          return true;
        }
        i := i + 1;
      }
      return false;
    }

    // What A's write handler decides for an admitted callback.
    method Write(packet: Object, name: string, bActive: bool) returns (allow: bool)
      modifies this`bypassPending, this`deleted
      ensures allow <==> Writes(old(bypassPending), packet, name, bActive)
      ensures bypassPending == Apply(old(bypassPending), Consume(packet))
    {
      var bypass := ConsumeBypassMark(packet);
      allow := bypass || AllowFromA(name, bActive);
    }

    // kept: the pipelines from which the relay could not be removed; they stay for the next
    // attempt. All marks are dropped.
    method DetachAll(kept: set<nat>) returns (ok: bool)
      modifies this
      ensures pipelines == Controller.Kept(old(pipelines), kept) && (ok <==> pipelines == [])
      ensures multiset(deletedWeak) + multiset(pipelines) == multiset(old(deletedWeak)) + multiset(old(pipelines))
      ensures bypassPending == [] && deleted == old(deleted) + old(bypassPending)
    {
      hide Controller.Kept;
      ghost var before := multiset(deletedWeak);
      var pending := [];
      var i := 0;
      Lifecycle.NoneKept(pipelines, kept);
      while i < |pipelines|
        invariant i <= |pipelines| && pending == Controller.Kept(pipelines[..i], kept)
        invariant multiset(deletedWeak) + multiset(pending) == before + multiset(pipelines[..i])
        modifies this`deletedWeak
      {
        Lifecycle.KeptNext(pipelines, kept, i);
        Lifecycle.MovedOne(deletedWeak, pending, pipelines[i]);
        if pipelines[i] in kept {
          pending := pending + [pipelines[i]];
        } else {
          deletedWeak := deletedWeak + [pipelines[i]];
        }
        i := i + 1;
      }
      assert pipelines[..|pipelines|] == pipelines;
      pipelines := pending;
      i := 0;
      while i < |bypassPending|
        invariant i <= |bypassPending| && deleted == old(deleted) + bypassPending[..i]
        modifies this`deleted
      {
        assert bypassPending[..i + 1] == bypassPending[..i] + [bypassPending[i]];
        deleted := deleted + [bypassPending[i]];
        i := i + 1;
      }
      assert bypassPending[..|bypassPending|] == bypassPending;
      bypassPending := [];
      ok := pipelines == [];
    }
  }
}
