/** The server object whose critical sections are the steps of the session model. Each method is
    one section, written with the fields, loops and calls of the source; its contract says that
    the new state is the model's step from the old one.

    Ghost fields hold what the source keeps elsewhere: where the login and the render thread
    stand, whether B's channel was closed, and the history. */
module ProxyServers {
  import opened Wrappers
  import opened LoginHandoff
  import opened PacketPolicy
  import opened References
  import opened SessionModel
  import Model = SessionModel
  import SessionProofs

  // What is not in the server object: whether B's channel was closed, where the login and the
  // snapshot jobs stand, and the history.
  datatype Outer = Outer(
    closing: bool,
    login: LoginPc,
    job: nat,
    queued: set<nat>,
    running: Option<nat>,
    bounded: bool,
    captured: bool,
    since: seq<Packet>,
    log: seq<Note>)

  // Notes a step of the history.
  function Noted(o: Outer, n: Note): Outer {
    o.(log := o.log + [n])
  }

  // A captured packet and what becomes of it when it is written.
  datatype Captive = Captive(ref: Ref, fate: Fate)

  function RefsOf(packets: seq<Captive>): seq<Ref> {
    if packets == [] then [] else RefsOf(packets[..|packets| - 1]) + [packets[|packets| - 1].ref]
  }

  predicate NoneRejected(packets: seq<Captive>) {
    forall p <- packets :: p.fate != Rejected
  }

  // The captured packets that reach B: those the filter lets through, up to the first that
  // cannot be prepared or written.
  function Passed(packets: seq<Captive>): seq<Ref> {
    if packets == [] then []
    else
      var last := packets[|packets| - 1];
      Passed(packets[..|packets| - 1]) + (if NoneRejected(packets) && last.fate == Written then [last.ref] else [])
  }

  // Exactly the packets that are written before the first rejected one reach B.
  lemma {:induction false} PassedExactly(packets: seq<Captive>, r: Ref)
    requires forall i, j :: 0 <= i < j < |packets| ==> packets[i].ref != packets[j].ref
    ensures r in Passed(packets)
            <==> exists i :: 0 <= i < |packets| && packets[i] == Captive(r, Written)
                             && forall j :: 0 <= j < i ==> packets[j].fate != Rejected
    decreases |packets|
  {
    if packets != [] {
      var n := |packets| - 1;
      PassedExactly(packets[..n], r);
      assert forall i :: 0 <= i < n ==> packets[..n][i] == packets[i];
      if packets[n] == Captive(r, Written) && NoneRejected(packets) {
        assert forall j :: 0 <= j < n ==> packets[j] in packets;
      }
    }
  }

  lemma SnapshotNext(packets: seq<Captive>, i: nat)
    requires i < |packets|
    ensures RefsOf(packets[..i + 1]) == RefsOf(packets[..i]) + [packets[i].ref]
    ensures NoneRejected(packets[..i + 1]) <==> NoneRejected(packets[..i]) && packets[i].fate != Rejected
    ensures Passed(packets[..i + 1]) == Passed(packets[..i])
      + (if NoneRejected(packets[..i]) && packets[i].fate == Written then [packets[i].ref] else [])
  {
    assert packets[..i + 1][..i] == packets[..i];
    assert packets[..i + 1] == packets[..i] + [packets[i]];
  }

  lemma NoCaptives(packets: seq<Captive>)
    ensures RefsOf(packets[..0]) == [] && NoneRejected(packets[..0]) && Passed(packets[..0]) == []
    ensures packets[..|packets|] == packets
  {
  }

  lemma {:induction false} DeliverConcat(s: State, c: Chan, xs: seq<Packet>, ys: seq<Packet>)
    requires (forall l <- xs :: l.Leaf?) && (forall l <- ys :: l.Leaf?)
    ensures forall l <- xs + ys :: l.Leaf?
    ensures Model.Deliver(s, c, xs + ys) == Model.Deliver(Model.Deliver(s, c, xs), c, ys)
    decreases |xs|
  {
    if xs == [] {
      assert xs + ys == ys;
    } else {
      assert (xs + ys)[1..] == xs[1..] + ys;
      DeliverConcat(Model.DeliverLeaf(s, c, xs[0]), c, xs[1..], ys);
    }
  }

  lemma DeliverOne(s: State, c: Chan, leaf: Packet)
    requires leaf.Leaf?
    ensures Reached(leaf) == [leaf] && Model.Deliver(s, c, [leaf]) == Model.DeliverLeaf(s, c, leaf)
  {
    assert [leaf][1..] == [];
  }

  lemma ForwardKeepsClient(s: State, p: Packet)
    ensures Model.ForwardLive(s, p).client == s.client
  {
    hide Model.ForwardLive;
    SessionProofs.ForwardSameBut(s, p);
  }

  lemma ForwardReady(s: State, p: Packet)
    requires s.client == AwaitReady
    ensures Model.ForwardToB(s, p, true) == Model.ForwardLive(s, p)
  {
  }

  lemma FailedTimeout(s: State, expired: bool)
    requires s.handoff == Failed
    ensures Model.CheckTimeout(s, expired) == Model.CheckTimeout(s, false)
  {
  }

  // A timeout as one update.
  lemma TimedOut(s: State, expired: bool)
    ensures Model.CheckTimeout(s, expired) ==
            if (expired && (s.handoff == Capturing || s.handoff == AwaitingAck)) || s.handoff == Failed then
              s.(handoff := Idle, closing := s.closing || s.channel.Some?, pending := [],
                 deleted := s.deleted + Refs(s.pending), log := s.log + [Broken] + [Broken])
            else s
  {
    hide Refs;
  }

  function Left(i: nat, stopAfter: nat): nat {
    if i < stopAfter then stopAfter - i else 0
  }

  lemma DrainNext(s: State, pending: seq<Held>, i: nat, stopAfter: nat)
    requires i < |pending|
    ensures var t := if stopAfter <= i then s.(stopping := true) else s;
            var u := Model.ForwardLive(t, pending[i].packet);
            Model.Drain(s, pending[i..], Left(i, stopAfter))
              == Model.Drain(u.(deleted := u.deleted + [pending[i].ref]), pending[i + 1..], Left(i + 1, stopAfter))
  {
    hide Model.ForwardLive;
    assert pending[i..][1..] == pending[i + 1..];
  }

  lemma DrainNone(s: State, stopAfter: nat)
    ensures Model.Drain(s, [], stopAfter) == s
  {
  }

  // What is left to deliver of a bundle after i sub-packets.
  function Rest(p: Packet, i: nat): (r: seq<Packet>)
    requires p.Bundle? && i <= |p.subs| && i <= p.reach
    ensures forall l <- r :: l.Leaf?
  {
    ReachedAllLeaves(p.subs[i..], p.reach - i);
    ReachedOfAll(p.subs[i..], p.reach - i)
  }

  lemma RestStep(s: State, c: Chan, p: Packet, i: nat)
    requires p.Bundle? && i < |p.subs| && i < p.reach
    ensures forall l <- Reached(p.subs[i]) :: l.Leaf?
    ensures Model.Deliver(s, c, Rest(p, i)) == Model.Deliver(Model.Deliver(s, c, Reached(p.subs[i])), c, Rest(p, i + 1))
  {
    ReachedLeaves(p.subs[i]);
    assert p.subs[i..][1..] == p.subs[i + 1..];
    DeliverConcat(s, c, Reached(p.subs[i]), Rest(p, i + 1));
  }

  lemma RestEnds(p: Packet, i: nat)
    requires p.Bundle? && i <= |p.subs| && i <= p.reach
    ensures Rest(p, 0) == Reached(p)
    ensures i == |p.subs| || i == p.reach ==> Rest(p, i) == []
  {
    assert p.subs[0..] == p.subs;
  }

  class ProxyServer {
    const handoff: LoginHandoff
    var clientState: ClientState
    var clientChannel: Option<Chan>
    var pendingPackets: seq<Held>
    var midSession: bool
    var stopping: bool
    // The JVM's references: the next one, and those deleted of the live buffer and of snapshots.
    var nextRef: Ref
    var deleted: seq<Ref>
    var released: seq<Ref>

    ghost var outer: Outer

    ghost function Value(): State
      reads this`clientState, this`clientChannel, this`pendingPackets, this`midSession, this`stopping
      reads this`nextRef, this`deleted, this`outer, handoff`state
    {
      State(handoff.state, clientState, clientChannel, outer.closing, pendingPackets, nextRef, deleted,
            midSession, stopping, outer.login, outer.job, outer.queued, outer.running, outer.bounded, outer.captured,
            outer.since, outer.log)
    }

    constructor ()
      ensures Value() == INITIAL && released == [] && fresh(handoff)
    {
      handoff := new LoginHandoff();
      clientState, clientChannel, pendingPackets := AwaitHandshake, None, [];
      midSession, stopping, nextRef, deleted, released := false, true, 0, [], [];
      outer := Outer(false, NoLogin, 0, {}, None, false, false, [], []);
    }

    method ClearPendingPackets()
      modifies this`pendingPackets, this`deleted
      ensures pendingPackets == [] && deleted == old(deleted) + Refs(old(pendingPackets))
    {
      var i := 0;
      assert pendingPackets[0..] == pendingPackets;
      while i < |pendingPackets|
        invariant i <= |pendingPackets| && pendingPackets == old(pendingPackets)
        invariant deleted + Refs(pendingPackets[i..]) == old(deleted) + Refs(old(pendingPackets))
      {
        assert pendingPackets[i..][1..] == pendingPackets[i + 1..];
        deleted := deleted + [pendingPackets[i].ref];
        i := i + 1;
      }
      pendingPackets := [];
    }

    // ---------------------------------------------------------------- A's packet thread

    method WriteClientPacket(c: Chan, packet: Packet)
      requires packet.Leaf?
      modifies this`outer
      ensures Value() == Model.DeliverLeaf(old(Value()), c, packet)
    {
      match packet.fate {
        case Skipped =>
          return;
        case Rejected =>
          outer := outer.(closing := true);
        case Written =>
          outer := if outer.closing then outer else Noted(outer, LiveWrite(c, packet.id));
      }
    }

    // Writes the sub-packets of a bundle, nested bundles included, until the iteration ends.
    method ForwardBundleExpanded(c: Chan, packet: Packet) returns (handled: bool)
      modifies this`outer
      ensures handled <==> packet.Bundle?
      ensures forall l <- Reached(packet) :: l.Leaf?
      ensures Value() == if handled then Model.Deliver(old(Value()), c, Reached(packet)) else old(Value())
      decreases packet
    {
      hide Reached, ReachedOfAll, Model.DeliverLeaf, Rest;
      ReachedLeaves(packet);
      if packet.Leaf? {
        return false;
      }
      var i := 0;
      RestEnds(packet, 0);
      ghost var start := Value();
      while i < |packet.subs| && i < packet.reach
        invariant i <= |packet.subs| && i <= packet.reach
        invariant Model.Deliver(Value(), c, Rest(packet, i)) == Model.Deliver(start, c, Reached(packet))
        modifies this`outer
      {
        RestStep(Value(), c, packet, i);
        var sub := packet.subs[i];
        if sub.Leaf? {
          DeliverOne(Value(), c, sub);
        }
        var nested := ForwardBundleExpanded(c, sub);
        if !nested {
          WriteClientPacket(c, sub);
        }
        i := i + 1;
      }
      RestEnds(packet, i);
      assert Model.Deliver(Value(), c, []) == Value();
      handled := true;
    }

    // game: the packet's class is one of the game protocol.
    method ForwardToB(packet: Packet, game: bool, refOk: bool)
      modifies this, handoff`state
      ensures Value() == if game then Model.ForwardToB(old(Value()), packet, refOk) else old(Value())
      ensures released == old(released)
    {
      hide Refs, Reached, Model.Deliver;
      if stopping || (clientState != Play && clientState != Syncing && clientState != AwaitReady) {
        return;
      }
      if !game {
        return;
      }
      if clientState == Syncing {
        if handoff.state != Capturing {
          return;
        }
        if |pendingPackets| < MAX_PENDING && refOk {
          pendingPackets := pendingPackets + [Held(nextRef, packet)];
          nextRef := nextRef + 1;
        } else {
          handoff.Fail();
          outer := Noted(outer, Broken);
          ClearPendingPackets();
        }
        return;
      }
      if clientChannel.None? {
        return;
      }
      ReachedLeaves(packet);
      if packet.Leaf? {
        DeliverOne(Value(), clientChannel.value, packet);
      }
      var expanded := ForwardBundleExpanded(clientChannel.value, packet);
      if !expanded {
        WriteClientPacket(clientChannel.value, packet);
      }
    }

    // A's relay handler got a packet of this class and has passed it on to A.
    method PacketFromA(packet: Packet, name: string, refOk: bool)
      modifies this, handoff`state
      ensures Value() == Model.FromA(old(Value()), packet, IsGamePacket(name), refOk) && released == old(released)
    {
      if IsGamePacket(name) {
        outer := outer.(since := outer.since + [packet]);
      }
      ForwardToB(packet, IsGamePacket(name), refOk);
    }

    // ---------------------------------------------------------------- B's event loop

    method LoginIntention(c: Chan, refOk: bool)
      requires !Busy(Value(), c)
      modifies this`clientChannel, this`clientState, this`outer
      ensures Value() == Model.Intention(old(Value()), c, refOk)
    {
      var occupied := clientChannel.Some? && clientChannel.value != c;
      if !occupied {
        if clientChannel.None? && refOk {
          clientChannel := Some(c);
          outer := outer.(closing := false);
        }
        if clientChannel.None? {
          return;
        }
        clientState := AwaitLogin;
      }
    }

    // The first dispatch section of the reconstruction. ready: A's connection is there.
    method BeginSync(now: int, ready: bool)
      requires outer.login.Reconstruct?
      modifies this, handoff
      ensures Value() == Model.BeginSync(old(Value()), ready) && released == old(released)
      ensures ready ==> handoff.deadline == now + 20
    {
      hide Refs;
      if !ready {
        outer := outer.(closing := true, login := NoLogin);
        return;
      }
      ClearPendingPackets();
      handoff.Begin(now);
      clientState := Syncing;
      outer := Noted(outer, Begun(outer.login.c, outer.job + 1))
        .(login := Waiting(outer.login.c), job := outer.job + 1, queued := outer.queued + {outer.job + 1},
          bounded := false, captured := false, since := []);
    }

    // Sends the captured packets up to the first failure and releases every one of them.
    method SendSnapshot(packets: seq<Captive>) returns (ok: bool, sent: seq<Ref>)
      modifies this`released
      ensures released == old(released) + RefsOf(packets)
      ensures ok <==> !stopping && handoff.state == Capturing && NoneRejected(packets)
      ensures sent == if !stopping && handoff.state == Capturing then Passed(packets) else []
    {
      hide RefsOf, NoneRejected, Passed;
      ok, sent := !stopping && handoff.state == Capturing, [];
      ghost var may := ok;
      var i := 0;
      NoCaptives(packets);
      while i < |packets|
        invariant i <= |packets|
        invariant released == old(released) + RefsOf(packets[..i])
        invariant ok <==> may && NoneRejected(packets[..i])
        invariant sent == if may then Passed(packets[..i]) else []
      {
        SnapshotNext(packets, i);
        if ok {
          match packets[i].fate {
            case Written => sent := sent + [packets[i].ref];
            case Skipped =>
            case Rejected => ok := false;
          }
        }
        released := released + [packets[i].ref];
        i := i + 1;
      }
    }

    // The second dispatch section.
    method WriteSnapshot(packets: seq<Captive>) returns (ok: bool, sent: seq<Ref>)
      requires outer.login.Writing?
      modifies this, handoff`state
      ensures Value() == Model.WriteSnapshot(old(Value()), NoneRejected(packets))
      ensures released == old(released) + RefsOf(packets)
      ensures ok <==> !old(stopping) && old(handoff.state) == Capturing && NoneRejected(packets)
      ensures sent == if !old(stopping) && old(handoff.state) == Capturing then Passed(packets) else []
    {
      hide Model.WriteSnapshot, RefsOf, Passed, NoneRejected, Value;
      ok, sent := SendSnapshot(packets);
      EndSnapshot(ok, NoneRejected(packets));
    }

    method EndSnapshot(ok: bool, complete: bool)
      requires outer.login.Writing?
      requires ok <==> !stopping && handoff.state == Capturing && complete
      modifies this, handoff`state
      ensures Value() == Model.WriteSnapshot(old(Value()), complete) && released == old(released)
    {
      hide Refs;
      if ok {
        outer := Noted(outer, SnapshotWritten(outer.login.c, outer.job)).(login := Tail(outer.login.c, true));
      } else {
        ClearPendingPackets();
        handoff.Fail();
        outer := Noted(outer, Broken).(closing := true, login := NoLogin);
      }
    }

    // Forwards and releases the packets held so far.
    method DrainPending(pending: seq<Held>, stopAfter: nat)
      requires clientState == AwaitReady
      modifies this, handoff`state
      ensures Value() == Model.Drain(old(Value()), pending, stopAfter) && released == old(released)
    {
      hide Model.ForwardToB, Model.ForwardLive, Model.Drain;
      ghost var start := Value();
      var i := 0;
      assert pending[0..] == pending;
      while i < |pending|
        invariant i <= |pending| && clientState == AwaitReady && released == old(released)
        invariant Model.Drain(Value(), pending[i..], Left(i, stopAfter)) == Model.Drain(start, pending, stopAfter)
      {
        DrainNext(Value(), pending, i, stopAfter);
        if stopAfter <= i {
          stopping := true;
        }
        ForwardKeepsClient(Value(), pending[i].packet);
        ForwardReady(Value(), pending[i].packet);
        ForwardToB(pending[i].packet, true, true);
        deleted := deleted + [pending[i].ref];
        i := i + 1;
      }
      assert pending[i..] == [];
      DrainNone(Value(), Left(i, stopAfter));
    }

    // The end of the login. stopAfter: the controller's stop request is seen once so many held
    // packets were forwarded.
    method FinishLogin(now: int, stopAfter: nat)
      requires outer.login.Tail?
      modifies this, handoff`state
      ensures Value() == Model.FinishLogin(old(Value()), stopAfter) && released == old(released)
    {
      hide Model.Drain, Refs, Model.CheckTimeout;
      if midSession {
        if stopping {
          outer := outer.(login := NoLogin);
          return;
        }
        var sent := handoff.SnapshotSent();
        if !sent {
          handoff.Fail();
          outer := Noted(outer, Broken);
          FailedTimeout(Value(), now >= handoff.deadline);
          CheckLoginTimeout(now);
          outer := outer.(login := NoLogin);
          return;
        }
        outer := Noted(outer, Sent(outer.login.c)).(login := NoLogin);
        clientState := AwaitReady;
        var pending := pendingPackets;
        pendingPackets := [];
        DrainPending(pending, stopAfter);
      } else {
        clientState := Play;
        outer := Noted(outer, Direct(outer.login.c)).(since := [], login := NoLogin);
      }
    }

    // A packet of B that is neither an intention nor a hello.
    method PacketFromB(c: Chan, message: Message, ackBound: bool)
      requires !Busy(Value(), c)
      modifies this, handoff`state
      ensures Value() == Model.FromB(old(Value()), c, message, ackBound) && released == old(released)
    {
      if clientChannel != Some(c) {
        return;
      }
      if message.TeleportAck? && ackBound {
        ghost var awaited := handoff.state == AwaitingAck;
        var consumed := handoff.Acknowledge(message.id);
        if consumed {
          if awaited {
            outer := Noted(outer, LocalAck(c));
          }
          if clientState == AwaitReady && handoff.state == Active {
            clientState := Play;
          }
          return;
        }
      }
      if clientState == Play && Permitted(message) {
        outer := Noted(outer, Routed(c, message));
      }
    }

    method ChannelInactive(c: Chan)
      requires !Busy(Value(), c)
      modifies this, handoff`state
      ensures Value() == Model.Inactive(old(Value()), c) && released == old(released)
    {
      hide Refs;
      if stopping || clientChannel != Some(c) {
        return;
      }
      clientChannel, clientState := None, AwaitHandshake;
      outer := Noted(outer, Broken).(closing := false);
      handoff.Reset();
      ClearPendingPackets();
    }

    // ---------------------------------------------------------------- A's render thread

    method BeginSnapshot() returns (passed: bool)
      requires outer.running.Some?
      modifies this
      ensures Value() == Model.Boundary(old(Value())) && released == old(released)
      ensures passed <==> !old(stopping) && old(handoff.state) == Capturing
    {
      hide Refs;
      if stopping || handoff.state != Capturing {
        return false;
      }
      ClearPendingPackets();
      ghost var j := outer.running.value;
      outer := Noted(outer, Bounded(j)).(since := [], bounded := outer.bounded || j == outer.job);
      return true;
    }

    // ---------------------------------------------------------------- the controller

    method CheckLoginTimeout(now: int)
      modifies this, handoff`state
      ensures Value() == Model.CheckTimeout(old(Value()), now >= old(handoff.deadline)) && released == old(released)
    {
      hide Refs, Model.CheckTimeout;
      TimedOut(Value(), now >= handoff.deadline);
      var expired := handoff.Expired(now);
      if !expired && handoff.state != Failed {
        return;
      }
      handoff.Fail();
      ClearPendingPackets();
      // B's channel, when there is one, is closed.
      outer := Noted(Noted(outer, Broken), Broken).(closing := outer.closing || clientChannel.Some?);
      handoff.Reset();
    }

    method RequestStop()
      modifies this`stopping
      ensures Value() == Model.RequestStop(old(Value()))
    {
      stopping := true;
    }

    // The release part of the stop, once the event loops and all callbacks are done.
    method Release()
      requires stopping && outer.login == NoLogin
      modifies this, handoff`state
      ensures Value() == Model.StopDone(old(Value())) && released == old(released)
    {
      hide Refs;
      clientChannel, clientState := None, AwaitHandshake;
      midSession := false;
      ClearPendingPackets();
      handoff.Reset();
      outer := Noted(outer, Broken).(closing := false);
    }
  }
}
