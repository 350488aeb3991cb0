/** Stopping the server object: what a failed attempt leaves and what a complete one releases. */
module Lifecycle {
  import opened LoginHandoff
  import SessionModel
  import Model = Controller

  // What the server object does not hold: the callback gate, the load hook and the relay.
  datatype Outside = Outside(gate: Model.CallbackGate, hook: bool, pipelines: seq<nat>, marks: nat)

  lemma KeptNext(xs: seq<nat>, kept: set<nat>, i: nat)
    requires i < |xs|
    ensures Model.Kept(xs[..i + 1], kept) == Model.Kept(xs[..i], kept) + (if xs[i] in kept then [xs[i]] else [])
    ensures multiset(xs[..i + 1]) == multiset(xs[..i]) + multiset{xs[i]}
  {
    assert xs[..i + 1][..i] == xs[..i];
    assert xs[..i + 1] == xs[..i] + [xs[i]];
  }

  class Server {
    const handoff: LoginHandoff
    var stopping: bool
    var gateCancelled: bool
    var clientConnected: bool
    var gateTasks: nat
    var listener: bool
    var eventLoop: bool
    var lanPinger: bool
    var clientChannel: bool
    var targetConnection: bool
    var identities: bool
    var clientState: SessionModel.ClientState
    var midSession: bool
    var bound: bool
    var children: seq<nat>
    var pendingPackets: seq<nat>
    // The weak references of accepted channels, and the global ones of live packets, that were deleted.
    var deletedWeak: seq<nat>
    var deletedPackets: seq<nat>
    ghost var outside: Outside

    ghost function Value(): Model.World
      reads this`stopping, this`gateCancelled, this`clientConnected, this`gateTasks, this`listener, this`eventLoop
      reads this`lanPinger, this`clientChannel, this`targetConnection, this`identities, this`clientState,
            this`midSession
      reads this`bound, this`children, this`pendingPackets, this`outside, handoff`state
    {
      Model.World(outside.gate,
                  Model.Session(clientChannel, targetConnection, identities, children, |pendingPackets|, handoff.state,
                                clientState, clientConnected, outside.pipelines, outside.marks),
                  stopping, gateCancelled, gateTasks, Model.Parts(listener, eventLoop, lanPinger), midSession, bound,
                  outside.hook)
    }

    constructor ()
      ensures Value() == Model.NO_WORLD && deletedWeak == deletedPackets == [] && fresh(handoff)
    {
      handoff := new LoginHandoff();
      stopping, gateCancelled, clientConnected, gateTasks := true, false, false, 0;
      listener, eventLoop, lanPinger := false, false, false;
      clientChannel, targetConnection, identities := false, false, false;
      clientState, midSession, bound := SessionModel.AwaitHandshake, false, false;
      children, pendingPackets, deletedWeak, deletedPackets := [], [], [], [];
      outside := Outside(Model.CallbackGate(false, 0), false, [], 0);
    }

    method RequestStop()
      modifies this`stopping, this`clientConnected, this`gateCancelled
      ensures Value() == Model.AskStop(old(Value())) && stopping && !clientConnected && gateCancelled
    {
      stopping := true;
      clientConnected, gateCancelled := false, true;
    }

    // Closes the accepted channels, except those in kept, whose close fails. A closed channel's
    // weak reference is deleted once, a kept one stays for the next attempt.
    method CloseEach(kept: set<nat>) returns (pending: seq<nat>)
      modifies this`deletedWeak
      ensures pending == Model.Kept(children, kept)
      ensures multiset(deletedWeak) + multiset(pending) == multiset(old(deletedWeak)) + multiset(children)
    {
      hide Model.Kept;
      ghost var before := multiset(deletedWeak);
      pending := [];
      var i := 0;
      NoneKept(children, kept);
      while i < |children|
        modifies this`deletedWeak
        invariant i <= |children| && pending == Model.Kept(children[..i], kept)
        invariant multiset(deletedWeak) + multiset(pending) == before + multiset(children[..i])
      {
        KeptNext(children, kept, i);
        MovedOne(deletedWeak, pending, children[i]);
        if children[i] in kept {
          pending := pending + [children[i]];
        } else {
          deletedWeak := deletedWeak + [children[i]];
        }
        i := i + 1;
      }
      assert children[..|children|] == children;
    }

    method CloseChildren(kept: set<nat>) returns (ok: bool)
      modifies this`children, this`deletedWeak
      ensures Value() == Model.CloseChildren(old(Value()), kept) && (ok <==> children == [])
      ensures children == Model.Kept(old(children), kept)
      ensures multiset(deletedWeak) + multiset(children) == multiset(old(deletedWeak)) + multiset(old(children))
    {
      hide Model.Kept;
      var pending := CloseEach(kept);
      children := pending;
      ok := pending == [];
    }

    method ClearPendingPackets()
      modifies this`pendingPackets, this`deletedPackets
      ensures pendingPackets == [] && deletedPackets == old(deletedPackets) + old(pendingPackets)
    {
      var i := 0;
      while i < |pendingPackets|
        invariant i <= |pendingPackets| && pendingPackets == old(pendingPackets)
        invariant deletedPackets == old(deletedPackets) + pendingPackets[..i]
      {
        assert pendingPackets[..i + 1] == pendingPackets[..i] + [pendingPackets[i]];
        deletedPackets := deletedPackets + [pendingPackets[i]];
        i := i + 1;
      }
      assert pendingPackets[..|pendingPackets|] == pendingPackets;
      pendingPackets := [];
    }

    method ReleaseReferences()
      modifies this`listener, this`eventLoop, this`lanPinger, this`clientChannel, this`clientState,
               this`targetConnection
      modifies this`identities, this`bound, this`midSession
      ensures !listener && !eventLoop && !lanPinger && !clientChannel && clientState == SessionModel.AwaitHandshake
      ensures !targetConnection && !identities && !bound && !midSession
    {
      listener, eventLoop, lanPinger := false, false, false;
      clientChannel, clientState, targetConnection, identities := false, SessionModel.AwaitHandshake, false, false;
      bound, midSession := false, false;
    }

    method Release()
      modifies this, handoff`state
      ensures Value() == Model.Release(old(Value()))
      ensures !listener && !eventLoop && !lanPinger && !clientChannel && clientState == SessionModel.AwaitHandshake
      ensures !targetConnection && !identities && !bound && !midSession
      ensures pendingPackets == [] && handoff.state == Idle
      ensures deletedPackets == old(deletedPackets) + old(pendingPackets)
      ensures deletedWeak == old(deletedWeak) && children == old(children)
    {
      ReleaseReferences();
      ClearPendingPackets();
      handoff.Reset();
    }

    // The parts of the stop up to the wait for the tasks on A's main thread. closing: which of the
    // listener, the LAN announcement and the event loops can be closed.
    method CloseParts(closing: Model.Closing, kept: set<nat>) returns (ok: bool)
      modifies this`stopping, this`clientConnected, this`gateCancelled, this`children, this`deletedWeak
      ensures Value() == Model.CloseChildren(Model.AskStop(old(Value())), kept)
      ensures stopping && !clientConnected && gateCancelled && (ok ==> children == [])
      ensures ok <==>
                && (listener ==> closing.listener) && (lanPinger ==> closing.lanPinger)
                && (eventLoop ==> closing.eventLoop)
                && (forall i :: 0 <= i < |old(children)| ==> old(children)[i] !in kept)
                && gateTasks == 0
      ensures multiset(deletedWeak) + multiset(children) == multiset(old(deletedWeak)) + multiset(old(children))
    {
      hide Model.AskStop, Model.CloseChildren, Model.Kept, Value;
      Model.NoneKeptIff(children, kept);
      RequestStop();
      ok := true;
      if listener && !closing.listener {
        ok := false;
      }
      var childrenClosed := CloseChildren(kept);
      if !childrenClosed {
        ok := false;
      }
      if lanPinger && !closing.lanPinger {
        ok := false;
      }
      if eventLoop && !closing.eventLoop {
        ok := false;
      }
      if gateTasks != 0 {
        ok := false;
      }
    }

    // It succeeds exactly when every part that was there could be closed, every accepted channel was
    // closed and no task is left on A's main thread. A failed stop keeps everything but the closed
    // channels for the next attempt; a complete one releases everything.
    method StopBServer(closing: Model.Closing, kept: set<nat>) returns (ok: bool)
      modifies this, handoff`state
      ensures (Value(), ok) == Model.CloseServer(old(Value()), closing, kept)
      ensures ok <==>
                && (old(listener) ==> closing.listener) && (old(lanPinger) ==> closing.lanPinger)
                && (old(eventLoop) ==> closing.eventLoop)
                && (forall i :: 0 <= i < |old(children)| ==> old(children)[i] !in kept)
                && old(gateTasks) == 0
      ensures !ok ==>
                && listener == old(listener) && lanPinger == old(lanPinger) && eventLoop == old(eventLoop)
                && clientChannel == old(clientChannel) && clientState == old(clientState)
                && targetConnection == old(targetConnection) && identities == old(identities)
                && bound == old(bound) && midSession == old(midSession) && handoff.state == old(handoff.state)
                && pendingPackets == old(pendingPackets) && deletedPackets == old(deletedPackets)
                && stopping && gateCancelled && !clientConnected
      ensures ok ==>
                && !listener && !lanPinger && !eventLoop && !clientChannel && !targetConnection && !identities
                && !bound && !midSession && pendingPackets == [] && children == [] && handoff.state == Idle
                && clientState == SessionModel.AwaitHandshake
                && deletedPackets == old(deletedPackets) + old(pendingPackets)
      ensures multiset(deletedWeak) + multiset(children) == multiset(old(deletedWeak)) + multiset(old(children))
    {
      hide Model.AskStop, Model.Release, Model.CloseChildren, Model.Kept, Value, Model.CloseServer;
      Model.ClosesExactly(Value(), closing, kept);
      ServerParts();
      ok := CloseParts(closing, kept);
      if !ok {
        return;
      }
      Release();
    }

    lemma ServerParts()
      ensures var w := Value();
              && w.parts == Model.Parts(listener, eventLoop, lanPinger)
              && w.session.children == children && w.gateTasks == gateTasks
    {
    }
  }

  lemma MovedOne(xs: seq<nat>, ys: seq<nat>, x: nat)
    ensures multiset(xs + [x]) + multiset(ys) == multiset(xs) + multiset(ys) + multiset{x}
            == multiset(xs) + multiset(ys + [x])
  {
  }

  lemma NoneKept(xs: seq<nat>, kept: set<nat>)
    ensures Model.Kept(xs[..0], kept) == [] && multiset(xs[..0]) == multiset{}
  {
  }

  // A retried stop closes what the earlier one could not: attempts compose.
  lemma {:induction false} RetriesCompose(xs: seq<nat>, first: set<nat>, second: set<nat>)
    ensures Model.Kept(Model.Kept(xs, first), second) == Model.Kept(xs, first * second)
    decreases |xs|
  {
    if xs != [] {
      var front, last := xs[..|xs| - 1], xs[|xs| - 1];
      RetriesCompose(front, first, second);
      var rest := Model.Kept(front, first);
      if last in first {
        assert (rest + [last])[..|rest|] == rest;
      } else {
        assert rest + [] == rest;
      }
    }
  }
}
