/** A's relay handler reading a packet: A's own task first, then the mirror. */
module RelayReads {
  import opened Wrappers
  import opened LoginHandoff
  import opened PacketPolicy
  import opened SessionModel
  import opened RenderQueues
  import opened ProxyServers

  // What the relay does not hold: what A's game has done, and where the dispatches and starts were.
  datatype Rest = Rest(
    applied: seq<Packet>,
    snapshot: seq<Packet>,
    arrived: seq<Packet>,
    dispatched: bool,
    atDispatch: nat,
    sinceAt: nat,
    start: Option<Note>)

  lemma ReadStep(x: System, packet: Packet, game: bool, refOk: bool)
    ensures SessionStep(x, EvFromA(packet, game, refOk), true) ==
            x.(session := FromA(x.session, packet, game, refOk),
               queue := if game then x.queue + [Apply(packet)] else x.queue,
               arrived := if game then x.arrived + [packet] else x.arrived)
  {
    hide FromA;
    assert Tasks([packet]) == [Apply(packet)] && Tasks([]) == [];
    assert x.queue + [] == x.queue && x.arrived + [] == x.arrived;
  }

  class Relay {
    const server: ProxyServer
    // A's render queue.
    var queue: seq<Task>
    ghost var rest: Rest

    ghost function Value(): System
      reads this`queue, this`rest
      reads server`clientState, server`clientChannel, server`pendingPackets, server`midSession, server`stopping
      reads server`nextRef, server`deleted, server`outer, server.handoff`state
    {
      System(server.Value(), queue, rest.applied, rest.snapshot, rest.arrived, rest.dispatched, rest.atDispatch,
             rest.sinceAt, rest.start)
    }

    constructor ()
      ensures Value() == IDLE && fresh(server) && fresh(server.handoff)
    {
      server := new ProxyServer();
      queue, rest := [], Rest([], [], [], false, 0, 0, None);
    }

    // A packet of this class arrives. admitted: the callback gate lets the handler in. What the game
    // does with other packets than those of the game protocol is not part of the queue.
    method ChannelRead(packet: Packet, name: string, refOk: bool, admitted: bool)
      requires !admitted ==> server.stopping
      modifies this, server, server.handoff`state
      ensures Value() ==
              if admitted then SessionStep(old(Value()), EvFromA(packet, IsGamePacket(name), refOk), true)
              else if IsGamePacket(name) then UnadmittedStep(old(Value()), packet)
              else old(Value())
    {
      hide FromA, SessionStep;
      var game := IsGamePacket(name);
      ReadStep(Value(), packet, game, refOk);
      if game {
        queue := queue + [Apply(packet)];
        rest := rest.(arrived := rest.arrived + [packet]);
      }
      if admitted {
        server.PacketFromA(packet, name, refOk);
      }
    }

    // The waiting login hands its job to A's game.
    method Execute(job: nat)
      requires server.outer.login.Waiting? && !rest.dispatched && job == server.outer.job
      modifies this`queue, this`rest
      ensures Value() == DispatchStep(old(Value()))
    {
      ghost var n := |rest.arrived|;
      queue := queue + [Capture(job)];
      rest := rest.(dispatched := true, atDispatch := n);
    }
  }
}
