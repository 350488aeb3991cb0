/** Preparing packets for B. */
module TeamPackets {
  import opened Wrappers
  import opened TeamState

  // The roster filter is run on a copy, which replaces the kept one only when the packet is
  // suppressed or built.

  // A packet on its way to B. Login starts a new world; other packets pass unchanged.
  datatype Outgoing = Team(p: Packet) | Login | Other(id: nat)

  // Where the JNI calls of one preparation fail, if they do. AtReturn: the new reference for
  // the caller cannot be made, after everything else was done.
  datatype Fault = NoFault | BeforeBuild | DuringBuild | AtReturn

  datatype Prepared = Failed | Suppressed | Send(packet: Outgoing)

  // ---------------------------------------------------------------- one preparation, as a function

  function Prepare(s: Board, packet: Outgoing, a: Name, b: Name, fault: Fault): (Board, Prepared) {
    match packet
    case Login => (EMPTY, if fault == AtReturn then Failed else Send(packet))
    case Other(_) => (s, if fault == AtReturn then Failed else Send(packet))
    case Team(p) =>
      if fault == BeforeBuild then (s, Failed)
      else
        var (next, update) := Filter(s, p, a, b);
        if !update.send then (next, Suppressed)
        else if fault == DuringBuild then (s, Failed)
        else (next, if fault == AtReturn then Failed else Send(Team(Packet(p.team, p.action, update.players))))
  }

  class TeamFilter {
    var teams: Roster

    constructor ()
      ensures teams.Value() == EMPTY && fresh(teams)
    {
      teams := new Roster();
    }

    method PrepareTeamPacket(packet: Outgoing, a: Name, b: Name, fault: Fault) returns (r: Prepared)
      modifies this
      ensures (teams.Value(), r) == Prepare(old(teams.Value()), packet, a, b, fault)
      ensures teams == old(teams) || fresh(teams)
    {
      hide Filter;
      if !packet.Team? {
        if packet.Login? {
          teams := new Roster();
        }
        return if fault == AtReturn then Failed else Send(packet);
      }
      if fault == BeforeBuild {
        return Failed;
      }
      var next := new Roster.CopyOf(teams);
      var update := next.Apply(packet.p, a, b);
      if !update.send {
        teams := next;
        return Suppressed;
      }
      if fault == DuringBuild {
        return Failed;
      }
      var built := Team(Packet(packet.p.team, packet.p.action, update.players));
      teams := next;
      if fault == AtReturn {
        return Failed;
      }
      r := Send(built);
    }
  }

  // ---------------------------------------------------------------- commit or leave unchanged

  // A packet that leaves the board as it is.
  predicate ChangesNothing(s: Board, packet: Outgoing, a: Name, b: Name) {
    match packet
    case Login => s == EMPTY
    case Other(_) => true
    case Team(p) =>
      var players := Follow(Names(p.players), a, b);
      var known := p.team in s.teams;
      if p.action == 0 then known && forall q <- players :: On(s, q, p.team)
      else if p.action == 1 then !known
      else if p.action == 3 then !known || forall q <- players :: On(s, q, p.team)
      else if p.action == 4 then !known || forall q <- players :: !On(s, q, p.team)
      else true
  }

  // The filter keeps the board on exactly these packets.
  lemma FilterKeeps(s: Board, p: Packet, a: Name, b: Name)
    ensures Filter(s, p, a, b).0 == s <==> ChangesNothing(s, Team(p), a, b)
  {
    hide Process, Candidates, Names, Follow;
    var names := Candidates(p.players, a, b);
    CandidateNames(p.players, a, b);
    assert Names(names) - {} == Names(names);
    if p.action == 4 {
      ProcessRemoves(s.members, p.team, names, {});
      KeptTakenOff(s, Names(names), p.team);
    } else {
      ProcessAssigns(s.members, p.team, p.action, names, {});
      KeptAssigned(s, Names(names), p.team);
    }
  }

  lemma KeptAssigned(s: Board, players: set<Name>, team: Name)
    ensures Assigned(s.members, players, team) == s.members <==> forall q <- players :: On(s, q, team)
  {
    if q :| q in players && !On(s, q, team) {
      assert q in Assigned(s.members, players, team);
    }
  }

  lemma KeptTakenOff(s: Board, players: set<Name>, team: Name)
    ensures TakenOff(s.members, players, team) == s.members <==> forall q <- players :: !On(s, q, team)
  {
    if q :| q in players && On(s, q, team) {
      assert q !in TakenOff(s.members, players, team);
    }
  }

  // A preparation that fails leaves the tracked board as it was, unless only the last reference
  // failed, after the commit, and the packet changes the board.
  lemma FailureKeepsState(s: Board, packet: Outgoing, a: Name, b: Name, fault: Fault)
    requires Prepare(s, packet, a, b, fault).1 == Failed
    ensures Prepare(s, packet, a, b, fault).0 == s <==> fault != AtReturn || ChangesNothing(s, packet, a, b)
  {
    hide Filter, ChangesNothing;
    match packet
    case Team(p) => FilterKeeps(s, p, a, b);
    case _ => PlainKeeps(s, packet, a, b);
  }

  lemma PlainKeeps(s: Board, packet: Outgoing, a: Name, b: Name)
    ensures !packet.Team? ==> (ChangesNothing(s, packet, a, b) <==> packet.Other? || s == EMPTY)
  {
  }

  // What comes out of a preparation: nothing exactly when a call fails on the way of a packet that
  // gets that far, and otherwise the packet, for a team packet with its team, its action and the
  // players due, unless nothing is due.
  lemma PreparedExactly(s: Board, packet: Outgoing, a: Name, b: Name, fault: Fault)
    ensures var r := Prepare(s, packet, a, b, fault).1;
            && (!packet.Team? ==> r == if fault == AtReturn then Failed else Send(packet))
            && (packet.Team? ==>
                  var due := Due(s, packet.p, a, b);
                  && (r == Failed <==> fault == BeforeBuild || (due && fault != NoFault))
                  && (r == Suppressed <==> fault != BeforeBuild && !due)
                  && (r.Send? ==>
                        && r.packet.Team? && r.packet.p.team == packet.p.team && r.packet.p.action == packet.p.action
                        && var players := Follow(Names(packet.p.players), a, b);
                        && (packet.p.action == 0 || packet.p.action == 3 ==> Names(r.packet.p.players) == players)
                        && (packet.p.action == 4 ==>
                              Names(r.packet.p.players) == set q | q in players && On(s, q, packet.p.team))))
  {
    hide Filter, Follow, Names, Due;
    if packet.Team? {
      SentIfDue(s, packet.p, a, b);
    }
  }

  // What B's client does with a packet it is sent; a login replaces its scoreboard.
  function Client(c: Board, packet: Outgoing): Option<Board> {
    match packet
    case Team(p) => Replay(c, p)
    case Login => Some(EMPTY)
    case Other(_) => Some(c)
  }

  // A preparation leaves B's scoreboard and the tracked one equal, and B's never faults, unless
  // the last reference fails on a packet that changes the board.
  lemma PrepareInSync(s: Board, packet: Outgoing, a: Name, b: Name, fault: Fault)
    requires Valid(s)
    ensures var (s', r) := Prepare(s, packet, a, b, fault);
            && Valid(s')
            && ((if r.Send? then Client(s, r.packet) else Some(s)) == Some(s')
                <==> (fault == AtReturn ==> ChangesNothing(s, packet, a, b)))
  {
    hide Filter, Replay, ChangesNothing;
    match packet
    case Team(p) =>
      FilterStep(s, p, a, b);
      FilterKeeps(s, p, a, b);
    case _ => PlainKeeps(s, packet, a, b);
  }

  // ---------------------------------------------------------------- whole streams

  datatype Event = Event(packet: Outgoing, fault: Fault)

  // tracked: the filter's board. client: B's, None once it has faulted.
  datatype Both = Both(tracked: Board, client: Option<Board>)

  function StepBoth(w: Both, e: Event, a: Name, b: Name): Both {
    var (s', r) := Prepare(w.tracked, e.packet, a, b, e.fault);
    Both(s', if w.client.Some? && r.Send? then Client(w.client.value, r.packet) else w.client)
  }

  // After every prefix of the stream B's scoreboard has not faulted and equals the tracked board.
  predicate InSync(w: Both, es: seq<Event>, a: Name, b: Name)
    decreases |es|
  {
    w.client == Some(w.tracked) && (es != [] ==> InSync(StepBoth(w, es[0], a, b), es[1..], a, b))
  }

  // The last reference fails only on packets that change nothing on the board of that moment.
  predicate LateFailuresHarmless(s: Board, es: seq<Event>, a: Name, b: Name)
    decreases |es|
  {
    es != [] ==>
      && (es[0].fault == AtReturn ==> ChangesNothing(s, es[0].packet, a, b))
      && LateFailuresHarmless(Prepare(s, es[0].packet, a, b, es[0].fault).0, es[1..], a, b)
  }

  // For every stream of packets and every pattern of failures, B's strict scoreboard, fed with the
  // sent packets alone, never faults and equals the tracked board all along, if and only if every
  // late failure meets a packet that changes nothing.
  lemma {:induction false} StreamInSync(s: Board, es: seq<Event>, a: Name, b: Name)
    requires Valid(s)
    ensures InSync(Both(s, Some(s)), es, a, b) <==> LateFailuresHarmless(s, es, a, b)
    decreases |es|
  {
    hide Prepare, Client, Valid, ChangesNothing;
    if es != [] {
      var e := es[0];
      PrepareInSync(s, e.packet, a, b, e.fault);
      var next := StepBoth(Both(s, Some(s)), e, a, b);
      if next.client == Some(next.tracked) {
        StreamInSync(next.tracked, es[1..], a, b);
      } else {
        assert !InSync(next, es[1..], a, b);
      }
    }
  }

  // A concrete late failure: the team is tracked but was never sent.
  lemma LateFailureDiverges(team: Name, a: Name, b: Name)
    ensures var w, e := Both(EMPTY, Some(EMPTY)), Event(Team(Packet(team, 0, [])), AtReturn);
            && !InSync(w, [e], a, b)
            && team in StepBoth(w, e, a, b).tracked.teams && StepBoth(w, e, a, b).client == w.client
  {
    var w, e := Both(EMPTY, Some(EMPTY)), Event(Team(Packet(team, 0, [])), AtReturn);
    var t := StepBoth(w, e, a, b);
    assert [e][1..] == [] && t.client != Some(t.tracked);
    assert !InSync(t, [], a, b);
  }
}
