/** The roster filter. */
module TeamState {
  import opened Wrappers

  // A model of the scoreboard sent to B, in which B's own entry follows A's and operations that B's
  // scoreboard would reject are left out.

  // UTF-16 strings; only equality and emptiness matter here.
  newtype Char16 = x: int | 0 <= x < 0x1_0000
  type Name = seq<Char16>

  // A team packet. action: 0 create, 1 delete, 2 change, 3 add players, 4 remove players.
  datatype Packet = Packet(team: Name, action: int, players: seq<Name>)

  datatype Board = Board(teams: set<Name>, members: map<Name, Name>)

  datatype Update = Update(send: bool, players: seq<Name>)

  const EMPTY := Board({}, map[])

  // Every member is on a team that exists.
  predicate Valid(s: Board) {
    forall p <- s.members :: s.members[p] in s.teams
  }

  // ---------------------------------------------------------------- the filter, as a function

  predicate Aliased(a: Name, b: Name) {
    a != [] && b != [] && a != b
  }

  function Without(players: seq<Name>, b: Name): seq<Name> {
    if players == [] then []
    else (if players[0] == b then [] else [players[0]]) + Without(players[1..], b)
  }

  // B's own entries give way to one that follows A's.
  function Candidates(players: seq<Name>, a: Name, b: Name): seq<Name> {
    if !Aliased(a, b) then players else Without(players, b) + (if a in players then [b] else [])
  }

  datatype Changed = Changed(members: map<Name, Name>, players: seq<Name>)

  // The loop over candidates: the members afterwards and the players reported.
  function Process(members: map<Name, Name>, team: Name, action: int, names: seq<Name>, seen: set<Name>): Changed
    decreases |names|
  {
    if names == [] then Changed(members, [])
    else if names[0] in seen then Process(members, team, action, names[1..], seen)
    else if action == 4 then
      if names[0] !in members || members[names[0]] != team then
        Process(members, team, action, names[1..], seen + {names[0]})
      else
        var rest := Process(members - {names[0]}, team, action, names[1..], seen + {names[0]});
        Changed(rest.members, [names[0]] + rest.players)
    else
      var rest := Process(members[names[0] := team], team, action, names[1..], seen + {names[0]});
      Changed(rest.members, [names[0]] + rest.players)
  }

  function WithoutTeam(members: map<Name, Name>, team: Name): map<Name, Name> {
    map p | p in members && members[p] != team :: members[p]
  }

  function Filter(s: Board, p: Packet, a: Name, b: Name): (Board, Update) {
    if p.action < 0 || p.action > 4 || (p.action != 0 && p.team !in s.teams) then (s, Update(false, []))
    else if p.action == 1 then (Board(s.teams - {p.team}, WithoutTeam(s.members, p.team)), Update(true, []))
    else if p.action == 2 then (s, Update(true, []))
    else
      var changed := Process(s.members, p.team, p.action, Candidates(p.players, a, b), {});
      (Board(if p.action == 0 then s.teams + {p.team} else s.teams, changed.members),
       Update(p.action == 0 || changed.players != [], changed.players))
  }

  // ---------------------------------------------------------------- the object

  class Roster {
    var teams: set<Name>
    var members: map<Name, Name>

    function Value(): Board
      reads this
    {
      Board(teams, members)
    }

    constructor ()
      ensures Value() == EMPTY
    {
      teams, members := {}, map[];
    }

    constructor CopyOf(other: Roster)
      ensures Value() == other.Value()
    {
      teams, members := other.teams, other.members;
    }

    method Apply(p: Packet, a: Name, b: Name) returns (update: Update)
      modifies this
      ensures (Value(), update) == Filter(old(Value()), p, a, b)
    {
      hide Process, Without;
      if p.action < 0 || p.action > 4 || (p.action != 0 && p.team !in teams) {
        return Update(false, []);
      }
      if p.action == 0 {
        teams := teams + {p.team};
      }
      if p.action == 1 {
        teams := teams - {p.team};
        EraseTeam(p.team);
        return Update(true, []);
      }
      if p.action == 2 {
        return Update(true, []);
      }
      var candidates := p.players;
      if a != [] && b != [] && a != b {
        candidates := Erase(candidates, b);
        if a in p.players {
          candidates := candidates + [b];
        }
      }
      assert candidates == Candidates(p.players, a, b);
      var players := Walk(p.team, p.action, candidates);
      update := Update(!((p.action == 3 || p.action == 4) && players == []), players);
    }

    // Members are visited in no particular order.
    method EraseTeam(team: Name)
      modifies this`members
      ensures members == WithoutTeam(old(members), team)
    {
      var left := members.Keys;
      while left != {}
        invariant left <= members.Keys <= old(members).Keys
        invariant forall p <- members :: members[p] == old(members)[p]
        invariant forall p <- old(members) :: p !in left ==> (p in members <==> old(members)[p] != team)
        decreases left
      {
        var p :| p in left;
        left := left - {p};
        if members[p] == team {
          members := members - {p};
        }
      }
    }

    static method Erase(names: seq<Name>, b: Name) returns (kept: seq<Name>)
      ensures kept == Without(names, b)
    {
      kept := [];
      var i := 0;
      while i < |names|
        invariant 0 <= i <= |names|
        invariant kept + Without(names[i..], b) == Without(names, b)
      {
        assert names[i..][1..] == names[i + 1..];
        if names[i] != b {
          kept := kept + [names[i]];
        }
        i := i + 1;
      }
    }

    method Walk(team: Name, action: int, candidates: seq<Name>) returns (players: seq<Name>)
      modifies this`members
      ensures Changed(members, players) == Process(old(members), team, action, candidates, {})
    {
      players := [];
      var seen := {};
      var i := 0;
      ghost var want := Process(members, team, action, candidates, {});
      assert candidates[0..] == candidates;
      while i < |candidates|
        invariant 0 <= i <= |candidates|
        invariant var rest := Process(members, team, action, candidates[i..], seen);
                  want == Changed(rest.members, players + rest.players)
      {
        var player := candidates[i];
        assert candidates[i..][0] == player && candidates[i..][1..] == candidates[i + 1..];
        i := i + 1;
        if player in seen {
          continue;
        }
        seen := seen + {player};
        if action == 4 {
          if player !in members || members[player] != team {
            continue;
          }
          members := members - {player};
        } else {
          members := members[player := team];
        }
        players := players + [player];
      }
    }
  }

  // ---------------------------------------------------------------- B's strict scoreboard

  function Names(players: seq<Name>): set<Name> {
    set p | p in players
  }

  // All of these players on the team, others as before.
  function Assigned(members: map<Name, Name>, players: set<Name>, team: Name): map<Name, Name> {
    map p | p in members.Keys + players :: if p in players then team else members[p]
  }

  // Those of these players who are on the team taken off it.
  function TakenOff(members: map<Name, Name>, players: set<Name>, team: Name): map<Name, Name> {
    map p | p in members && !(p in players && members[p] == team) :: members[p]
  }

  // One removal after the other; None when a player is not on the team at that moment.
  function Removed(members: map<Name, Name>, players: seq<Name>, team: Name): Option<map<Name, Name>> {
    if players == [] then Some(members)
    else if players[0] !in members || members[players[0]] != team then None
    else Removed(members - {players[0]}, players[1..], team)
  }

  // What B's scoreboard does with a packet. None: it faults, on a team it does not know or on
  // removing a player who is not a member. Creating a team again keeps its members.
  function Replay(s: Board, p: Packet): Option<Board> {
    if p.action == 0 then Some(Board(s.teams + {p.team}, Assigned(s.members, Names(p.players), p.team)))
    else if p.team !in s.teams then None
    else if p.action == 1 then Some(Board(s.teams - {p.team}, WithoutTeam(s.members, p.team)))
    else if p.action == 2 then Some(s)
    else if p.action == 3 then Some(s.(members := Assigned(s.members, Names(p.players), p.team)))
    else if p.action == 4 then
      var members :- Removed(s.members, p.players, p.team);
      Some(s.(members := members))
    else None
  }

  // ---------------------------------------------------------------- the loop, characterised

  lemma NamesCons(q: Name, rest: seq<Name>)
    ensures Names([q] + rest) == {q} + Names(rest)
  {
  }

  lemma AssignedSteps(members: map<Name, Name>, q: Name, rest: set<Name>, team: Name)
    ensures Names([]) == {} && forall seen: set<Name> :: Assigned(members, {} - seen, team) == members
    ensures Assigned(members[q := team], rest, team) == Assigned(members, {q} + rest, team)
  {
  }

  lemma TakenOffSteps(members: map<Name, Name>, q: Name, rest: set<Name>, team: Name)
    ensures Names([]) == {} && forall seen: set<Name> :: TakenOff(members, {} - seen, team) == members
    ensures TakenOff(if q !in members || members[q] != team then members else members - {q}, rest, team)
            == TakenOff(members, {q} + rest, team)
  {
  }

  lemma {:induction false} ProcessAssigns(members: map<Name, Name>, team: Name, action: int, names: seq<Name>,
      seen: set<Name>)
    requires action != 4
    ensures var r := Process(members, team, action, names, seen);
            && Names(r.players) == Names(names) - seen
            && r.members == Assigned(members, Names(names) - seen, team)
    decreases |names|
  {
    hide Names, Assigned;
    if names == [] {
      AssignedSteps(members, [], {}, team);
    } else {
      var q := names[0];
      assert names == [q] + names[1..];
      NamesCons(q, names[1..]);
      var next := if q in seen then members else members[q := team];
      ProcessAssigns(next, team, action, names[1..], if q in seen then seen else seen + {q});
      if q !in seen {
        NamesCons(q, Process(next, team, action, names[1..], seen + {q}).players);
        AssignedSteps(members, q, Names(names[1..]) - (seen + {q}), team);
        assert Names(names) - seen == {q} + (Names(names[1..]) - (seen + {q}));
      } else {
        assert Names(names) - seen == Names(names[1..]) - seen;
      }
    }
  }

  lemma {:induction false} ProcessRemoves(members: map<Name, Name>, team: Name, names: seq<Name>, seen: set<Name>)
    ensures var r := Process(members, team, 4, names, seen);
            && Removed(members, r.players, team) == Some(r.members)
            && r.members == TakenOff(members, Names(names) - seen, team)
    decreases |names|
  {
    hide Names, TakenOff;
    if names == [] {
      TakenOffSteps(members, [], {}, team);
    } else {
      var q, rest := names[0], names[1..];
      assert names == [q] + rest;
      NamesCons(q, rest);
      if q in seen {
        ProcessRemoves(members, team, rest, seen);
        assert Names(names) - seen == Names(rest) - seen;
      } else {
        var next := if q !in members || members[q] != team then members else members - {q};
        ProcessRemoves(next, team, rest, seen + {q});
        TakenOffSteps(members, q, Names(rest) - (seen + {q}), team);
        assert Names(names) - seen == {q} + (Names(rest) - (seen + {q}));
        var players := Process(next, team, 4, rest, seen + {q}).players;
        assert ([q] + players)[1..] == players;
      }
    }
  }

  // No player is reported twice.
  lemma {:induction false} ProcessDistinct(members: map<Name, Name>, team: Name, action: int, names: seq<Name>,
      seen: set<Name>)
    ensures var players := Process(members, team, action, names, seen).players;
            && (forall i, j :: 0 <= i < j < |players| ==> players[i] != players[j])
            && (forall q <- players :: q !in seen)
    decreases |names|
  {
    if names != [] {
      var q := names[0];
      var next := if action == 4 then members - {q} else members[q := team];
      ProcessDistinct(next, team, action, names[1..], seen + {q});
      ProcessDistinct(members, team, action, names[1..], seen + {q});
      ProcessDistinct(members, team, action, names[1..], seen);
    }
  }

  // ---------------------------------------------------------------- one packet

  // A sent update never faults on B's scoreboard and leaves it as tracked; a suppressed one
  // changes nothing; every member's team still exists.
  lemma FilterStep(s: Board, p: Packet, a: Name, b: Name)
    requires Valid(s)
    ensures var (s', u) := Filter(s, p, a, b);
            && Valid(s')
            && (if u.send then Replay(s, Packet(p.team, p.action, u.players)) == Some(s') else s' == s)
            && (forall i, j :: 0 <= i < j < |u.players| ==> u.players[i] != u.players[j])
  {
    var names := Candidates(p.players, a, b);
    hide Process, Candidates, Names;
    ProcessDistinct(s.members, p.team, p.action, names, {});
    if p.action == 4 {
      ProcessRemoves(s.members, p.team, names, {});
    } else {
      ProcessAssigns(s.members, p.team, p.action, names, {});
    }
    var players := Process(s.members, p.team, p.action, names, {}).players;
    if players == [] {
      AssignedSteps(s.members, [], {}, p.team);
      assert Names(names) - {} == {} - {} ==> Assigned(s.members, Names(names) - {}, p.team) == s.members;
    }
    assert Names(names) - {} == Names(names);
    assert p.action != 4 ==> Names(players) == Names(names);
  }

  // The players of the packet with b's membership of the list replaced by a's.
  function Follow(players: set<Name>, a: Name, b: Name): set<Name> {
    if !Aliased(a, b) then players else players - {b} + (if a in players then {b} else {})
  }

  predicate On(s: Board, player: Name, team: Name) {
    player in s.members && s.members[player] == team
  }

  // What must reach B: what its scoreboard can do, unless there is nobody left to add or remove.
  predicate Due(s: Board, p: Packet, a: Name, b: Name) {
    var players := Follow(Names(p.players), a, b);
    && 0 <= p.action <= 4
    && (p.action != 0 ==> p.team in s.teams)
    && (p.action == 3 ==> players != {})
    && (p.action == 4 ==> exists q <- players :: On(s, q, p.team))
  }

  // Exactly the due packets are sent, with exactly these players: all that follow for a new team or
  // an addition, those on the team for a removal, and none for a deletion or a change.
  lemma SentIfDue(s: Board, p: Packet, a: Name, b: Name)
    ensures var u := Filter(s, p, a, b).1;
            var players := Follow(Names(p.players), a, b);
            && (u.send <==> Due(s, p, a, b))
            && (u.send && (p.action == 0 || p.action == 3) ==> Names(u.players) == players)
            && (u.send && p.action == 4 ==> Names(u.players) == set q | q in players && On(s, q, p.team))
            && (p.action == 1 || p.action == 2 ==> u.players == [])
  {
    hide Process, Candidates, Follow;
    var names := Candidates(p.players, a, b);
    CandidateNames(p.players, a, b);
    assert Names(names) - {} == Names(names);
    NoNames(Process(s.members, p.team, p.action, names, {}).players);
    if p.action == 4 {
      ProcessTakes(s.members, p.team, names, {});
    } else {
      ProcessAssigns(s.members, p.team, p.action, names, {});
    }
  }

  lemma NoNames(players: seq<Name>)
    ensures Names(players) == {} <==> players == []
  {
    if players != [] {
      assert players[0] in Names(players);
    }
  }

  // A removal reports exactly the players that are on the team.
  lemma {:induction false} ProcessTakes(members: map<Name, Name>, team: Name, names: seq<Name>, seen: set<Name>)
    ensures Names(Process(members, team, 4, names, seen).players)
            == set q | q in Names(names) - seen && q in members && members[q] == team
    decreases |names|
  {
    hide Names;
    if names == [] {
      NoNames([]);
    } else {
      var q, rest := names[0], names[1..];
      assert names == [q] + rest;
      NamesCons(q, rest);
      ProcessTakes(members, team, rest, seen);
      if q !in seen {
        if q in members && members[q] == team {
          ProcessTakes(members - {q}, team, rest, seen + {q});
          NamesCons(q, Process(members - {q}, team, 4, rest, seen + {q}).players);
        } else {
          ProcessTakes(members, team, rest, seen + {q});
        }
      }
    }
  }

  // ---------------------------------------------------------------- aliasing

  // A scoreboard without aliasing and with the filter's tolerance: what is not possible is
  // ignored, player by player.
  function Reference(s: Board, p: Packet): Board {
    if p.action < 0 || p.action > 4 || (p.action != 0 && p.team !in s.teams) then s
    else if p.action == 0 then Board(s.teams + {p.team}, Assigned(s.members, Names(p.players), p.team))
    else if p.action == 1 then Board(s.teams - {p.team}, WithoutTeam(s.members, p.team))
    else if p.action == 2 then s
    else if p.action == 3 then s.(members := Assigned(s.members, Names(p.players), p.team))
    else s.(members := TakenOff(s.members, Names(p.players), p.team))
  }

  // b's own entry replaced by a's.
  function Alias(members: map<Name, Name>, a: Name, b: Name): map<Name, Name> {
    if a in members then members[b := members[a]] else members - {b}
  }

  function View(s: Board, a: Name, b: Name): Board {
    if Aliased(a, b) then s.(members := Alias(s.members, a, b)) else s
  }

  lemma {:induction false} WithoutNames(players: seq<Name>, b: Name)
    ensures Names(Without(players, b)) == Names(players) - {b}
    decreases |players|
  {
    if players != [] {
      WithoutNames(players[1..], b);
      assert players == [players[0]] + players[1..];
      NamesCons(players[0], players[1..]);
      NamesCons(players[0], Without(players[1..], b));
    }
  }

  lemma CandidateNames(players: seq<Name>, a: Name, b: Name)
    ensures Names(Candidates(players, a, b)) == Follow(Names(players), a, b)
  {
    WithoutNames(players, b);
    assert Names(Without(players, b) + [b]) == Names(Without(players, b)) + {b};
  }

  lemma AliasAssigned(members: map<Name, Name>, players: set<Name>, team: Name, a: Name, b: Name)
    requires Aliased(a, b)
    ensures Assigned(Alias(members, a, b), Follow(players, a, b), team) == Alias(Assigned(members, players, team), a, b)
  {
  }

  lemma AliasTakenOff(members: map<Name, Name>, players: set<Name>, team: Name, a: Name, b: Name)
    requires Aliased(a, b)
    ensures TakenOff(Alias(members, a, b), Follow(players, a, b), team) == Alias(TakenOff(members, players, team), a, b)
  {
  }

  lemma AliasWithoutTeam(members: map<Name, Name>, team: Name, a: Name, b: Name)
    requires Aliased(a, b)
    ensures WithoutTeam(Alias(members, a, b), team) == Alias(WithoutTeam(members, team), a, b)
  {
  }

  // The filter run on the aliased board is the alias of the reference run on the raw packet.
  lemma FilterAliases(s: Board, p: Packet, a: Name, b: Name)
    ensures Filter(View(s, a, b), p, a, b).0 == View(Reference(s, p), a, b)
  {
    hide Process, Candidates, Names, Follow, Alias, Assigned, TakenOff, WithoutTeam;
    var t := View(s, a, b);
    var names := Candidates(p.players, a, b);
    var players := Names(p.players);
    CandidateNames(p.players, a, b);
    NotAliased(players, a, b);
    ProcessAssigns(t.members, p.team, if p.action == 4 then 3 else p.action, names, {});
    ProcessRemoves(t.members, p.team, names, {});
    assert Names(names) - {} == Names(names);
    if Aliased(a, b) {
      AliasAssigned(s.members, players, p.team, a, b);
      AliasTakenOff(s.members, players, p.team, a, b);
      AliasWithoutTeam(s.members, p.team, a, b);
    }
  }

  lemma NotAliased(players: set<Name>, a: Name, b: Name)
    ensures !Aliased(a, b) ==> Follow(players, a, b) == players
  {
  }

  // ---------------------------------------------------------------- whole streams

  function Track(s: Board, packets: seq<Packet>, a: Name, b: Name): Board
    decreases |packets|
  {
    if packets == [] then s else Track(Filter(s, packets[0], a, b).0, packets[1..], a, b)
  }

  function ReferenceRun(s: Board, packets: seq<Packet>): Board
    decreases |packets|
  {
    if packets == [] then s else ReferenceRun(Reference(s, packets[0]), packets[1..])
  }

  // For every stream: what the filter tracks is the reference run on the raw stream with b's
  // own entry replaced by a's.
  lemma {:induction false} TrackAliases(s: Board, packets: seq<Packet>, a: Name, b: Name)
    ensures Track(View(s, a, b), packets, a, b) == View(ReferenceRun(s, packets), a, b)
    decreases |packets|
  {
    hide Filter, View, Reference;
    if packets != [] {
      FilterAliases(s, packets[0], a, b);
      TrackAliases(Reference(s, packets[0]), packets[1..], a, b);
    }
  }

  lemma {:induction false} TrackValid(s: Board, packets: seq<Packet>, a: Name, b: Name)
    requires Valid(s)
    ensures Valid(Track(s, packets, a, b))
    decreases |packets|
  {
    hide Filter, Valid;
    if packets != [] {
      FilterStep(s, packets[0], a, b);
      TrackValid(Filter(s, packets[0], a, b).0, packets[1..], a, b);
    }
  }

  // After every stream from a fresh board, b is on exactly a's team, or on none when a is on
  // none, and every member's team exists.
  lemma BFollowsA(packets: seq<Packet>, a: Name, b: Name)
    requires Aliased(a, b)
    ensures var s := Track(EMPTY, packets, a, b);
            && Valid(s)
            && (a in s.members <==> b in s.members)
            && (a in s.members ==> s.members[b] == s.members[a])
  {
    TrackValid(EMPTY, packets, a, b);
    assert View(EMPTY, a, b) == EMPTY;
    TrackAliases(EMPTY, packets, a, b);
  }
}
