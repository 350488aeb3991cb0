/** The mid-session login as a step system. Each critical section of A's packet thread, B's
    event loop, A's render thread and the controller is one step; steps of different threads
    come in any order.

    Two assumptions are built into the guards of the steps: the events of one channel are
    serial (so none of them happens while a login runs on that channel), and A's render thread
    runs one task at a time. A channel whose close was requested delivers nothing that is
    written to it afterwards. */
module SessionModel {
  import opened Wrappers
  import opened LoginHandoff
  import opened PacketPolicy
  import opened References

  type Chan = nat

  const MAX_PENDING := 8192

  datatype ClientState = AwaitHandshake | AwaitLogin | Play | Syncing | AwaitReady

  // ---------------------------------------------------------------- packets from A

  // Skipped: mod payloads and roster updates the filter suppresses. Rejected: the packet
  // cannot be prepared or written, and the channel is closed.
  datatype Fate = Written | Skipped | Rejected

  // reach: how many sub-packets the iteration yields before it ends or throws.
  datatype Packet = Leaf(id: nat, fate: Fate) | Bundle(subs: seq<Packet>, reach: nat)

  function Leaves(p: Packet): seq<Packet>
    decreases p
  {
    match p
    case Leaf(_, _) => [p]
    case Bundle(subs, _) => LeavesOfAll(subs)
  }

  function LeavesOfAll(ps: seq<Packet>): seq<Packet>
    decreases ps
  {
    if ps == [] then [] else Leaves(ps[0]) + LeavesOfAll(ps[1..])
  }

  // The leaves the expansion gets to see.
  function Reached(p: Packet): seq<Packet>
    decreases p
  {
    match p
    case Leaf(_, _) => [p]
    case Bundle(subs, reach) => ReachedOfAll(subs, reach)
  }

  function ReachedOfAll(ps: seq<Packet>, reach: nat): seq<Packet>
    decreases ps
  {
    if ps == [] || reach == 0 then [] else Reached(ps[0]) + ReachedOfAll(ps[1..], reach - 1)
  }

  // The ids that should arrive at B for these leaves.
  function Due(leaves: seq<Packet>): seq<nat> {
    if leaves == [] then []
    else (if leaves[0].Leaf? && leaves[0].fate != Skipped then [leaves[0].id] else []) + Due(leaves[1..])
  }

  function Expected(packets: seq<Packet>): seq<nat> {
    if packets == [] then [] else Expected(packets[..|packets| - 1]) + Due(Reached(packets[|packets| - 1]))
  }

  // ---------------------------------------------------------------- state

  datatype Held = Held(ref: Ref, packet: Packet)

  // Where completeLogin stands on B's event loop.
  datatype LoginPc =
    | NoLogin
    | Named(c: Chan)
    | Reconstruct(c: Chan)
    | Waiting(c: Chan)
    | Writing(c: Chan)
    | Tail(c: Chan, snapshot: bool)

  // A packet from B: a teleport acknowledgement with its id, or another one of a named class.
  datatype Message = TeleportAck(id: int) | Input(id: int, name: string)

  function ClassOf(m: Message): string {
    if m.TeleportAck? then GAME_PREFIX + "ServerboundAcceptTeleportationPacket" else m.name
  }

  predicate Permitted(m: Message) {
    AllowFromB(ClassOf(m))
  }

  // What the history keeps. Broken: the handoff failed or was reset. Direct: control without
  // a handoff, for a login before A is in a game.
  datatype Note =
    | Begun(c: Chan, job: nat)
    | Bounded(job: nat)
    | SnapshotWritten(c: Chan, job: nat)
    | Sent(c: Chan)
    | LocalAck(c: Chan)
    | LiveWrite(c: Chan, leaf: nat)
    | Routed(c: Chan, m: Message)
    | Direct(c: Chan)
    | Broken

  datatype State = State(
    handoff: Phase,
    client: ClientState,
    channel: Option<Chan>,
    closing: bool,
    pending: seq<Held>,
    nextRef: nat,
    deleted: seq<Ref>,
    midSession: bool,
    stopping: bool,
    login: LoginPc,
    job: nat,
    queued: set<nat>,
    running: Option<nat>,
    bounded: bool,
    captured: bool,
    since: seq<Packet>,
    log: seq<Note>)

  // job: the latest snapshot job. queued: jobs not yet taken by the render thread. running: the
  // job it runs. bounded and captured: whether the latest job has passed its boundary and has
  // delivered its packets. since: A's game packets after the last boundary, begin or direct
  // start. log: the history.

  const INITIAL := State(Idle, AwaitHandshake, None, false, [], 0, [], false, true, NoLogin,
                         0, {}, None, false, false, [], [])

  function Refs(pending: seq<Held>): seq<Ref> {
    if pending == [] then [] else [pending[0].ref] + Refs(pending[1..])
  }

  function Packets(pending: seq<Held>): seq<Packet> {
    if pending == [] then [] else Packets(pending[..|pending| - 1]) + [pending[|pending| - 1].packet]
  }

  function With(s: State, n: Note): State {
    s.(log := s.log + [n])
  }

  function Clear(s: State): State {
    s.(pending := [], deleted := s.deleted + Refs(s.pending))
  }

  function FailHandoff(s: State): State {
    With(s.(handoff := Failed), Broken)
  }

  function ResetHandoff(s: State): State {
    With(s.(handoff := Idle), Broken)
  }

  // ---------------------------------------------------------------- writing live packets

  function DeliverLeaf(s: State, c: Chan, leaf: Packet): State
    requires leaf.Leaf?
  {
    match leaf.fate
    case Skipped => s
    case Rejected => s.(closing := true)
    case Written => if s.closing then s else With(s, LiveWrite(c, leaf.id))
  }

  function Deliver(s: State, c: Chan, leaves: seq<Packet>): State
    requires forall l <- leaves :: l.Leaf?
    decreases |leaves|
  {
    if leaves == [] then s else Deliver(DeliverLeaf(s, c, leaves[0]), c, leaves[1..])
  }

  lemma {:induction false} ReachedLeaves(p: Packet)
    ensures forall l <- Reached(p) :: l.Leaf?
    decreases p, 0
  {
    if p.Bundle? {
      ReachedAllLeaves(p.subs, p.reach);
    }
  }

  lemma {:induction false} ReachedAllLeaves(ps: seq<Packet>, reach: nat)
    ensures forall l <- ReachedOfAll(ps, reach) :: l.Leaf?
    decreases ps, 0
  {
    if ps != [] && reach > 0 {
      ReachedLeaves(ps[0]);
      ReachedAllLeaves(ps[1..], reach - 1);
    }
  }

  // BServer_ForwardToB in a state that writes.
  function ForwardLive(s: State, p: Packet): State {
    if s.stopping || s.channel.None? then s
    else
      ReachedLeaves(p);
      Deliver(s, s.channel.value, Reached(p))
  }

  // ---------------------------------------------------------------- steps of A's packet thread

  // A's handler gets a packet. Only packets of the game protocol are forwarded.
  function FromA(s: State, p: Packet, game: bool, refOk: bool): State {
    if game then ForwardToB(s.(since := s.since + [p]), p, refOk) else s
  }

  // refOk: the reference for buffering can be made.
  function ForwardToB(s: State, p: Packet, refOk: bool): State {
    if s.stopping || (s.client != Play && s.client != Syncing && s.client != AwaitReady) then s
    else if s.client == Syncing then
      if s.handoff != Capturing then s
      else if |s.pending| < MAX_PENDING && refOk then
        s.(pending := s.pending + [Held(s.nextRef, p)], nextRef := s.nextRef + 1)
      else Clear(FailHandoff(s))
    else ForwardLive(s, p)
  }

  // ---------------------------------------------------------------- steps of B's event loop

  predicate Busy(s: State, c: Chan) {
    s.login != NoLogin && s.login.c == c
  }

  // A login intention. A second channel is turned away. refOk: the reference to a first one can be
  // made.
  function Intention(s: State, c: Chan, refOk: bool): State {
    if Busy(s, c) then s
    else if s.channel.None? then
      if refOk then s.(channel := Some(c), closing := false, client := AwaitLogin) else s
    else if s.channel.value == c then s.(client := AwaitLogin)
    else s
  }

  function Hello(s: State, c: Chan): State {
    if s.login == NoLogin && s.channel == Some(c) && s.client == AwaitLogin then s.(login := Named(c)) else s
  }

  function ReadMid(s: State): State {
    if !s.login.Named? then s
    else if s.midSession then s.(login := Reconstruct(s.login.c))
    else s.(login := Tail(s.login.c, false))
  }

  // The first dispatch section of reconstructAndSendLoginToB. ok: A's connection is there.
  function BeginSync(s: State, ok: bool): State {
    if !s.login.Reconstruct? then s
    else if !ok then s.(closing := true, login := NoLogin)
    else
      var t := Clear(s);
      With(t.(handoff := Capturing, client := Syncing, login := Waiting(s.login.c), job := s.job + 1,
              queued := s.queued + {s.job + 1}, bounded := false, captured := false, since := []),
           Begun(s.login.c, s.job + 1))
  }

  // CaptureWorldSnapshot returns. A false result takes the job off the list.
  function Captured(s: State, ok: bool): State {
    if !s.login.Waiting? || (ok && !s.captured) then s
    else if ok then s.(login := Writing(s.login.c))
    else s.(closing := true, login := NoLogin, queued := s.queued - {s.job}, captured := false)
  }

  // The second dispatch section. ok: every snapshot packet is prepared and written.
  function WriteSnapshot(s: State, ok: bool): State {
    if !s.login.Writing? then s
    else if !s.stopping && s.handoff == Capturing && ok then
      With(s.(login := Tail(s.login.c, true)), SnapshotWritten(s.login.c, s.job))
    else Clear(FailHandoff(s)).(closing := true, login := NoLogin)
  }

  // Draining the buffer: stopAfter packets are forwarded before a stop request is seen.
  function Drain(s: State, held: seq<Held>, stopAfter: nat): State
    decreases |held|
  {
    if held == [] then s
    else
      var t := if stopAfter == 0 then s.(stopping := true) else s;
      var u := ForwardLive(t, held[0].packet);
      Drain(u.(deleted := u.deleted + [held[0].ref]), held[1..], if stopAfter == 0 then 0 else stopAfter - 1)
  }

  // The end of completeLogin.
  function FinishLogin(s: State, stopAfter: nat): State {
    if !s.login.Tail? then s
    else if s.midSession then
      if s.stopping then s.(login := NoLogin)
      else if s.handoff != Capturing then CheckTimeout(FailHandoff(s), false).(login := NoLogin)
      else
        var t := With(s.(handoff := AwaitingAck, client := AwaitReady, pending := [], login := NoLogin),
            Sent(s.login.c));
        Drain(t, s.pending, stopAfter)
    else With(s.(client := Play, login := NoLogin, since := []), Direct(s.login.c))
  }

  function FromB(s: State, c: Chan, m: Message, ackBound: bool): State {
    if Busy(s, c) || s.channel != Some(c) then s
    else if m.TeleportAck? && ackBound && m.id == TELEPORT_ID then
      var t := if s.handoff == AwaitingAck then With(s.(handoff := Active), LocalAck(c)) else s;
      if t.client == AwaitReady && t.handoff == Active then t.(client := Play) else t
    else if s.client == Play && Permitted(m) then With(s, Routed(c, m))
    else s
  }

  function Inactive(s: State, c: Chan): State {
    if Busy(s, c) || s.stopping || s.channel != Some(c) then s
    else Clear(ResetHandoff(s.(channel := None, closing := false, client := AwaitHandshake)))
  }

  // ---------------------------------------------------------------- steps of A's render thread

  function RunnerStart(s: State, j: nat): State {
    if s.running.None? && j in s.queued then s.(running := Some(j), queued := s.queued - {j}) else s
  }

  // beginSnapshot, called by whichever job runs, even a cancelled one.
  function Boundary(s: State): State {
    if s.running.None? || s.stopping || s.handoff != Capturing then s
    else
      var j := s.running.value;
      With(Clear(s).(since := [], bounded := s.bounded || j == s.job), Bounded(j))
  }

  // The runner ends. ok: its own boundary call returned true and the capture did not throw.
  function RunnerEnd(s: State, ok: bool): State {
    if s.running.None? then s
    else s.(running := None,
            captured := s.captured || (ok && s.running.value == s.job && s.bounded && s.login.Waiting?))
  }

  // ---------------------------------------------------------------- steps of the controller

  function CheckTimeout(s: State, expired: bool): State {
    if !(expired && (s.handoff == Capturing || s.handoff == AwaitingAck)) && s.handoff != Failed then s
    else
      var t := Clear(FailHandoff(s));
      ResetHandoff(if t.channel.Some? then t.(closing := true) else t)
  }

  function RequestStop(s: State): State {
    s.(stopping := true)
  }

  // The release part of StopBServer, after all callbacks have drained.
  function StopDone(s: State): State {
    if !s.stopping || s.login != NoLogin then s
    else ResetHandoff(Clear(s.(channel := None, closing := false, client := AwaitHandshake, midSession := false)))
  }

  function Start(s: State): State {
    if s.stopping && s.channel.None? && s.login == NoLogin && s.client == AwaitHandshake && s.handoff == Idle
    then s.(stopping := false, midSession := false) else s
  }

  function SetMid(s: State): State {
    if s.stopping then s else s.(midSession := true)
  }

  // ---------------------------------------------------------------- runs

  datatype Event =
    | EvFromA(p: Packet, game: bool, refOk: bool)
    | EvIntention(c: Chan, refOk: bool)
    | EvHello(c: Chan)
    | EvReadMid
    | EvBeginSync(ok: bool)
    | EvCaptured(ok: bool)
    | EvWriteSnapshot(ok: bool)
    | EvFinishLogin(stopAfter: nat)
    | EvFromB(c: Chan, m: Message)
    | EvInactive(c: Chan)
    | EvRunnerStart(j: nat)
    | EvBoundary
    | EvRunnerEnd(ok: bool)
    | EvTimeout(expired: bool)
    | EvRequestStop
    | EvStopDone
    | EvStart
    | EvSetMid

  // ackBound: the id accessor of teleport acknowledgements was resolved.
  function Step(s: State, e: Event, ackBound: bool): State {
    match e
    case EvFromA(p, game, refOk) => FromA(s, p, game, refOk)
    case EvIntention(c, refOk) => Intention(s, c, refOk)
    case EvHello(c) => Hello(s, c)
    case EvReadMid => ReadMid(s)
    case EvBeginSync(ok) => BeginSync(s, ok)
    case EvCaptured(ok) => Captured(s, ok)
    case EvWriteSnapshot(ok) => WriteSnapshot(s, ok)
    case EvFinishLogin(stopAfter) => FinishLogin(s, stopAfter)
    case EvFromB(c, m) => FromB(s, c, m, ackBound)
    case EvInactive(c) => Inactive(s, c)
    case EvRunnerStart(j) => RunnerStart(s, j)
    case EvBoundary => Boundary(s)
    case EvRunnerEnd(ok) => RunnerEnd(s, ok)
    case EvTimeout(expired) => CheckTimeout(s, expired)
    case EvRequestStop => RequestStop(s)
    case EvStopDone => StopDone(s)
    case EvStart => Start(s)
    case EvSetMid => SetMid(s)
  }

  function Run(s: State, es: seq<Event>, ackBound: bool): State
    decreases |es|
  {
    if es == [] then s else Run(Step(s, es[0], ackBound), es[1..], ackBound)
  }
}
