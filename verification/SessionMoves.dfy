/** Which events move the login, the handoff and the buffer. */
module SessionMoves {
  import opened Wrappers
  import opened LoginHandoff
  import opened PacketPolicy
  import opened References
  import opened SessionModel
  import opened SessionProofs
  import opened SessionTheorems
  import opened SessionStream

  // ---------------------------------------------------------------- the moments of a login

  predicate Asks(s: State, e: Event) {
    && e.EvIntention? && !Busy(s, e.c)
    && if s.channel.Some? then s.channel.value == e.c else e.refOk
  }

  predicate Begins(s: State, e: Event) {
    e == EvBeginSync(true) && s.login.Reconstruct?
  }

  predicate Bounds(s: State, e: Event) {
    e.EvBoundary? && s.running.Some? && !s.stopping && s.handoff == Capturing
  }

  // A game packet while the snapshot is made.
  predicate Mirrors(s: State, e: Event) {
    e.EvFromA? && e.game && !s.stopping && s.client == Syncing && s.handoff == Capturing
  }

  predicate Holds(s: State, e: Event) {
    Mirrors(s, e) && |s.pending| < 8192 && e.refOk
  }

  predicate Overflows(s: State, e: Event) {
    Mirrors(s, e) && (|s.pending| == 8192 || !e.refOk)
  }

  predicate SnapshotFails(s: State, e: Event) {
    e.EvWriteSnapshot? && s.login.Writing? && (!e.ok || s.stopping || s.handoff != Capturing)
  }

  predicate Sends(s: State, e: Event) {
    e.EvFinishLogin? && s.login.Tail? && s.midSession && !s.stopping && s.handoff == Capturing
  }

  predicate SendFails(s: State, e: Event) {
    e.EvFinishLogin? && s.login.Tail? && s.midSession && !s.stopping && s.handoff != Capturing
  }

  predicate GoesDirect(s: State, e: Event) {
    e.EvFinishLogin? && s.login.Tail? && !s.midSession
  }

  // B acknowledges the local teleport on its channel.
  predicate Acknowledges(s: State, e: Event, ackBound: bool) {
    && e.EvFromB? && ackBound && e.m == TeleportAck(-2147483647)
    && s.channel == Some(e.c) && !Busy(s, e.c) && s.handoff == AwaitingAck
  }

  predicate TimesOut(s: State, e: Event) {
    e.EvTimeout? && (s.handoff == Failed || (e.expired && (s.handoff == Capturing || s.handoff == AwaitingAck)))
  }

  predicate Leaves(s: State, e: Event) {
    || (e.EvInactive? && s.channel == Some(e.c) && !s.stopping && !Busy(s, e.c))
    || (e.EvStopDone? && s.stopping && s.login == NoLogin)
  }

  // The handoff ends in failure, at once or with the failing login.
  predicate Fails(s: State, e: Event) {
    Overflows(s, e) || SnapshotFails(s, e)
  }

  predicate Resets(s: State, e: Event) {
    Leaves(s, e) || TimesOut(s, e) || SendFails(s, e)
  }

  // ---------------------------------------------------------------- the handoff

  function HandoffAfter(s: State, e: Event, ackBound: bool): Phase {
    if Begins(s, e) then Capturing
    else if Sends(s, e) then AwaitingAck
    else if Acknowledges(s, e, ackBound) then Active
    else if Fails(s, e) then Failed
    else if Resets(s, e) then Idle
    else s.handoff
  }

  function ClientAfter(s: State, e: Event, ackBound: bool): ClientState {
    if Asks(s, e) then AwaitLogin
    else if Begins(s, e) then Syncing
    else if Sends(s, e) then AwaitReady
    else if GoesDirect(s, e) || (Acknowledges(s, e, ackBound) && s.client == AwaitReady) then Play
    else if Leaves(s, e) then AwaitHandshake
    else s.client
  }

  function ChannelAfter(s: State, e: Event): Option<Chan> {
    if Asks(s, e) then Some(e.c) else if Leaves(s, e) then None else s.channel
  }

  function BufferAfter(s: State, e: Event): seq<Held> {
    if Holds(s, e) then s.pending + [Held(s.nextRef, e.p)]
    else if Begins(s, e) || Bounds(s, e) || Sends(s, e) || Fails(s, e) || Resets(s, e) then []
    else s.pending
  }

  // Four fields after a step.
  predicate Moved(s: State, t: State, e: Event, ackBound: bool) {
    && t.handoff == HandoffAfter(s, e, ackBound)
    && t.client == ClientAfter(s, e, ackBound)
    && t.channel == ChannelAfter(s, e)
    && t.pending == BufferAfter(s, e)
  }

  lemma FromAMoves(s: State, p: Packet, game: bool, refOk: bool, ackBound: bool)
    requires Inv(s)
    ensures Moved(s, FromA(s, p, game, refOk), EvFromA(p, game, refOk), ackBound)
  {
    hide ForwardLive, Refs, ProgressOf, SafeLog, Jobs, Stream;
    ForwardSameBut(s.(since := s.since + [p]), p);
  }

  lemma FinishMoves(s: State, stopAfter: nat, ackBound: bool)
    requires Inv(s)
    ensures Moved(s, FinishLogin(s, stopAfter), EvFinishLogin(stopAfter), ackBound)
  {
    hide Drain, Refs, ProgressOf, SafeLog, Jobs, Stream, Ledger;
    if s.login.Tail? {
      var t := With(s.(handoff := AwaitingAck, client := AwaitReady, pending := [], login := NoLogin), Sent(s.login.c));
      DrainFrame(t, s.pending, stopAfter);
    }
  }

  lemma FromBMoves(s: State, c: Chan, m: Message, ackBound: bool)
    requires Inv(s)
    ensures Moved(s, FromB(s, c, m, ackBound), EvFromB(c, m), ackBound)
  {
    hide FromB, ClientAfter, HandoffAfter, Inv;
    FromBKeeps(s, c, m, ackBound);
    FromBHandoff(s, c, m, ackBound);
    FromBClient(s, c, m, ackBound);
  }

  lemma FromBKeeps(s: State, c: Chan, m: Message, ackBound: bool)
    ensures FromB(s, c, m, ackBound).channel == s.channel && FromB(s, c, m, ackBound).pending == s.pending
  {
    hide Permitted;
  }

  lemma FromBHandoff(s: State, c: Chan, m: Message, ackBound: bool)
    ensures FromB(s, c, m, ackBound).handoff == HandoffAfter(s, EvFromB(c, m), ackBound)
  {
    hide Permitted;
  }

  lemma FromBClient(s: State, c: Chan, m: Message, ackBound: bool)
    requires Inv(s)
    ensures FromB(s, c, m, ackBound).client == ClientAfter(s, EvFromB(c, m), ackBound)
  {
    hide Permitted, Inv;
    ReadyAwaits(s);
  }

  lemma ReadyAwaits(s: State)
    requires Inv(s)
    ensures s.client == AwaitReady ==> s.handoff != Active
  {
    hide ProgressOf, SafeLog, Jobs, Stream, Buffer;
  }

  lemma AskMoves(s: State, c: Chan, refOk: bool, ackBound: bool)
    requires Inv(s)
    ensures Moved(s, Intention(s, c, refOk), EvIntention(c, refOk), ackBound)
  {
    hide Intention, ClientAfter, ChannelAfter, Inv;
    AskKeeps(s, c, refOk);
    AskClient(s, c, refOk, ackBound);
    AskChannel(s, c, refOk);
  }

  lemma AskKeeps(s: State, c: Chan, refOk: bool)
    ensures Intention(s, c, refOk).handoff == s.handoff && Intention(s, c, refOk).pending == s.pending
  {
  }

  lemma AskClient(s: State, c: Chan, refOk: bool, ackBound: bool)
    ensures Intention(s, c, refOk).client == ClientAfter(s, EvIntention(c, refOk), ackBound)
  {
  }

  lemma AskChannel(s: State, c: Chan, refOk: bool)
    ensures Intention(s, c, refOk).channel == ChannelAfter(s, EvIntention(c, refOk))
  {
  }

  predicate Still(s: State, t: State) {
    t.handoff == s.handoff && t.client == s.client && t.channel == s.channel && t.pending == s.pending
  }

  // Events that are none of the moments.
  predicate Silent(e: Event) {
    || e.EvHello? || e.EvReadMid? || e.EvCaptured? || e.EvRunnerStart? || e.EvRunnerEnd?
    || e.EvRequestStop? || e.EvStart? || e.EvSetMid?
  }

  lemma SilentMoves(s: State, t: State, e: Event, ackBound: bool)
    requires Silent(e) && Still(s, t)
    ensures Moved(s, t, e, ackBound)
  {
  }

  lemma LoginStill(s: State, c: Chan, ok: bool)
    ensures Still(s, Hello(s, c)) && Still(s, ReadMid(s)) && Still(s, Captured(s, ok))
  {
  }

  lemma ControlStill(s: State, j: nat, ok: bool)
    ensures Still(s, RunnerStart(s, j)) && Still(s, RunnerEnd(s, ok)) && Still(s, RequestStop(s))
    ensures Still(s, Start(s)) && Still(s, SetMid(s))
  {
  }

  lemma BeginMoves(s: State, ok: bool, ackBound: bool)
    ensures Moved(s, BeginSync(s, ok), EvBeginSync(ok), ackBound)
  {
    hide Refs;
  }

  lemma WriteMoves(s: State, ok: bool, ackBound: bool)
    ensures Moved(s, WriteSnapshot(s, ok), EvWriteSnapshot(ok), ackBound)
  {
    hide Refs;
    if SnapshotFails(s, EvWriteSnapshot(ok)) {
      assert WriteSnapshot(s, ok).handoff == Failed;
    }
  }

  lemma BoundaryMoves(s: State, ackBound: bool)
    ensures Moved(s, Boundary(s), EvBoundary, ackBound)
  {
    hide Refs;
  }

  lemma InactiveMoves(s: State, c: Chan, ackBound: bool)
    ensures Moved(s, Inactive(s, c), EvInactive(c), ackBound)
  {
    hide Refs;
  }

  lemma StopMoves(s: State, ackBound: bool)
    ensures Moved(s, StopDone(s), EvStopDone, ackBound)
  {
    hide Refs;
  }

  lemma TimeoutMoves(s: State, expired: bool, ackBound: bool)
    ensures Moved(s, CheckTimeout(s, expired), EvTimeout(expired), ackBound)
  {
    hide CheckTimeout, HandoffAfter, BufferAfter;
    TimeoutKeeps(s, expired);
    TimeoutResets(s, expired, ackBound);
  }

  lemma TimeoutKeeps(s: State, expired: bool)
    ensures CheckTimeout(s, expired).client == s.client && CheckTimeout(s, expired).channel == s.channel
  {
    hide Refs;
  }

  lemma TimeoutResets(s: State, expired: bool, ackBound: bool)
    ensures CheckTimeout(s, expired).handoff == HandoffAfter(s, EvTimeout(expired), ackBound)
    ensures CheckTimeout(s, expired).pending == BufferAfter(s, EvTimeout(expired))
  {
    hide Refs;
  }

  // In every reachable state and for every event of every thread: the handoff, the client's state, the
  // client channel and the buffer change at exactly these moments.
  lemma MovesExactly(es: seq<Event>, e: Event, ackBound: bool)
    ensures var s := Run(INITIAL, es, ackBound);
            var t := Step(s, e, ackBound);
            && t.handoff == HandoffAfter(s, e, ackBound) && t.client == ClientAfter(s, e, ackBound)
            && t.channel == ChannelAfter(s, e) && t.pending == BufferAfter(s, e)
  {
    hide Run, Inv, Still, HandoffAfter, ClientAfter, ChannelAfter, BufferAfter, FromA, Intention, Hello, ReadMid,
         BeginSync, Captured, WriteSnapshot, FinishLogin, FromB, Inactive, RunnerStart, Boundary, RunnerEnd,
         CheckTimeout, RequestStop, StopDone, Start, SetMid;
    var s := Run(INITIAL, es, ackBound);
    Reachable(es, ackBound);
    match e
    case EvFromA(p, game, refOk) => FromAMoves(s, p, game, refOk, ackBound);
    case EvIntention(c, refOk) => AskMoves(s, c, refOk, ackBound);
    case EvBeginSync(ok) => BeginMoves(s, ok, ackBound);
    case EvWriteSnapshot(ok) => WriteMoves(s, ok, ackBound);
    case EvFinishLogin(stopAfter) => FinishMoves(s, stopAfter, ackBound);
    case EvFromB(c, m) => FromBMoves(s, c, m, ackBound);
    case EvInactive(c) => InactiveMoves(s, c, ackBound);
    case EvBoundary => BoundaryMoves(s, ackBound);
    case EvTimeout(expired) => TimeoutMoves(s, expired, ackBound);
    case EvStopDone => StopMoves(s, ackBound);
    case _ => OthersMove(s, e, ackBound);
  }

  lemma OthersMove(s: State, e: Event, ackBound: bool)
    requires Silent(e)
    ensures Moved(s, Step(s, e, ackBound), e, ackBound)
  {
    hide Moved, Still, Hello, ReadMid, Captured, RunnerStart, RunnerEnd, RequestStop, Start, SetMid;
    SilentStays(s, e, ackBound);
    SilentMoves(s, Step(s, e, ackBound), e, ackBound);
  }

  lemma SilentStays(s: State, e: Event, ackBound: bool)
    requires Silent(e)
    ensures Still(s, Step(s, e, ackBound))
  {
    hide Still, Hello, ReadMid, Captured, RunnerStart, RunnerEnd, RequestStop, Start, SetMid;
    match e
    case EvHello(c) => LoginStill(s, c, false);
    case EvReadMid => LoginStill(s, 0, false);
    case EvCaptured(ok) => LoginStill(s, 0, ok);
    case EvRunnerStart(j) => ControlStill(s, j, false);
    case EvRunnerEnd(ok) => ControlStill(s, 0, ok);
    case EvRequestStop => ControlStill(s, 0, false);
    case EvStart => ControlStill(s, 0, false);
    case EvSetMid => ControlStill(s, 0, false);
  }

  // ---------------------------------------------------------------- when the buffer overflows

  // While the snapshot is made, a game packet ends the handoff exactly when 8192 packets are held or
  // its reference cannot be made. Otherwise it is held as the last one and nothing is released.
  lemma OverflowsExactly(es: seq<Event>, p: Packet, refOk: bool, ackBound: bool)
    requires var s := Run(INITIAL, es, ackBound);
             s.handoff == Capturing && s.client == Syncing && !s.stopping
    ensures var s := Run(INITIAL, es, ackBound);
            var t := Run(INITIAL, es + [EvFromA(p, true, refOk)], ackBound);
            && (t.handoff == Failed <==> |s.pending| == 8192 || !refOk)
            && (t.handoff != Failed ==> t.handoff == Capturing && t.pending == s.pending + [Held(s.nextRef, p)])
            && (t.handoff == Failed ==> t.pending == [])
            && t.deleted == s.deleted + (if t.handoff == Failed then Refs(s.pending) else [])
  {
    hide Run, HandoffAfter, BufferAfter, Refs, ForwardLive;
    var s, e := Run(INITIAL, es, ackBound), EvFromA(p, true, refOk);
    RunSnoc(INITIAL, es, e, ackBound);
    MovesExactly(es, e, ackBound);
    Mirrored(es, e, ackBound);
    NothingMore(s.deleted);
  }

  lemma Mirrored(es: seq<Event>, e: Event, ackBound: bool)
    requires Mirrors(Run(INITIAL, es, ackBound), e)
    ensures var s := Run(INITIAL, es, ackBound);
            && Overflows(s, e) == !Holds(s, e)
            && HandoffAfter(s, e, ackBound) == (if Overflows(s, e) then Failed else Capturing)
            && BufferAfter(s, e) == (if Overflows(s, e) then [] else s.pending + [Held(s.nextRef, e.p)])
  {
    hide Run, Control, Jobs, Stream, Ledger;
    Reachable(es, ackBound);
  }

  // ---------------------------------------------------------------- when B's packet is passed on

  // In every reachable state a packet of B becomes one more routed packet exactly when it comes on
  // the client's channel after its login, the client plays, the policy lets it through and it is not
  // the acknowledgement of the local teleport.
  lemma RoutedExactly(es: seq<Event>, c: Chan, m: Message, ackBound: bool)
    ensures var s := Run(INITIAL, es, ackBound);
            Run(INITIAL, es + [EvFromB(c, m)], ackBound).log == s.log + [Routed(c, m)]
            <==> && s.channel == Some(c) && !(s.login != NoLogin && s.login.c == c)
                 && s.client == Play && AllowFromB(ClassOf(m)) && !(ackBound && m == TeleportAck(-2147483647))
  {
    hide Run, AllowFromB;
    RunSnoc(INITIAL, es, EvFromB(c, m), ackBound);
    RoutesOne(Run(INITIAL, es, ackBound), c, m, ackBound);
  }

  lemma RoutesOne(s: State, c: Chan, m: Message, ackBound: bool)
    ensures FromB(s, c, m, ackBound).log == s.log + [Routed(c, m)]
            <==> && s.channel == Some(c) && !Busy(s, c) && s.client == Play && AllowFromB(ClassOf(m))
                 && !(ackBound && m == TeleportAck(TELEPORT_ID))
  {
    hide AllowFromB, ClassOf;
    NotesDiffer(s.log, c, m);
    if s.channel != Some(c) || Busy(s, c) {
      assert FromB(s, c, m, ackBound).log == s.log;
    } else if m.TeleportAck? && ackBound && m.id == TELEPORT_ID {
      assert FromB(s, c, m, ackBound).log in {s.log, s.log + [LocalAck(c)]};
    }
  }

  lemma NotesDiffer(log: seq<Note>, c: Chan, m: Message)
    ensures log != log + [Routed(c, m)] && log + [LocalAck(c)] != log + [Routed(c, m)]
  {
    assert |log| < |log + [Routed(c, m)]|;
    assert (log + [Routed(c, m)])[|log|] == Routed(c, m);
    assert (log + [LocalAck(c)])[|log|] == LocalAck(c);
  }

  // ---------------------------------------------------------------- when the channel is closed

  // A packet of which a reached leaf is refused.
  predicate Refused(p: Packet) {
    exists l <- Reached(p) :: l.Leaf? && l.fate == Rejected
  }

  // A refused packet comes up before the stop request is seen.
  predicate RefusedBefore(held: seq<Held>, stopAfter: nat) {
    exists i :: 0 <= i < |held| && i < stopAfter && Refused(held[i].packet)
  }

  // The moments at which the client channel is asked to close.
  predicate Shuts(s: State, e: Event) {
    || (e == EvBeginSync(false) && s.login.Reconstruct?)
    || (e == EvCaptured(false) && s.login.Waiting?)
    || SnapshotFails(s, e)
    || (s.channel.Some? && (TimesOut(s, e) || SendFails(s, e)))
    || (Sends(s, e) && RefusedBefore(s.pending, e.stopAfter))
    || (e.EvFromA? && e.game && !s.stopping && (s.client == Play || s.client == AwaitReady) && Refused(e.p))
  }

  // A channel that is let go is not asked to close any more.
  predicate Opens(s: State, e: Event) {
    Leaves(s, e) || (Asks(s, e) && s.channel == None)
  }

  predicate ShutAfter(s: State, e: Event) {
    !Opens(s, e) && (s.closing || Shuts(s, e))
  }

  lemma {:induction false} ClosesRefused(leaves: seq<Packet>)
    ensures Closes(leaves) <==> exists l <- leaves :: l.Leaf? && l.fate == Rejected
    decreases |leaves|
  {
    if leaves != [] {
      ClosesRefused(leaves[1..]);
    }
  }

  lemma ForwardShuts(s: State, p: Packet)
    requires s.channel.Some?
    ensures ForwardLive(s, p).closing == (s.closing || (!s.stopping && Refused(p)))
  {
    hide Reached, Deliver, Closes;
    ReachedLeaves(p);
    DeliverSame(s, s.channel.value, Reached(p));
    ClosesRefused(Reached(p));
  }

  lemma {:induction false} DrainShuts(s: State, held: seq<Held>, stopAfter: nat)
    requires s.channel.Some? && (stopAfter == 0 || !s.stopping)
    ensures Drain(s, held, stopAfter).closing == (s.closing || RefusedBefore(held, stopAfter))
    decreases |held|
  {
    hide ForwardLive, Refused;
    if held != [] {
      var t := if stopAfter == 0 then s.(stopping := true) else s;
      var next := ForwardLive(t, held[0].packet);
      ForwardSameBut(t, held[0].packet);
      ForwardShuts(t, held[0].packet);
      next := next.(deleted := next.deleted + [held[0].ref]);
      DrainShuts(next, held[1..], if stopAfter == 0 then 0 else stopAfter - 1);
      RefusedFirst(held, stopAfter);
    }
  }

  lemma RefusedFirst(held: seq<Held>, stopAfter: nat)
    requires held != []
    ensures stopAfter == 0 ==> !RefusedBefore(held, stopAfter) && !RefusedBefore(held[1..], 0)
    ensures stopAfter > 0 ==>
              (RefusedBefore(held, stopAfter) <==> Refused(held[0].packet) || RefusedBefore(held[1..], stopAfter - 1))
  {
    hide Refused;
    if stopAfter > 0 && RefusedBefore(held[1..], stopAfter - 1) {
      var i :| 0 <= i < |held[1..]| && i < stopAfter - 1 && Refused(held[1..][i].packet);
      assert Refused(held[i + 1].packet);
    }
    if stopAfter > 0 && RefusedBefore(held, stopAfter) && !Refused(held[0].packet) {
      var i :| 0 <= i < |held| && i < stopAfter && Refused(held[i].packet);
      assert Refused(held[1..][i - 1].packet);
    }
  }

  lemma FromAShuts(s: State, p: Packet, game: bool, refOk: bool)
    requires Inv(s)
    ensures FromA(s, p, game, refOk).closing == ShutAfter(s, EvFromA(p, game, refOk))
  {
    hide ForwardLive, Refs, ProgressOf, SafeLog, Jobs, Stream, Buffer, Refused;
    if s.channel.Some? {
      ForwardShuts(s.(since := s.since + [p]), p);
    }
  }

  lemma FinishShuts(s: State, stopAfter: nat)
    requires Inv(s)
    ensures FinishLogin(s, stopAfter).closing == ShutAfter(s, EvFinishLogin(stopAfter))
  {
    hide Drain, Refs, ProgressOf, SafeLog, Jobs, Stream, Buffer, RefusedBefore;
    if s.login.Tail? {
      var t := With(s.(handoff := AwaitingAck, client := AwaitReady, pending := [], login := NoLogin), Sent(s.login.c));
      if !s.stopping {
        DrainShuts(t, s.pending, stopAfter);
      }
    }
  }

  lemma LoginShuts(s: State, ok: bool)
    ensures BeginSync(s, ok).closing == ShutAfter(s, EvBeginSync(ok))
    ensures Captured(s, ok).closing == ShutAfter(s, EvCaptured(ok))
  {
    hide Refs;
  }

  lemma WriteShuts(s: State, ok: bool)
    ensures WriteSnapshot(s, ok).closing == ShutAfter(s, EvWriteSnapshot(ok))
  {
    hide Refs;
  }

  lemma AskShuts(s: State, c: Chan, refOk: bool)
    ensures Intention(s, c, refOk).closing == ShutAfter(s, EvIntention(c, refOk))
  {
  }

  lemma LeaveShuts(s: State, c: Chan)
    ensures Inactive(s, c).closing == ShutAfter(s, EvInactive(c))
    ensures StopDone(s).closing == ShutAfter(s, EvStopDone)
  {
    hide Refs;
  }

  lemma TimeoutShuts(s: State, expired: bool)
    ensures CheckTimeout(s, expired).closing == ShutAfter(s, EvTimeout(expired))
  {
    hide Clear, FailHandoff, ResetHandoff, TimesOut, CheckTimeout;
    TimeoutCloses(s, expired);
  }

  lemma TimeoutCloses(s: State, expired: bool)
    ensures CheckTimeout(s, expired).closing == (s.closing || (s.channel.Some? && TimesOut(s, EvTimeout(expired))))
  {
    hide Refs;
    var t := Clear(FailHandoff(s));
    assert t.channel == s.channel && t.closing == s.closing;
  }

  lemma FromBShuts(s: State, c: Chan, m: Message, ackBound: bool)
    ensures FromB(s, c, m, ackBound).closing == s.closing
  {
    hide Permitted;
  }

  lemma OtherShuts(s: State, c: Chan)
    ensures Hello(s, c).closing == s.closing && ReadMid(s).closing == s.closing && Boundary(s).closing == s.closing
  {
    hide Refs;
  }

  lemma ControlShuts(s: State, j: nat, ok: bool)
    ensures RunnerStart(s, j).closing == s.closing && RunnerEnd(s, ok).closing == s.closing
    ensures RequestStop(s).closing == s.closing && Start(s).closing == s.closing && SetMid(s).closing == s.closing
  {
  }

  // Over every run the client channel is asked to close at exactly these moments, and stays so until
  // it is let go.
  lemma ShutsExactly(es: seq<Event>, e: Event, ackBound: bool)
    ensures var s := Run(INITIAL, es, ackBound);
            Step(s, e, ackBound).closing == (!Opens(s, e) && (s.closing || Shuts(s, e)))
  {
    hide Run, Inv, Shuts, Opens, FromA, Intention, Hello, ReadMid, BeginSync, Captured, WriteSnapshot, FinishLogin,
         FromB, Inactive, RunnerStart, Boundary, RunnerEnd, CheckTimeout, RequestStop, StopDone, Start, SetMid;
    var s := Run(INITIAL, es, ackBound);
    Reachable(es, ackBound);
    match e
    case EvFromA(p, game, refOk) => FromAShuts(s, p, game, refOk);
    case EvIntention(c, refOk) => AskShuts(s, c, refOk);
    case EvBeginSync(ok) => LoginShuts(s, ok);
    case EvCaptured(ok) => LoginShuts(s, ok);
    case EvWriteSnapshot(ok) => WriteShuts(s, ok);
    case EvFinishLogin(stopAfter) => FinishShuts(s, stopAfter);
    case EvInactive(c) => LeaveShuts(s, c);
    case EvTimeout(expired) => TimeoutShuts(s, expired);
    case EvStopDone => LeaveShuts(s, 0);
    case _ => OthersShut(s, e, ackBound);
  }

  // Events that neither open nor close a channel.
  predicate Neutral(e: Event) {
    (Silent(e) && !e.EvCaptured?) || e.EvFromB? || e.EvBoundary?
  }

  lemma OthersShut(s: State, e: Event, ackBound: bool)
    requires Neutral(e)
    ensures Step(s, e, ackBound).closing == ShutAfter(s, e)
  {
    hide ShutAfter;
    NoneShut(s, e);
    OthersStay(s, e, ackBound);
  }

  lemma OthersStay(s: State, e: Event, ackBound: bool)
    requires Neutral(e)
    ensures Step(s, e, ackBound).closing == s.closing
  {
    hide Hello, ReadMid, FromB, RunnerStart, Boundary, RunnerEnd, RequestStop, Start, SetMid;
    match e
    case EvHello(c) => OtherShuts(s, c);
    case EvReadMid => OtherShuts(s, 0);
    case EvFromB(c, m) => FromBShuts(s, c, m, ackBound);
    case EvRunnerStart(j) => ControlShuts(s, j, false);
    case EvBoundary => OtherShuts(s, 0);
    case EvRunnerEnd(ok) => ControlShuts(s, 0, ok);
    case EvRequestStop => ControlShuts(s, 0, false);
    case EvStart => ControlShuts(s, 0, false);
    case EvSetMid => ControlShuts(s, 0, false);
  }

  lemma NoneShut(s: State, e: Event)
    requires Neutral(e)
    ensures ShutAfter(s, e) == s.closing
  {
  }

  // ---------------------------------------------------------------- every login can be served

  // A state in which the client's channel has asked for a login.
  predicate Asked(s: State, c: Chan) {
    && s.login == NoLogin && s.channel == Some(c) && s.client == AwaitLogin && !s.stopping && !s.closing
  }

  // A login whose snapshot has passed its boundary and is still being made.
  predicate Mirroring(s: State, c: Chan) {
    && s.login == Waiting(c) && s.handoff == Capturing && s.client == Syncing && s.channel == Some(c)
    && s.midSession && !s.stopping && !s.closing && s.bounded && s.running == Some(s.job)
  }

  // The snapshot is sent and B has to acknowledge it.
  predicate Ready(s: State, c: Chan) {
    && s.client == AwaitReady && s.handoff == AwaitingAck && s.channel == Some(c) && s.login == NoLogin
    && !s.stopping
  }

  // B is in control.
  predicate InControl(s: State, c: Chan) {
    s.client == Play && s.handoff == Active && s.channel == Some(c) && !s.stopping
  }

  lemma UntilMirroring(es0: seq<Event>, s0: State, c: Chan) returns (es: seq<Event>, s: State)
    requires Run(INITIAL, es0, true) == s0 && Asked(s0, c) && s0.midSession && s0.running.None?
    ensures es0 <= es && Run(INITIAL, es, true) == s && Mirroring(s, c) && s.pending == [] && s.since == []
  {
    hide Run, BeginSync, Boundary, Refs;
    es, s := Then(es0, s0, EvHello(c), true);
    es, s := Then(es, s, EvReadMid, true);
    assert s == s0.(login := Reconstruct(c));
    var job := s0.job + 1;
    BeginLeaves(s);
    es, s := Then(es, s, EvBeginSync(true), true);
    assert s.login == Waiting(c) && s.running.None? && s.job == job;
    es, s := Then(es, s, EvRunnerStart(job), true);
    BoundaryLeaves(s);
    es, s := Then(es, s, EvBoundary, true);
  }

  // Channel, flags and running job stay.
  predicate Kept(s: State, t: State) {
    && t.channel == s.channel && t.midSession == s.midSession && t.stopping == s.stopping
    && t.closing == s.closing && t.running == s.running
  }

  lemma BeginLeaves(s: State)
    requires s.login.Reconstruct?
    ensures var t := BeginSync(s, true);
            && Kept(s, t) && t.login == Waiting(s.login.c) && t.handoff == Capturing && t.client == Syncing
            && t.job == s.job + 1 && t.job in t.queued
  {
    hide Refs;
  }

  lemma BoundaryLeaves(s: State)
    requires s.running == Some(s.job) && !s.stopping && s.handoff == Capturing
    ensures var t := Boundary(s);
            && Kept(s, t) && t.bounded && t.pending == [] && t.since == [] && t.job == s.job
            && t.login == s.login && t.handoff == Capturing && t.client == s.client
  {
    hide Refs;
  }

  lemma {:induction false} HoldAll(es0: seq<Event>, s0: State, c: Chan, ps: seq<Packet>)
      returns (es: seq<Event>, s: State)
    requires Run(INITIAL, es0, true) == s0 && Mirroring(s0, c) && |s0.pending| + |ps| <= 8192
    ensures es0 <= es && Run(INITIAL, es, true) == s && Mirroring(s, c)
    ensures s.since == s0.since + ps && |s.pending| == |s0.pending| + |ps| && s0.pending <= s.pending
    ensures forall i :: 0 <= i < |ps| ==> s.pending[|s0.pending| + i].packet == ps[i]
    decreases |ps|
  {
    hide Run;
    es, s := es0, s0;
    if ps == [] {
      NothingMore(s.since);
    } else {
      es, s := Then(es, s, EvFromA(ps[0], true, true), true);
      assert s.pending[|s0.pending|].packet == ps[0];
      es, s := HoldAll(es, s, c, ps[1..]);
      Assoc(s0.since, [ps[0]], ps[1..]);
      assert ps == [ps[0]] + ps[1..];
      forall i | 0 <= i < |ps|
        ensures s.pending[|s0.pending| + i].packet == ps[i]
      {
        if i > 0 {
          assert s.pending[|s0.pending| + 1 + (i - 1)].packet == ps[1..][i - 1];
        }
      }
    }
  }

  // No stop request comes during a drain that is long enough.
  lemma {:induction false} DrainGoesOn(s: State, held: seq<Held>, stopAfter: nat)
    requires |held| <= stopAfter
    ensures Drain(s, held, stopAfter).stopping == s.stopping
    decreases |held|
  {
    hide ForwardLive;
    if held != [] {
      var next := ForwardLive(s, held[0].packet);
      ForwardSameBut(s, held[0].packet);
      DrainGoesOn(next.(deleted := next.deleted + [held[0].ref]), held[1..], stopAfter - 1);
    }
  }

  lemma UntilReady(es0: seq<Event>, s0: State, c: Chan) returns (es: seq<Event>, s: State)
    requires Run(INITIAL, es0, true) == s0 && Mirroring(s0, c)
    ensures es0 <= es && Run(INITIAL, es, true) == s && s.since == s0.since
    ensures Ready(s, c) && s.pending == []
    ensures s.closing <==> RefusedBefore(s0.pending, |s0.pending|)
  {
    hide Run, Drain, RefusedBefore;
    es, s := Then(es0, s0, EvRunnerEnd(true), true);
    es, s := Then(es, s, EvCaptured(true), true);
    assert s == s0.(running := None, captured := s.captured, login := Writing(c));
    es, s := Then(es, s, EvWriteSnapshot(true), true);
    assert s.pending == s0.pending && s.login == Tail(c, true);
    var t := With(s.(handoff := AwaitingAck, client := AwaitReady, pending := [], login := NoLogin), Sent(c));
    DrainFrame(t, s.pending, |s.pending|);
    DrainShuts(t, s.pending, |s.pending|);
    DrainGoesOn(t, s.pending, |s.pending|);
    es, s := Then(es, s, EvFinishLogin(|s.pending|), true);
  }

  predicate HoldsAll(s: State, ps: seq<Packet>) {
    s.handoff == Capturing && |s.pending| == |ps| && forall i :: 0 <= i < |ps| ==> s.pending[i].packet == ps[i]
  }

  // B is in control and got all the leaves, in order; only a refused packet closed the channel.
  predicate Served(s: State, c: Chan, ps: seq<Packet>) {
    && InControl(s, c) && s.pending == []
    && (s.closing <==> exists p <- ps :: Refused(p))
    && (!s.closing ==> Live(s) == Expected(ps))
  }

  // From every reachable state in which a client asks for a mid-session login while the render thread is
  // free: whatever was before, and whatever up to 8192 packets A gets meanwhile, the login can be served.
  // All these packets are held at once (mid), then B gets all their leaves in order, and control. Only a
  // packet that is refused spoils it.
  lemma LoginServed(es0: seq<Event>, c: Chan, ps: seq<Packet>) returns (mid: seq<Event>, es: seq<Event>)
    requires var s := Run(INITIAL, es0, true); Asked(s, c) && s.midSession && s.running.None?
    requires |ps| <= 8192
    ensures es0 <= mid <= es && HoldsAll(Run(INITIAL, mid, true), ps) && Served(Run(INITIAL, es, true), c, ps)
  {
    hide Run, Live, Expected, Refused, RefusedBefore;
    var s := Run(INITIAL, es0, true);
    es, s := UntilMirroring(es0, s, c);
    NothingMore(ps);
    es, s := HoldAll(es, s, c, ps);
    mid := es;
    HeldRefused(s.pending, ps);
    es, s := UntilReady(es, s, c);
    es, s := UntilControl(es, s, c);
    WholeStream(es);
  }

  lemma UntilControl(es0: seq<Event>, s0: State, c: Chan) returns (es: seq<Event>, s: State)
    requires Run(INITIAL, es0, true) == s0
    requires Ready(s0, c)
    ensures es0 <= es && Run(INITIAL, es, true) == s && InControl(s, c)
    ensures s.pending == s0.pending && s.closing == s0.closing && s.since == s0.since
  {
    hide Run;
    es, s := Then(es0, s0, EvFromB(c, TeleportAck(-2147483647)), true);
  }

  lemma WholeStream(es: seq<Event>)
    requires var s := Run(INITIAL, es, true); s.client == Play && !s.stopping
    ensures var s := Run(INITIAL, es, true); s.closing || Live(s) == Expected(s.since)
  {
    hide Run, Live, Expected, Control, Jobs, Buffer;
    Reachable(es, true);
  }

  lemma HeldRefused(held: seq<Held>, ps: seq<Packet>)
    requires |held| == |ps| && forall i :: 0 <= i < |ps| ==> held[i].packet == ps[i]
    ensures RefusedBefore(held, |held|) <==> exists p <- ps :: Refused(p)
  {
    hide Refused;
    if p :| p in ps && Refused(p) {
      var i :| 0 <= i < |ps| && ps[i] == p;
      assert Refused(held[i].packet);
    }
  }

  // A login before A is in a game gives control at once.
  lemma DirectServed(es0: seq<Event>, c: Chan) returns (es: seq<Event>)
    requires var s := Run(INITIAL, es0, true); Asked(s, c) && !s.midSession
    ensures es0 <= es
    ensures var s := Run(INITIAL, es, true); s.client == Play && s.handoff == Idle && !s.closing && Live(s) == []
  {
    hide Run, Live, Expected, ProgressOf, SafeLog, Jobs, Buffer;
    var s := Run(INITIAL, es0, true);
    Reachable(es0, true);
    es, s := Then(es0, s, EvHello(c), true);
    es, s := Then(es, s, EvReadMid, true);
    es, s := Then(es, s, EvFinishLogin(0), true);
    Reachable(es, true);
    Nothing();
  }

  // A first client is served: for every list of up to 8192 ids a run in which all of them are held at
  // once and then arrive at B.
  lemma ManyHeld(ids: seq<nat>) returns (mid: seq<Event>, es: seq<Event>)
    requires |ids| <= 8192
    ensures mid <= es && |Run(INITIAL, mid, true).pending| == |ids|
    ensures InControl(Run(INITIAL, es, true), 0) && !Run(INITIAL, es, true).closing
    ensures Live(Run(INITIAL, es, true)) == ids
  {
    hide Run, Live, Expected;
    var s := RunNone();
    es := [];
    es, s := Then(es, s, EvStart, true);
    es, s := Then(es, s, EvSetMid, true);
    es, s := Then(es, s, EvIntention(0, true), true);
    mid, es := LoginServed(es, 0, LeavesFor(ids));
    LeavesForDue(ids);
    NoneRefused(ids);
  }

  // From every reachable state in which no login runs, a stop and a start leave a blank session, and a
  // client that comes then has asked for a login.
  lemma SessionRestarts(es0: seq<Event>, c: Chan) returns (es: seq<Event>)
    requires Run(INITIAL, es0, true).login == NoLogin
    ensures es0 <= es
    ensures var s := Run(INITIAL, es, true);
            && Asked(s, c) && s.midSession && s.handoff == Idle && s.pending == []
            && s.running == Run(INITIAL, es0, true).running
  {
    hide Run, StopDone, Asked;
    var s := Run(INITIAL, es0, true);
    es, s := Then(es0, s, EvRequestStop, true);
    StopLeaves(s);
    es, s := Then(es, s, EvStopDone, true);
    es, s := ClientComes(es, s, c);
  }

  predicate Stopped(s: State) {
    && s.channel == None && !s.closing && s.client == AwaitHandshake && s.handoff == Idle && s.pending == []
    && s.login == NoLogin && s.stopping
  }

  lemma ClientComes(es0: seq<Event>, s0: State, c: Chan) returns (es: seq<Event>, s: State)
    requires Run(INITIAL, es0, true) == s0 && Stopped(s0)
    ensures es0 <= es && Run(INITIAL, es, true) == s && Asked(s, c) && s.midSession && s.handoff == Idle
    ensures s.pending == [] && s.running == s0.running
  {
    hide Run;
    es, s := Then(es0, s0, EvStart, true);
    es, s := Then(es, s, EvSetMid, true);
    es, s := Then(es, s, EvIntention(c, true), true);
  }

  lemma StopLeaves(s: State)
    requires s.stopping && s.login == NoLogin
    ensures var t := StopDone(s); Stopped(t) && t.running == s.running
  {
    hide Refs;
  }

  function LeavesFor(ids: seq<nat>): seq<Packet> {
    seq(|ids|, i requires 0 <= i < |ids| => Leaf(ids[i], Written))
  }

  lemma NoneRefused(ids: seq<nat>)
    ensures forall p <- LeavesFor(ids) :: !Refused(p)
  {
  }

  lemma {:induction false} LeavesForDue(ids: seq<nat>)
    ensures Expected(LeavesFor(ids)) == ids
    decreases |ids|
  {
    hide Expected, Due, Reached;
    if ids != [] {
      var n := |ids| - 1;
      var p := Leaf(ids[n], Written);
      LeavesForDue(ids[..n]);
      LeavesForSnoc(ids);
      ExpectedAppend(LeavesFor(ids[..n]), p);
      LeafDue(p);
      assert ids == ids[..n] + [ids[n]];
    } else {
      Nothing();
      assert LeavesFor(ids) == [];
    }
  }

  lemma LeavesForSnoc(ids: seq<nat>)
    requires ids != []
    ensures LeavesFor(ids) == LeavesFor(ids[..|ids| - 1]) + [Leaf(ids[|ids| - 1], Written)]
  {
  }

  lemma LeafDue(p: Packet)
    requires p.Leaf? && p.fate == Written
    ensures Due(Reached(p)) == [p.id]
  {
    assert [p][1..] == [];
  }
}
