/** Who may control A, in every run of the mid-session login. */
module SessionTheorems {
  import opened Wrappers
  import opened LoginHandoff
  import opened PacketPolicy
  import opened SessionModel
  import opened SessionProofs

  lemma Reachable(es: seq<Event>, ackBound: bool)
    ensures Inv(Run(INITIAL, es, ackBound))
  {
    hide Inv, Step, Run;
    InitialInv();
    KeepRun(INITIAL, es, ackBound);
  }

  // ---------------------------------------------------------------- control

  predicate Quiet(log: seq<Note>, from: nat) {
    forall i :: from <= i < |log| ==> !log[i].Broken? && !log[i].Begun? && !log[i].Direct?
  }

  // The places in the history where a login passed its stages.
  datatype Trail =
    | Trail(job: nat, begun: nat, boundary: nat, snapshot: nat, sent: nat, ack: Option<nat>)
    | Open(direct: nat)

  // Begin, boundary, all snapshot packets and snapshotSent, for one channel and one job, in this
  // order, with no failure, reset or other start since, and no other boundary before the
  // snapshot was written.
  predicate SentTrail(log: seq<Note>, c: Chan, t: Trail) {
    && t.Trail?
    && t.begun < t.boundary < t.snapshot < t.sent < |log|
    && log[t.begun] == Begun(c, t.job) && log[t.boundary] == Bounded(t.job)
    && log[t.snapshot] == SnapshotWritten(c, t.job) && log[t.sent] == Sent(c)
    && (forall i :: t.boundary < i < t.snapshot ==> !log[i].Bounded?)
    && Quiet(log, t.begun + 1)
  }

  predicate ControlTrail(log: seq<Note>, c: Chan, t: Trail) {
    && SentTrail(log, c, t)
    && t.ack.Some? && t.sent < t.ack.value < |log| && log[t.ack.value] == LocalAck(c)
  }

  // The login happened before A was in a game: there is no handoff.
  predicate OpenTrail(log: seq<Note>, c: Chan, t: Trail) {
    t.Open? && t.direct < |log| && log[t.direct] == Direct(c) && Quiet(log, t.direct + 1)
  }

  lemma QuietPrefix(log: seq<Note>, from: nat)
    requires log != [] && Quiet(log[..|log| - 1], from)
    requires !log[|log| - 1].Broken? && !log[|log| - 1].Begun? && !log[|log| - 1].Direct?
    ensures Quiet(log, from)
  {
    forall i | from <= i < |log| ensures !log[i].Broken? && !log[i].Begun? && !log[i].Direct? {
      if i < |log| - 1 {
        assert log[..|log| - 1][i] == log[i];
      }
    }
  }

  lemma {:induction false} BegunTrail(log: seq<Note>, c: Chan, job: nat) returns (b: nat)
    requires ProgressOf(log) == PBegun(c, job)
    ensures b < |log| && log[b] == Begun(c, job) && Quiet(log, b + 1)
    decreases |log|
  {
    if log[|log| - 1].Begun? {
      b := |log| - 1;
    } else {
      b := BegunTrail(log[..|log| - 1], c, job);
      QuietPrefix(log, b + 1);
    }
  }

  lemma {:induction false} BoundedTrail(log: seq<Note>, c: Chan, job: nat, j: nat) returns (b: nat, m: nat)
    requires ProgressOf(log) == PBounded(c, job, j)
    ensures b < m < |log| && log[b] == Begun(c, job) && log[m] == Bounded(j) && Quiet(log, b + 1)
    ensures forall i :: m < i < |log| ==> !log[i].Bounded?
    decreases |log|
  {
    var front := log[..|log| - 1];
    if log[|log| - 1].Bounded? {
      m := |log| - 1;
      if ProgressOf(front).PBegun? {
        b := BegunTrail(front, c, job);
      } else {
        var ignored;
        b, ignored := BoundedTrail(front, c, job, ProgressOf(front).boundary);
      }
    } else {
      b, m := BoundedTrail(front, c, job, j);
    }
    QuietPrefix(log, b + 1);
  }

  lemma {:induction false} WrittenTrail(log: seq<Note>, c: Chan) returns (job: nat, b: nat, m: nat, w: nat)
    requires ProgressOf(log) == PWritten(c)
    ensures b < m < w < |log| && log[b] == Begun(c, job) && log[m] == Bounded(job) && log[w] == SnapshotWritten(c, job)
    ensures Quiet(log, b + 1) && forall i :: m < i < w ==> !log[i].Bounded?
    decreases |log|
  {
    var front := log[..|log| - 1];
    if log[|log| - 1].SnapshotWritten? {
      job, w := log[|log| - 1].job, |log| - 1;
      b, m := BoundedTrail(front, c, job, job);
    } else {
      job, b, m, w := WrittenTrail(front, c);
    }
    QuietPrefix(log, b + 1);
  }

  lemma {:induction false} FindSent(log: seq<Note>, c: Chan) returns (t: Trail)
    requires ProgressOf(log) == PSent(c)
    ensures SentTrail(log, c, t)
    decreases |log|
  {
    var front := log[..|log| - 1];
    if log[|log| - 1].Sent? {
      var job, b, m, w := WrittenTrail(front, c);
      t := Trail(job, b, m, w, |log| - 1, None);
    } else {
      t := FindSent(front, c);
    }
    QuietPrefix(log, t.begun + 1);
  }

  lemma {:induction false} FindControl(log: seq<Note>, c: Chan) returns (t: Trail)
    requires ProgressOf(log) == PControl(c)
    ensures ControlTrail(log, c, t)
    decreases |log|
  {
    var front := log[..|log| - 1];
    if log[|log| - 1].LocalAck? && ProgressOf(front).PSent? {
      t := FindSent(front, c);
      t := t.(ack := Some(|log| - 1));
    } else {
      t := FindControl(front, c);
    }
    QuietPrefix(log, t.begun + 1);
  }

  lemma {:induction false} FindOpen(log: seq<Note>, c: Chan) returns (t: Trail)
    requires ProgressOf(log) == PFree(c)
    ensures OpenTrail(log, c, t)
    decreases |log|
  {
    if log[|log| - 1].Direct? {
      t := Open(|log| - 1);
    } else {
      t := FindOpen(log[..|log| - 1], c);
      QuietPrefix(log, t.direct + 1);
    }
  }

  lemma {:induction false} SafeAt(log: seq<Note>, k: nat)
    requires SafeLog(log) && k < |log|
    ensures Allowed(ProgressOf(log[..k]), log[k])
    decreases |log|
  {
    if k < |log| - 1 {
      SafeAt(log[..|log| - 1], k);
      assert log[..|log| - 1][..k] == log[..k];
    }
  }

  // Control handover: whatever the interleaving, a packet of B is routed to A only after the
  // whole handover of that channel, or in a login that started before A was in a game.
  lemma RoutedOnlyAfterHandover(es: seq<Event>, ackBound: bool, k: nat) returns (t: Trail)
    requires k < |Run(INITIAL, es, ackBound).log| && Run(INITIAL, es, ackBound).log[k].Routed?
    ensures var log := Run(INITIAL, es, ackBound).log;
            var c := log[k].c;
            ControlTrail(log[..k], c, t) || OpenTrail(log[..k], c, t)
  {
    hide Run, ProgressOf, SafeLog, ControlTrail, OpenTrail;
    var log := Run(INITIAL, es, ackBound).log;
    Reachable(es, ackBound);
    SafeAt(log, k);
    if ProgressOf(log[..k]).PControl? {
      t := FindControl(log[..k], log[k].c);
    } else {
      t := FindOpen(log[..k], log[k].c);
    }
  }

  // A live packet is written to B only after all snapshot packets and snapshotSent of the same
  // login on the same channel.
  lemma LiveOnlyAfterSnapshot(es: seq<Event>, ackBound: bool, k: nat) returns (t: Trail)
    requires k < |Run(INITIAL, es, ackBound).log| && Run(INITIAL, es, ackBound).log[k].LiveWrite?
    ensures var log := Run(INITIAL, es, ackBound).log;
            var c := log[k].c;
            SentTrail(log[..k], c, t) || OpenTrail(log[..k], c, t)
  {
    hide Run, ProgressOf, SafeLog, OpenTrail;
    var log := Run(INITIAL, es, ackBound).log;
    Reachable(es, ackBound);
    SafeAt(log, k);
    if ProgressOf(log[..k]).PControl? {
      t := FindControl(log[..k], log[k].c);
    } else if ProgressOf(log[..k]).PSent? {
      t := FindSent(log[..k], log[k].c);
    } else {
      t := FindOpen(log[..k], log[k].c);
    }
  }

  // ---------------------------------------------------------------- the local teleport id

  predicate MayRoute(m: Message, ackBound: bool) {
    Permitted(m) && !(ackBound && m == TeleportAck(TELEPORT_ID))
  }

  predicate SoundNote(n: Note, ackBound: bool) {
    (n.Routed? ==> MayRoute(n.m, ackBound)) && (n.LocalAck? ==> ackBound)
  }

  predicate Sound(log: seq<Note>, ackBound: bool) {
    forall i :: 0 <= i < |log| ==> SoundNote(log[i], ackBound)
  }

  lemma SoundAppend(log: seq<Note>, n: Note, ackBound: bool)
    requires Sound(log, ackBound) && SoundNote(n, ackBound)
    ensures Sound(log + [n], ackBound)
  {
  }

  lemma {:induction false} DeliverSound(s: State, c: Chan, leaves: seq<Packet>, ackBound: bool)
    requires (forall l <- leaves :: l.Leaf?) && Sound(s.log, ackBound)
    ensures Sound(Deliver(s, c, leaves).log, ackBound)
    decreases |leaves|
  {
    hide Sound;
    if leaves != [] {
      SoundAppend(s.log, LiveWrite(c, leaves[0].id), ackBound);
      DeliverSound(DeliverLeaf(s, c, leaves[0]), c, leaves[1..], ackBound);
    }
  }

  lemma ForwardSound(s: State, p: Packet, ackBound: bool)
    requires Sound(s.log, ackBound)
    ensures Sound(ForwardLive(s, p).log, ackBound)
  {
    hide Sound, Reached, Deliver;
    if !s.stopping && s.channel.Some? {
      ReachedLeaves(p);
      DeliverSound(s, s.channel.value, Reached(p), ackBound);
    }
  }

  lemma {:induction false} DrainSound(s: State, held: seq<Held>, stopAfter: nat, ackBound: bool)
    requires Sound(s.log, ackBound)
    ensures Sound(Drain(s, held, stopAfter).log, ackBound)
    decreases |held|
  {
    hide Sound, ForwardLive;
    if held != [] {
      var t := if stopAfter == 0 then s.(stopping := true) else s;
      ForwardSound(t, held[0].packet, ackBound);
      var u := ForwardLive(t, held[0].packet);
      DrainSound(u.(deleted := u.deleted + [held[0].ref]), held[1..],
                 if stopAfter == 0 then 0 else stopAfter - 1, ackBound);
    }
  }

  lemma BrokenSound(log: seq<Note>, ackBound: bool)
    requires Sound(log, ackBound)
    ensures Sound(log + [Broken], ackBound) && Sound(log + [Broken] + [Broken], ackBound)
    ensures Sound(log + [Broken] + [Broken] + [Broken], ackBound)
  {
    hide Sound;
    SoundAppend(log, Broken, ackBound);
    SoundAppend(log + [Broken], Broken, ackBound);
    SoundAppend(log + [Broken] + [Broken], Broken, ackBound);
  }

  lemma {:induction false} FinishSound(s: State, stopAfter: nat, ackBound: bool)
    requires Sound(s.log, ackBound)
    ensures Sound(FinishLogin(s, stopAfter).log, ackBound)
  {
    hide Sound, Drain;
    BrokenSound(s.log, ackBound);
    if s.login.Tail? {
      SoundAppend(s.log, Sent(s.login.c), ackBound);
      SoundAppend(s.log, Direct(s.login.c), ackBound);
      var t := With(s.(handoff := AwaitingAck, client := AwaitReady, pending := [], login := NoLogin), Sent(s.login.c));
      DrainSound(t, s.pending, stopAfter, ackBound);
    }
  }

  predicate SameHistory(s: State, t: State) {
    t.log == s.log && t.since == s.since
  }

  // The steps that leave the history as it is.
  lemma SilentLogin(s: State, c: Chan, ok: bool)
    ensures SameHistory(s, Intention(s, c, ok)) && SameHistory(s, Hello(s, c))
    ensures SameHistory(s, ReadMid(s)) && SameHistory(s, Captured(s, ok))
  {
  }

  lemma SilentControl(s: State, j: nat, ok: bool)
    ensures SameHistory(s, RequestStop(s)) && SameHistory(s, Start(s)) && SameHistory(s, SetMid(s))
    ensures SameHistory(s, RunnerStart(s, j)) && SameHistory(s, RunnerEnd(s, ok))
  {
  }

  lemma FromASound(s: State, p: Packet, game: bool, refOk: bool, ackBound: bool)
    requires Sound(s.log, ackBound)
    ensures Sound(FromA(s, p, game, refOk).log, ackBound)
  {
    hide Sound, ForwardLive;
    BrokenSound(s.log, ackBound);
    ForwardSound(s.(since := s.since + [p]), p, ackBound);
  }

  lemma {:induction false} FromBSound(s: State, c: Chan, m: Message, ackBound: bool)
    requires Sound(s.log, ackBound)
    ensures Sound(FromB(s, c, m, ackBound).log, ackBound)
  {
    hide Permitted, Sound;
    if ackBound {
      SoundAppend(s.log, LocalAck(c), ackBound);
    }
    if MayRoute(m, ackBound) {
      SoundAppend(s.log, Routed(c, m), ackBound);
    }
  }

  lemma TimeoutSound(s: State, expired: bool, ackBound: bool)
    requires Sound(s.log, ackBound)
    ensures Sound(CheckTimeout(s, expired).log, ackBound)
  {
    hide Sound;
    BrokenSound(s.log, ackBound);
  }

  lemma LoginSound(s: State, ok: bool, ackBound: bool)
    requires Sound(s.log, ackBound)
    ensures Sound(BeginSync(s, ok).log, ackBound) && Sound(WriteSnapshot(s, ok).log, ackBound)
  {
    hide Sound, Refs;
    BrokenSound(s.log, ackBound);
    if s.login.Reconstruct? {
      SoundAppend(s.log, Begun(s.login.c, s.job + 1), ackBound);
    }
    if s.login.Writing? {
      SoundAppend(s.log, SnapshotWritten(s.login.c, s.job), ackBound);
    }
  }

  lemma BoundarySound(s: State, ackBound: bool)
    requires Sound(s.log, ackBound)
    ensures Sound(Boundary(s).log, ackBound)
  {
    hide Sound, Refs;
    if s.running.Some? {
      SoundAppend(s.log, Bounded(s.running.value), ackBound);
    }
  }

  lemma ReleaseSound(s: State, c: Chan, ackBound: bool)
    requires Sound(s.log, ackBound)
    ensures Sound(Inactive(s, c).log, ackBound) && Sound(StopDone(s).log, ackBound)
  {
    hide Sound, Refs;
    BrokenSound(s.log, ackBound);
  }

  lemma StepSound(s: State, e: Event, ackBound: bool)
    requires Sound(s.log, ackBound)
    ensures Sound(Step(s, e, ackBound).log, ackBound)
  {
    hide Sound, FromA, Intention, Hello, ReadMid, BeginSync, Captured, WriteSnapshot, FinishLogin, FromB, Inactive,
         RunnerStart, Boundary, RunnerEnd, CheckTimeout, RequestStop, StopDone, Start, SetMid;
    match e
    case EvFromA(p, game, refOk) => FromASound(s, p, game, refOk, ackBound);
    case EvIntention(c, refOk) => SilentLogin(s, c, refOk);
    case EvHello(c) => SilentLogin(s, c, false);
    case EvReadMid => SilentLogin(s, 0, false);
    case EvBeginSync(ok) => LoginSound(s, ok, ackBound);
    case EvCaptured(ok) => SilentLogin(s, 0, ok);
    case EvWriteSnapshot(ok) => LoginSound(s, ok, ackBound);
    case EvFinishLogin(stopAfter) => FinishSound(s, stopAfter, ackBound);
    case EvFromB(c, m) => FromBSound(s, c, m, ackBound);
    case EvInactive(c) => ReleaseSound(s, c, ackBound);
    case EvRunnerStart(j) => SilentControl(s, j, false);
    case EvBoundary => BoundarySound(s, ackBound);
    case EvRunnerEnd(ok) => SilentControl(s, 0, ok);
    case EvTimeout(expired) => TimeoutSound(s, expired, ackBound);
    case EvRequestStop => SilentControl(s, 0, false);
    case EvStopDone => ReleaseSound(s, 0, ackBound);
    case EvStart => SilentControl(s, 0, false);
    case EvSetMid => SilentControl(s, 0, false);
  }

  lemma {:induction false} RunSound(s: State, es: seq<Event>, ackBound: bool)
    requires Sound(s.log, ackBound)
    ensures Sound(Run(s, es, ackBound).log, ackBound)
    decreases |es|
  {
    hide Sound, Step;
    if es != [] {
      StepSound(s, es[0], ackBound);
      RunSound(Step(s, es[0], ackBound), es[1..], ackBound);
    }
  }

  // Only what the policy allows reaches A, and never the local id when its accessor is bound.
  // Without the accessor no acknowledgement is ever seen, so no handover completes.
  lemma OnlyAllowedRouted(es: seq<Event>, ackBound: bool)
    ensures var log := Run(INITIAL, es, ackBound).log;
            && (forall i :: 0 <= i < |log| && log[i].Routed? ==> MayRoute(log[i].m, ackBound))
            && (forall i :: 0 <= i < |log| && log[i].LocalAck? ==> ackBound)
  {
    hide Run;
    RunSound(INITIAL, es, ackBound);
    assert forall i :: 0 <= i < |Run(INITIAL, es, ackBound).log| ==>
                         SoundNote(Run(INITIAL, es, ackBound).log[i], ackBound);
  }

  ghost predicate LocalIdReachesA(ackBound: bool) {
    exists es: seq<Event>, k: nat ::
      k < |Run(INITIAL, es, ackBound).log| && IsLocalIdRouted(Run(INITIAL, es, ackBound).log[k])
  }

  predicate IsLocalIdRouted(n: Note) {
    n.Routed? && n.m == TeleportAck(TELEPORT_ID)
  }

  lemma {:induction false} RunSnoc(s: State, es: seq<Event>, e: Event, ackBound: bool)
    ensures Run(s, es + [e], ackBound) == Step(Run(s, es, ackBound), e, ackBound)
    decreases |es|
  {
    hide Step;
    if es == [] {
      assert [e][1..] == [];
      assert Run(Step(s, e, ackBound), [], ackBound) == Step(s, e, ackBound);
    } else {
      RunSnoc(Step(s, es[0], ackBound), es[1..], e, ackBound);
      assert (es + [e])[1..] == es[1..] + [e];
    }
  }

  // A login before A is in a game, then an acknowledgement with the local id.
  lemma UnboundRun() returns (es: seq<Event>)
    ensures Run(INITIAL, es, false).log == [Direct(0), Routed(0, TeleportAck(TELEPORT_ID))]
  {
    hide Run;
    var s := RunNone();
    es := [];
    es, s := Then(es, s, EvStart, false);
    es, s := Then(es, s, EvIntention(0, true), false);
    assert s == INITIAL.(stopping := false, channel := Some(0), client := AwaitLogin);
    es, s := Then(es, s, EvHello(0), false);
    es, s := Then(es, s, EvReadMid, false);
    assert s == INITIAL.(stopping := false, channel := Some(0), client := AwaitLogin, login := Tail(0, false));
    es, s := Then(es, s, EvFinishLogin(0), false);
    AcknowledgementsAllowed(TELEPORT_ID);
    assert s.log == [Direct(0)] && s.client == Play && s.channel == Some(0) && s.login == NoLogin;
    es, s := Then(es, s, EvFromB(0, TeleportAck(TELEPORT_ID)), false);
  }

  lemma AcknowledgementsAllowed(id: int)
    ensures Permitted(TeleportAck(id))
  {
    var name := ClassOf(TeleportAck(id));
    assert name[|GAME_PREFIX|..] == "ServerboundAcceptTeleportationPacket";
    assert (GAME_PREFIX + "ServerboundKeepAlivePacket")[|GAME_PREFIX|..] == "ServerboundKeepAlivePacket";
    assert (GAME_PREFIX + "ServerboundCustomPayloadPacket")[|GAME_PREFIX|..] == "ServerboundCustomPayloadPacket";
  }

  lemma RunNone() returns (s: State)
    ensures s == INITIAL && forall ackBound :: Run(INITIAL, [], ackBound) == s
  {
    s := INITIAL;
  }

  // One more event of a concrete run.
  lemma Then(es: seq<Event>, s: State, e: Event, ackBound: bool) returns (es': seq<Event>, s': State)
    requires Run(INITIAL, es, ackBound) == s
    ensures es' == es + [e] && s' == Step(s, e, ackBound) && Run(INITIAL, es', ackBound) == s'
  {
    hide Run, Step;
    RunSnoc(INITIAL, es, e, ackBound);
    es', s' := es + [e], Step(s, e, ackBound);
  }

  // The local id can reach A exactly when the id accessor was not resolved.
  lemma LocalIdStaysLocal(ackBound: bool)
    ensures LocalIdReachesA(ackBound) <==> !ackBound
  {
    hide Run;
    if ackBound {
      forall es: seq<Event>, k: nat | k < |Run(INITIAL, es, ackBound).log|
        ensures !IsLocalIdRouted(Run(INITIAL, es, ackBound).log[k])
      {
        OnlyAllowedRouted(es, ackBound);
      }
    } else {
      var es := UnboundRun();
      assert IsLocalIdRouted(Run(INITIAL, es, false).log[1]);
    }
  }

  // An acknowledgement with the local id changes something only while one is awaited on that
  // channel. Early, late and unsolicited ones change nothing.
  lemma AckOnlyWhenAwaited(es: seq<Event>, c: Chan)
    ensures var s := Run(INITIAL, es, true);
            (FromB(s, c, TeleportAck(TELEPORT_ID), true) != s)
            <==> (s.handoff == AwaitingAck && s.channel == Some(c) && !Busy(s, c))
  {
    hide Permitted, Run, ProgressOf, SafeLog, Jobs, Buffer, Stream;
    Reachable(es, true);
  }
}
