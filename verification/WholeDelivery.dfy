/** B gets everything: from every reachable state with A's render queue there is a login that loses
    nothing. */
module WholeDelivery {
  import opened Wrappers
  import opened LoginHandoff
  import opened SessionModel
  import M = SessionModel
  import opened SessionProofs
  import opened SessionMoves
  import Q = RenderQueues

  // ---------------------------------------------------------------- steps without packets

  // The queue and what has come so far.
  predicate SameQueue(x: Q.System, y: Q.System) {
    && y.queue == x.queue && y.applied == x.applied && y.arrived == x.arrived && y.snapshot == x.snapshot
    && y.dispatched == x.dispatched
  }

  lemma Quiet(es0: seq<Q.Event>, x: Q.System, e: M.Event) returns (es: seq<Q.Event>, y: Q.System)
    requires Q.Run(Q.IDLE, es0, true) == x
    requires e.EvHello? || e.EvReadMid? || e.EvRunnerEnd? || e.EvCaptured? || e.EvWriteSnapshot? || e.EvFromB?
             || (e.EvFinishLogin? && x.session.midSession)
    ensures Q.Run(Q.IDLE, es, true) == y && SameQueue(x, y) && y.session == M.Step(x.session, e, true)
  {
    hide Q.Run, M.Step;
    es, y := Q.ThenQuiet(es0, x, e);
  }

  // A login whose job has not run yet.
  predicate Fresh(s: State, c: Chan) {
    && s.login == Waiting(c) && s.handoff == Capturing && s.client == Syncing && s.channel == Some(c)
    && s.midSession && !s.stopping && !s.closing && s.running.None? && s.job in s.queued
  }

  // The login begins. No job of it is in the queue yet.
  lemma Begin(es0: seq<Q.Event>, x: Q.System, c: Chan) returns (es: seq<Q.Event>, y: Q.System)
    requires Q.Run(Q.IDLE, es0, true) == x
    requires Asked(x.session, c) && x.session.midSession && x.session.running.None?
    ensures Q.Run(Q.IDLE, es, true) == y && !y.dispatched && y.arrived == x.arrived
    ensures Fresh(y.session, c)
  {
    hide Q.Run, BeginSync;
    es, y := Quiet(es0, x, EvHello(c));
    es, y := Quiet(es, y, EvReadMid);
    assert y.session == x.session.(login := Reconstruct(c));
    BeginLeaves(y.session);
    NothingMore(y.arrived);
    es, y := Q.Then(es, y, Q.Session(EvBeginSync(true)));
  }

  // ---------------------------------------------------------------- the queue is worked off

  // Only the job at the end of the queue can start.
  predicate JobLast(x: Q.System) {
    && x.queue != [] && x.queue[|x.queue| - 1] == Q.Capture(x.session.job) && x.session.job in x.session.queued
    && x.session.running.None?
    && forall i :: 0 <= i < |x.queue| - 1 && x.queue[i].Capture? ==> x.queue[i].job !in x.session.queued
  }

  lemma {:induction false} RenderAll(es0: seq<Q.Event>, x: Q.System) returns (es: seq<Q.Event>, y: Q.System)
    requires Q.Run(Q.IDLE, es0, true) == x && JobLast(x)
    ensures Q.Run(Q.IDLE, es, true) == y && y.queue == [] && y.arrived == x.arrived && y.snapshot == x.snapshot
    ensures y.session == RunnerStart(x.session, x.session.job)
    decreases |x.queue|
  {
    hide Q.Run;
    es, y := Q.Then(es0, x, Q.RenderNext);
    if |x.queue| > 1 {
      assert y.session == x.session;
      es, y := RenderAll(es, y);
    }
  }

  // The job is dispatched, runs behind all that was queued before it, and passes its boundary: the
  // snapshot has every packet that has arrived.
  lemma Snap(es0: seq<Q.Event>, x: Q.System, c: Chan) returns (es: seq<Q.Event>, y: Q.System)
    requires Q.Run(Q.IDLE, es0, true) == x && !x.dispatched
    requires Fresh(x.session, c)
    ensures Q.Run(Q.IDLE, es, true) == y && y.arrived == x.arrived && y.snapshot == x.arrived
    ensures Mirroring(y.session, c) && y.session.pending == [] && y.session.since == []
  {
    hide Q.Run, Boundary, Inv, Q.Applies;
    Q.ReachableQ(es0, true);
    OneJob(x.session);
    es, y := Q.Then(es0, x, Q.Dispatch);
    NoJobBefore(x);
    es, y := RenderAll(es, y);
    Q.ReachableQ(es, true);
    Q.AppliesNone();
    NothingMore(y.applied);
    BoundaryLeaves(y.session);
    NothingMore(y.arrived);
    es, y := Q.Then(es, y, Q.Session(EvBoundary));
  }

  lemma OneJob(s: State)
    requires Inv(s)
    ensures forall j <- s.queued :: j == s.job
  {
    hide Control, Buffer, Stream;
  }

  lemma NoJobBefore(x: Q.System)
    requires Q.AllPlaced(x) && !x.dispatched
    ensures forall i :: 0 <= i < |x.queue| && x.queue[i].Capture? ==> x.queue[i].job != x.session.job
  {
    hide Q.Applies;
    forall i | 0 <= i < |x.queue| && x.queue[i].Capture?
      ensures x.queue[i].job != x.session.job
    {
      assert Q.Placed(x, i);
    }
  }

  // ---------------------------------------------------------------- the packets behind the boundary

  lemma {:induction false} MirrorAll(es0: seq<Q.Event>, x: Q.System, c: Chan, ps: seq<Packet>)
      returns (es: seq<Q.Event>, y: Q.System)
    requires Q.Run(Q.IDLE, es0, true) == x && Mirroring(x.session, c) && |x.session.pending| + |ps| <= 8192
    ensures Q.Run(Q.IDLE, es, true) == y && Mirroring(y.session, c)
    ensures y.snapshot == x.snapshot && y.arrived == x.arrived + ps && y.session.since == x.session.since + ps
    ensures var held, held' := x.session.pending, y.session.pending;
            && |held'| == |held| + |ps| && held <= held'
            && forall i :: 0 <= i < |ps| ==> held'[|held| + i].packet == ps[i]
    decreases |ps|
  {
    hide Q.Run;
    es, y := es0, x;
    if ps == [] {
      NothingMore(y.arrived);
      NothingMore(y.session.since);
    } else {
      es, y := Q.Then(es, y, Q.Session(EvFromA(ps[0], true, true)));
      var held := y.session.pending;
      assert held == x.session.pending + [Held(x.session.nextRef, ps[0])];
      es, y := MirrorAll(es, y, c, ps[1..]);
      assert ps == [ps[0]] + ps[1..];
      Assoc(x.arrived, [ps[0]], ps[1..]);
      Assoc(x.session.since, [ps[0]], ps[1..]);
      forall i | 0 <= i < |ps|
        ensures y.session.pending[|x.session.pending| + i].packet == ps[i]
      {
        if i > 0 {
          assert y.session.pending[|held| + (i - 1)].packet == ps[1..][i - 1];
        }
      }
    }
  }

  lemma Finish(es0: seq<Q.Event>, x: Q.System, c: Chan) returns (es: seq<Q.Event>, y: Q.System)
    requires Q.Run(Q.IDLE, es0, true) == x && Mirroring(x.session, c)
    ensures Q.Run(Q.IDLE, es, true) == y && y.snapshot == x.snapshot && y.arrived == x.arrived
    ensures InControl(y.session, c) && y.session.since == x.session.since
    ensures y.session.closing <==> RefusedBefore(x.session.pending, |x.session.pending|)
  {
    hide Q.Run, FinishLogin, RefusedBefore;
    es, y := Quiet(es0, x, EvRunnerEnd(true));
    es, y := Quiet(es, y, EvCaptured(true));
    assert y.session == x.session.(running := None, captured := y.session.captured, login := Writing(c));
    es, y := Quiet(es, y, EvWriteSnapshot(true));
    var n := |x.session.pending|;
    FinishDrains(y.session, c);
    es, y := Quiet(es, y, EvFinishLogin(n));
    es, y := Quiet(es, y, EvFromB(c, TeleportAck(-2147483647)));
  }

  lemma FinishDrains(s: State, c: Chan)
    requires s.login == Tail(c, true) && s.handoff == Capturing && s.channel == Some(c) && s.midSession
    requires !s.stopping && !s.closing
    ensures var t := FinishLogin(s, |s.pending|); Ready(t, c) && t.since == s.since
    ensures FinishLogin(s, |s.pending|).closing <==> RefusedBefore(s.pending, |s.pending|)
  {
    hide Drain, RefusedBefore;
    var t := With(s.(handoff := AwaitingAck, client := AwaitReady, pending := [], login := NoLogin), Sent(c));
    DrainFrame(t, s.pending, |s.pending|);
    DrainShuts(t, s.pending, |s.pending|);
    DrainGoesOn(t, s.pending, |s.pending|);
  }

  // From every reachable state in which a client asks for a mid-session login and the render thread is
  // free, whatever is queued: if the packets that come during the login come after the boundary, then the
  // snapshot has all the earlier ones, the stream all the later ones, and B is in control. Only a refused
  // packet spoils it.
  lemma NothingLost(es0: seq<Q.Event>, c: Chan, ps: seq<Packet>) returns (es: seq<Q.Event>)
    requires var s := Q.Run(Q.IDLE, es0, true).session; Asked(s, c) && s.midSession && s.running.None?
    requires |ps| <= 8192
    ensures var x, y := Q.Run(Q.IDLE, es0, true), Q.Run(Q.IDLE, es, true);
            && y.snapshot == x.arrived && y.arrived == x.arrived + ps
            && InControl(y.session, c)
            && (y.session.closing <==> exists p <- ps :: Refused(p))
            && (!y.session.closing ==> Expected(y.snapshot) + Live(y.session) == Expected(y.arrived))
  {
    hide Q.Run, Inv, Live, Expected, Refused, RefusedBefore, Asked, Mirroring;
    var x := Q.Run(Q.IDLE, es0, true);
    var y;
    es, y := Begin(es0, x, c);
    es, y := Snap(es, y, c);
    NothingMore(ps);
    es, y := MirrorAll(es, y, c, ps);
    HeldRefused(y.session.pending, ps);
    es, y := Finish(es, y, c);
    Q.ReachableQ(es, true);
    Q.StreamOf(y.session);
    Q.ExpectedConcat(x.arrived, ps);
  }
}
