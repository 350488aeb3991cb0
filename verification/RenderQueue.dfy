/** A's render queue beside the mid-session login: what the snapshot holds. */
module RenderQueues {
  import opened Wrappers
  import opened LoginHandoff
  import opened SessionModel
  import M = SessionModel
  import opened SessionProofs
  import opened SessionTheorems
  import opened SessionStream

  // A's game applies each packet in a task of its own, on the thread and in the queue that also run
  // the snapshot job. The queue is first-in first-out.

  datatype Task = Apply(p: Packet) | Capture(job: nat)

  // applied: the packets A's game has applied. snapshot: those it had applied when the last job
  // passed its boundary, which are the ones the job captures. arrived: all game packets A's handler
  // got. dispatched: the latest job is in the queue or was; atDispatch: how many packets had arrived
  // then. sinceAt: how many had arrived at the last start of the live stream, and start its note.
  datatype System = System(
    session: State,
    queue: seq<Task>,
    applied: seq<Packet>,
    snapshot: seq<Packet>,
    arrived: seq<Packet>,
    dispatched: bool,
    atDispatch: nat,
    sinceAt: nat,
    start: Option<Note>)

  const IDLE := System(INITIAL, [], [], [], [], false, 0, 0, None)

  // Session: any step of the session model but the start of a job, which is a task of the queue.
  // Dispatch: the waiting login puts its job into the queue. RenderNext: the render thread takes the
  // next task. Unadmitted: a game packet arrives while the callback gate is closed.
  datatype Event = Session(e: M.Event) | Dispatch | RenderNext | Unadmitted(p: Packet)

  function Tasks(packets: seq<Packet>): seq<Task> {
    seq(|packets|, i requires 0 <= i < |packets| => Apply(packets[i]))
  }

  // The live stream starts anew: a begin, a boundary, or control without a handoff.
  function StartOf(s: State, e: M.Event): Option<Note> {
    match e
    case EvBeginSync(ok) => if s.login.Reconstruct? && ok then Some(Begun(s.login.c, s.job + 1)) else None
    case EvBoundary =>
      if s.running.None? || s.stopping || s.handoff != Capturing then None else Some(Bounded(s.running.value))
    case EvFinishLogin(_) => if s.login.Tail? && !s.midSession then Some(Direct(s.login.c)) else None
    case _ => None
  }

  function SessionStep(x: System, e: M.Event, ackBound: bool): System {
    var note := StartOf(x.session, e);
    x.(session := M.Step(x.session, e, ackBound),
       queue := x.queue + Tasks(PacketsOf(e)),
       arrived := x.arrived + PacketsOf(e),
       dispatched := x.dispatched && !(note.Some? && note.value.Begun?),
       snapshot := if note.Some? && note.value.Bounded? then x.applied else x.snapshot,
       sinceAt := if note.Some? then |x.arrived| else x.sinceAt,
       start := if note.Some? then note else x.start)
  }

  function DispatchStep(x: System): System {
    if x.session.login.Waiting? && !x.dispatched then
      x.(queue := x.queue + [Capture(x.session.job)], dispatched := true, atDispatch := |x.arrived|)
    else x
  }

  // A job that is no longer listed returns at once.
  function RenderStep(x: System): System {
    if x.session.running.Some? || x.queue == [] then x
    else
      match x.queue[0]
      case Apply(p) => x.(queue := x.queue[1..], applied := x.applied + [p])
      case Capture(j) => x.(queue := x.queue[1..], session := RunnerStart(x.session, j))
  }

  // The gate is closed only while the session is stopping.
  function UnadmittedStep(x: System, p: Packet): System {
    if x.session.stopping then x.(queue := x.queue + [Apply(p)], arrived := x.arrived + [p]) else x
  }

  function Step(x: System, e: Event, ackBound: bool): System {
    match e
    case Session(EvRunnerStart(_)) => x
    case Session(f) => SessionStep(x, f, ackBound)
    case Dispatch => DispatchStep(x)
    case RenderNext => RenderStep(x)
    case Unadmitted(p) => UnadmittedStep(x, p)
  }

  function Run(x: System, es: seq<Event>, ackBound: bool): System
    decreases |es|
  {
    if es == [] then x else Run(Step(x, es[0], ackBound), es[1..], ackBound)
  }

  // ---------------------------------------------------------------- the queue

  function Applies(queue: seq<Task>): seq<Packet>
    decreases |queue|
  {
    if queue == [] then []
    else
      var last := queue[|queue| - 1];
      Applies(queue[..|queue| - 1]) + (if last.Apply? then [last.p] else [])
  }

  lemma {:induction false} AppliesConcat(xs: seq<Task>, ys: seq<Task>)
    ensures Applies(xs + ys) == Applies(xs) + Applies(ys)
    decreases |ys|
  {
    if ys == [] {
      assert xs + ys == xs;
      NothingMore(Applies(xs));
    } else {
      var front, last := ys[..|ys| - 1], ys[|ys| - 1];
      assert (xs + ys)[..|xs + ys| - 1] == xs + front;
      AppliesConcat(xs, front);
      Assoc(Applies(xs), Applies(front), if last.Apply? then [last.p] else []);
    }
  }

  lemma AppliesOne(t: Task)
    ensures Applies([t]) == if t.Apply? then [t.p] else []
  {
    assert [t][..0] == [];
  }

  lemma TasksOf(packets: seq<Packet>)
    requires |packets| <= 1
    ensures Applies(Tasks(packets)) == packets && forall i :: 0 <= i < |Tasks(packets)| ==> Tasks(packets)[i].Apply?
  {
    if |packets| == 1 {
      assert Tasks(packets) == [Apply(packets[0])];
      AppliesOne(Apply(packets[0]));
    }
  }

  // ---------------------------------------------------------------- what holds in every run

  // The queue holds what has arrived and is not applied.
  predicate Queued(x: System) {
    x.arrived == x.applied + Applies(x.queue)
  }

  // Every job in the queue is an old one, or the latest with the packets before its dispatch, and
  // no others, in front of it.
  predicate Placed(x: System, i: nat)
    requires i < |x.queue|
  {
    x.queue[i].Capture? ==>
      && x.queue[i].job <= x.session.job
      && (x.queue[i].job == x.session.job ==>
            x.dispatched && |x.applied| + |Applies(x.queue[..i])| == x.atDispatch)
  }

  predicate AllPlaced(x: System) {
    forall i :: 0 <= i < |x.queue| ==> Placed(x, i)
  }

  // The latest job runs where the packets before its dispatch, and no others, are applied.
  predicate Runs(x: System) {
    && (x.session.running == Some(x.session.job) ==> x.dispatched && |x.applied| == x.atDispatch)
    && (x.dispatched ==> x.atDispatch <= |x.arrived|)
  }

  // Past its boundary the latest job has those packets.
  predicate Snapped(x: System) {
    x.session.bounded ==>
      && x.dispatched && x.atDispatch <= |x.arrived| && x.snapshot == x.arrived[..x.atDispatch]
      && x.atDispatch <= x.sinceAt
  }

  predicate Open(s: State) {
    !s.stopping && (s.client == Syncing || s.client == AwaitReady || s.client == Play)
  }

  predicate HandedOver(s: State) {
    s.handoff == AwaitingAck || s.handoff == Active
  }

  predicate Broken(s: State) {
    s.handoff == Idle || s.handoff == Failed
  }

  // The live packets are those from the last start on, and after a handover that is the boundary of
  // the latest job.
  predicate Tracked(x: System) {
    var s := x.session;
    && x.sinceAt <= |x.arrived|
    && (Open(s) ==> s.since == x.arrived[x.sinceAt..])
    && (HandedOver(s) ==> s.bounded)
    && (s.bounded && !Broken(s) ==> x.start == Some(Bounded(s.job)))
  }

  predicate InvQ(x: System) {
    Inv(x.session) && Queued(x) && AllPlaced(x) && Runs(x) && Snapped(x) && Tracked(x)
  }

  // ---------------------------------------------------------------- steps of the session

  // What a step that does not start the stream anew does to the fields the queue depends on.
  predicate Follows(s: State, t: State, arrived: seq<Packet>) {
    && t.job == s.job && t.bounded == s.bounded && (t.running == s.running || t.running.None?)
    && t.since == s.since + arrived
    && (Open(t) ==> Open(s)) && (!Broken(t) ==> !Broken(s))
    && (HandedOver(t) ==> HandedOver(s) || s.bounded)
  }

  // What a start does.
  predicate Starts(s: State, t: State, n: Note) {
    && t.since == [] && t.running == s.running
    && match n
       case Begun(_, job) => t.job == s.job + 1 && !t.bounded && !HandedOver(t)
       case Bounded(j) =>
         && s.running == Some(j) && t.job == s.job && t.bounded == (s.bounded || j == s.job)
         && !HandedOver(t) && !Broken(t)
       case _ => n.Direct? && t.job == s.job && t.bounded == s.bounded && t.handoff == Idle
  }

  predicate Follows1(s: State, t: State, e: M.Event) {
    if StartOf(s, e).Some? then Starts(s, t, StartOf(s, e).value) && PacketsOf(e) == []
    else Follows(s, t, PacketsOf(e))
  }

  lemma FollowsFromA(s: State, p: Packet, game: bool, refOk: bool)
    ensures Follows(s, FromA(s, p, game, refOk), if game then [p] else [])
  {
    hide ForwardLive, Refs;
    NothingMore(s.since);
    ForwardSameBut(s.(since := s.since + [p]), p);
  }

  lemma FollowsFinishLogin(s: State, stopAfter: nat)
    requires Inv(s)
    ensures Follows1(s, FinishLogin(s, stopAfter), EvFinishLogin(stopAfter))
  {
    hide Drain, Refs, ProgressOf, SafeLog, Stream, Buffer;
    NothingMore(s.since);
    if s.login.Tail? {
      var t := With(s.(handoff := AwaitingAck, client := AwaitReady, pending := [], login := NoLogin), Sent(s.login.c));
      DrainFrame(t, s.pending, stopAfter);
    }
  }

  lemma FollowsFromB(s: State, c: Chan, m: Message, ackBound: bool)
    ensures Follows(s, FromB(s, c, m, ackBound), [])
  {
    hide Permitted;
    NothingMore(s.since);
  }

  lemma FollowsIntention(s: State, c: Chan, refOk: bool)
    requires Inv(s)
    ensures Follows(s, Intention(s, c, refOk), [])
  {
    hide ProgressOf, SafeLog, Stream, Buffer, Jobs;
    NothingMore(s.since);
  }

  lemma FollowsLogin(s: State, c: Chan, ok: bool)
    ensures Follows(s, Hello(s, c), []) && Follows(s, ReadMid(s), []) && Follows(s, Captured(s, ok), [])
  {
    NothingMore(s.since);
  }

  lemma FollowsBegin(s: State, ok: bool)
    ensures Follows1(s, BeginSync(s, ok), EvBeginSync(ok))
  {
    hide Refs;
    NothingMore(s.since);
  }

  lemma FollowsWrite(s: State, ok: bool)
    ensures Follows(s, WriteSnapshot(s, ok), [])
  {
    hide Refs;
    NothingMore(s.since);
  }

  lemma FollowsBoundary(s: State)
    ensures Follows1(s, Boundary(s), EvBoundary)
  {
    hide Refs;
    NothingMore(s.since);
  }

  lemma FollowsRelease(s: State, c: Chan, expired: bool)
    ensures Follows(s, Inactive(s, c), []) && Follows(s, StopDone(s), []) && Follows(s, CheckTimeout(s, expired), [])
  {
    hide Refs;
    NothingMore(s.since);
  }

  lemma FollowsControl(s: State, ok: bool)
    ensures Follows(s, RequestStop(s), []) && Follows(s, Start(s), []) && Follows(s, SetMid(s), [])
    ensures Follows(s, RunnerEnd(s, ok), [])
  {
    NothingMore(s.since);
  }

  lemma FollowsStep(s: State, e: M.Event, ackBound: bool)
    requires Inv(s) && !e.EvRunnerStart?
    ensures Follows1(s, M.Step(s, e, ackBound), e)
  {
    hide Inv, Follows, Starts, FromA, Intention, Hello, ReadMid, BeginSync, Captured, WriteSnapshot, FinishLogin, FromB,
         Inactive, Boundary, RunnerEnd, CheckTimeout, RequestStop, StopDone, Start, SetMid;
    match e
    case EvFromA(p, game, refOk) => FollowsFromA(s, p, game, refOk);
    case EvIntention(c, refOk) => FollowsIntention(s, c, refOk);
    case EvHello(c) => FollowsLogin(s, c, false);
    case EvReadMid => FollowsLogin(s, 0, false);
    case EvBeginSync(ok) => FollowsBegin(s, ok);
    case EvCaptured(ok) => FollowsLogin(s, 0, ok);
    case EvWriteSnapshot(ok) => FollowsWrite(s, ok);
    case EvFinishLogin(stopAfter) => FollowsFinishLogin(s, stopAfter);
    case EvFromB(c, m) => FollowsFromB(s, c, m, ackBound);
    case EvInactive(c) => FollowsRelease(s, c, false);
    case EvBoundary => FollowsBoundary(s);
    case EvRunnerEnd(ok) => FollowsControl(s, ok);
    case EvTimeout(expired) => FollowsRelease(s, 0, expired);
    case EvRequestStop => FollowsControl(s, false);
    case EvStopDone => FollowsRelease(s, 0, false);
    case EvStart => FollowsControl(s, false);
    case EvSetMid => FollowsControl(s, false);
  }

  lemma JobsRun(s: State)
    requires Inv(s)
    ensures s.running.Some? ==> s.running.value <= s.job && (s.bounded ==> s.running.value == s.job)
  {
    hide Control, Buffer, Stream;
  }

  lemma KeepSession(x: System, e: M.Event, ackBound: bool)
    requires InvQ(x) && !e.EvRunnerStart?
    ensures InvQ(SessionStep(x, e, ackBound))
  {
    hide Inv, M.Step, StartOf, Applies, Tasks;
    var y := SessionStep(x, e, ackBound);
    var arrivals := PacketsOf(e);
    KeepStep(x.session, e, ackBound);
    FollowsStep(x.session, e, ackBound);
    JobsRun(x.session);
    TasksOf(arrivals);
    AppliesConcat(x.queue, Tasks(arrivals));
    Assoc(x.applied, Applies(x.queue), arrivals);
    KeepPlaced(x, y, Tasks(arrivals));
  }

  // Jobs keep their place when packets queue up behind them.
  lemma KeepPlaced(x: System, y: System, more: seq<Task>)
    requires AllPlaced(x) && y.queue == x.queue + more && y.applied == x.applied
    requires forall i :: 0 <= i < |more| ==> more[i].Apply?
    requires y.session.job == x.session.job + 1 || (y.session.job == x.session.job && y.dispatched == x.dispatched)
    requires y.atDispatch == x.atDispatch
    ensures AllPlaced(y)
  {
    hide Applies;
    forall i | 0 <= i < |y.queue| ensures Placed(y, i) {
      if i < |x.queue| {
        assert Placed(x, i);
        assert y.queue[..i] == x.queue[..i];
      } else {
        assert y.queue[i] == more[i - |x.queue|];
      }
    }
  }

  // ---------------------------------------------------------------- steps of the queue

  lemma KeepDispatch(x: System)
    requires InvQ(x)
    ensures InvQ(DispatchStep(x))
  {
    hide Inv, Applies;
    var y := DispatchStep(x);
    if y != x {
      var task := Capture(x.session.job);
      AppliesConcat(x.queue, [task]);
      AppliesOne(task);
      NothingMore(Applies(x.queue));
      JobsWait(x.session);
      forall i | 0 <= i < |y.queue| ensures Placed(y, i) {
        assert y.queue[..i] == x.queue[..i];
        if i < |x.queue| {
          assert Placed(x, i);
        } else {
          assert x.queue[..i] == x.queue;
        }
      }
    }
  }

  lemma JobsWait(s: State)
    requires Inv(s)
    ensures s.bounded && s.login.Waiting? ==> s.running.None? || s.running.value == s.job
  {
    hide Control, Buffer, Stream;
  }

  lemma KeepUnadmitted(x: System, p: Packet)
    requires InvQ(x)
    ensures InvQ(UnadmittedStep(x, p))
  {
    hide Inv, Applies;
    var y := UnadmittedStep(x, p);
    if y != x {
      AppliesConcat(x.queue, [Apply(p)]);
      AppliesOne(Apply(p));
      Assoc(x.applied, Applies(x.queue), [p]);
      KeepPlaced(x, y, [Apply(p)]);
    }
  }

  // What follows the head of the queue moves one place to the front.
  lemma KeepTail(x: System, y: System)
    requires AllPlaced(x) && x.queue != [] && y.queue == x.queue[1..]
    requires y.applied == x.applied + Applies([x.queue[0]])
    requires y.session.job == x.session.job && y.dispatched == x.dispatched && y.atDispatch == x.atDispatch
    ensures AllPlaced(y)
  {
    hide Applies;
    var head, rest := x.queue[0], x.queue[1..];
    forall i | 0 <= i < |rest| ensures Placed(y, i) {
      assert Placed(x, i + 1);
      assert x.queue[..i + 1] == [head] + rest[..i];
      AppliesConcat([head], rest[..i]);
    }
  }

  lemma KeepRender(x: System)
    requires InvQ(x)
    ensures InvQ(RenderStep(x))
  {
    hide Inv, Applies, RunnerStart, AllPlaced;
    var y := RenderStep(x);
    if x.session.running.None? && x.queue != [] {
      var head, rest := x.queue[0], x.queue[1..];
      assert x.queue == [head] + rest;
      AppliesConcat([head], rest);
      AppliesOne(head);
      match head {
        case Apply(p) =>
          KeepTail(x, y);
          Assoc(x.applied, [p], Applies(rest));
        case Capture(j) =>
          NothingMore(Applies(rest));
          NothingMore(x.applied);
          KeepRunner(x.session, j, false);
          TakesJob(x.session, j);
          KeepTail(x, y);
          HeadPlaced(x);
      }
    }
  }

  lemma HeadPlaced(x: System)
    requires AllPlaced(x) && x.queue != [] && x.queue[0].Capture?
    ensures x.queue[0].job <= x.session.job
    ensures x.queue[0].job == x.session.job ==> x.dispatched && |x.applied| == x.atDispatch
  {
    hide Applies;
    assert Placed(x, 0);
    assert x.queue[..0] == [];
    AppliesNone();
  }

  lemma AppliesNone()
    ensures Applies([]) == []
  {
  }

  lemma TakesJob(s: State, j: nat)
    ensures var t := RunnerStart(s, j); t == s || (s.running.None? && t == s.(running := Some(j), queued := t.queued))
  {
  }

  lemma KeepStepQ(x: System, e: Event, ackBound: bool)
    requires InvQ(x)
    ensures InvQ(Step(x, e, ackBound))
  {
    hide InvQ, SessionStep, DispatchStep, RenderStep, UnadmittedStep;
    match e
    case Session(f) =>
      if !f.EvRunnerStart? {
        KeepSession(x, f, ackBound);
      }
    case Dispatch => KeepDispatch(x);
    case RenderNext => KeepRender(x);
    case Unadmitted(p) => KeepUnadmitted(x, p);
  }

  lemma {:induction false} KeepRunQ(x: System, es: seq<Event>, ackBound: bool)
    requires InvQ(x)
    ensures InvQ(Run(x, es, ackBound))
    decreases |es|
  {
    hide InvQ, Step;
    if es != [] {
      KeepStepQ(x, es[0], ackBound);
      KeepRunQ(Step(x, es[0], ackBound), es[1..], ackBound);
    }
  }

  lemma ReachableQ(es: seq<Event>, ackBound: bool)
    ensures InvQ(Run(IDLE, es, ackBound))
  {
    hide Run, Inv;
    InitialInv();
    AppliesNone();
    assert InvQ(IDLE);
    KeepRunQ(IDLE, es, ackBound);
  }

  // What an event adds at the end of the queue: the task of a game packet, admitted or not, or the job of
  // a waiting login, once.
  predicate Adds(x: System, e: Event, t: Task) {
    || (e.Session? && e.e.EvFromA? && e.e.game && t == Apply(e.e.p))
    || (e.Unadmitted? && x.session.stopping && t == Apply(e.p))
    || (e == Dispatch && x.session.login.Waiting? && !x.dispatched && t == Capture(x.session.job))
  }

  // The render thread takes the head while it runs no job.
  predicate Takes(x: System, e: Event) {
    e == RenderNext && x.session.running.None? && x.queue != []
  }

  // Every packet is queued for A's game, and the queue is worked off from its front, whatever happens.
  lemma QueuedExactly(x: System, e: Event, ackBound: bool)
    ensures var y := Step(x, e, ackBound);
            && (forall t :: Adds(x, e, t) ==> y.queue == x.queue + [t])
            && (Takes(x, e) ==>
                  && [x.queue[0]] + y.queue == x.queue
                  && y.applied == x.applied + if x.queue[0].Apply? then [x.queue[0].p] else [])
            && (!Takes(x, e) ==> y.applied == x.applied && ((forall t :: !Adds(x, e, t)) ==> y.queue == x.queue))
  {
    hide M.Step, StartOf;
    NothingMore(x.queue);
    NothingMore(x.applied);
    assert Tasks([]) == [];
    if e.Session? && e.e.EvFromA? && e.e.game {
      assert Adds(x, e, Apply(e.e.p)) && Tasks([e.e.p]) == [Apply(e.e.p)];
    } else if e == Dispatch {
      assert x.session.login.Waiting? && !x.dispatched ==> Adds(x, e, Capture(x.session.job));
    } else if e.Unadmitted? {
      assert x.session.stopping ==> Adds(x, e, Apply(e.p));
    }
  }

  // ---------------------------------------------------------------- where in a run it happened

  lemma {:induction false} RunJoin(x: System, es: seq<Event>, fs: seq<Event>, ackBound: bool)
    ensures Run(x, es + fs, ackBound) == Run(Run(x, es, ackBound), fs, ackBound)
    decreases |es|
  {
    hide Step;
    if es == [] {
      assert es + fs == fs;
    } else {
      assert (es + fs)[1..] == es[1..] + fs;
      RunJoin(Step(x, es[0], ackBound), es[1..], fs, ackBound);
    }
  }

  lemma RunLast(es: seq<Event>, ackBound: bool)
    requires es != []
    ensures var n := |es| - 1; Run(IDLE, es, ackBound) == Step(Run(IDLE, es[..n], ackBound), es[n], ackBound)
  {
    hide Step;
    var n := |es| - 1;
    assert es == es[..n] + [es[n]] && [es[n]][1..] == [];
    RunJoin(IDLE, es[..n], [es[n]], ackBound);
    var x := Run(IDLE, es[..n], ackBound);
    assert Run(Step(x, es[n], ackBound), [], ackBound) == Step(x, es[n], ackBound);
  }

  // What a step does to jobs, dispatches and arrivals.
  predicate Advances(x: System, y: System) {
    && x.arrived <= y.arrived && x.session.job <= y.session.job
    && (x.dispatched && y.session.job == x.session.job ==> y.dispatched && y.atDispatch == x.atDispatch)
  }

  lemma StepAdvances(x: System, e: Event, ackBound: bool)
    requires InvQ(x)
    ensures Advances(x, Step(x, e, ackBound))
  {
    hide Inv, M.Step, Applies, Tasks, AllPlaced, Queued;
    match e
    case Session(f) =>
      if !f.EvRunnerStart? {
        FollowsStep(x.session, f, ackBound);
      }
    case Dispatch =>
    case RenderNext =>
      if x.queue != [] && x.queue[0].Capture? {
        TakesJob(x.session, x.queue[0].job);
      }
    case Unadmitted(_) =>
  }

  lemma {:induction false} RunAdvances(x: System, es: seq<Event>, ackBound: bool)
    requires InvQ(x)
    ensures Advances(x, Run(x, es, ackBound))
    decreases |es|
  {
    hide InvQ, Step;
    if es != [] {
      var y := Step(x, es[0], ackBound);
      StepAdvances(x, es[0], ackBound);
      KeepStepQ(x, es[0], ackBound);
      RunAdvances(y, es[1..], ackBound);
    }
  }

  lemma PrefixAdvances(es: seq<Event>, k: nat, ackBound: bool)
    requires k <= |es|
    ensures Advances(Run(IDLE, es[..k], ackBound), Run(IDLE, es, ackBound))
  {
    hide Run, InvQ;
    ReachableQ(es[..k], ackBound);
    assert es == es[..k] + es[k..];
    RunJoin(IDLE, es[..k], es[k..], ackBound);
    RunAdvances(Run(IDLE, es[..k], ackBound), es[k..], ackBound);
  }

  // The dispatch of the latest job is an event of the run.
  lemma {:induction false} DispatchAt(es: seq<Event>, ackBound: bool) returns (d: nat)
    requires Run(IDLE, es, ackBound).dispatched
    ensures d < |es| && es[d] == Dispatch
    ensures var before, x := Run(IDLE, es[..d], ackBound), Run(IDLE, es, ackBound);
            !before.dispatched && before.session.job == x.session.job && |before.arrived| == x.atDispatch
    decreases |es|
  {
    hide Run, Inv, M.Step, Tasks, Applies, AllPlaced, Queued, Tracked, Snapped;
    if es == [] {
      RunNothing(ackBound);
      assert false;
    } else {
      var n := |es| - 1;
      var x := Run(IDLE, es[..n], ackBound);
      RunLast(es, ackBound);
      if x.dispatched {
        d := DispatchAt(es[..n], ackBound);
        assert es[..n][..d] == es[..d];
        ReachableQ(es[..n], ackBound);
        StepAdvances(x, es[n], ackBound);
        StepKeepsJob(x, es[n], ackBound);
      } else {
        d := n;
      }
    }
  }

  lemma StepKeepsJob(x: System, e: Event, ackBound: bool)
    requires InvQ(x)
    ensures Step(x, e, ackBound).dispatched && x.dispatched ==> Step(x, e, ackBound).session.job == x.session.job
  {
    hide Inv, M.Step, Applies, Tasks, AllPlaced, Queued;
    match e
    case Session(f) =>
      if !f.EvRunnerStart? {
        FollowsStep(x.session, f, ackBound);
      }
    case RenderNext =>
      if x.queue != [] && x.queue[0].Capture? {
        TakesJob(x.session, x.queue[0].job);
      }
    case _ =>
  }

  lemma RunNothing(ackBound: bool)
    ensures Run(IDLE, [], ackBound) == IDLE
  {
  }

  // The last start of the live stream is an event of the run.
  lemma {:induction false} StartAt(es: seq<Event>, ackBound: bool) returns (m: nat)
    requires Run(IDLE, es, ackBound).start.Some?
    ensures m < |es| && es[m].Session?
    ensures var before, x := Run(IDLE, es[..m], ackBound), Run(IDLE, es, ackBound);
            StartOf(before.session, es[m].e) == x.start && |before.arrived| == x.sinceAt
    decreases |es|
  {
    hide Run, M.Step, Tasks, StartOf;
    if es == [] {
      RunNothing(ackBound);
      assert false;
    } else {
      var n := |es| - 1;
      var x := Run(IDLE, es[..n], ackBound);
      RunLast(es, ackBound);
      if es[n].Session? && !es[n].e.EvRunnerStart? && StartOf(x.session, es[n].e).Some? {
        m := n;
      } else {
        m := StartAt(es[..n], ackBound);
        assert es[..n][..m] == es[..m];
      }
    }
  }

  // ---------------------------------------------------------------- the main result

  lemma {:induction false} ExpectedConcat(xs: seq<Packet>, ys: seq<Packet>)
    ensures Expected(xs + ys) == Expected(xs) + Expected(ys)
    decreases |ys|
  {
    hide Due, Reached;
    if ys == [] {
      assert xs + ys == xs;
      NothingMore(Expected(xs));
    } else {
      var n := |ys| - 1;
      assert (xs + ys)[..|xs + ys| - 1] == xs + ys[..n];
      ExpectedConcat(xs, ys[..n]);
      Assoc(Expected(xs), Expected(ys[..n]), Due(Reached(ys[n])));
    }
  }

  // Leaving out the middle loses nothing exactly when nothing is due of it.
  lemma MiddleLost(all: seq<Packet>, from: nat, to: nat)
    requires from <= to <= |all|
    ensures Expected(all[..from]) + Expected(all[to..]) == Expected(all) <==> Expected(all[from..to]) == []
  {
    hide Expected;
    assert all == (all[..from] + all[from..to]) + all[to..];
    ExpectedConcat(all[..from] + all[from..to], all[to..]);
    ExpectedConcat(all[..from], all[from..to]);
    var a, b, c := Expected(all[..from]), Expected(all[from..to]), Expected(all[to..]);
    NothingMore(a);
    assert |a + c| == |a + b + c| ==> b == [];
  }

  predicate Served(s: State) {
    HandedOver(s) && (s.client == AwaitReady || s.client == Play) && !s.closing && !s.stopping
  }

  // For every run and every login that got its snapshot: the snapshot has exactly the packets that
  // arrived before its job was dispatched, and the live stream gives exactly those that arrived
  // after that job's boundary. Together they give B everything, each packet once and in order, if
  // and only if nothing due to B arrived between the two.
  lemma SnapshotAndStream(es: seq<Event>, ackBound: bool) returns (d: nat, m: nat)
    requires Served(Run(IDLE, es, ackBound).session)
    ensures d < m < |es| && es[d] == Dispatch && es[m] == Session(EvBoundary)
    ensures var x := Run(IDLE, es, ackBound);
            var atDispatch, atBoundary := Run(IDLE, es[..d], ackBound), Run(IDLE, es[..m], ackBound);
            && atDispatch.session.job == x.session.job && atBoundary.session.running == Some(x.session.job)
            && atDispatch.arrived <= atBoundary.arrived <= x.arrived
            && x.snapshot == atDispatch.arrived
            && Live(x.session) == Expected(x.arrived[|atBoundary.arrived|..])
            && (Expected(x.snapshot) + Live(x.session) == Expected(x.arrived)
                <==> Expected(atBoundary.arrived[|atDispatch.arrived|..]) == [])
  {
    hide Run, Inv, Live, Expected, AllPlaced, Queued;
    var x := Run(IDLE, es, ackBound);
    ReachableQ(es, ackBound);
    StreamOf(x.session);
    d := DispatchAt(es, ackBound);
    m := StartAt(es, ackBound);
    PrefixAdvances(es, d, ackBound);
    PrefixAdvances(es, m, ackBound);
    var atDispatch, atBoundary := Run(IDLE, es[..d], ackBound), Run(IDLE, es[..m], ackBound);
    assert x.arrived[..x.atDispatch] == atDispatch.arrived && x.arrived[..x.sinceAt] == atBoundary.arrived;
    ReachableQ(es[..m], ackBound);
    JobsRun(atBoundary.session);
    if m <= d {
      assert es[..d][..m] == es[..m];
      PrefixAdvances(es[..d], m, ackBound);
      assert false;
    }
    assert atDispatch.arrived <= atBoundary.arrived;
    MiddleLost(x.arrived, x.atDispatch, x.sinceAt);
    assert atBoundary.arrived[|atDispatch.arrived|..] == x.arrived[x.atDispatch..x.sinceAt];
  }

  lemma StreamOf(s: State)
    requires Inv(s)
    ensures (s.client == AwaitReady || s.client == Play) && !s.closing && !s.stopping ==> Live(s) == Expected(s.since)
  {
    hide Live, Expected, Control, Jobs, Buffer, Prefix;
  }

  // The session of a run with the queue is a run of the session model, so that all its results hold
  // here as well.
  lemma {:induction false} SessionRun(es: seq<Event>, ackBound: bool) returns (fs: seq<M.Event>)
    ensures Run(IDLE, es, ackBound).session == M.Run(INITIAL, fs, ackBound)
    decreases |es|
  {
    hide Run, M.Run, M.Step;
    if es == [] {
      RunNothing(ackBound);
      var none := RunNone();
      fs := [];
    } else {
      var n := |es| - 1;
      fs := SessionRun(es[..n], ackBound);
      RunLast(es, ackBound);
      var x := Run(IDLE, es[..n], ackBound);
      var next := SessionEvents(x, es[n]);
      if next != [] {
        TaskIsStep(x.session, next[0], ackBound);
        RunSnoc(INITIAL, fs, next[0], ackBound);
        fs := fs + [next[0]];
      }
    }
  }

  // What an event is for the session.
  function SessionEvents(x: System, e: Event): seq<M.Event> {
    match e
    case Session(f) => if f.EvRunnerStart? then [] else [f]
    case RenderNext =>
      if x.session.running.None? && x.queue != [] && x.queue[0].Capture? then [EvRunnerStart(x.queue[0].job)] else []
    case _ => []
  }

  lemma TaskIsStep(s: State, e: M.Event, ackBound: bool)
    ensures e.EvRunnerStart? ==> M.Step(s, e, ackBound) == RunnerStart(s, e.j)
  {
  }

  // ---------------------------------------------------------------- a packet that is lost

  lemma Then(es: seq<Event>, x: System, e: Event) returns (es': seq<Event>, y: System)
    requires Run(IDLE, es, true) == x
    ensures es' == es + [e] && y == Step(x, e, true) && Run(IDLE, es', true) == y
  {
    hide Run, Step;
    es', y := es + [e], Step(x, e, true);
    assert es'[..|es|] == es;
    RunLast(es', true);
  }

  // A session step without a packet that does not start the stream anew.
  lemma ThenQuiet(es: seq<Event>, x: System, e: M.Event) returns (es': seq<Event>, y: System)
    requires Run(IDLE, es, true) == x
    requires !e.EvRunnerStart? && PacketsOf(e) == [] && StartOf(x.session, e).None?
    ensures y == x.(session := M.Step(x.session, e, true)) && Run(IDLE, es', true) == y
  {
    hide Run, M.Step, StartOf;
    es', y := Then(es, x, Session(e));
    assert Tasks([]) == [];
    NothingMore(x.queue);
    NothingMore(x.arrived);
  }

  const LOST := Leaf(1, Written)
  const READY := INITIAL.(stopping := false, midSession := true, channel := Some(0))
  const WAITING := READY.(client := Syncing, handoff := Capturing, login := Waiting(0), job := 1, log := [Begun(0, 1)])
  const PASSED := WAITING.(nextRef := 1, deleted := [0], bounded := true, log := [Begun(0, 1), Bounded(1)])

  lemma LoginBegins() returns (es: seq<Event>, x: System)
    ensures Run(IDLE, es, true) == x
    ensures x == IDLE.(session := WAITING.(queued := {1}), start := Some(Begun(0, 1)))
  {
    hide Run;
    RunNothing(true);
    es, x := [], IDLE;
    es, x := ThenQuiet(es, x, EvStart);
    es, x := ThenQuiet(es, x, EvSetMid);
    es, x := ThenQuiet(es, x, EvIntention(0, true));
    assert x.session == READY.(client := AwaitLogin);
    es, x := ThenQuiet(es, x, EvHello(0));
    es, x := ThenQuiet(es, x, EvReadMid);
    assert x.session == READY.(client := AwaitLogin, login := Reconstruct(0));
    es, x := Then(es, x, Session(EvBeginSync(true)));
    assert [] + Tasks([]) == [];
  }

  // The packet arrives behind the job, which then runs.
  lemma PacketBetween() returns (es: seq<Event>, x: System)
    ensures Run(IDLE, es, true) == x
    ensures x == System(WAITING.(running := Some(1), pending := [Held(0, LOST)], nextRef := 1, since := [LOST]),
                        [Apply(LOST)], [], [], [LOST], true, 0, 0, Some(Begun(0, 1)))
  {
    hide Run;
    es, x := LoginBegins();
    es, x := Then(es, x, Dispatch);
    assert x.queue == [Capture(1)];
    es, x := Then(es, x, Session(EvFromA(LOST, true, true)));
    assert Tasks([LOST]) == [Apply(LOST)];
    assert x.queue == [Capture(1), Apply(LOST)] && x.arrived == [LOST];
    assert x.session == WAITING.(queued := {1}, pending := [Held(0, LOST)], nextRef := 1, since := [LOST]);
    es, x := Then(es, x, RenderNext);
    assert x.queue == [Apply(LOST)];
  }

  // The boundary clears the buffer.
  lemma PacketCleared() returns (es: seq<Event>, x: System)
    ensures Run(IDLE, es, true) == x
    ensures x == System(PASSED.(running := Some(1)), [Apply(LOST)], [], [], [LOST], true, 0, 1, Some(Bounded(1)))
  {
    hide Run;
    es, x := PacketBetween();
    assert Refs([Held(0, LOST)]) == [0] + Refs([]);
    es, x := Then(es, x, Session(EvBoundary));
    assert [Apply(LOST)] + Tasks([]) == [Apply(LOST)];
  }

  lemma SnapshotIsSent() returns (es: seq<Event>, x: System)
    ensures Run(IDLE, es, true) == x && x.arrived == [LOST] && x.snapshot == []
    ensures x.session == PASSED.(captured := true, login := Tail(0, true),
                                 log := [Begun(0, 1), Bounded(1), SnapshotWritten(0, 1)])
  {
    hide Run;
    es, x := PacketCleared();
    es, x := ThenQuiet(es, x, EvRunnerEnd(true));
    es, x := ThenQuiet(es, x, EvCaptured(true));
    assert x.session == PASSED.(captured := true, login := Writing(0));
    es, x := ThenQuiet(es, x, EvWriteSnapshot(true));
  }

  lemma SnapshotIsLive() returns (es: seq<Event>, x: System)
    ensures Run(IDLE, es, true) == x && x.arrived == [LOST] && x.snapshot == []
    ensures x.session == PASSED.(captured := true, handoff := AwaitingAck, client := AwaitReady, login := NoLogin,
                                 log := [Begun(0, 1), Bounded(1), SnapshotWritten(0, 1), Sent(0)])
  {
    hide Run, Drain;
    es, x := SnapshotIsSent();
    var t := PASSED.(captured := true, handoff := AwaitingAck, client := AwaitReady, login := NoLogin,
                     log := [Begun(0, 1), Bounded(1), SnapshotWritten(0, 1)]);
    DrainsNothing(With(t, Sent(0)));
    es, x := ThenQuiet(es, x, EvFinishLogin(9));
  }

  lemma LosingRun() returns (es: seq<Event>, x: System)
    ensures Run(IDLE, es, true) == x && x.arrived == [LOST] && x.snapshot == []
    ensures Served(x.session) && x.session.client == Play && x.session.since == []
  {
    hide Run;
    es, x := SnapshotIsLive();
    es, x := ThenQuiet(es, x, EvFromB(0, TeleportAck(TELEPORT_ID)));
  }

  // A run in which a packet is lost although nothing fails: it is behind the job in A's queue, so
  // that the snapshot does not have it, and in the buffer when the boundary clears it.
  lemma PacketLost() returns (es: seq<Event>)
    ensures var x := Run(IDLE, es, true);
            && Served(x.session) && x.session.client == Play && x.arrived == [LOST]
            && Expected(x.arrived) == [1] && Expected(x.snapshot) + Live(x.session) == []
  {
    hide Run, Live, Expected, Inv;
    var x;
    es, x := LosingRun();
    ReachableQ(es, true);
    StreamOf(x.session);
    OneDue();
  }

  lemma OneDue()
    ensures Expected([LOST]) == [1] && Expected([]) == []
  {
    assert [LOST][..0] == [] && [LOST][1..] == [];
    assert Reached(LOST) == [LOST] && Due([LOST]) == [1] + Due([]);
  }

  lemma DrainsNothing(s: State)
    ensures Drain(s, [], 9) == s
  {
  }
}
