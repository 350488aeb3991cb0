/** The resident controller: start, suspend, retry. */
module Controller {
  import Gates = RuntimeGates
  import opened LoginHandoff
  import SessionModel

  // The controller's thread runs one loop. Other threads enter and leave callbacks, act inside
  // them, run main-thread gate tasks and signal resume at any point between two of its steps.

  // What callbacks may change: the client and target connections, the players' identities, the
  // accepted channels, the live buffer, the handoff, the relayed pipelines and bypass marks.
  datatype Session = Session(
    client: bool,
    target: bool,
    identities: bool,
    children: seq<nat>,
    pending: nat,
    handoff: Phase,
    clientState: SessionModel.ClientState,
    connected: bool,
    pipelines: seq<nat>,
    marks: nat)

  // The gate that admits callbacks.
  datatype CallbackGate = CallbackGate(enabled: bool, inFlight: nat)

  // The parts of the server that must be closed.
  datatype Parts = Parts(listener: bool, eventLoop: bool, lanPinger: bool)

  const NO_PARTS := Parts(false, false, false)

  // gate: the callback gate. cancelled and gateTasks: the main-thread gate.
  datatype World = World(
    gate: CallbackGate,
    session: Session,
    stopping: bool,
    cancelled: bool,
    gateTasks: nat,
    parts: Parts,
    midSession: bool,
    bound: bool,
    hook: bool)

  const NO_SESSION := Session(false, false, false, [], 0, Idle, SessionModel.AwaitHandshake, false, [], 0)
  const NO_WORLD := World(CallbackGate(false, 0), NO_SESSION, true, false, 0, NO_PARTS, false, false, false)

  predicate ServerBlank(w: World) {
    && !w.gate.enabled && w.gate.inFlight == 0 && w.gateTasks == 0 && w.stopping
    && w.parts == NO_PARTS && !w.midSession && !w.bound
    && !w.session.client && !w.session.target && !w.session.identities && w.session.children == []
    && w.session.pending == 0 && w.session.handoff == Idle && w.session.clientState == SessionModel.AwaitHandshake
  }

  // Nothing of an earlier session is left.
  predicate Blank(w: World) {
    ServerBlank(w) && !w.hook && w.session.pipelines == [] && w.session.marks == 0
  }

  // ---------------------------------------------------------------- parts of a stop

  function Kept(xs: seq<nat>, kept: set<nat>): seq<nat> {
    if xs == [] then []
    else Kept(xs[..|xs| - 1], kept) + (if xs[|xs| - 1] in kept then [xs[|xs| - 1]] else [])
  }

  lemma {:induction false} NoneKeptIff(xs: seq<nat>, kept: set<nat>)
    ensures Kept(xs, kept) == [] <==> forall i :: 0 <= i < |xs| ==> xs[i] !in kept
    decreases |xs|
  {
    if xs != [] {
      var n := |xs| - 1;
      NoneKeptIff(xs[..n], kept);
      assert forall i :: 0 <= i < n ==> xs[..n][i] == xs[i];
    }
  }

  // Exactly the kept ones stay, as often as they were there.
  lemma {:induction false} KeptExactly(xs: seq<nat>, kept: set<nat>, x: nat)
    ensures multiset(Kept(xs, kept))[x] == if x in kept then multiset(xs)[x] else 0
    decreases |xs|
  {
    if xs != [] {
      var n := |xs| - 1;
      KeptExactly(xs[..n], kept, x);
      assert multiset(xs) == multiset(xs[..n]) + multiset{xs[n]} by {
        assert xs == xs[..n] + [xs[n]];
      }
    }
  }

  // They stay in their order.
  lemma {:induction false} KeptJoin(xs: seq<nat>, ys: seq<nat>, kept: set<nat>)
    ensures Kept(xs + ys, kept) == Kept(xs, kept) + Kept(ys, kept)
    decreases |ys|
  {
    if ys == [] {
      assert xs + ys == xs;
    } else {
      var n := |ys| - 1;
      KeptJoin(xs, ys[..n], kept);
      assert (xs + ys)[..|xs + ys| - 1] == xs + ys[..n];
    }
  }

  function AskStop(w: World): World {
    w.(stopping := true, cancelled := true, session := w.session.(connected := false))
  }

  function CloseChildren(w: World, kept: set<nat>): World {
    w.(session := w.session.(children := Kept(w.session.children, kept)))
  }

  function Release(w: World): World {
    w.(parts := NO_PARTS, bound := false, midSession := false,
       session := w.session.(client := false, target := false, identities := false, pending := 0,
                             handoff := Idle, clientState := SessionModel.AwaitHandshake))
  }

  // Which of the closing calls work; only the parts that are there are asked.
  datatype Closing = Closing(listener: bool, lanPinger: bool, eventLoop: bool)

  predicate AllClosed(w: World, closing: Closing) {
    && (w.parts.listener ==> closing.listener)
    && (w.parts.lanPinger ==> closing.lanPinger)
    && (w.parts.eventLoop ==> closing.eventLoop)
  }

  // kept: the accepted channels that could not be closed.
  function CloseServer(w: World, closing: Closing, kept: set<nat>): (World, bool) {
    var v := CloseChildren(AskStop(w), kept);
    if AllClosed(w, closing) && v.session.children == [] && v.gateTasks == 0 then (Release(v), true) else (v, false)
  }

  // What a stop of the server does, part by part.
  lemma ClosesExactly(w: World, closing: Closing, kept: set<nat>)
    ensures var (v, ok) := CloseServer(w, closing, kept);
            && (ok <==>
                  && (w.parts.listener ==> closing.listener) && (w.parts.lanPinger ==> closing.lanPinger)
                  && (w.parts.eventLoop ==> closing.eventLoop)
                  && (forall i :: 0 <= i < |w.session.children| ==> w.session.children[i] !in kept)
                  && w.gateTasks == 0)
            && v == var u := CloseChildren(AskStop(w), kept); if ok then Release(u) else u
  {
    hide Kept, AskStop, CloseChildren, Release;
    NoneKeptIff(w.session.children, kept);
    AskedAndClosed(w, kept);
  }

  lemma AskedAndClosed(w: World, kept: set<nat>)
    ensures var v := CloseChildren(AskStop(w), kept);
            v.session.children == Kept(w.session.children, kept) && v.gateTasks == w.gateTasks
  {
    hide Kept;
  }

  // kept: the pipelines from which the relay could not be removed.
  function DetachAll(w: World, kept: set<nat>): (World, bool) {
    var v := w.(session := w.session.(pipelines := Kept(w.session.pipelines, kept), marks := 0));
    (v, v.session.pipelines == [])
  }

  // ---------------------------------------------------------------- the controller thread

  // Why a stop runs: cleanup of an earlier failed one, a failed start, the key, or the end.
  datatype Cause = Retry | FailedStart | Key | Exit

  datatype StartStage = StartHook | StartGate | StartTransform | StartServer | StartCapture | StartBlock

  datatype StopStage = StopRequest | StopGate | StopDrain | StopServer | StopUnhook | StopDetach

  // ok: every part of the stop so far worked.
  datatype Pc =
    | Top
    | Cleanup
    | Request
    | Starting(attempt: StartStage)
    | Stopping(stage: StopStage, cause: Cause, ok: bool)
    | Delete
    | Wait
    | Done

  datatype State = State(pc: Pc, active: bool, clean: bool, requested: bool, resume: bool, world: World)

  const INITIAL := State(Top, false, true, true, false, NO_WORLD)

  // The outcomes of the calls of one step; each step says which it reads.
  datatype Choice = Choice(ok: bool, alt: bool, more: bool, late: bool, kept: set<nat>, session: Session)

  function StopEnds(s: State, ok: bool): State
    requires s.pc.Stopping?
  {
    match s.pc.cause
    case Retry => s.(clean := ok, pc := Request)
    case FailedStart => s.(clean := ok, pc := Delete)
    case Key => s.(clean := ok, active := false, pc := Wait)
    case Exit => s.(pc := Done)
  }

  // ok: a failed or expired handoff is reset.
  function CheckTimeout(s: State, c: Choice): State {
    if s.active && c.ok then
      s.(pc := Cleanup, world := s.world.(session := s.world.session.(pending := 0, handoff := Idle)))
    else s.(pc := Cleanup)
  }

  // ok: the retry time has come. alt: the local frame could be pushed.
  function CleanupStep(s: State, c: Choice): State {
    if !s.active && !s.clean && c.ok && c.alt then s.(pc := Stopping(StopRequest, Retry, true)) else s.(pc := Request)
  }

  predicate Attempts(s: State) {
    s.pc == Request && s.requested && !s.active && s.clean
  }

  // ok: the local frame could be pushed.
  function RequestStep(s: State, c: Choice): State {
    if !Attempts(s) then s.(pc := Delete)
    else s.(requested := false, pc := if c.ok then Starting(StartHook) else Delete)
  }

  const FAILED := Stopping(StopRequest, FailedStart, true)

  // ok: the proxy server started. more: the LAN announcement started, or, on a failure, the event
  // loops were created. alt: the failure came after the flags were reset. late: it came after the
  // listener was there.
  function ServerStep(s: State, c: Choice): State {
    var w := s.world;
    var reset := w.(cancelled := false, midSession := false, stopping := false,
                    session := w.session.(connected := false));
    if w.bound then s.(pc := Starting(StartCapture))
    else if c.ok then
      s.(pc := Starting(StartCapture),
         world := reset.(parts := Parts(true, true, w.parts.lanPinger || c.more), bound := true))
    else if c.alt then
      s.(pc := FAILED,
         world := reset.(parts := w.parts.(eventLoop := w.parts.eventLoop || c.more || c.late,
                                       listener := w.parts.listener || c.late)))
    else s.(pc := FAILED)
  }

  // ok: A's connection was captured; alt: A has none; more: try again. Attaching the relay and
  // setting the target change the session.
  function CaptureStep(s: State, c: Choice): State {
    var w := s.world.(session := c.session);
    if c.ok then s.(pc := Delete, active := true, world := w.(midSession := true))
    else if c.alt then s.(pc := Starting(StartBlock))
    else if c.more then s.(pc := Starting(StartCapture), world := w)
    else s.(pc := FAILED, world := w)
  }

  // ok: the task that holds A's main thread was queued.
  function BlockStep(s: State, c: Choice): State {
    var w := s.world;
    if w.session.connected then s.(pc := Delete, active := true)
    else if w.cancelled || !c.ok then s.(pc := FAILED)
    else s.(pc := Delete, active := true, world := w.(gateTasks := w.gateTasks + 1))
  }

  // ok: the step succeeded. What a step does before it fails stays.
  function StartStep(s: State, c: Choice): State
    requires s.pc.Starting?
  {
    var w := s.world;
    match s.pc.attempt
    case StartHook => s.(pc := if c.ok then Starting(StartGate) else FAILED)
    case StartGate => s.(pc := Starting(StartTransform), world := w.(gate := w.gate.(enabled := true)))
    case StartTransform =>
      // alt: the load hook was enabled although the retransformation failed.
      s.(pc := if c.ok then Starting(StartServer) else FAILED, world := w.(hook := w.hook || c.ok || c.alt))
    case StartServer => ServerStep(s, c)
    case StartCapture => CaptureStep(s, c)
    case StartBlock => BlockStep(s, c)
  }

  // When the server is stopped, ok, alt and more say that the listener, the LAN announcement and
  // the event loops could be closed.
  function StopWorld(s: State, c: Choice): World
    requires s.pc.Stopping?
  {
    var w := s.world;
    match s.pc.stage
    case StopRequest => AskStop(w)
    case StopGate => w.(gate := w.gate.(enabled := false))
    case StopDrain => w
    case StopServer => CloseServer(w, Closing(c.ok, c.alt, c.more), c.kept).0
    case StopUnhook => if c.ok then w.(hook := false) else w
    case StopDetach => DetachAll(w, c.kept).0
  }

  // This part of the stop worked.
  predicate StopWorked(s: State, c: Choice)
    requires s.pc.Stopping?
  {
    match s.pc.stage
    case StopServer => CloseServer(s.world, Closing(c.ok, c.alt, c.more), c.kept).1
    case StopUnhook => c.ok
    case StopDetach => DetachAll(s.world, c.kept).1
    case _ => true
  }

  function After(stage: StopStage): StopStage {
    match stage
    case StopRequest => StopGate
    case StopGate => StopDrain
    case StopDrain => StopServer
    case StopServer => StopUnhook
    case _ => StopDetach
  }

  // ok: the wait for the callbacks has timed out.
  function StopNext(s: State, c: Choice, worked: bool): State
    requires s.pc.Stopping?
  {
    if s.pc.stage == StopDrain && s.world.gate.inFlight > 0 then if c.ok then StopEnds(s, false) else s
    else if s.pc.stage == StopDetach then StopEnds(s, s.pc.ok && worked)
    else s.(pc := s.pc.(stage := After(s.pc.stage), ok := s.pc.ok && worked))
  }

  function StopStep(s: State, c: Choice): State
    requires s.pc.Stopping?
  {
    StopNext(s, c, StopWorked(s, c)).(world := StopWorld(s, c))
  }

  // ok: the key was pressed. alt: the local frame could be pushed.
  function DeleteStep(s: State, c: Choice): State {
    if c.ok && (s.active || s.requested) then
      s.(resume := false, requested := false, pc := if c.alt then Stopping(StopRequest, Key, true) else Wait)
    else s.(pc := Wait)
  }

  // ok: the wait works. alt: it ends because of the signal, when there is one. more: on a failed
  // wait, the local frame could be pushed.
  function WaitStep(s: State, c: Choice): State {
    if !c.ok then s.(pc := if c.more then Stopping(StopRequest, Exit, true) else Done)
    else if s.resume && c.alt then s.(resume := false, requested := s.requested || !s.active, pc := Top)
    else s.(pc := Top)
  }

  function Control(s: State, c: Choice): State {
    match s.pc
    case Top => CheckTimeout(s, c)
    case Cleanup => CleanupStep(s, c)
    case Request => RequestStep(s, c)
    case Delete => DeleteStep(s, c)
    case Wait => WaitStep(s, c)
    case Done => s
    case Starting(_) => StartStep(s, c)
    case Stopping(_, _, _) => StopStep(s, c)
  }

  // ---------------------------------------------------------------- the other threads

  datatype Event =
    | EvControl(c: Choice)
    | EvEnter
    | EvLeave
    | EvAct(session: Session)
    | EvGateTask
    | EvSignal

  function Step(s: State, e: Event): State {
    var w := s.world;
    match e
    case EvControl(c) => Control(s, c)
    case EvEnter => if w.gate.enabled then s.(world := w.(gate := w.gate.(inFlight := w.gate.inFlight + 1))) else s
    case EvLeave => if w.gate.inFlight > 0 then s.(world := w.(gate := w.gate.(inFlight := w.gate.inFlight - 1))) else s
    case EvAct(session) => if w.gate.inFlight > 0 then s.(world := w.(session := session)) else s
    case EvGateTask =>
      if w.gateTasks > 0 && (w.session.connected || w.cancelled) then
        s.(world := w.(gateTasks := w.gateTasks - 1))
      else s
    case EvSignal => s.(resume := true)
  }

  function Run(s: State, es: seq<Event>): State
    decreases |es|
  {
    if es == [] then s else Run(Step(s, es[0]), es[1..])
  }

  // ---------------------------------------------------------------- what holds in every run

  predicate At(pc: Pc, stage: StopStage) {
    pc.Stopping? && pc.stage == stage
  }

  // No session is being started, stopped or run, or an attempt has not opened the gate yet.
  predicate Resting(s: State) {
    && !s.active && s.clean && !s.pc.Stopping? && s.pc != Done
    && (s.pc.Starting? ==> s.pc.attempt == StartHook || s.pc.attempt == StartGate)
  }

  predicate Inv(s: State) {
    var w := s.world;
    && (s.active ==> s.clean)
    && (s.pc.Starting? ==> !s.active && s.clean)
    && (s.pc.Stopping? && (s.pc.cause == Retry || s.pc.cause == FailedStart) ==> !s.active)
    && (Resting(s) ==> Blank(w))
    && (At(s.pc, StopDrain) ==> !w.gate.enabled && w.stopping)
    && (At(s.pc, StopGate) ==> w.stopping)
    && (At(s.pc, StopServer) || At(s.pc, StopUnhook) || At(s.pc, StopDetach)
        ==> !w.gate.enabled && w.gate.inFlight == 0 && w.stopping)
    && (At(s.pc, StopUnhook) && s.pc.ok ==> ServerBlank(w))
    && (At(s.pc, StopDetach) && s.pc.ok ==> ServerBlank(w) && !w.hook)
  }

  lemma {:induction false} KeepControl(s: State, c: Choice)
    requires Inv(s)
    ensures Inv(Control(s, c))
  {
    hide Inv, CheckTimeout, CleanupStep, RequestStep, DeleteStep, WaitStep, StopStep, StartStep;
    match s.pc
    case Top => KeepTop(s, c);
    case Cleanup => KeepTop(s, c);
    case Request => KeepTurn(s, c);
    case Delete => KeepEnd(s, c);
    case Wait => KeepEnd(s, c);
    case Done =>
    case Starting(_) => KeepStart(s, c);
    case Stopping(stage, _, _) =>
      match stage {
        case StopServer => KeepClose(s, c);
        case StopUnhook => KeepUnhook(s, c);
        case StopDetach => KeepDetach(s, c);
        case _ => KeepDrain(s, c);
      }
  }

  lemma KeepTop(s: State, c: Choice)
    requires Inv(s)
    ensures s.pc == Top ==> Inv(CheckTimeout(s, c))
    ensures s.pc == Cleanup ==> Inv(CleanupStep(s, c))
  {
    hide ServerBlank;
  }

  lemma KeepTurn(s: State, c: Choice)
    requires Inv(s)
    ensures s.pc == Request ==> Inv(RequestStep(s, c))
  {
    hide ServerBlank;
  }

  lemma KeepEnd(s: State, c: Choice)
    requires Inv(s)
    ensures s.pc == Delete ==> Inv(DeleteStep(s, c))
    ensures s.pc == Wait ==> Inv(WaitStep(s, c))
  {
    hide ServerBlank;
  }

  lemma KeepDrain(s: State, c: Choice)
    requires Inv(s) && (At(s.pc, StopRequest) || At(s.pc, StopGate) || At(s.pc, StopDrain))
    ensures Inv(StopStep(s, c))
  {
    hide ServerBlank;
  }

  lemma KeepClose(s: State, c: Choice)
    requires Inv(s) && At(s.pc, StopServer)
    ensures Inv(StopStep(s, c))
  {
    hide Kept, Resting;
    NotResting(StopStep(s, c));
  }

  lemma NotResting(s: State)
    ensures s.pc.Stopping? ==> !Resting(s)
  {
  }

  lemma KeepUnhook(s: State, c: Choice)
    requires Inv(s) && At(s.pc, StopUnhook)
    ensures Inv(StopStep(s, c))
  {
    hide Resting;
    NotResting(StopStep(s, c));
  }

  lemma KeepDetach(s: State, c: Choice)
    requires Inv(s) && At(s.pc, StopDetach)
    ensures Inv(StopStep(s, c))
  {
    hide ServerBlank, DetachAll;
    DetachKeepsServer(s.world, c.kept);
  }

  lemma DetachKeepsServer(w: World, kept: set<nat>)
    ensures var (v, detached) := DetachAll(w, kept);
            && ServerBlank(v) == ServerBlank(w) && v.hook == w.hook && v.session.marks == 0
            && (detached <==> v.session.pipelines == [])
  {
    hide Kept;
  }

  // What holds of a step of a start attempt.
  predicate Attempted(s: State, t: State) {
    && (Inv(s) ==> Inv(t))
    && t.resume == s.resume && t.requested == s.requested
    && t.world.gate == (if s.pc == Starting(StartGate) then s.world.gate.(enabled := true) else s.world.gate)
  }

  lemma KeepServer(s: State, c: Choice)
    requires s.pc == Starting(StartServer)
    ensures Attempted(s, ServerStep(s, c))
  {
    hide Blank, ServerBlank;
  }

  lemma KeepCapture(s: State, c: Choice)
    requires s.pc == Starting(StartCapture)
    ensures Attempted(s, CaptureStep(s, c))
  {
    hide Blank, ServerBlank;
  }

  lemma KeepBlock(s: State, c: Choice)
    requires s.pc == Starting(StartBlock)
    ensures Attempted(s, BlockStep(s, c))
  {
    hide Blank, ServerBlank;
  }

  lemma KeepHook(s: State, c: Choice)
    requires s.pc == Starting(StartHook) || s.pc == Starting(StartGate) || s.pc == Starting(StartTransform)
    ensures Attempted(s, StartStep(s, c))
  {
    if c.ok {}
  }

  lemma KeepStart(s: State, c: Choice)
    requires s.pc.Starting?
    ensures Attempted(s, StartStep(s, c))
  {
    hide Attempted, ServerStep, CaptureStep, BlockStep;
    match s.pc.attempt
    case StartServer => KeepServer(s, c);
    case StartCapture => KeepCapture(s, c);
    case StartBlock => KeepBlock(s, c);
    case _ => KeepHook(s, c);
  }

  lemma {:induction false} KeepStep(s: State, e: Event)
    requires Inv(s)
    ensures Inv(Step(s, e))
  {
    hide Control;
    match e
    case EvControl(c) => KeepControl(s, c);
    case _ =>
  }

  lemma {:induction false} KeepRun(s: State, es: seq<Event>)
    requires Inv(s)
    ensures Inv(Run(s, es))
    decreases |es|
  {
    hide Inv, Step;
    if es != [] {
      KeepStep(s, es[0]);
      KeepRun(Step(s, es[0]), es[1..]);
    }
  }

  lemma Reachable(es: seq<Event>)
    ensures Inv(Run(INITIAL, es))
  {
    hide Run;
    assert Inv(INITIAL);
    KeepRun(INITIAL, es);
  }

  // ---------------------------------------------------------------- main results

  // However many stops failed before, a session is clean while active, and a start attempt begins
  // with a closed gate, no callback in flight, no gate task and nothing of an earlier session.
  lemma SessionsStartBlank(es: seq<Event>)
    ensures var s := Run(INITIAL, es);
            (s.active ==> s.clean) && (s.pc == Starting(StartHook) ==> Blank(s.world))
  {
    hide Run;
    Reachable(es);
  }

  // While the references of a session are released, the hook is removed and the relay is detached,
  // the gate is closed and no callback runs or enters.
  lemma ReleasedAlone(es: seq<Event>)
    requires var pc := Run(INITIAL, es).pc; At(pc, StopServer) || At(pc, StopUnhook) || At(pc, StopDetach)
    ensures var s := Run(INITIAL, es);
            !s.world.gate.enabled && s.world.gate.inFlight == 0 && Step(s, EvEnter) == s
  {
    hide Run;
    Reachable(es);
  }

  // A request that nobody has served: the signal, or the flag the wait made of it.
  predicate Pending(s: State) {
    s.resume || s.requested
  }

  // A start attempt begins.
  predicate TakenUp(s: State, e: Event) {
    e.EvControl? && Attempts(s) && e.c.ok
  }

  // The key cancels the request.
  predicate KeyDrops(s: State, e: Event) {
    e.EvControl? && s.pc == Delete && e.c.ok && s.requested
  }

  // The request is taken down, but no local frame can be pushed for the attempt, and no other
  // signal has come.
  predicate FrameDrops(s: State, e: Event) {
    e.EvControl? && Attempts(s) && !e.c.ok && !s.resume
  }

  // While no session is active, a request is gone after a step exactly when an attempt took it up,
  // the key dropped it, or the local frame was refused.
  lemma RequestGone(s: State, e: Event)
    requires Pending(s) && !s.active
    ensures !Pending(Step(s, e)) <==> (TakenUp(s, e) && !s.resume) || KeyDrops(s, e) || FrameDrops(s, e)
  {
    hide StopNext, StopWorld, StopWorked, StartStep;
    if e.EvControl? {
      if s.pc.Stopping? {
        StopMoves(s, e.c, StopWorked(s, e.c), StopNext(s, e.c, StopWorked(s, e.c)));
      } else if s.pc.Starting? {
        KeepStart(s, e.c);
      }
    }
  }

  // No step takes the request up, the key drops it nowhere, and no session becomes active.
  predicate Unserved(s: State, es: seq<Event>)
    decreases |es|
  {
    !s.active
    && (es != [] ==> !TakenUp(s, es[0]) && !KeyDrops(s, es[0]) && Unserved(Step(s, es[0]), es[1..]))
  }

  predicate StaysPending(s: State, es: seq<Event>)
    decreases |es|
  {
    Pending(s) && (es != [] ==> StaysPending(Step(s, es[0]), es[1..]))
  }

  predicate FramesPushed(s: State, es: seq<Event>)
    decreases |es|
  {
    es != [] ==> !FrameDrops(s, es[0]) && FramesPushed(Step(s, es[0]), es[1..])
  }

  // A request that neither an attempt nor the key takes stays pending through any number of
  // cleanups if and only if no attempt is refused its local frame.
  lemma {:induction false} RequestStays(s: State, es: seq<Event>)
    requires Pending(s) && Unserved(s, es)
    ensures StaysPending(s, es) <==> FramesPushed(s, es)
    decreases |es|
  {
    hide Step, TakenUp, KeyDrops, FrameDrops, Pending;
    if es != [] {
      RequestGone(s, es[0]);
      if Pending(Step(s, es[0])) {
        RequestStays(Step(s, es[0]), es[1..]);
      }
    }
  }

  const NOTHING_WORKS := EvControl(Choice(false, false, false, false, {}, NO_SESSION))

  // The first request of all is lost in this way, and without a signal nothing ever starts.
  lemma RequestLost(es: seq<Event>)
    requires EvSignal !in es
    ensures var s := Run(INITIAL, [NOTHING_WORKS, NOTHING_WORKS, NOTHING_WORKS]);
            && s == INITIAL.(pc := Delete, requested := false)
            && var t := Run(s, es); !t.pc.Starting? && !t.active
  {
    hide Run;
    var e := NOTHING_WORKS;
    assert [e, e, e] == [e] + [e, e] && [e, e] == [e] + [e];
    RunCons(INITIAL, e, [e, e]);
    RunCons(INITIAL.(pc := Cleanup), e, [e]);
    RunCons(INITIAL.(pc := Request), e, []);
    NothingStarts(INITIAL.(pc := Delete, requested := false), es);
  }

  lemma RunCons(s: State, e: Event, es: seq<Event>)
    ensures Run(s, [e] + es) == Run(Step(s, e), es) && Run(s, []) == s
    ensures es == [] ==> Run(s, [e]) == Step(s, e)
  {
    hide Step;
    assert ([e] + es)[1..] == es;
    assert es == [] ==> [e] + es == [e];
  }

  lemma {:induction false} NothingStarts(s: State, es: seq<Event>)
    requires !Pending(s) && !s.active && !s.pc.Starting? && EvSignal !in es
    ensures var t := Run(s, es); !t.pc.Starting? && !t.active
    decreases |es|
  {
    hide StopNext, StopWorld, StopWorked, StartStep;
    if es != [] {
      assert es[0] != EvSignal;
      if es[0].EvControl? && s.pc.Stopping? {
        StopMoves(s, es[0].c, StopWorked(s, es[0].c), StopNext(s, es[0].c, StopWorked(s, es[0].c)));
      }
      NothingStarts(Step(s, es[0]), es[1..]);
    }
  }

  // ---------------------------------------------------------------- the key

  // Turns of the controller's thread in which a call succeeds; in the drain, one whose time is up.
  function Turns(es: seq<Event>): nat {
    if es == [] then 0 else (if es[0].EvControl? && es[0].c.ok then 1 else 0) + Turns(es[1..])
  }

  function TurnsLeft(pc: Pc): nat {
    if !pc.Stopping? then 0
    else
      match pc.stage
      case StopRequest => 6
      case StopGate => 5
      case StopDrain => 4
      case StopServer => 3
      case StopUnhook => 2
      case StopDetach => 1
  }

  lemma StopTurn(s: State, e: Event)
    requires s.pc.Stopping? && s.pc.cause == Key
    ensures var t := Step(s, e);
            && (if t.pc.Stopping? then t.pc.cause == Key else t.pc == Wait && !t.active)
            && TurnsLeft(t.pc) <= TurnsLeft(s.pc)
            && (e.EvControl? && e.c.ok ==> TurnsLeft(t.pc) < TurnsLeft(s.pc))
            && t.requested == s.requested
  {
    hide StopNext, StopWorld, StopWorked, StartStep, CheckTimeout, CleanupStep, RequestStep, DeleteStep, WaitStep;
    if e.EvControl? {
      StopMoves(s, e.c, StopWorked(s, e.c), StopNext(s, e.c, StopWorked(s, e.c)));
    }
  }

  lemma StopMoves(s: State, c: Choice, worked: bool, t: State)
    requires s.pc.Stopping? && t == StopNext(s, c, worked)
    ensures t.requested == s.requested && t.resume == s.resume && (!s.active ==> !t.active)
    ensures !t.pc.Starting?
    ensures if t.pc.Stopping? then t.pc.cause == s.pc.cause else s.pc.cause == Key ==> t.pc == Wait && !t.active
    ensures TurnsLeft(t.pc) <= TurnsLeft(s.pc)
    ensures c.ok ==> TurnsLeft(t.pc) < TurnsLeft(s.pc)
  {
    hide StopEnds;
    if s.pc.stage == StopDrain && s.world.gate.inFlight > 0 {
      if c.ok {
        EndMoves(s, false);
      }
    } else if s.pc.stage == StopDetach {
      EndMoves(s, s.pc.ok && worked);
    }
  }

  lemma EndMoves(s: State, ok: bool)
    requires s.pc.Stopping?
    ensures var t := StopEnds(s, ok);
            && t.requested == s.requested && t.resume == s.resume && (!s.active ==> !t.active)
            && !t.pc.Starting? && !t.pc.Stopping? && (s.pc.cause == Key ==> t.pc == Wait && !t.active)
  {
    match s.pc.cause
    case Retry =>
    case FailedStart =>
    case Key =>
    case Exit =>
  }

  // The key's stop ends, and leaves no session and no request.
  lemma {:induction false} StopByKey(s: State, es: seq<Event>) returns (k: nat)
    requires s.pc.Stopping? && s.pc.cause == Key && Turns(es) >= TurnsLeft(s.pc)
    ensures k <= |es| && var t := Run(s, es[..k]); t.pc == Wait && !t.active && t.requested == s.requested
    decreases |es|
  {
    hide Step;
    StopTurn(s, es[0]);
    var t := Step(s, es[0]);
    if t.pc.Stopping? {
      var j := StopByKey(t, es[1..]);
      k := j + 1;
      assert es[..k][1..] == es[1..][..j];
    } else {
      k := 1;
      assert es[..1][1..] == [];
    }
  }

  // No press of the key finds a local frame, and the wait does not fail.
  predicate Undisturbed(s: State, es: seq<Event>)
    decreases |es|
  {
    es != [] ==>
      && (s.pc == Delete && es[0].EvControl? && es[0].c.ok ==> !es[0].c.alt)
      && (s.pc == Wait && es[0].EvControl? ==> es[0].c.ok)
      && Undisturbed(Step(s, es[0]), es[1..])
  }

  // A session runs and no part of the thread starts or stops one.
  predicate Stays(s: State) {
    s.active && !s.pc.Stopping? && !s.pc.Starting?
  }

  lemma {:induction false} SessionStays(s: State, es: seq<Event>, k: nat)
    requires Stays(s) && Undisturbed(s, es) && k <= |es|
    ensures Run(s, es[..k]).active
    decreases k
  {
    if k > 0 {
      assert es[..k][1..] == es[1..][..k - 1];
      SessionStays(Step(s, es[0]), es[1..], k - 1);
    }
  }

  // A press of the key on a running session ends it, once the thread has had enough turns, if and
  // only if the local frame can be pushed. Without the frame the press is lost with all requests.
  lemma KeyNeedsFrame(s: State, c: Choice, es: seq<Event>)
    requires s.pc == Delete && s.active && c.ok
    requires var t := Step(s, EvControl(c)); Turns(es) >= 6 && (!c.alt ==> Undisturbed(t, es))
    ensures var t := Step(s, EvControl(c));
            && ((exists k | 0 <= k <= |es| :: !Run(t, es[..k]).active) <==> c.alt)
            && !Pending(t) && (!c.alt ==> t.world == s.world)
  {
    hide Run, Turns, Undisturbed;
    var t := Step(s, EvControl(c));
    if c.alt {
      var k := StopByKey(t, es);
      assert !Run(t, es[..k]).active;
    } else {
      forall k | 0 <= k <= |es| ensures Run(t, es[..k]).active {
        SessionStays(t, es, k);
      }
    }
  }

  // ---------------------------------------------------------------- the gate

  // The gate of the world is the one of the callback gate's own model; the callbacks in flight are
  // numbered by their arrival.
  ghost predicate SameGate(gate: CallbackGate, g: Gates.Gate) {
    g.enabled == gate.enabled && forall i: nat :: i in g.running <==> i < gate.inFlight
  }

  function GateEvents(s: State, e: Event): seq<Gates.Event> {
    var n := s.world.gate.inFlight;
    match e
    case EvEnter => [Gates.EvEnter(n)]
    case EvLeave => if n > 0 then [Gates.EvLeave(n - 1)] else []
    case EvControl(_) =>
      if s.pc == Starting(StartGate) then [Gates.EvStart]
      else if At(s.pc, StopGate) then [Gates.EvBeginStop(0)]
      else if At(s.pc, StopDrain) then [Gates.EvEndStop(0, e.c.ok)]
      else []
    case _ => []
  }

  function GateAfter(s: State, e: Event): CallbackGate {
    var g := s.world.gate;
    match e
    case EvEnter => if g.enabled then g.(inFlight := g.inFlight + 1) else g
    case EvLeave => if g.inFlight > 0 then g.(inFlight := g.inFlight - 1) else g
    case EvControl(_) =>
      if s.pc == Starting(StartGate) then g.(enabled := true)
      else if At(s.pc, StopGate) then g.(enabled := false)
      else g
    case _ => g
  }

  // Only opening and closing the gate, entering and leaving change it.
  lemma WorldFollows(s: State, e: Event)
    ensures Step(s, e).world.gate == GateAfter(s, e)
  {
    hide Control, GateAfter;
    match e
    case EvControl(c) => ControlFollows(s, c);
    case _ => OthersFollow(s, e);
  }

  lemma OthersFollow(s: State, e: Event)
    requires !e.EvControl?
    ensures Step(s, e).world.gate == GateAfter(s, e)
  {
    hide Control;
  }

  lemma ControlFollows(s: State, c: Choice)
    ensures Control(s, c).world.gate == GateAfter(s, EvControl(c))
  {
    hide StopStep, StartStep, CheckTimeout, CleanupStep, RequestStep, DeleteStep, WaitStep, Inv;
    match s.pc
    case Starting(_) => KeepStart(s, c);
    case Stopping(_, _, _) =>
      StopKeepsGate(s, c);
      StopStepWorld(s, c);
    case _ => RestKeepsGate(s, c);
  }

  lemma RestKeepsGate(s: State, c: Choice)
    ensures CheckTimeout(s, c).world.gate == CleanupStep(s, c).world.gate == s.world.gate
    ensures RequestStep(s, c).world == DeleteStep(s, c).world == WaitStep(s, c).world == s.world
  {
  }

  lemma StopStepWorld(s: State, c: Choice)
    requires s.pc.Stopping?
    ensures StopStep(s, c).world == StopWorld(s, c)
  {
    hide StopWorld, StopWorked, StopNext;
  }

  lemma StopKeepsGate(s: State, c: Choice)
    requires s.pc.Stopping?
    ensures StopWorld(s, c).gate == GateAfter(s, EvControl(c))
  {
    hide CloseServer, DetachAll;
    PartsKeepGate(s.world, c);
  }

  lemma PartsKeepGate(w: World, c: Choice)
    ensures CloseServer(w, Closing(c.ok, c.alt, c.more), c.kept).0.gate == w.gate
            && DetachAll(w, c.kept).0.gate == w.gate
  {
    hide Kept;
  }

  lemma GateFollows(s: State, e: Event, g: Gates.Gate)
    requires SameGate(s.world.gate, g)
    ensures var es := GateEvents(s, e);
            SameGate(GateAfter(s, e), if es == [] then g else Gates.Step(g, es[0]))
  {
  }

  lemma GateStep(s: State, e: Event, g: Gates.Gate)
    requires SameGate(s.world.gate, g)
    ensures SameGate(Step(s, e).world.gate, Gates.Run(g, GateEvents(s, e)))
  {
    hide Step, SameGate;
    var es := GateEvents(s, e);
    if es != [] {
      Gates.RunOne(g, es[0]);
      assert es == [es[0]];
    }
    WorldFollows(s, e);
    GateFollows(s, e, g);
  }

  // What the controller and the callbacks do to the gate is a run of the gate's own model.
  lemma {:induction false} GateRun(s: State, es: seq<Event>, g: Gates.Gate) returns (gs: seq<Gates.Event>)
    requires SameGate(s.world.gate, g)
    ensures SameGate(Run(s, es).world.gate, Gates.Run(g, gs))
    decreases |es|
  {
    hide Step, GateEvents, SameGate;
    if es == [] {
      gs := [];
    } else {
      var first := GateEvents(s, es[0]);
      GateStep(s, es[0], g);
      var rest := GateRun(Step(s, es[0]), es[1..], Gates.Run(g, first));
      gs := first + rest;
      Gates.RunJoin(g, first, rest);
    }
  }

  // Who is not admitted finds the session stopping, and an attempt past its second step has opened
  // the gate.
  predicate Admitting(s: State) {
    && (!s.world.gate.enabled ==> s.world.stopping)
    && (s.pc.Starting? && s.pc.attempt != StartHook && s.pc.attempt != StartGate ==> s.world.gate.enabled)
  }

  lemma StartAdmits(s: State, c: Choice)
    requires s.pc.Starting? && Admitting(s)
    ensures Admitting(StartStep(s, c))
  {
    hide Inv;
    KeepStart(s, c);
    if s.pc.attempt == StartServer || s.pc.attempt == StartCapture || s.pc.attempt == StartBlock {
      assert s.world.gate.enabled;
      LateAttempt(s, c);
    } else {
      EarlyAttempt(s, c);
    }
  }

  lemma LateAttempt(s: State, c: Choice)
    requires s.pc.Starting? && s.pc.attempt != StartHook && s.pc.attempt != StartGate
    ensures StartStep(s, c).pc != Starting(StartHook)
  {
  }

  lemma EarlyAttempt(s: State, c: Choice)
    requires s.pc == Starting(StartHook) || s.pc == Starting(StartGate) || s.pc == Starting(StartTransform)
    ensures var t := StartStep(s, c);
            && t.world.stopping == s.world.stopping
            && (s.pc == Starting(StartHook) && t.pc.Starting? ==> t.pc.attempt == StartGate)
  {
    hide ServerStep, CaptureStep, BlockStep;
  }

  lemma StopAdmits(s: State, c: Choice)
    requires Inv(s) && s.pc.Stopping? && Admitting(s)
    ensures Admitting(StopStep(s, c))
  {
    hide Inv, StopWorld, StopWorked, StopNext;
    if At(s.pc, StopGate) {
      GateStops(s);
    }
    if s.world.stopping {
      StopsOnly(s, c);
    }
    StopKeepsGate(s, c);
    StopMoves(s, c, StopWorked(s, c), StopNext(s, c, StopWorked(s, c)));
  }

  lemma GateStops(s: State)
    requires Inv(s) && At(s.pc, StopGate)
    ensures s.world.stopping
  {
    hide Blank, ServerBlank;
  }

  // A stop never makes the server serve again.
  lemma StopsOnly(s: State, c: Choice)
    requires s.pc.Stopping? && s.world.stopping
    ensures StopWorld(s, c).stopping
  {
    hide CloseServer, DetachAll;
    PartsKeepStopping(s.world, c);
  }

  lemma PartsKeepStopping(w: World, c: Choice)
    requires w.stopping
    ensures CloseServer(w, Closing(c.ok, c.alt, c.more), c.kept).0.stopping && DetachAll(w, c.kept).0.stopping
  {
    hide Kept;
  }

  lemma KeepAdmitting(s: State, e: Event)
    requires Inv(s) && Admitting(s)
    ensures Admitting(Step(s, e))
  {
    hide Inv, StartStep, StopStep;
    match e
    case EvControl(c) =>
      match s.pc {
        case Starting(_) => StartAdmits(s, c);
        case Stopping(_, _, _) => StopAdmits(s, c);
        case _ =>
      }
    case _ =>
  }

  lemma {:induction false} RunAdmits(s: State, es: seq<Event>)
    requires Inv(s) && Admitting(s)
    ensures Admitting(Run(s, es))
    decreases |es|
  {
    hide Inv, Step, Admitting;
    if es != [] {
      KeepStep(s, es[0]);
      KeepAdmitting(s, es[0]);
      RunAdmits(Step(s, es[0]), es[1..]);
    }
  }

  // In every run a callback is refused only while the session is stopping.
  lemma RefusedOnlyWhenStopping(es: seq<Event>)
    ensures var w := Run(INITIAL, es).world; !w.gate.enabled ==> w.stopping
  {
    hide Run;
    assert Inv(INITIAL);
    RunAdmits(INITIAL, es);
  }

  // ---------------------------------------------------------------- what is let go

  // The step in which everything of the server is closed.
  predicate LetsGo(s: State, e: Event) {
    && e.EvControl? && At(s.pc, StopServer)
    && (s.world.parts.listener ==> e.c.ok) && (s.world.parts.lanPinger ==> e.c.alt)
    && (s.world.parts.eventLoop ==> e.c.more)
    && (forall i :: 0 <= i < |s.world.session.children| ==> s.world.session.children[i] !in e.c.kept)
    && s.world.gateTasks == 0
  }

  // In every run a listener, an announcement or event loops that are there are let go exactly by a
  // stop that could close all of them, every accepted channel, and found no task left.
  lemma LetGoExactly(es: seq<Event>, e: Event)
    ensures var s := Run(INITIAL, es);
            var p, q := s.world.parts, Step(s, e).world.parts;
            && (p.listener ==> (!q.listener <==> LetsGo(s, e)))
            && (p.lanPinger ==> (!q.lanPinger <==> LetsGo(s, e)))
            && (p.eventLoop ==> (!q.eventLoop <==> LetsGo(s, e)))
  {
    hide Run, Control;
    if e.EvControl? {
      ControlLetsGo(Run(INITIAL, es), e.c);
    }
  }

  lemma ControlLetsGo(s: State, c: Choice)
    ensures var p, q := s.world.parts, Control(s, c).world.parts;
            q == NO_PARTS || GrownTo(p, q)
    ensures var p, q := s.world.parts, Control(s, c).world.parts;
            p != NO_PARTS ==> (q == NO_PARTS <==> LetsGo(s, EvControl(c)))
  {
    hide StopStep, StartStep, CheckTimeout, CleanupStep, RequestStep, DeleteStep, WaitStep, LetsGo, GrownTo;
    GrownRules(s.world.parts, Control(s, c).world.parts);
    match s.pc
    case Starting(_) =>
      StartLetsGo(s, c);
      NotThere(s, EvControl(c));
    case Stopping(_, _, _) =>
      StopStepWorld(s, c);
      StopLetsGo(s, c);
    case _ =>
      RestLetsGo(s, c);
      NotThere(s, EvControl(c));
  }

  // No part is lost from p to q.
  predicate GrownTo(p: Parts, q: Parts) {
    (p.listener ==> q.listener) && (p.lanPinger ==> q.lanPinger) && (p.eventLoop ==> q.eventLoop)
  }

  lemma GrownRules(p: Parts, q: Parts)
    ensures GrownTo(p, p) && (GrownTo(p, q) && p != NO_PARTS ==> q != NO_PARTS)
  {
  }

  lemma NotThere(s: State, e: Event)
    ensures LetsGo(s, e) ==> At(s.pc, StopServer)
  {
  }

  lemma StartLetsGo(s: State, c: Choice)
    requires s.pc.Starting?
    ensures GrownTo(s.world.parts, StartStep(s, c).world.parts)
  {
    hide ServerStep, CaptureStep, BlockStep, GrownTo;
    GrownRules(s.world.parts, s.world.parts);
    ServerLetsGo(s, c);
    LateLetsGo(s, c);
  }

  lemma ServerLetsGo(s: State, c: Choice)
    ensures GrownTo(s.world.parts, ServerStep(s, c).world.parts)
  {
  }

  lemma LateLetsGo(s: State, c: Choice)
    ensures CaptureStep(s, c).world.parts == BlockStep(s, c).world.parts == s.world.parts
  {
  }

  lemma RestLetsGo(s: State, c: Choice)
    ensures CheckTimeout(s, c).world.parts == CleanupStep(s, c).world.parts == s.world.parts
    ensures RequestStep(s, c).world.parts == DeleteStep(s, c).world.parts == WaitStep(s, c).world.parts == s.world.parts
  {
  }

  lemma StopLetsGo(s: State, c: Choice)
    requires s.pc.Stopping?
    ensures StopWorld(s, c).parts == if LetsGo(s, EvControl(c)) then NO_PARTS else s.world.parts
  {
    hide CloseServer, DetachAll, CloseChildren, AskStop, Release;
    ClosesExactly(s.world, Closing(c.ok, c.alt, c.more), c.kept);
    PartsStay(s.world, c.kept);
  }

  // Asking for the stop, closing channels and detaching leave the parts of the server alone, and the
  // release lets them go.
  lemma PartsStay(w: World, kept: set<nat>)
    ensures AskStop(w).parts == CloseChildren(AskStop(w), kept).parts == DetachAll(w, kept).0.parts == w.parts
    ensures Release(CloseChildren(AskStop(w), kept)).parts == NO_PARTS
  {
    hide Kept;
  }

  // ---------------------------------------------------------------- recovering

  // The outcomes when every call works, the key is not pressed and A's connection is captured.
  function Works(pc: Pc, session: Session): Choice {
    Choice(pc != Top && pc != Delete, true, true, false, {}, session)
  }

  // The controller alone, for n turns in which every call works.
  function Drive(s: State, n: nat, session: Session): State
    decreases n
  {
    if n == 0 then s else Drive(Control(s, Works(s.pc, session)), n - 1, session)
  }

  lemma {:induction false} DriveJoin(s: State, m: nat, n: nat, session: Session)
    ensures Drive(s, m + n, session) == Drive(Drive(s, m, session), n, session)
    decreases m
  {
    hide Control;
    if m > 0 {
      DriveJoin(Control(s, Works(s.pc, session)), m - 1, n, session);
    }
  }

  // No callback runs and no task waits on A's main thread.
  predicate Calm(w: World) {
    w.gate.inFlight == 0 && w.gateTasks == 0
  }

  lemma {:induction false} DriveInv(s: State, n: nat, session: Session)
    requires Inv(s)
    ensures Inv(Drive(s, n, session))
    decreases n
  {
    hide Inv, Control;
    if n > 0 {
      KeepControl(s, Works(s.pc, session));
      DriveInv(Control(s, Works(s.pc, session)), n - 1, session);
    }
  }

  lemma NoneKept(xs: seq<nat>)
    ensures Kept(xs, {}) == []
  {
    NoneKeptIff(xs, {});
  }

  lemma PartsWork(w: World)
    requires Calm(w)
    ensures var (v, ok) := CloseServer(w, Closing(true, true, true), {}); ok && Calm(v)
    ensures var (v, ok) := DetachAll(w, {}); ok && Calm(v)
    ensures Calm(AskStop(w))
  {
    hide Kept;
    NoneKept(w.session.children);
    NoneKept(w.session.pipelines);
  }

  // One turn of a stop.
  lemma StopWorks(s: State, session: Session)
    requires s.pc.Stopping? && s.pc.ok && Calm(s.world)
    ensures var t := Control(s, Works(s.pc, session));
            && Calm(t.world)
            && t == (if s.pc.stage == StopDetach then StopEnds(s, true)
                     else s.(pc := s.pc.(stage := After(s.pc.stage)))).(world := t.world)
  {
    hide CloseServer, DetachAll, AskStop, StopEnds;
    PartsWork(s.world);
  }

  // A stop in a calm world works.
  lemma {:induction false} StopIsClean(s: State, session: Session)
    requires s.pc.Stopping? && s.pc.ok && Calm(s.world)
    ensures var t := Drive(s, TurnsLeft(s.pc), session);
            Calm(t.world) && t == StopEnds(s, true).(world := t.world)
    decreases TurnsLeft(s.pc)
  {
    hide Control, StopEnds, Calm;
    var t := Control(s, Works(s.pc, session));
    StopWorks(s, session);
    if s.pc.stage != StopDetach {
      StopIsClean(t, session);
      EndsAlike(s, t);
    }
  }

  lemma EndsAlike(s: State, t: State)
    requires s.pc.Stopping? && t.pc.Stopping? && t.pc.cause == s.pc.cause && t == s.(pc := t.pc, world := t.world)
    ensures StopEnds(t, true).(world := s.world) == StopEnds(s, true)
  {
  }

  // The world of a running session.
  function Running(session: Session): World {
    World(CallbackGate(true, 0), session, false, false, 0, Parts(true, true, true), true, true, true)
  }

  // An attempt in which everything works.
  lemma AttemptWorks(s: State, session: Session)
    requires Attempts(s) && Blank(s.world)
    ensures Drive(s, 6, session) == s.(pc := Delete, active := true, requested := false, world := Running(session))
  {
    hide Inv, Control;
    var a := s.(pc := Starting(StartHook), requested := false);
    Turn(s, session, a);
    var b := a.(pc := Starting(StartGate));
    Turn(a, session, b);
    var c := b.(pc := Starting(StartTransform), world := b.world.(gate := CallbackGate(true, 0)));
    Turn(b, session, c);
    var d := c.(pc := Starting(StartServer), world := c.world.(hook := true));
    Turn(c, session, d);
    var e := d.(pc := Starting(StartCapture),
                world := World(CallbackGate(true, 0), d.world.session.(connected := false), false, false, 0,
                               Parts(true, true, true), false, true, true));
    Turn(d, session, e);
    var f := e.(pc := Delete, active := true, world := Running(session));
    Turn(e, session, f);
    assert Drive(e, 1, session) == Drive(f, 0, session);
    assert Drive(d, 2, session) == Drive(e, 1, session);
    assert Drive(c, 3, session) == Drive(d, 2, session);
    assert Drive(b, 4, session) == Drive(c, 3, session);
    assert Drive(a, 5, session) == Drive(b, 4, session);
  }

  lemma Turn(s: State, session: Session, t: State)
    requires (s.pc == Request && Attempts(s)) || (s.pc.Starting? && Calm(s.world))
    requires s.pc == Starting(StartServer) ==> !s.world.bound
    requires t == match s.pc
                  case Request => s.(pc := Starting(StartHook), requested := false)
                  case _ => StartStep(s, Works(s.pc, session))
    ensures Control(s, Works(s.pc, session)) == t
  {
    hide StartStep;
  }

  lemma OneTurn(s: State, session: Session)
    ensures Drive(s, 1, session) == Control(s, Works(s.pc, session))
    ensures Drive(s, 2, session) == Control(Drive(s, 1, session), Works(Drive(s, 1, session).pc, session))
  {
    hide Control;
    var t := Control(s, Works(s.pc, session));
    assert Drive(t, 0, session) == t;
    var u := Control(t, Works(t.pc, session));
    assert Drive(u, 0, session) == u;
    assert Drive(t, 1, session) == u;
  }

  // Whatever a failed stop has left is cleaned up before the next request is looked at.
  lemma CleansUp(s: State, session: Session) returns (n: nat)
    requires Inv(s) && s.pc == Top && !s.active && Calm(s.world)
    ensures n <= 8 && (s.clean ==> n == 2)
    ensures var t := Drive(s, n, session); t == s.(pc := Request, clean := true, world := t.world) && Blank(t.world)
  {
    hide Inv, CloseServer, DetachAll, Calm, Blank, Drive, StopStep, StartStep;
    OneTurn(s, session);
    var a := s.(pc := Cleanup);
    assert Drive(s, 1, session) == a;
    if s.clean {
      n := 2;
      assert Drive(s, 2, session) == s.(pc := Request);
    } else {
      var b := s.(pc := Stopping(StopRequest, Retry, true));
      assert Drive(s, 2, session) == b;
      StopIsClean(b, session);
      n := 2 + 6;
      DriveJoin(s, 2, 6, session);
    }
    DriveInv(s, n, session);
    RestingBlank(Drive(s, n, session));
  }

  lemma RestingBlank(s: State)
    requires Inv(s) && s.pc == Request && !s.active && s.clean
    ensures Blank(s.world)
  {
    hide Blank, ServerBlank;
  }

  lemma BlankCalm(w: World)
    ensures Blank(w) ==> Calm(w)
  {
  }

  // A request is served: in a calm world in which every call works, an inactive controller with a
  // pending request runs a session, after any number of failed stops, within 19 turns, and the session
  // starts with nothing but what the attempt made.
  lemma RequestServed(s: State, session: Session) returns (n: nat)
    requires Inv(s) && s.pc == Top && !s.active && Pending(s) && Calm(s.world)
    ensures n <= 19
    ensures var t := Drive(s, n, session); t.active && t.clean && t.pc == Delete && t.world == Running(session)
  {
    hide Inv, Drive, Blank, Calm, StopStep, StartStep, Control;
    var m := CleansUp(s, session);
    var a := Drive(s, m, session);
    if s.requested {
      AttemptWorks(a, session);
      n := m + 6;
      DriveJoin(s, m, 6, session);
    } else {
      DriveInv(s, m, session);
      var b := TakesSignal(a, session);
      BlankCalm(a.world);
      DriveJoin(s, m, 3, session);
      DriveInv(a, 3, session);
      var k := CleansUp(b, session);
      var c := Drive(b, k, session);
      AttemptWorks(c, session);
      DriveJoin(b, k, 6, session);
      DriveJoin(s, m + 3, k + 6, session);
      n := (m + 3) + (k + 6);
    }
  }

  // The signal becomes a request.
  lemma TakesSignal(s: State, session: Session) returns (t: State)
    requires s.pc == Request && !s.active && !s.requested && s.resume
    ensures t == Drive(s, 3, session) == s.(pc := Top, resume := false, requested := true)
  {
    hide StopStep, StartStep, Drive;
    OneTurn(s, session);
    assert Drive(s, 1, session) == s.(pc := Delete);
    assert Drive(s, 2, session) == s.(pc := Wait);
    DriveJoin(s, 2, 1, session);
    OneTurn(s.(pc := Wait), session);
    t := Drive(s, 3, session);
  }

  // ---------------------------------------------------------------- A's main thread

  // Once a stop has been asked for, tasks on A's main thread are told to leave.
  predicate Told(s: State) {
    s.pc.Stopping? && s.pc.stage != StopRequest ==> s.world.cancelled
  }

  lemma PartsTell(w: World, c: Choice)
    ensures AskStop(w).cancelled && CloseServer(w, Closing(c.ok, c.alt, c.more), c.kept).0.cancelled
    ensures w.cancelled ==> DetachAll(w, c.kept).0.cancelled
  {
    hide Kept;
  }

  lemma StopTells(s: State, c: Choice)
    requires s.pc.Stopping? && Told(s)
    ensures StopWorld(s, c).cancelled
  {
    hide AskStop, CloseServer, DetachAll;
    PartsTell(s.world, c);
  }

  // Other steps of the thread begin a stop at its first part.
  lemma StopsFromStart(s: State, c: Choice)
    requires !s.pc.Stopping?
    ensures var t := Control(s, c).pc; t.Stopping? ==> t.stage == StopRequest
  {
    hide Control;
    match s.pc
    case Starting(_) => AttemptStops(s, c);
    case _ => RestStops(s, c);
  }

  lemma AttemptStops(s: State, c: Choice)
    requires s.pc.Starting?
    ensures var t := Control(s, c).pc; t.Stopping? ==> t.stage == StopRequest
  {
  }

  lemma RestStops(s: State, c: Choice)
    requires !s.pc.Stopping? && !s.pc.Starting?
    ensures var t := Control(s, c).pc; t.Stopping? ==> t.stage == StopRequest
  {
    hide StartStep, StopStep;
  }

  lemma KeepTold(s: State, e: Event)
    requires Told(s)
    ensures Told(Step(s, e))
  {
    hide StartStep, StopWorld, StopWorked, StopNext;
    match e
    case EvControl(c) =>
      if s.pc.Stopping? {
        StopTells(s, c);
      } else {
        StopsFromStart(s, c);
      }
    case _ =>
  }

  lemma {:induction false} ToldRun(s: State, es: seq<Event>)
    requires Told(s)
    ensures Told(Run(s, es))
    decreases |es|
  {
    hide Step, Told;
    if es != [] {
      KeepTold(s, es[0]);
      ToldRun(Step(s, es[0]), es[1..]);
    }
  }

  // In every run, while a stop is under way, each task that waits on A's main thread leaves at its
  // next look; so does one whose client has connected, and no other.
  lemma TasksLeave(es: seq<Event>)
    requires Run(INITIAL, es).world.gateTasks > 0
    ensures var s := Run(INITIAL, es);
            var t := Step(s, EvGateTask);
            && (s.pc.Stopping? && s.pc.stage != StopRequest ==> t.world.gateTasks == s.world.gateTasks - 1)
            && (t != s <==> s.world.session.connected || s.world.cancelled)
            && (t != s ==> t == s.(world := s.world.(gateTasks := s.world.gateTasks - 1)))
  {
    hide Run;
    assert Told(INITIAL);
    ToldRun(INITIAL, es);
  }

  // A's main thread is given a task to wait in: A has no connection, its client has not come in meanwhile,
  // and nobody has told such tasks to leave.
  predicate Blocks(s: State, e: Event) {
    e.EvControl? && s.pc == Starting(StartBlock) && e.c.ok && !s.world.session.connected && !s.world.cancelled
  }

  predicate Unblocks(s: State, e: Event) {
    e == EvGateTask && s.world.gateTasks > 0 && (s.world.session.connected || s.world.cancelled)
  }

  lemma StartTasks(s: State, c: Choice)
    requires s.pc.Starting?
    ensures StartStep(s, c).world.gateTasks == s.world.gateTasks + if Blocks(s, EvControl(c)) then 1 else 0
  {
    hide BlockStep, ServerStep, CaptureStep;
    match s.pc.attempt
    case StartServer => ServerTasks(s, c);
    case StartCapture => CaptureTasks(s, c);
    case StartBlock => BlockTasks(s, c);
    case _ =>
  }

  lemma ServerTasks(s: State, c: Choice)
    ensures ServerStep(s, c).world.gateTasks == s.world.gateTasks
  {
  }

  lemma CaptureTasks(s: State, c: Choice)
    ensures CaptureStep(s, c).world.gateTasks == s.world.gateTasks
  {
  }

  lemma BlockTasks(s: State, c: Choice)
    ensures BlockStep(s, c).world.gateTasks
            == s.world.gateTasks + if c.ok && !s.world.session.connected && !s.world.cancelled then 1 else 0
  {
  }

  lemma StopTasks(s: State, c: Choice)
    requires s.pc.Stopping?
    ensures StopWorld(s, c).gateTasks == s.world.gateTasks
  {
    hide Kept;
  }

  lemma RestTasks(s: State, c: Choice)
    requires !s.pc.Starting? && !s.pc.Stopping?
    ensures Control(s, c).world.gateTasks == s.world.gateTasks
  {
    hide StartStep, StopStep;
  }

  // The tasks that wait on A's main thread are counted exactly.
  lemma TasksCounted(s: State, e: Event)
    ensures Step(s, e).world.gateTasks
            == s.world.gateTasks + (if Blocks(s, e) then 1 else 0) - (if Unblocks(s, e) then 1 else 0)
  {
    hide StartStep, StopWorld, StopWorked, StopNext;
    match e
    case EvControl(c) =>
      if s.pc.Starting? {
        StartTasks(s, c);
      } else if s.pc.Stopping? {
        StopTasks(s, c);
      } else {
        RestTasks(s, c);
      }
    case _ =>
  }

  // ---------------------------------------------------------------- how an attempt ends

  // A's connection can be captured only at a later try; each failed try may leave its traces behind.
  function Tries(sessions: seq<Session>): seq<Event> {
    seq(|sessions|, i requires 0 <= i < |sessions| => EvControl(Choice(false, false, true, false, {}, sessions[i])))
  }

  // Any number of failed tries does no harm: the session starts with what the last one found.
  lemma {:induction false} LateCapture(s: State, tries: seq<Session>, session: Session)
    requires s.pc == Starting(StartCapture)
    ensures Run(s, Tries(tries) + [EvControl(Choice(true, false, false, false, {}, session))])
            == s.(pc := Delete, active := true, world := s.world.(session := session, midSession := true))
    decreases |tries|
  {
    var last := EvControl(Choice(true, false, false, false, {}, session));
    if tries == [] {
      assert Tries(tries) + [last] == [last] && [last][1..] == [];
      assert Run(s, [last]) == Run(Step(s, last), []);
    } else {
      var first := Tries(tries)[0];
      assert (Tries(tries) + [last])[1..] == Tries(tries[1..]) + [last];
      var next := s.(world := s.world.(session := tries[0]));
      assert Step(s, first) == next;
      LateCapture(next, tries[1..], session);
    }
  }

  // An attempt that finds A without a connection runs a session all the same, with A's main thread
  // waiting for the client.
  lemma WaitsForClient(s: State, c: Choice, d: Choice)
    requires s.pc == Starting(StartCapture) && !s.world.session.connected && !s.world.cancelled
    requires !c.ok && c.alt && d.ok
    ensures Control(Control(s, c), d)
            == s.(pc := Delete, active := true, world := s.world.(gateTasks := s.world.gateTasks + 1))
  {
    assert Control(s, c) == s.(pc := Starting(StartBlock));
  }

  // The wait that ends a turn comes from a look at the key or from the stop that look began, the next turn
  // comes from the wait, and nothing else begins such a stop.
  predicate Looked(from: Pc, to: Pc) {
    && (to == Wait && from != Wait ==> from == Delete || (from.Stopping? && from.cause == Key))
    && (to == Top ==> from == Wait)
    && (to.Stopping? && to.cause == Key ==> from == Delete || (from.Stopping? && from.cause == Key))
  }

  // So the key is looked at once in every turn.
  lemma KeyLookedAt(s: State, c: Choice)
    ensures Looked(s.pc, Control(s, c).pc)
  {
    hide StartStep, StopStep;
    if s.pc.Starting? {
      LookedStart(s, c);
    } else if s.pc.Stopping? {
      LookedStop(s, c);
    }
  }

  lemma LookedStart(s: State, c: Choice)
    requires s.pc.Starting?
    ensures StartStep(s, c).pc.Starting? || StartStep(s, c).pc == FAILED || StartStep(s, c).pc == Delete
  {
  }

  lemma LookedStop(s: State, c: Choice)
    requires s.pc.Stopping?
    ensures Looked(s.pc, StopStep(s, c).pc)
  {
    hide StopWorld, StopWorked;
  }

  // A signal leaves a request pending, whatever the controller is doing; so once a session could start, it
  // does within 19 turns.
  lemma SignalServed(es: seq<Event>, session: Session) returns (n: nat)
    requires var s := Run(INITIAL, es); s.pc == Top && !s.active && Calm(s.world)
    ensures n <= 19
    ensures var t := Drive(Step(Run(INITIAL, es), EvSignal), n, session); t.active && t.world == Running(session)
  {
    hide Run, Drive, Inv;
    var s := Run(INITIAL, es);
    Reachable(es);
    KeepStep(s, EvSignal);
    n := RequestServed(Step(s, EvSignal), session);
  }

  // A press of the key with a session or a request clears the signal, and a wait that ends by it takes it.
  predicate Cleared(s: State, e: Event) {
    && e.EvControl?
    && ((s.pc == Delete && e.c.ok && (s.active || s.requested)) || (s.pc == Wait && e.c.ok && e.c.alt))
  }

  // A signal is kept exactly until then, through starts, sessions and stops; so one that comes while the
  // stop of the key runs starts the next session.
  lemma SignalKept(s: State, e: Event)
    ensures Step(s, e).resume <==> e == EvSignal || (s.resume && !Cleared(s, e))
  {
    hide StopStep, StartStep;
    if e.EvControl? {
      if s.pc.Stopping? {
        StopKeeps(s, e.c);
      } else if s.pc.Starting? {
        StartKeeps(s, e.c);
      }
    }
  }

  lemma StopKeeps(s: State, c: Choice)
    requires s.pc.Stopping?
    ensures StopStep(s, c).resume == s.resume
  {
    hide StopWorld, StopWorked;
  }

  lemma StartKeeps(s: State, c: Choice)
    requires s.pc.Starting?
    ensures StartStep(s, c).resume == s.resume
  {
  }

  // ---------------------------------------------------------------- a turn beside a session

  // What the controller meets in a turn without a press or a signal that is taken: the login's time is up
  // or not, the retry time has come or not.
  datatype Chances = Chances(expired: bool, retry: bool, frame: bool, session: Session)

  function Outcome(pc: Pc, chances: Chances): Choice {
    match pc
    case Top => Choice(chances.expired, chances.frame, false, false, {}, chances.session)
    case Cleanup => Choice(chances.retry, chances.frame, false, false, {}, chances.session)
    case Wait => Choice(true, false, false, false, {}, chances.session)
    case _ => Choice(false, chances.frame, false, false, {}, chances.session)
  }

  function TurnSteps(s: State, n: nat, chances: Chances): State
    decreases n
  {
    if n == 0 then s else TurnSteps(Control(s, Outcome(s.pc, chances)), n - 1, chances)
  }

  // A running session keeps running, whatever is requested and whatever time it is: five steps bring the
  // controller back to the top, and all that has changed is that a handoff whose time was up was reset and
  // its buffer emptied.
  lemma SessionGoesOn(s: State, chances: Chances)
    requires s.pc == Top && s.active
    ensures var t := TurnSteps(s, 5, chances);
            && t.world == (if chances.expired then s.world.(session := s.world.session.(pending := 0, handoff := Idle))
                           else s.world)
            && t == s.(world := t.world)
  {
    hide Kept;
    var t1 := Control(s, Outcome(Top, chances));
    assert t1.pc == Cleanup && t1.active;
    var t2 := t1.(pc := Request);
    assert Control(t1, Outcome(Cleanup, chances)) == t2;
    var t3 := t2.(pc := Delete);
    assert Control(t2, Outcome(Request, chances)) == t3;
    var t4 := t3.(pc := Wait);
    assert Control(t3, Outcome(Delete, chances)) == t4;
    assert Control(t4, Outcome(Wait, chances)) == t4.(pc := Top);
    TurnTail(t1, t2, t3, t4, chances);
    assert TurnSteps(s, 5, chances) == TurnSteps(t1, 4, chances);
  }

  lemma TurnTail(t1: State, t2: State, t3: State, t4: State, chances: Chances)
    requires Control(t1, Outcome(t1.pc, chances)) == t2 && Control(t2, Outcome(t2.pc, chances)) == t3
    requires Control(t3, Outcome(t3.pc, chances)) == t4
    ensures TurnSteps(t1, 4, chances) == Control(t4, Outcome(t4.pc, chances))
  {
    hide Control, Outcome;
    var t5 := Control(t4, Outcome(t4.pc, chances));
    assert TurnSteps(t5, 0, chances) == t5;
    assert TurnSteps(t4, 1, chances) == TurnSteps(t5, 0, chances);
    assert TurnSteps(t3, 2, chances) == TurnSteps(t4, 1, chances);
    assert TurnSteps(t2, 3, chances) == TurnSteps(t3, 2, chances);
    assert TurnSteps(t1, 4, chances) == TurnSteps(t2, 3, chances);
  }
}
