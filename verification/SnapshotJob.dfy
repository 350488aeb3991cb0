/** Who owns the references of a snapshot job. */
module SnapshotJobs {
  import opened References
  import opened Wrappers

  // The job passes a world snapshot from A's render thread to the login. One thread waits for it
  // (and gives up on a failed dispatch or after a timeout), the other runs it, in any interleaving;
  // each critical section is one step.

  // Where the waiting thread stands.
  datatype Waiter = Start | Made | Published | Waiting | Cancelling | Reaping | Returned(ok: bool)

  // Where the render thread stands. go: the callback was admitted and the job was
  // not cancelled when it looked.
  datatype Runner = Idle | Taken | Checked(go: bool) | Capturing | Finishing(ok: bool) | Finished

  // listed: the job is on the list. made: references made so far. released: the references to
  // the Java task, Minecraft and the connection were deleted. passed: the boundary call returned
  // true. captured: all packets captured. handed: the packets the waiter got.
  datatype State = State(
    listed: bool,
    done: bool,
    cancelled: bool,
    ok: bool,
    task: Option<Ref>,
    minecraft: Option<Ref>,
    connection: Option<Ref>,
    packets: seq<Ref>,
    waiter: Waiter,
    runner: Runner,
    made: nat,
    deleted: seq<Ref>,
    released: bool,
    passed: bool,
    captured: seq<Ref>,
    handed: seq<Ref>)

  const INITIAL := State(false, false, false, false, None, None, None, [], Start, Idle, 0, [], false, false, [], [])

  function One(r: Option<Ref>): seq<Ref> {
    if r.Some? then [r.value] else []
  }

  // The references to the Java task, Minecraft and the connection.
  function Own(s: State): seq<Ref> {
    One(s.task) + One(s.minecraft) + One(s.connection)
  }

  predicate Complete(s: State) {
    s.task.Some? && s.minecraft.Some? && s.connection.Some?
  }

  function ReleaseOwn(s: State): State {
    s.(deleted := s.deleted + Own(s), released := true)
  }

  function ReleasePackets(s: State): State {
    s.(deleted := s.deleted + s.packets, packets := [])
  }

  // ---------------------------------------------------------------- the waiting thread

  // The state with the references that could be made.
  function Filled(s: State, t: bool, m: bool, c: bool): State {
    var mt := s.made + if t then 1 else 0;
    var mm := mt + if m then 1 else 0;
    s.(task := if t then Some(s.made) else None, minecraft := if m then Some(mt) else None,
       connection := if c then Some(mm) else None, made := mm + if c then 1 else 0)
  }

  // Each flag: that reference can be made. An incomplete job is discarded at once.
  function Prepare(s: State, t: bool, m: bool, c: bool): State {
    if s.waiter != Start then s
    else
      var u := Filled(s, t, m, c);
      if t && m && c then u.(waiter := Made) else ReleaseOwn(u).(waiter := Returned(false))
  }

  function Publish(s: State): State {
    if s.waiter == Made then s.(listed := true, waiter := Published) else s
  }

  // ok: Minecraft's execute was found and did not throw. It may have been queued anyway.
  function Dispatch(s: State, ok: bool): State {
    if s.waiter == Published then s.(waiter := if ok then Waiting else Cancelling) else s
  }

  // The wait ends: because the job is done, or with timeout when it is not.
  function EndWait(s: State, timeout: bool): State {
    if s.waiter != Waiting then s
    else if s.done then s.(handed := s.packets, packets := [], waiter := Returned(s.ok))
    else if timeout then s.(waiter := Cancelling)
    else s
  }

  function Cancel(s: State): State {
    if s.waiter != Cancelling then s
    else
      var t := s.(cancelled := true, waiter := Reaping);
      if s.done then ReleasePackets(t) else t
  }

  function Reap(s: State): State {
    if s.waiter != Reaping then s
    else if s.listed then ReleaseOwn(s.(listed := false, waiter := Returned(false)))
    else s.(waiter := Returned(false))
  }

  // ---------------------------------------------------------------- the render thread

  function Take(s: State): State {
    if s.runner == Idle && s.listed then s.(listed := false, runner := Taken) else s
  }

  function Check(s: State, admitted: bool): State {
    if s.runner == Taken then s.(runner := Checked(admitted && !s.cancelled)) else s
  }

  function CallBoundary(s: State, passed: bool): State {
    if !s.runner.Checked? then s
    else if s.runner.go && passed then s.(runner := Capturing, passed := true)
    else s.(runner := Finishing(false))
  }

  function Add(s: State): State {
    if s.runner != Capturing then s
    else s.(packets := s.packets + [s.made], captured := s.captured + [s.made], made := s.made + 1)
  }

  function EndCapture(s: State, threw: bool): State {
    if s.runner == Capturing then s.(runner := Finishing(!threw)) else s
  }

  function Finish(s: State): State {
    if !s.runner.Finishing? then s
    else
      var ok := s.runner.ok;
      var t := if !ok || s.cancelled then ReleasePackets(s) else s;
      ReleaseOwn(t).(ok := ok && !s.cancelled, done := true, runner := Finished)
  }

  // ---------------------------------------------------------------- runs

  datatype Event =
    | EvPrepare(t: bool, m: bool, c: bool)
    | EvPublish
    | EvDispatch(ok: bool)
    | EvEndWait(timeout: bool)
    | EvCancel
    | EvReap
    | EvTake
    | EvCheck(admitted: bool)
    | EvCallBoundary(passed: bool)
    | EvAdd
    | EvEndCapture(threw: bool)
    | EvFinish

  function Step(s: State, e: Event): State {
    match e
    case EvPrepare(t, m, c) => Prepare(s, t, m, c)
    case EvPublish => Publish(s)
    case EvDispatch(ok) => Dispatch(s, ok)
    case EvEndWait(timeout) => EndWait(s, timeout)
    case EvCancel => Cancel(s)
    case EvReap => Reap(s)
    case EvTake => Take(s)
    case EvCheck(admitted) => Check(s, admitted)
    case EvCallBoundary(passed) => CallBoundary(s, passed)
    case EvAdd => Add(s)
    case EvEndCapture(threw) => EndCapture(s, threw)
    case EvFinish => Finish(s)
  }

  function Run(s: State, es: seq<Event>): State
    decreases |es|
  {
    if es == [] then s else Run(Step(s, es[0]), es[1..])
  }

  // ---------------------------------------------------------------- what holds in every run

  // Who may act on the job.
  predicate Stages(s: State) {
    && (s.listed ==>
          s.runner == Idle
          && (s.waiter == Published || s.waiter == Waiting || s.waiter == Cancelling || s.waiter == Reaping))
    && (s.waiter == Start || s.waiter == Made ==> s.runner == Idle && !s.listed)
    && (s.waiter == Published || s.waiter == Waiting || s.waiter == Cancelling || s.waiter == Reaping
       ==> s.listed || s.runner != Idle)
    && (s.listed || s.runner != Idle || s.waiter == Made ==> Complete(s))
    && (s.waiter == Start ==> Own(s) == [])
    && (s.done <==> s.runner == Finished)
    && (s.cancelled ==> s.waiter == Reaping || s.waiter == Returned(false))
    && (s.waiter == Reaping || (s.waiter == Returned(false) && s.runner != Idle && !s.done) ==> s.cancelled)
    && (s.released <==> s.runner == Finished || (s.waiter.Returned? && s.runner == Idle))
    && (s.waiter == Returned(true) ==> s.done && s.ok)
    && ((s.runner == Capturing || s.runner == Finishing(true) || s.ok) ==> s.passed)
  }

  // Where the captured packets are.
  predicate Places(s: State) {
    && (s.runner == Idle || s.runner == Taken || s.runner.Checked? ==> s.captured == [])
    && (s.runner == Capturing || s.runner.Finishing? ==> s.packets == s.captured && s.handed == [])
    && (s.runner == Idle || s.runner == Taken || s.runner.Checked? ==> s.packets == [] && s.handed == [])
    && (s.done && !s.ok ==> s.packets == [] && s.handed == [])
    && (s.done && s.ok && (s.waiter == Published || s.waiter == Waiting || s.waiter == Cancelling)
       ==> s.packets == s.captured && s.handed == [])
    && (s.waiter == Returned(true) ==> s.packets == [] && s.handed == s.captured)
    && (s.done && (s.waiter == Reaping || s.waiter == Returned(false)) ==> s.packets == [] && s.handed == [])
  }

  function Held(s: State): seq<Ref> {
    (if s.released then [] else Own(s)) + s.packets + s.handed
  }

  // Each reference made is deleted, held by the job or handed over, and only one of these.
  predicate Ledger(s: State) {
    multiset(s.deleted) + multiset(Held(s)) == Upto(s.made)
  }

  predicate Inv(s: State) {
    Stages(s) && Places(s) && Ledger(s)
  }

  lemma MovePackets(s: State)
    requires Ledger(s)
    ensures Ledger(ReleasePackets(s))
  {
    hide Upto;
  }

  lemma MoveOwn(s: State)
    requires Ledger(s) && !s.released
    ensures Ledger(ReleaseOwn(s))
  {
    hide Upto, Own;
  }

  lemma SameLedger(s: State, t: State)
    requires Ledger(s) && t.deleted == s.deleted && t.made == s.made && t.released == s.released
    requires t.task == s.task && t.minecraft == s.minecraft && t.connection == s.connection
    requires t.packets + t.handed == s.packets + s.handed
    ensures Ledger(t)
  {
    hide Upto;
    assert Own(t) == Own(s);
    var own := if s.released then [] else Own(s);
    assert own + s.packets + s.handed == own + (s.packets + s.handed);
    assert own + t.packets + t.handed == own + (t.packets + t.handed);
  }

  lemma {:induction false} KeepPrepare(s: State, t: bool, m: bool, c: bool)
    requires Inv(s)
    ensures Inv(Prepare(s, t, m, c))
  {
    hide Ledger, Own;
    if s.waiter == Start {
      PrepareLedger(s, t, m, c);
    }
  }

  lemma {:induction false} FilledRefs(s: State, t: bool, m: bool, c: bool)
    ensures Upto(Filled(s, t, m, c).made) == Upto(s.made) + multiset(Own(Filled(s, t, m, c)))
  {
    hide Upto, One;
    var v := Filled(s, t, m, c);
    var mt := s.made + if t then 1 else 0;
    var mm := mt + if m then 1 else 0;
    OneMore(s.made, t);
    OneMore(mt, m);
    OneMore(mm, c);
    assert multiset(Own(v)) == multiset(One(v.task)) + multiset(One(v.minecraft)) + multiset(One(v.connection));
  }

  lemma {:induction false} OneMore(n: nat, made: bool)
    ensures Upto(n + if made then 1 else 0) == Upto(n) + multiset(One(if made then Some(n) else None))
  {
    hide Upto;
    UptoNext(n);
  }

  lemma {:induction false} PrepareLedger(s: State, t: bool, m: bool, c: bool)
    requires s.waiter == Start && Own(s) == [] && !s.released && Ledger(s)
    ensures Ledger(Prepare(s, t, m, c))
  {
    hide Upto, Own, Ledger;
    var v := Filled(s, t, m, c);
    FilledRefs(s, t, m, c);
    OwnAdded(s, v);
    MoveOwn(v);
    SameLedger(v, v.(waiter := Made));
    SameLedger(ReleaseOwn(v), ReleaseOwn(v).(waiter := Returned(false)));
  }

  lemma OwnAdded(s: State, v: State)
    requires Ledger(s) && Own(s) == [] && !s.released && Upto(v.made) == Upto(s.made) + multiset(Own(v))
    requires v.deleted == s.deleted && !v.released && v.packets == s.packets && v.handed == s.handed
    ensures Ledger(v)
  {
    hide Upto, Own;
    assert multiset(Own(v) + s.packets + s.handed) == multiset([] + s.packets + s.handed) + multiset(Own(v));
  }

  lemma KeepWaiter(s: State, b: bool)
    requires Inv(s)
    ensures Inv(Publish(s)) && Inv(Dispatch(s, b))
  {
    hide Ledger, Own;
    if s.waiter == Made {
      SameLedger(s, Publish(s));
    }
    if s.waiter == Published {
      SameLedger(s, Dispatch(s, b));
    }
  }

  lemma KeepEndWait(s: State, timeout: bool)
    requires Inv(s)
    ensures Inv(EndWait(s, timeout))
  {
    hide Ledger, Own;
    assert s.packets + [] == [] + s.packets;
    SameLedger(s, EndWait(s, timeout));
  }

  lemma KeepCancel(s: State)
    requires Inv(s)
    ensures Inv(Cancel(s))
  {
    hide Ledger, Own;
    if s.waiter == Cancelling {
      var t := s.(cancelled := true, waiter := Reaping);
      SameLedger(s, t);
      MovePackets(t);
    }
  }

  lemma KeepReap(s: State)
    requires Inv(s)
    ensures Inv(Reap(s))
  {
    hide Ledger, Own;
    if s.waiter == Reaping {
      SameLedger(s, s.(waiter := Returned(false)));
      if s.listed {
        SameLedger(s, s.(listed := false, waiter := Returned(false)));
        MoveOwn(s.(listed := false, waiter := Returned(false)));
      }
    }
  }

  lemma KeepRunner(s: State, b: bool)
    requires Inv(s)
    ensures Inv(Take(s)) && Inv(Check(s, b))
  {
    hide Ledger, Own;
    SameLedger(s, Take(s));
    SameLedger(s, Check(s, b));
  }

  lemma {:induction false} KeepCapture(s: State, b: bool)
    requires Inv(s)
    ensures Inv(CallBoundary(s, b)) && Inv(EndCapture(s, b))
  {
    hide Ledger, Own;
    SameLedger(s, CallBoundary(s, b));
    SameLedger(s, EndCapture(s, b));
  }

  lemma AddLedger(s: State, t: State)
    requires Ledger(s) && Own(t) == Own(s) && t.released == s.released && t.deleted == s.deleted && t.handed == s.handed
    requires t.packets == s.packets + [s.made] && t.made == s.made + 1
    ensures Ledger(t)
  {
    hide Upto, Own;
    UptoNext(s.made);
    var own := if s.released then [] else Own(s);
    assert multiset(own + (s.packets + [s.made]) + s.handed) == multiset(own + s.packets + s.handed) + multiset{s.made};
  }

  lemma KeepAdd(s: State)
    requires Inv(s)
    ensures Inv(Add(s))
  {
    hide Ledger, One;
    if s.runner == Capturing {
      AddLedger(s, Add(s));
    }
  }

  lemma {:induction false} KeepFinish(s: State)
    requires Inv(s)
    ensures Inv(Finish(s))
  {
    hide Ledger, Own;
    if s.runner.Finishing? {
      MovePackets(s);
      var t := if !s.runner.ok || s.cancelled then ReleasePackets(s) else s;
      MoveOwn(t);
      SameLedger(ReleaseOwn(t), Finish(s));
    }
  }

  lemma {:induction false} KeepStep(s: State, e: Event)
    requires Inv(s)
    ensures Inv(Step(s, e))
  {
    hide Inv, Prepare, Publish, Dispatch, EndWait, Cancel, Reap, Take, Check, CallBoundary, Add, EndCapture, Finish;
    match e
    case EvPrepare(t, m, c) => KeepPrepare(s, t, m, c);
    case EvPublish => KeepWaiter(s, false);
    case EvDispatch(ok) => KeepWaiter(s, ok);
    case EvEndWait(timeout) => KeepEndWait(s, timeout);
    case EvCancel => KeepCancel(s);
    case EvReap => KeepReap(s);
    case EvTake => KeepRunner(s, false);
    case EvCheck(admitted) => KeepRunner(s, admitted);
    case EvCallBoundary(passed) => KeepCapture(s, passed);
    case EvAdd => KeepAdd(s);
    case EvEndCapture(threw) => KeepCapture(s, threw);
    case EvFinish => KeepFinish(s);
  }

  lemma {:induction false} KeepRun(s: State, es: seq<Event>)
    requires Inv(s)
    ensures Inv(Run(s, es))
    decreases |es|
  {
    hide Inv, Step;
    if es != [] {
      KeepStep(s, es[0]);
      KeepRun(Step(s, es[0]), es[1..]);
    }
  }

  lemma Reachable(es: seq<Event>)
    ensures Inv(Run(INITIAL, es))
  {
    hide Run;
    assert Inv(INITIAL);
    KeepRun(INITIAL, es);
  }

  // ---------------------------------------------------------------- main results

  // The waiter has returned and nobody will run the job any more.
  predicate Over(s: State) {
    s.waiter.Returned? && !s.listed && (s.runner == Idle || s.runner == Finished)
  }

  // In every interleaving no reference is ever deleted twice, or deleted after it was handed over.
  lemma NeverDeletedTwice(es: seq<Event>, r: Ref)
    ensures var s := Run(INITIAL, es);
            multiset(s.deleted)[r] + multiset(s.handed)[r] <= if r < s.made then 1 else 0
  {
    hide Run, Upto, Own;
    var s := Run(INITIAL, es);
    Reachable(es);
    UptoCount(s.made, r);
    var own := if s.released then [] else Own(s);
    assert multiset(Held(s)) == multiset(own) + multiset(s.packets) + multiset(s.handed);
    assert (multiset(s.deleted) + multiset(Held(s)))[r] == Upto(s.made)[r];
  }

  // At the end each reference was deleted exactly once, unless it is a packet handed over. On
  // true the waiter has all captured packets, in order, and the boundary was passed; on false it
  // has none, so every packet was deleted.
  lemma EachReferenceReleasedOnce(es: seq<Event>, r: Ref)
    requires Over(Run(INITIAL, es))
    ensures var s := Run(INITIAL, es);
            && multiset(s.deleted)[r] + multiset(s.handed)[r] == (if r < s.made then 1 else 0)
            && s.handed == (if s.waiter.ok then s.captured else [])
            && (s.waiter.ok ==> s.passed && !s.cancelled)
  {
    hide Run, Upto, Own;
    var s := Run(INITIAL, es);
    Reachable(es);
    UptoCount(s.made, r);
    NothingHeld(s);
    assert (multiset(s.deleted) + multiset(s.handed))[r] == Upto(s.made)[r];
  }

  lemma NothingHeld(s: State)
    requires Inv(s) && Over(s)
    ensures Held(s) == s.handed
  {
    hide Ledger, Own;
    assert [] + s.handed == s.handed;
  }

  // The three references and the packets so far are alive while the render thread captures.
  lemma AliveWhileCapturing(es: seq<Event>, r: Ref)
    requires var s := Run(INITIAL, es); s.runner == Capturing && (r in Own(s) || r in s.packets)
    ensures r !in Run(INITIAL, es).deleted
  {
    hide Run, Upto, Own;
    var s := Run(INITIAL, es);
    Reachable(es);
    UptoCount(s.made, r);
    assert multiset(Held(s)) == multiset(Own(s)) + multiset(s.packets) + multiset(s.handed);
    assert (multiset(s.deleted) + multiset(Held(s)))[r] == Upto(s.made)[r];
  }

  // ---------------------------------------------------------------- what a job does

  lemma {:induction false} RunJoin(s: State, es: seq<Event>, fs: seq<Event>)
    ensures Run(s, es + fs) == Run(Run(s, es), fs)
    decreases |es|
  {
    hide Step;
    if es == [] {
      assert es + fs == fs;
    } else {
      assert (es + fs)[1..] == es[1..] + fs;
      RunJoin(Step(s, es[0]), es[1..], fs);
    }
  }

  lemma RunTwo(s: State, e: Event, f: Event)
    ensures Run(s, [e, f]) == Step(Step(s, e), f) && Run(s, [e]) == Step(s, e)
  {
    hide Step;
    assert [e, f][1..] == [f] && [f][1..] == [] && [e][1..] == [];
    var t := Step(s, e);
    assert Run(t, []) == t && Run(Step(t, f), []) == Step(t, f);
    assert Run(t, [f]) == Step(t, f);
  }

  // A taken job captures exactly when the callback is admitted, the wait has not been given up and
  // the boundary is passed; otherwise it goes on to its end without a packet.
  lemma CapturesExactly(es: seq<Event>, admitted: bool, passed: bool)
    requires Run(INITIAL, es).runner == Taken
    ensures var s := Run(INITIAL, es);
            var t := Run(s, [EvCheck(admitted), EvCallBoundary(passed)]);
            && (t.runner == Capturing <==> admitted && !s.cancelled && passed)
            && (t.runner != Capturing ==> t.runner == Finishing(false) && t.packets == [])
  {
    hide Run, Ledger, Own;
    Reachable(es);
    RunTwo(Run(INITIAL, es), EvCheck(admitted), EvCallBoundary(passed));
  }

  // A job that ends gives its packets exactly when the capture did not throw and the wait was not
  // given up meanwhile.
  lemma FinishesExactly(es: seq<Event>, threw: bool)
    requires Run(INITIAL, es).runner == Capturing
    ensures var s := Run(INITIAL, es);
            var t := Run(s, [EvEndCapture(threw), EvFinish]);
            && t.done && t.released
            && (t.ok <==> !threw && !s.cancelled)
            && t.packets == (if t.ok then s.captured else [])
            && t.deleted == s.deleted + (if t.ok then [] else s.captured) + Own(s)
  {
    hide Run, Ledger, One;
    Reachable(es);
    var s := Run(INITIAL, es);
    RunTwo(s, EvEndCapture(threw), EvFinish);
    assert s.deleted + [] == s.deleted;
  }

  // A wait whose time is up before the job is done ends without packets: a job that nobody took is
  // deleted with its references, and one that was taken is left to the render thread.
  lemma GivesUp(es: seq<Event>)
    requires var s := Run(INITIAL, es); s.waiter == Waiting && !s.done
    ensures var s := Run(INITIAL, es);
            var t := Run(Run(s, [EvEndWait(true), EvCancel]), [EvReap]);
            && Run(s, [EvEndWait(false)]) == s
            && t.waiter == Returned(false) && t.cancelled && !t.listed && t.handed == s.handed
            && t.deleted == (if s.listed then s.deleted + Own(s) else s.deleted)
  {
    hide Run, Ledger, One;
    Reachable(es);
    var s := Run(INITIAL, es);
    RunTwo(s, EvEndWait(true), EvCancel);
    RunTwo(s, EvEndWait(false), EvCancel);
    RunTwo(Run(s, [EvEndWait(true), EvCancel]), EvReap, EvReap);
  }

  // So does a job whose dispatch failed. It may have been queued all the same, and even be done: then its
  // packets are deleted.
  lemma DispatchFails(es: seq<Event>)
    requires Run(INITIAL, es).waiter == Published
    ensures var s := Run(INITIAL, es);
            var t := Run(Run(s, [EvDispatch(false), EvCancel]), [EvReap]);
            && t.waiter == Returned(false) && t.cancelled && !t.listed && t.handed == s.handed
            && (s.done ==> t.packets == [])
            && t.deleted == s.deleted + (if s.done then s.packets else []) + (if s.listed then Own(s) else [])
  {
    hide Run, Ledger, One;
    Reachable(es);
    var s := Run(INITIAL, es);
    RunTwo(s, EvDispatch(false), EvCancel);
    RunTwo(Run(s, [EvDispatch(false), EvCancel]), EvReap, EvReap);
    assert s.deleted + [] == s.deleted;
    assert s.deleted + s.packets + [] == s.deleted + s.packets;
  }

  function Adds(n: nat): seq<Event> {
    if n == 0 then [] else [EvAdd] + Adds(n - 1)
  }

  lemma {:induction false} AddsAdd(s: State, n: nat)
    requires s.runner == Capturing
    ensures var t := Run(s, Adds(n));
            && t == s.(packets := t.packets, captured := t.captured, made := s.made + n)
            && |t.captured| == |s.captured| + n
    decreases n
  {
    if n > 0 {
      assert Adds(n)[1..] == Adds(n - 1);
      AddsAdd(Add(s), n - 1);
    }
  }

  const BEFORE: seq<Event> :=
    [EvPrepare(true, true, true), EvPublish, EvDispatch(true), EvTake, EvCheck(true), EvCallBoundary(true)]
  const AFTER: seq<Event> := [EvEndCapture(false), EvFinish, EvEndWait(false)]

  // A job in which nothing fails hands all its packets over, however many they are, and deletes its
  // own three references.
  lemma JobSucceeds(n: nat)
    ensures var s := Run(INITIAL, BEFORE + (Adds(n) + AFTER));
            && s.waiter == Returned(true) && |s.handed| == n && s.handed == s.captured && s.packets == []
            && s.deleted == [0, 1, 2]
  {
    hide Run, Adds;
    var es := BEFORE + (Adds(n) + AFTER);
    RunJoin(INITIAL, BEFORE, Adds(n) + AFTER);
    var s := BeforeCapture();
    RunJoin(s, Adds(n), AFTER);
    AddsAdd(s, n);
    var t := Run(s, Adds(n));
    AfterCapture(t);
    Reachable(es);
  }

  const READY := INITIAL.(task := Some(0), minecraft := Some(1), connection := Some(2), made := 3)

  const PUBLISHED: seq<Event> := [EvPrepare(true, true, true), EvPublish]
  const QUEUED: seq<Event> := [EvDispatch(true), EvTake]
  const CHECKED: seq<Event> := [EvCheck(true), EvCallBoundary(true)]

  lemma BeforeCapture() returns (s: State)
    ensures s == Run(INITIAL, BEFORE) == READY.(waiter := Waiting, runner := Capturing, passed := true)
    ensures Own(s) == [0, 1, 2]
  {
    hide Run, Step;
    assert BEFORE == PUBLISHED + (QUEUED + CHECKED);
    RunJoin(INITIAL, PUBLISHED, QUEUED + CHECKED);
    JobPublished();
    s := Run(INITIAL, PUBLISHED);
    RunJoin(s, QUEUED, CHECKED);
    JobTaken(s);
    s := Run(Run(s, QUEUED), CHECKED);
    assert Own(s) == [0] + [1] + [2];
  }

  lemma JobPublished()
    ensures Run(INITIAL, PUBLISHED) == READY.(waiter := Published, listed := true)
  {
    hide Run;
    RunTwo(INITIAL, PUBLISHED[0], PUBLISHED[1]);
  }

  lemma JobTaken(s: State)
    requires s == READY.(waiter := Published, listed := true)
    ensures Run(Run(s, QUEUED), CHECKED) == READY.(waiter := Waiting, runner := Capturing, passed := true)
  {
    hide Run;
    RunTwo(s, QUEUED[0], QUEUED[1]);
    RunTwo(Run(s, QUEUED), CHECKED[0], CHECKED[1]);
  }

  lemma AfterCapture(t: State)
    requires t.runner == Capturing && t.waiter == Waiting && !t.cancelled && !t.done
    ensures var s := Run(t, AFTER);
            && s.waiter == Returned(true) && s.handed == t.packets && s.packets == [] && s.captured == t.captured
            && s.deleted == t.deleted + Own(t)
  {
    hide Run, One;
    assert AFTER == [EvEndCapture(false), EvFinish] + [EvEndWait(false)];
    RunJoin(t, [EvEndCapture(false), EvFinish], [EvEndWait(false)]);
    RunTwo(t, EvEndCapture(false), EvFinish);
    RunTwo(Run(t, [EvEndCapture(false), EvFinish]), EvEndWait(false), EvEndWait(false));
  }
}
